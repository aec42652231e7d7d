/**
 * The media-listing view model (pkg/view): month and year archive links,
 * the media tiles and their border colours, and the media grouped by day.
 * Time formatting is a parameter: `dayOf` is an item's 2006-01-02 day key,
 * `humanDay` a day key's "Mon, 02 January" label.
 */
module View {
  import opened Wrappers
  import opened Text
  import opened Web
  import Okami

  datatype Month = Month(month: string, count: int, link: string)
  datatype Year = Year(year: string, count: int, link: string)
  datatype Media = Media(url: string, borderColour: string)
  datatype MediaDay = MediaDay(date: string, media: seq<Media>)

  datatype ListMediaView = ListMediaView(
    months: seq<Month>, years: seq<Year>, currentMonth: string, currentYear: string,
    media: seq<Media>, afterKey: string, hasPaging: bool, pageTitle: string, mediaDays: seq<MediaDay>)

  // ---------------------------------------------------------------------------
  // parseMonth
  // ---------------------------------------------------------------------------

  const MonthNames: seq<string> := ["January", "February", "March", "April", "May", "June", "July",
                                    "August", "September", "October", "November", "December"]

  predicate IsDigit(c: char) {
    '0' <= c <= '9'
  }

  function DigitValue(c: char): int
    requires IsDigit(c)
  {
    c as int - '0' as int
  }

  function InMonthRange(n: int): (r: Option<int>)
    ensures r.Some? <==> 1 <= n <= 12
    ensures r.Some? ==> r.value == n
  {
    if 1 <= n <= 12 then Some(n) else None
  }

  /**
   * The month time.Parse reads with layout "1": one or two digits, nothing
   * after them, and a value from 1 to 12.
   */
  function MonthNumber(s: string): (n: Option<int>)
    ensures n.Some? ==> 1 <= n.value <= 12
  {
    if |s| == 1 && IsDigit(s[0]) then InMonthRange(DigitValue(s[0]))
    else if |s| == 2 && IsDigit(s[0]) && IsDigit(s[1]) then InMonthRange(10 * DigitValue(s[0]) + DigitValue(s[1]))
    else None
  }

  /** names[k], looked up one name at a time. */
  function Lookup(names: seq<string>, k: nat): string
    requires k < |names|
  {
    if k == 0 then names[0] else Lookup(names[1..], k - 1)
  }

  lemma {:induction false} LookupIndex(names: seq<string>, k: nat)
    requires k < |names|
    ensures Lookup(names, k) == names[k]
  {
    if k > 0 {
      LookupIndex(names[1..], k - 1);
    }
  }

  /**
   * parseMonth: the English name of the month, or "January" (the zero
   * time's month) when the parse error is ignored.
   */
  function ParseMonth(s: string): (r: string)
    ensures MonthNumber(s).None? ==> r == "January"
  {
    match MonthNumber(s)
    case None => "January"
    case Some(n) => Lookup(MonthNames, n - 1)
  }

  /** parseMonth always answers a month name: the n-th for month n, else January. */
  lemma ParseMonthName(s: string)
    ensures ParseMonth(s) in MonthNames
    ensures MonthNumber(s).Some? ==> ParseMonth(s) == MonthNames[MonthNumber(s).value - 1]
  {
    if MonthNumber(s).Some? {
      LookupIndex(MonthNames, MonthNumber(s).value - 1);
    } else {
      assert MonthNames[0] == "January";
    }
  }

  function Digit(d: int): (c: char)
    requires 0 <= d < 10
    ensures IsDigit(c) && DigitValue(c) == d
  {
    ('0' as int + d) as char
  }

  /** A month number written in decimal. */
  function Decimal(n: int): string
    requires 1 <= n <= 12
  {
    if n < 10 then [Digit(n)] else [Digit(n / 10), Digit(n % 10)]
  }

  /** Month numbers, with or without a leading zero, read back as their names. */
  lemma ParseMonthDecimal(n: int)
    requires 1 <= n <= 12
    ensures ParseMonth(Decimal(n)) == MonthNames[n - 1]
    ensures n < 10 ==> ParseMonth("0" + Decimal(n)) == MonthNames[n - 1]
  {
    ParseMonthName(Decimal(n));
    if n < 10 {
      assert ("0" + Decimal(n))[1] == Digit(n);
      ParseMonthName("0" + Decimal(n));
    }
  }

  /** Out-of-range and empty months fall back to January. */
  lemma ParseMonthFallback()
    ensures ParseMonth("") == "January" && ParseMonth("0") == "January" && ParseMonth("13") == "January"
  {
    assert DigitValue('1') == 1 && DigitValue('3') == 3;
  }

  // ---------------------------------------------------------------------------
  // parseMonths, parseYears
  // ---------------------------------------------------------------------------

  /** The encoded query of a year link. */
  function YearLink(year: string): string {
    "?" + "year=" + QueryEscape(year)
  }

  /** The encoded query of a month link; url.Values.Encode puts the keys in order. */
  function MonthLink(month: string, year: string): string {
    "?" + "month=" + QueryEscape(month) + "&" + "year=" + QueryEscape(year)
  }

  /** An escaped value never holds a separator. */
  lemma EscapedHasNoSeparator(s: string)
    ensures '&' !in QueryEscape(s) && '?' !in QueryEscape(s)
  {
    var e := QueryEscape(s);
    forall i | 0 <= i < |e|
      ensures e[i] != '&' && e[i] != '?'
    {
      assert e[i] == '%' || e[i] == '+' || Unreserved(e[i]);
    }
  }

  /** The month link's query holds exactly month and year, in that order, each escaped. */
  lemma MonthLinkParams(month: string, year: string)
    ensures BasePart(MonthLink(month, year)) == ""
    ensures QueryParams(MonthLink(month, year)) == ["month=" + QueryEscape(month), "year=" + QueryEscape(year)]
  {
    var a, b := "month=" + QueryEscape(month), "year=" + QueryEscape(year);
    EscapedHasNoSeparator(month);
    EscapedHasNoSeparator(year);
    JoinCons(a, [b], '&');
    assert [a] + [b] == [a, b];
    assert MonthLink(month, year) == "" + "?" + (a + "&" + b);
    QueryRoundTrip("", [a, b]);
  }

  /** The year link's query holds exactly the escaped year. */
  lemma YearLinkParams(year: string)
    ensures BasePart(YearLink(year)) == ""
    ensures QueryParams(YearLink(year)) == ["year=" + QueryEscape(year)]
  {
    EscapedHasNoSeparator(year);
    assert YearLink(year) == "" + "?" + Join(["year=" + QueryEscape(year)], '&');
    QueryRoundTrip("", ["year=" + QueryEscape(year)]);
  }

  /** Numeric months and years need no escaping, so the links read as written. */
  lemma PlainLinks(month: string, year: string)
    requires forall i :: 0 <= i < |month| ==> IsDigit(month[i])
    requires forall i :: 0 <= i < |year| ==> IsDigit(year[i])
    ensures MonthLink(month, year) == "?month=" + month + "&year=" + year
    ensures YearLink(year) == "?year=" + year
  {
    QueryEscapeUnreserved(month);
    QueryEscapeUnreserved(year);
  }

  function MonthEntry(m: Okami.ArchiveMonth, year: string): Month {
    Month(ParseMonth(m.month) + ", " + year, m.count, MonthLink(m.month, year))
  }

  function YearEntry(y: Okami.ArchiveYear): Year {
    Year(y.year, y.count, YearLink(y.year))
  }

  /** One entry per listed month: "<name>, <year>", the count, and the month's link. */
  function MonthsView(months: seq<Okami.ArchiveMonth>, year: string): (r: seq<Month>)
    ensures |r| == |months| && forall i :: 0 <= i < |months| ==> r[i] == MonthEntry(months[i], year)
  {
    seq(|months|, i requires 0 <= i < |months| => MonthEntry(months[i], year))
  }

  /** One entry per listed year: the year, the count, and the year's link. */
  function YearsView(years: seq<Okami.ArchiveYear>): (r: seq<Year>)
    ensures |r| == |years| && forall i :: 0 <= i < |years| ==> r[i] == YearEntry(years[i])
  {
    seq(|years|, i requires 0 <= i < |years| => YearEntry(years[i]))
  }

  /** parseMonths, appending one entry per month. */
  method ParseMonths(months: seq<Okami.ArchiveMonth>, year: string) returns (out: seq<Month>)
    ensures out == MonthsView(months, year)
  {
    out := [];
    var i := 0;
    while i < |months|
      invariant 0 <= i <= |months|
      invariant |out| == i && forall p :: 0 <= p < i ==> out[p] == MonthEntry(months[p], year)
    {
      out := out + [MonthEntry(months[i], year)];
      i := i + 1;
    }
    ghost var spec := MonthsView(months, year);
    assert forall p :: 0 <= p < |out| ==> out[p] == spec[p];
  }

  /** parseYears, appending one entry per year. */
  method ParseYears(years: seq<Okami.ArchiveYear>) returns (out: seq<Year>)
    ensures out == YearsView(years)
  {
    out := [];
    var i := 0;
    while i < |years|
      invariant 0 <= i <= |years|
      invariant |out| == i && forall p :: 0 <= p < i ==> out[p] == YearEntry(years[p])
    {
      out := out + [YearEntry(years[i])];
      i := i + 1;
    }
    ghost var spec := YearsView(years);
    assert forall p :: 0 <= p < |out| ==> out[p] == spec[p];
  }

  // ---------------------------------------------------------------------------
  // parseMedia, parseMediaList
  // ---------------------------------------------------------------------------

  /** parseMedia: the URL, with a red border exactly for published media. */
  function ParseMedia(m: Okami.Media): (r: Media)
    ensures r.url == m.url
    ensures r.borderColour == "red" <==> m.isPublished
    ensures !m.isPublished ==> r.borderColour == "near-white"
  {
    Media(m.url, if m.isPublished then "red" else "near-white")
  }

  function MediaListView(media: seq<Okami.Media>): (r: seq<Media>)
    ensures |r| == |media| && forall i :: 0 <= i < |media| ==> r[i] == ParseMedia(media[i])
  {
    seq(|media|, i requires 0 <= i < |media| => ParseMedia(media[i]))
  }

  /** parseMediaList: one tile per item, in order. */
  method ParseMediaList(media: seq<Okami.Media>) returns (out: seq<Media>)
    ensures out == MediaListView(media)
  {
    out := [];
    var i := 0;
    while i < |media|
      invariant 0 <= i <= |media|
      invariant out == MediaListView(media[..i])
    {
      out := out + [ParseMedia(media[i])];
      i := i + 1;
    }
    assert media[..i] == media;
  }

  // ---------------------------------------------------------------------------
  // parseMediaDays
  // ---------------------------------------------------------------------------

  /** Every item has a DateTime; one without would be a nil dereference. */
  predicate AllDated(media: seq<Okami.Media>) {
    forall i :: 0 <= i < |media| ==> media[i].dateTime.Some?
  }

  /** The day key of each item. */
  function DayKeys(media: seq<Okami.Media>, dayOf: string -> string): (keys: seq<string>)
    requires AllDated(media)
    ensures |keys| == |media| && forall i :: 0 <= i < |media| ==> keys[i] == dayOf(media[i].dateTime.value)
  {
    seq(|media|, i requires 0 <= i < |media| && AllDated(media) => dayOf(media[i].dateTime.value))
  }

  predicate Distinct(s: seq<string>) {
    forall i, j :: 0 <= i < j < |s| ==> s[i] != s[j]
  }

  /** Each key once, in the order of its first occurrence. */
  function FirstOccurrences(keys: seq<string>): (days: seq<string>)
    ensures forall d :: d in days <==> d in keys
    ensures Distinct(days)
  {
    if keys == [] then []
    else
      var prev := FirstOccurrences(keys[..|keys| - 1]);
      if keys[|keys| - 1] in prev then prev else prev + [keys[|keys| - 1]]
  }

  /** The tiles of the items whose key is `day`, in input order. */
  function Group(keys: seq<string>, media: seq<Okami.Media>, day: string): seq<Media>
    requires |keys| == |media|
  {
    if keys == [] then []
    else
      Group(keys[..|keys| - 1], media[..|media| - 1], day)
      + (if keys[|keys| - 1] == day then [ParseMedia(media[|media| - 1])] else [])
  }

  /** The day groups: one per distinct day, in order of first appearance. */
  function MediaDaysOf(media: seq<Okami.Media>, dayOf: string -> string, humanDay: string -> string): (r: seq<MediaDay>)
    requires AllDated(media)
  {
    var keys := DayKeys(media, dayOf);
    var days := FirstOccurrences(keys);
    seq(|days|, j requires 0 <= j < |days| => MediaDay(humanDay(days[j]), Group(keys, media, days[j])))
  }

  /** The position where a key first occurs. */
  function FirstIndex(keys: seq<string>, d: string): (r: nat)
    requires d in keys
    ensures r < |keys| && keys[r] == d
    ensures forall k :: 0 <= k < r ==> keys[k] != d
  {
    if keys[0] == d then 0
    else
      var r := 1 + FirstIndex(keys[1..], d);
      assert forall k :: 1 <= k < r ==> keys[k] == keys[1..][k - 1];
      r
  }

  lemma FirstIndexUnique(keys: seq<string>, d: string, r: nat)
    requires r < |keys| && keys[r] == d
    requires forall k :: 0 <= k < r ==> keys[k] != d
    ensures FirstIndex(keys, d) == r
  {
  }

  lemma FirstIndexPrefix(keys: seq<string>, n: nat, d: string)
    requires n <= |keys| && d in keys[..n]
    ensures FirstIndex(keys, d) == FirstIndex(keys[..n], d)
  {
    var r := FirstIndex(keys[..n], d);
    assert forall k :: 0 <= k < r ==> keys[k] == keys[..n][k];
    FirstIndexUnique(keys, d, r);
  }

  /** `days` are listed in the order in which they first occur in `keys`. */
  predicate InFirstOrder(keys: seq<string>, days: seq<string>)
    requires forall d :: d in days ==> d in keys
  {
    forall i, j :: 0 <= i < j < |days| ==> FirstIndex(keys, days[i]) < FirstIndex(keys, days[j])
  }

  /** Days already seen before the last item keep their first positions, all before the last. */
  lemma FirstIndexInit(keys: seq<string>)
    requires keys != []
    ensures var init := keys[..|keys| - 1];
      forall d :: d in FirstOccurrences(init) ==> FirstIndex(keys, d) == FirstIndex(init, d) < |keys| - 1
  {
    var init := keys[..|keys| - 1];
    forall d | d in FirstOccurrences(init)
      ensures FirstIndex(keys, d) == FirstIndex(init, d) < |keys| - 1
    {
      FirstIndexPrefix(keys, |keys| - 1, d);
    }
  }

  /** A last key first seen at the end goes after every earlier day. */
  lemma FirstOrderNew(keys: seq<string>)
    requires keys != []
    requires var init := keys[..|keys| - 1]; InFirstOrder(init, FirstOccurrences(init))
    requires keys[|keys| - 1] !in FirstOccurrences(keys[..|keys| - 1])
    ensures InFirstOrder(keys, FirstOccurrences(keys))
  {
    var n := |keys|;
    var init := keys[..n - 1];
    var prev := FirstOccurrences(init);
    var days := FirstOccurrences(keys);
    FirstIndexInit(keys);
    assert days == prev + [keys[n - 1]];
    assert forall k :: 0 <= k < n - 1 ==> keys[k] == init[k];
    FirstIndexUnique(keys, keys[n - 1], n - 1);
    forall i, j | 0 <= i < j < |days|
      ensures FirstIndex(keys, days[i]) < FirstIndex(keys, days[j])
    {
      assert days[i] == prev[i];
      if j < |prev| {
        assert days[j] == prev[j];
        assert FirstIndex(init, prev[i]) < FirstIndex(init, prev[j]);
      } else {
        assert days[j] == keys[n - 1];
      }
    }
  }

  /** A last key seen before changes no day's first position. */
  lemma FirstOrderSeen(keys: seq<string>)
    requires keys != []
    requires var init := keys[..|keys| - 1]; InFirstOrder(init, FirstOccurrences(init))
    requires keys[|keys| - 1] in FirstOccurrences(keys[..|keys| - 1])
    ensures InFirstOrder(keys, FirstOccurrences(keys))
  {
    var init := keys[..|keys| - 1];
    var prev := FirstOccurrences(init);
    FirstIndexInit(keys);
    assert FirstOccurrences(keys) == prev;
    forall i, j | 0 <= i < j < |prev|
      ensures FirstIndex(keys, prev[i]) < FirstIndex(keys, prev[j])
    {
      assert FirstIndex(init, prev[i]) < FirstIndex(init, prev[j]);
    }
  }

  /** Days come in the order of their first occurrence among the items. */
  lemma {:induction false} FirstOccurrencesOrder(keys: seq<string>)
    ensures InFirstOrder(keys, FirstOccurrences(keys))
  {
    if keys != [] {
      var init := keys[..|keys| - 1];
      FirstOccurrencesOrder(init);
      if keys[|keys| - 1] in FirstOccurrences(init) {
        FirstOrderSeen(keys);
      } else {
        FirstOrderNew(keys);
      }
    }
  }

  /** An item's tile is in the group of its own day. */
  lemma {:induction false} GroupHasItem(keys: seq<string>, media: seq<Okami.Media>, i: nat)
    requires |keys| == |media| && i < |keys|
    ensures ParseMedia(media[i]) in Group(keys, media, keys[i])
  {
    var n := |keys|;
    if i < n - 1 {
      GroupHasItem(keys[..n - 1], media[..n - 1], i);
    }
  }

  lemma {:induction false} GroupAbsent(keys: seq<string>, media: seq<Okami.Media>, day: string)
    requires |keys| == |media| && day !in keys
    ensures Group(keys, media, day) == []
  {
    if keys != [] {
      GroupAbsent(keys[..|keys| - 1], media[..|media| - 1], day);
    }
  }

  /** The number of tiles over the groups of `days`. */
  function GroupSizes(days: seq<string>, keys: seq<string>, media: seq<Okami.Media>): nat
    requires |keys| == |media|
  {
    if days == [] then 0 else |Group(keys, media, days[0])| + GroupSizes(days[1..], keys, media)
  }

  lemma {:induction false} GroupSizesAppend(days: seq<string>, d: string, keys: seq<string>, media: seq<Okami.Media>)
    requires |keys| == |media|
    ensures GroupSizes(days + [d], keys, media) == GroupSizes(days, keys, media) + |Group(keys, media, d)|
  {
    if days == [] {
      assert [d][1..] == [];
    } else {
      assert (days + [d])[1..] == days[1..] + [d];
      GroupSizesAppend(days[1..], d, keys, media);
    }
  }

  /** Adding one item adds one tile to the groups, if its day is among them. */
  lemma {:induction false} GroupSizesStep(days: seq<string>, keys: seq<string>, media: seq<Okami.Media>)
    requires |keys| == |media| && |keys| >= 1 && Distinct(days)
    ensures GroupSizes(days, keys, media)
            == GroupSizes(days, keys[..|keys| - 1], media[..|media| - 1]) + (if keys[|keys| - 1] in days then 1 else 0)
  {
    if days != [] {
      assert Distinct(days[1..]);
      GroupSizesStep(days[1..], keys, media);
      assert keys[|keys| - 1] in days <==> keys[|keys| - 1] == days[0] || keys[|keys| - 1] in days[1..];
      assert keys[|keys| - 1] == days[0] ==> keys[|keys| - 1] !in days[1..];
    }
  }

  /** Every item lands in exactly one group: the groups together hold as many tiles as there are items. */
  lemma {:induction false} GroupsPartition(keys: seq<string>, media: seq<Okami.Media>)
    requires |keys| == |media|
    ensures GroupSizes(FirstOccurrences(keys), keys, media) == |media|
  {
    if keys != [] {
      var n := |keys|;
      var init := keys[..n - 1];
      var prev := FirstOccurrences(init);
      GroupsPartition(init, media[..n - 1]);
      var days := FirstOccurrences(keys);
      GroupSizesStep(days, keys, media);
      if keys[n - 1] !in prev {
        assert days == prev + [keys[n - 1]];
        GroupSizesAppend(prev, keys[n - 1], init, media[..n - 1]);
        GroupAbsent(init, media[..n - 1], keys[n - 1]);
      }
    }
  }

  lemma GroupSnoc(keys: seq<string>, media: seq<Okami.Media>, day: string, m: Okami.Media, d: string)
    requires |keys| == |media|
    ensures Group(keys + [day], media + [m], d) == Group(keys, media, d) + (if day == d then [ParseMedia(m)] else [])
  {
    assert (keys + [day])[..|keys|] == keys;
    assert (media + [m])[..|media|] == media;
  }

  lemma FirstOccurrencesSnoc(keys: seq<string>, day: string)
    ensures FirstOccurrences(keys + [day])
            == if day in FirstOccurrences(keys) then FirstOccurrences(keys) else FirstOccurrences(keys) + [day]
  {
    assert (keys + [day])[..|keys|] == keys;
  }

  lemma DayKeysSnoc(media: seq<Okami.Media>, i: nat, dayOf: string -> string)
    requires i < |media| && AllDated(media[..i]) && media[i].dateTime.Some?
    ensures AllDated(media[..i + 1])
    ensures DayKeys(media[..i + 1], dayOf) == DayKeys(media[..i], dayOf) + [dayOf(media[i].dateTime.value)]
  {
    assert media[..i + 1] == media[..i] + [media[i]];
  }

  /** Appending one item's tile under its day keeps the map grouped. */
  lemma GroupedBySnoc(dayMap: map<string, seq<Media>>, keys: seq<string>, media: seq<Okami.Media>,
                      day: string, m: Okami.Media)
    requires |keys| == |media| && GroupedBy(dayMap, keys, media)
    ensures GroupedBy(dayMap[day := (if day in dayMap then dayMap[day] else []) + [ParseMedia(m)]],
                      keys + [day], media + [m])
  {
    var after := dayMap[day := (if day in dayMap then dayMap[day] else []) + [ParseMedia(m)]];
    if day !in dayMap {
      GroupAbsent(keys, media, day);
    }
    forall d
      ensures (d in after <==> d in keys + [day])
              && (d in after ==> after[d] == Group(keys + [day], media + [m], d))
    {
      GroupSnoc(keys, media, day, m, d);
    }
  }

  const NilDereference := "invalid memory address or nil dereference"

  /** `dayMap` holds, under each day that occurs, that day's tiles. */
  ghost predicate GroupedBy(dayMap: map<string, seq<Media>>, keys: seq<string>, media: seq<Okami.Media>)
    requires |keys| == |media|
  {
    forall d :: (d in dayMap <==> d in keys) && (d in dayMap ==> dayMap[d] == Group(keys, media, d))
  }

  /** One more keyed item, over any keys: the day is listed when new and its tile goes under it. */
  lemma GroupStep(dayMap: map<string, seq<Media>>, dayList: seq<string>, keys: seq<string>,
                  items: seq<Okami.Media>, day: string, m: Okami.Media)
    requires |keys| == |items|
    requires dayList == FirstOccurrences(keys)
    requires GroupedBy(dayMap, keys, items)
    ensures day in dayMap <==> day in dayList
    ensures (if day in dayList then dayList else dayList + [day]) == FirstOccurrences(keys + [day])
    ensures GroupedBy(dayMap[day := (if day in dayMap then dayMap[day] else []) + [ParseMedia(m)]],
                      keys + [day], items + [m])
  {
    assert day in dayMap <==> day in keys;
    FirstOccurrencesSnoc(keys, day);
    GroupedBySnoc(dayMap, keys, items, day, m);
  }

  /** One item of the first loop of parseMediaDays: its tile goes under its day, and the day is listed when new. */
  lemma GroupByDayStep(media: seq<Okami.Media>, i: nat, dayOf: string -> string,
                       dayMap: map<string, seq<Media>>, dayList: seq<string>)
    requires i < |media| && AllDated(media[..i]) && media[i].dateTime.Some?
    requires dayList == FirstOccurrences(DayKeys(media[..i], dayOf))
    requires GroupedBy(dayMap, DayKeys(media[..i], dayOf), media[..i])
    ensures var day := dayOf(media[i].dateTime.value);
      && AllDated(media[..i + 1])
      && (day in dayMap <==> day in dayList)
      && (if day in dayList then dayList else dayList + [day]) == FirstOccurrences(DayKeys(media[..i + 1], dayOf))
      && GroupedBy(dayMap[day := (if day in dayMap then dayMap[day] else []) + [ParseMedia(media[i])]],
                   DayKeys(media[..i + 1], dayOf), media[..i + 1])
  {
    DayKeysSnoc(media, i, dayOf);
    assert media[..i + 1] == media[..i] + [media[i]];
    GroupStep(dayMap, dayList, DayKeys(media[..i], dayOf), media[..i], dayOf(media[i].dateTime.value), media[i]);
  }

  /**
   * The first loop of parseMediaDays: each item is appended to its day's
   * list in the map, and its day to the day list when first seen. It stops
   * (`dated` false) at the first item without a DateTime.
   */
  method GroupByDay(media: seq<Okami.Media>, dayOf: string -> string)
    returns (dated: bool, dayMap: map<string, seq<Media>>, dayList: seq<string>)
    ensures dated <==> AllDated(media)
    ensures dated ==> dayList == FirstOccurrences(DayKeys(media, dayOf))
                      && GroupedBy(dayMap, DayKeys(media, dayOf), media)
  {
    dayMap := map[];
    dayList := [];
    var i := 0;
    while i < |media|
      invariant 0 <= i <= |media|
      invariant AllDated(media[..i])
      invariant dayList == FirstOccurrences(DayKeys(media[..i], dayOf))
      invariant GroupedBy(dayMap, DayKeys(media[..i], dayOf), media[..i])
    {
      if media[i].dateTime.None? {
        assert !AllDated(media);
        return false, dayMap, dayList;
      }
      var day := dayOf(media[i].dateTime.value);
      var seen := day in dayMap;
      GroupByDayStep(media, i, dayOf, dayMap, dayList);
      dayMap := dayMap[day := (if seen then dayMap[day] else []) + [ParseMedia(media[i])]];
      if !seen {
        dayList := dayList + [day];
      }
      i := i + 1;
    }
    assert media[..i] == media;
    dated := true;
  }

  /**
   * parseMediaDays: the groups read off in day-list order, each labelled
   * with its day. An item without a DateTime panics.
   */
  method ParseMediaDays(media: seq<Okami.Media>, dayOf: string -> string, humanDay: string -> string)
    returns (r: Run<seq<MediaDay>>)
    ensures !AllDated(media) <==> r.Panicked?
    ensures AllDated(media) ==> r == Returned(MediaDaysOf(media, dayOf, humanDay))
  {
    var dated, dayMap, dayList := GroupByDay(media, dayOf);
    if !dated {
      return Panicked(NilDereference);
    }
    var out := ReadDays(dayList, dayMap, humanDay);
    MediaDaysFromMap(media, dayOf, humanDay, dayMap, dayList, out);
    r := Returned(out);
  }

  /** The second loop of parseMediaDays: each listed day's tiles from the map, labelled with the day. */
  method ReadDays(dayList: seq<string>, dayMap: map<string, seq<Media>>, humanDay: string -> string)
    returns (out: seq<MediaDay>)
    requires forall d :: d in dayList ==> d in dayMap
    ensures |out| == |dayList|
    ensures forall p :: 0 <= p < |dayList| ==> out[p] == MediaDay(humanDay(dayList[p]), dayMap[dayList[p]])
  {
    out := [];
    var j := 0;
    while j < |dayList|
      invariant 0 <= j <= |dayList|
      invariant |out| == j
      invariant forall p :: 0 <= p < j ==> out[p] == MediaDay(humanDay(dayList[p]), dayMap[dayList[p]])
    {
      out := out + [MediaDay(humanDay(dayList[j]), dayMap[dayList[j]])];
      j := j + 1;
    }
  }

  /** Reading a grouped map in first-occurrence order gives the day groups. */
  lemma MediaDaysFromMap(media: seq<Okami.Media>, dayOf: string -> string, humanDay: string -> string,
                         dayMap: map<string, seq<Media>>, dayList: seq<string>, out: seq<MediaDay>)
    requires AllDated(media)
    requires dayList == FirstOccurrences(DayKeys(media, dayOf))
    requires GroupedBy(dayMap, DayKeys(media, dayOf), media)
    requires forall d :: d in dayList ==> d in dayMap
    requires |out| == |dayList|
    requires forall p :: 0 <= p < |dayList| ==> out[p] == MediaDay(humanDay(dayList[p]), dayMap[dayList[p]])
    ensures out == MediaDaysOf(media, dayOf, humanDay)
  {
    var keys := DayKeys(media, dayOf);
    var spec := MediaDaysOf(media, dayOf, humanDay);
    forall p | 0 <= p < |out|
      ensures out[p] == spec[p]
    {
      assert dayMap[dayList[p]] == Group(keys, media, dayList[p]);
    }
  }

  // ---------------------------------------------------------------------------
  // ParseListMediaView
  // ---------------------------------------------------------------------------

  const PageTitle := "Choose some shiz to shizzle with"

  /**
   * ParseListMediaView: months for the current year, years, the current
   * month's name, the tiles and the day groups; paging exactly when there is
   * an after key. It panics exactly when parseMediaDays does.
   */
  function ParseListMediaView(resp: Okami.ListMediaResponse, dayOf: string -> string, humanDay: string -> string)
    : (r: Run<ListMediaView>)
    ensures r.Panicked? <==> !AllDated(resp.media)
    ensures r.Returned? ==>
      && r.value.hasPaging == (resp.afterKey != "")
      && r.value.afterKey == resp.afterKey
      && r.value.currentYear == resp.currentYear
      && r.value.currentMonth in MonthNames
      && |r.value.months| == |resp.months| && |r.value.years| == |resp.years|
      && |r.value.media| == |resp.media|
    ensures r.Returned? ==>
      && r.value.months == MonthsView(resp.months, resp.currentYear)
      && r.value.years == YearsView(resp.years)
      && r.value.currentMonth == ParseMonth(resp.currentMonth)
      && r.value.media == MediaListView(resp.media)
      && r.value.mediaDays == MediaDaysOf(resp.media, dayOf, humanDay)
      && r.value.pageTitle == PageTitle
  {
    if !AllDated(resp.media) then Panicked(NilDereference)
    else
      ParseMonthName(resp.currentMonth);
      Returned(ListMediaView(
        MonthsView(resp.months, resp.currentYear), YearsView(resp.years), ParseMonth(resp.currentMonth),
        resp.currentYear, MediaListView(resp.media), resp.afterKey, resp.afterKey != "", PageTitle,
        MediaDaysOf(resp.media, dayOf, humanDay)))
  }

  /** The number of tiles over a list of day groups. */
  function TileCount(ds: seq<MediaDay>): nat {
    if ds == [] then 0 else |ds[0].media| + TileCount(ds[1..])
  }

  /** Day groups holding the groups of `days` hold as many tiles as those groups. */
  lemma {:induction false} TileCountGroups(ds: seq<MediaDay>, days: seq<string>, keys: seq<string>, media: seq<Okami.Media>)
    requires |keys| == |media| && |ds| == |days|
    requires forall j :: 0 <= j < |ds| ==> ds[j].media == Group(keys, media, days[j])
    ensures TileCount(ds) == GroupSizes(days, keys, media)
  {
    if ds != [] {
      TileCountGroups(ds[1..], days[1..], keys, media);
    }
  }

  /**
   * The view's day groups are one per distinct day, in order of first
   * appearance, each dated by its day; every tile of the view is in the
   * group of its own day, and the groups together hold exactly as many
   * tiles as the view lists.
   */
  lemma ViewTilesGrouped(resp: Okami.ListMediaResponse, dayOf: string -> string, humanDay: string -> string)
    requires AllDated(resp.media)
    ensures var v := ParseListMediaView(resp, dayOf, humanDay).value;
      var keys := DayKeys(resp.media, dayOf);
      var days := FirstOccurrences(keys);
      && |v.mediaDays| == |days|
      && (forall j :: 0 <= j < |days| ==> v.mediaDays[j].date == humanDay(days[j]))
      && (forall i :: 0 <= i < |v.media| ==>
            keys[i] in days && v.media[i] in v.mediaDays[FirstIndex(days, keys[i])].media)
      && TileCount(v.mediaDays) == |v.media|
  {
    var v := ParseListMediaView(resp, dayOf, humanDay).value;
    var keys := DayKeys(resp.media, dayOf);
    var days := FirstOccurrences(keys);
    GroupsPartition(keys, resp.media);
    TileCountGroups(v.mediaDays, days, keys, resp.media);
    forall i | 0 <= i < |v.media|
      ensures keys[i] in days && v.media[i] in v.mediaDays[FirstIndex(days, keys[i])].media
    {
      var j := FirstIndex(days, keys[i]);
      assert v.mediaDays[j].media == Group(keys, resp.media, keys[i]);
      GroupHasItem(keys, resp.media, i);
    }
  }

  /** The year entries of the listing in view_test.go: 2019 and 2016, linked by year. */
  lemma ArchiveYearsExample()
    ensures YearsView([Okami.ArchiveYear("2019", 1), Okami.ArchiveYear("2016", 4)])
            == [Year("2019", 1, "?year=2019"), Year("2016", 4, "?year=2016")]
  {
    PlainLinks("", "2019");
    PlainLinks("", "2016");
    assert YearLink("2019") == "?year=2019";
    assert YearLink("2016") == "?year=2016";
  }

  /** The months of the listing in view_test.go: 2, 10 and the current month 3, by name and link. */
  lemma ArchiveMonthsExample()
    ensures ParseMonth("2") == "February" && ParseMonth("10") == "October" && ParseMonth("3") == "March"
    ensures MonthLink("2", "2019") == "?month=" + "2" + "&year=" + "2019"
  {
    ParseMonthDecimal(2);
    ParseMonthDecimal(3);
    ParseMonthDecimal(10);
    assert Decimal(2) == "2" && Decimal(3) == "3" && Decimal(10) == "10";
    PlainLinks("2", "2019");
  }
}
