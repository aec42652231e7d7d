/**
 * The media listing service (pkg/okami) and the Micropub client's reply
 * types it consumes (pkg/mpclient). The client is a parameter: one result
 * or error per query. Times are kept by their RFC 3339 text.
 */
module Okami {
  import opened Wrappers
  import Mf2

  /** mpclient.MediaQueryListResponseItem, without the coordinates. */
  datatype MediaQueryItem = MediaQueryItem(url: string, mimeType: string, dateTime: Option<string>, isPublished: bool)

  /** mpclient.MediaQueryListResponse; `paging` is the After key of a present Paging. */
  datatype MediaQueryListResponse = MediaQueryListResponse(items: seq<MediaQueryItem>, paging: Option<string>)

  /**
   * The MPClient's three queries: years(endpoint, token),
   * months(endpoint, token, year) and media(endpoint, token, afterKey, year, month).
   */
  datatype MPClient = MPClient(
    years: (string, string) -> Result<seq<Mf2.ArchiveYear>>,
    months: (string, string, string) -> Result<seq<Mf2.ArchiveMonth>>,
    media: (string, string, string, string, string) -> Result<MediaQueryListResponse>)

  datatype ArchiveYear = ArchiveYear(year: string, count: int)
  datatype ArchiveMonth = ArchiveMonth(month: string, count: int)

  /** okami.Media, without the coordinates. */
  datatype Media = Media(url: string, mimeType: string, dateTime: Option<string>, isPublished: bool)

  datatype ListMediaResponse = ListMediaResponse(
    years: seq<ArchiveYear>, months: seq<ArchiveMonth>, media: seq<Media>,
    afterKey: string, currentYear: string, currentMonth: string)

  /** The years as listed, order and counts kept. */
  function YearsOf(ys: seq<Mf2.ArchiveYear>): (r: seq<ArchiveYear>)
    ensures |r| == |ys|
    ensures forall i :: 0 <= i < |ys| ==> r[i].year == ys[i].year && r[i].count == ys[i].count
  {
    seq(|ys|, i requires 0 <= i < |ys| => ArchiveYear(ys[i].year, ys[i].count))
  }

  /** The months as listed, order and counts kept. */
  function MonthsOf(ms: seq<Mf2.ArchiveMonth>): (r: seq<ArchiveMonth>)
    ensures |r| == |ms|
    ensures forall i :: 0 <= i < |ms| ==> r[i].month == ms[i].month && r[i].count == ms[i].count
  {
    seq(|ms|, i requires 0 <= i < |ms| => ArchiveMonth(ms[i].month, ms[i].count))
  }

  /** The media as listed, carrying only URL, DateTime and IsPublished across. */
  function MediaOf(items: seq<MediaQueryItem>): (r: seq<Media>)
    ensures |r| == |items|
    ensures forall i :: 0 <= i < |items| ==>
              r[i] == Media(items[i].url, "", items[i].dateTime, items[i].isPublished)
  {
    seq(|items|, i requires 0 <= i < |items| => Media(items[i].url, "", items[i].dateTime, items[i].isPublished))
  }

  /** What listMediaYears answers: the client's years, or none when the client fails. */
  function ListedYears(client: MPClient, endpoint: string, token: string): seq<ArchiveYear> {
    match client.years(endpoint, token)
    case Err(_) => []
    case Ok(ys) => YearsOf(ys)
  }

  function ListedMonths(client: MPClient, endpoint: string, token: string, year: string): seq<ArchiveMonth> {
    match client.months(endpoint, token, year)
    case Err(_) => []
    case Ok(ms) => MonthsOf(ms)
  }

  /** What listMedia answers: the media and the next after key ("" without paging or on error). */
  function ListedMedia(client: MPClient, endpoint: string, token: string, afterKey: string,
                       year: string, month: string): (seq<Media>, string)
  {
    match client.media(endpoint, token, afterKey, year, month)
    case Err(_) => ([], "")
    case Ok(resp) => (MediaOf(resp.items), match resp.paging case Some(k) => k case None => "")
  }

  /** listMediaYears, appending each listed year. */
  method ListMediaYears(client: MPClient, endpoint: string, token: string) returns (years: seq<ArchiveYear>)
    ensures years == ListedYears(client, endpoint, token)
  {
    years := [];
    var listed := client.years(endpoint, token);
    if listed.Err? {
      return;
    }
    var ys := listed.value;
    var i := 0;
    while i < |ys|
      invariant 0 <= i <= |ys|
      invariant years == YearsOf(ys[..i])
    {
      years := years + [ArchiveYear(ys[i].year, ys[i].count)];
      i := i + 1;
    }
    assert ys[..i] == ys;
  }

  /** listMediaMonths, appending each listed month. */
  method ListMediaMonths(client: MPClient, endpoint: string, token: string, year: string)
    returns (months: seq<ArchiveMonth>)
    ensures months == ListedMonths(client, endpoint, token, year)
  {
    months := [];
    var listed := client.months(endpoint, token, year);
    if listed.Err? {
      return;
    }
    var ms := listed.value;
    var i := 0;
    while i < |ms|
      invariant 0 <= i <= |ms|
      invariant months == MonthsOf(ms[..i])
    {
      months := months + [ArchiveMonth(ms[i].month, ms[i].count)];
      i := i + 1;
    }
    assert ms[..i] == ms;
  }

  /** listMedia, appending each item, then reading the paging key. */
  method ListMediaItems(client: MPClient, endpoint: string, token: string, afterKey: string,
                        year: string, month: string)
    returns (media: seq<Media>, newAfterKey: string)
    ensures (media, newAfterKey) == ListedMedia(client, endpoint, token, afterKey, year, month)
  {
    media := [];
    var listed := client.media(endpoint, token, afterKey, year, month);
    if listed.Err? {
      return [], "";
    }
    var items := listed.value.items;
    var i := 0;
    while i < |items|
      invariant 0 <= i <= |items|
      invariant media == MediaOf(items[..i])
    {
      media := media + [Media(items[i].url, "", items[i].dateTime, items[i].isPublished)];
      i := i + 1;
    }
    assert items[..i] == items;
    newAfterKey := "";
    if listed.value.paging.Some? {
      newAfterKey := listed.value.paging.value;
    }
  }

  /** Indexing the first element of an empty slice. */
  const IndexOutOfRange := "index out of range [0] with length 0"

  /**
   * What ListMedia answers. The year is the selected one, else the first
   * listed year; the month is the selected one, else the first month listed
   * for that year; indexing an empty list panics.
   */
  function ListMediaResult(client: MPClient, endpoint: string, token: string, afterKey: string,
                           selectedYear: string, selectedMonth: string): (r: Run<ListMediaResponse>)
    ensures var years := ListedYears(client, endpoint, token);
      && (selectedYear == "" && years == [] ==> r.Panicked?)
      && (selectedYear != "" || years != [] ==>
            var currentYear := if selectedYear != "" then selectedYear else years[0].year;
            var months := ListedMonths(client, endpoint, token, currentYear);
            && (r.Panicked? <==> selectedMonth == "" && months == [])
            && (r.Returned? ==>
                  && r.value.years == years && r.value.months == months
                  && r.value.currentYear == currentYear
                  && r.value.currentMonth == (if selectedMonth != "" then selectedMonth else months[0].month)
                  && (r.value.media, r.value.afterKey)
                     == ListedMedia(client, endpoint, token, afterKey, currentYear, r.value.currentMonth)))
  {
    var years := ListedYears(client, endpoint, token);
    if selectedYear == "" && years == [] then Panicked(IndexOutOfRange)
    else
      var currentYear := if selectedYear != "" then selectedYear else years[0].year;
      var months := ListedMonths(client, endpoint, token, currentYear);
      if selectedMonth == "" && months == [] then Panicked(IndexOutOfRange)
      else
        var currentMonth := if selectedMonth != "" then selectedMonth else months[0].month;
        var (media, newAfterKey) := ListedMedia(client, endpoint, token, afterKey, currentYear, currentMonth);
        Returned(ListMediaResponse(years, months, media, newAfterKey, currentYear, currentMonth))
  }

  /** Server.ListMedia: years, then months for the current year, then the media page. */
  method ListMedia(client: MPClient, endpoint: string, token: string, afterKey: string,
                   selectedYear: string, selectedMonth: string)
    returns (r: Run<ListMediaResponse>)
    ensures r == ListMediaResult(client, endpoint, token, afterKey, selectedYear, selectedMonth)
  {
    var years := ListMediaYears(client, endpoint, token);
    var currentYear := selectedYear;
    if currentYear == "" {
      if |years| == 0 {
        return Panicked(IndexOutOfRange);
      }
      currentYear := years[0].year;
    }
    var months := ListMediaMonths(client, endpoint, token, currentYear);
    var currentMonth := selectedMonth;
    if currentMonth == "" {
      if |months| == 0 {
        return Panicked(IndexOutOfRange);
      }
      currentMonth := months[0].month;
    }
    var media, newAfterKey := ListMediaItems(client, endpoint, token, afterKey, currentYear, currentMonth);
    r := Returned(ListMediaResponse(years, months, media, newAfterKey, currentYear, currentMonth));
  }

  /**
   * With nothing selected and a client that lists years and months and a
   * paged media list, the newest listed year and its first month are shown,
   * with the page's after key.
   */
  lemma ListMediaDefaults(client: MPClient, endpoint: string, token: string, afterKey: string,
                          ys: seq<Mf2.ArchiveYear>, ms: seq<Mf2.ArchiveMonth>, page: MediaQueryListResponse)
    requires ys != [] && ms != [] && page.paging.Some?
    requires client.years(endpoint, token) == Ok(ys)
    requires client.months(endpoint, token, ys[0].year) == Ok(ms)
    requires client.media(endpoint, token, afterKey, ys[0].year, ms[0].month) == Ok(page)
    ensures var r := ListMediaResult(client, endpoint, token, afterKey, "", "");
      && r.Returned?
      && r.value.currentYear == ys[0].year && r.value.currentMonth == ms[0].month
      && r.value.afterKey == page.paging.value
      && r.value.media == MediaOf(page.items)
  {
    assert ListedYears(client, endpoint, token)[0].year == ys[0].year;
    assert ListedMonths(client, endpoint, token, ys[0].year)[0].month == ms[0].month;
  }

  /** A failing client is not an error: it leaves the lists empty and the after key "". */
  lemma ListMediaClientDown(client: MPClient, endpoint: string, token: string, afterKey: string,
                            selectedYear: string, selectedMonth: string)
    requires selectedYear != "" && selectedMonth != ""
    requires client.years(endpoint, token).Err?
    requires client.months(endpoint, token, selectedYear).Err?
    requires client.media(endpoint, token, afterKey, selectedYear, selectedMonth).Err?
    ensures ListMediaResult(client, endpoint, token, afterKey, selectedYear, selectedMonth)
            == Returned(ListMediaResponse([], [], [], "", selectedYear, selectedMonth))
  {
  }
}
