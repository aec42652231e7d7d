/**
 * Microformats2 objects (pkg/mf2): a list of h-types, a property map whose
 * values are arbitrary JSON, and children, together with the helpers that
 * build, read and edit them and the flattened view used for rendering.
 *
 * A MicroFormat is a Go struct copied by value; its by-reference
 * mutators (AddProperty, AddChild, SetDefaults) only reassign its fields,
 * so they are functions from the old value to the new one. The helpers that
 * write through a slice's backing array (PrepImageLinks, SortChildren,
 * PostList.Sort) work on a Dafny `array`.
 */
module Mf2 {
  import opened Wrappers
  import opened Text

  /**
   * A property value. Go keeps these as interface{}; the helpers only ever
   * look for strings, so every other JSON value (a number, a nested object
   * such as an h-card or {"html": ...}) is kept by its encoding.
   */
  datatype Value = Str(s: string) | Other(json: string)

  datatype MicroFormat = MicroFormat(types: seq<string>, properties: map<string, seq<Value>>, children: seq<Value>)

  /** The archive counts a Micropub server reports for a year and for a month. */
  datatype ArchiveYear = ArchiveYear(year: string, count: int)
  datatype ArchiveMonth = ArchiveMonth(month: string, count: int)

  /** mf.Properties[key]: a missing key reads as an empty list. */
  function PropertyValues(mf: MicroFormat, key: string): seq<Value> {
    if key in mf.properties then mf.properties[key] else []
  }

  // ---------------------------------------------------------------------------
  // MfFromForm
  // ---------------------------------------------------------------------------

  /** A form key with its surrounding brackets trimmed, as in `photo[]`. */
  function PropertyName(formKey: string): string {
    TrimCutset(formKey, {'[', ']'})
  }

  /** A list key such as `photo[]` names the same property as `photo`. */
  lemma PropertyNameOfList(name: string)
    requires name != [] && name[0] !in {'[', ']'} && name[|name| - 1] !in {'[', ']'}
    ensures PropertyName(name + "[]") == name && PropertyName(name) == name
  {
    TrimCutsetAround([], name, "[]", {'[', ']'});
    TrimCutsetAround([], name, [], {'[', ']'});
    assert [] + name + "[]" == name + "[]";
    assert [] + name + [] == name;
  }

  function Strs(vals: seq<string>): (r: seq<Value>)
    ensures |r| == |vals| && forall i :: 0 <= i < |vals| ==> r[i] == Str(vals[i])
  {
    seq(|vals|, i requires 0 <= i < |vals| => Str(vals[i]))
  }

  /**
   * What MfFromForm collects under property `name` after visiting the first
   * `n` form keys of `order`: the values of every key that trims to `name`,
   * key by key in visiting order; never anything under access_token.
   */
  function Collected(form: map<string, seq<string>>, order: seq<string>, n: nat, name: string): seq<Value>
    requires n <= |order|
  {
    if n == 0 || name == "access_token" then []
    else Collected(form, order, n - 1, name) + Visited(form, order[n - 1], name)
  }

  /** What visiting one key adds under `name`. */
  function Visited(form: map<string, seq<string>>, key: string, name: string): seq<Value> {
    if PropertyName(key) == name && key in form then Strs(form[key]) else []
  }

  /** `props` holds what has been collected from the first `n` keys, and nothing else. */
  ghost predicate CollectsAll(props: map<string, seq<Value>>, form: map<string, seq<string>>, order: seq<string>, n: nat)
    requires n <= |order|
  {
    forall name :: (name in props <==> Collected(form, order, n, name) != [])
                   && (name in props ==> props[name] == Collected(form, order, n, name))
  }

  /** `r` is `props` with `vals` appended under `name`. */
  ghost predicate Appended(r: map<string, seq<Value>>, props: map<string, seq<Value>>, name: string, vals: seq<string>) {
    forall nm :: (nm in r <==> nm in props || (nm == name && vals != []))
                 && (nm in r ==> r[nm] == (if nm in props then props[nm] else [])
                                          + (if nm == name then Strs(vals) else []))
  }

  /** Appending the next value keeps `r` the map with the values so far appended. */
  lemma AppendedStep(r: map<string, seq<Value>>, props: map<string, seq<Value>>, name: string, vals: seq<string>, j: nat)
    requires j < |vals| && Appended(r, props, name, vals[..j])
    ensures Appended(r[name := (if name in r then r[name] else []) + [Str(vals[j])]], props, name, vals[..j + 1])
  {
    assert Strs(vals[..j + 1]) == Strs(vals[..j]) + [Str(vals[j])];
  }

  /** The inner loop of MfFromForm: each value appended under `name`, in order. */
  method AppendValues(props: map<string, seq<Value>>, name: string, vals: seq<string>)
    returns (r: map<string, seq<Value>>)
    ensures Appended(r, props, name, vals)
  {
    r := props;
    var j := 0;
    while j < |vals|
      invariant 0 <= j <= |vals|
      invariant Appended(r, props, name, vals[..j])
    {
      AppendedStep(r, props, name, vals, j);
      r := r[name := (if name in r then r[name] else []) + [Str(vals[j])]];
      j := j + 1;
    }
    assert vals[..j] == vals;
  }

  /** Visiting key `order[n]` (skipped when it trims to access_token) keeps the map collecting. */
  lemma CollectsAllStep(before: map<string, seq<Value>>, after: map<string, seq<Value>>,
                        form: map<string, seq<string>>, order: seq<string>, n: nat)
    requires n < |order| && order[n] in form
    requires CollectsAll(before, form, order, n)
    requires PropertyName(order[n]) == "access_token" ==> after == before
    requires PropertyName(order[n]) != "access_token" ==> Appended(after, before, PropertyName(order[n]), form[order[n]])
    ensures CollectsAll(after, form, order, n + 1)
  {
    var key := order[n];
    forall nm
      ensures (nm in after <==> Collected(form, order, n + 1, nm) != [])
              && (nm in after ==> after[nm] == Collected(form, order, n + 1, nm))
    {
      if PropertyName(key) == "access_token" {
        assert nm != "access_token" ==> Visited(form, key, nm) == [];
      } else if nm == "access_token" {
        assert Visited(form, key, nm) == [];
      } else {
        assert Visited(form, key, nm) == if nm == PropertyName(key) then Strs(form[key]) else [];
      }
    }
  }

  /**
   * MfFromForm. Go visits the form's keys in an unspecified order; `order`
   * is that visiting order, each key exactly once. The type list is "h-"
   * followed by each `h` value in order, and a property exists exactly when
   * something was collected under its name.
   */
  method MfFromForm(form: map<string, seq<string>>, order: seq<string>) returns (mf: MicroFormat)
    requires forall key :: key in form <==> key in order
    requires forall i, j :: 0 <= i < j < |order| ==> order[i] != order[j]
    ensures "h" !in form ==> mf.types == []
    ensures "h" in form ==> |mf.types| == |form["h"]|
                            && forall i :: 0 <= i < |mf.types| ==> mf.types[i] == "h-" + form["h"][i]
    ensures forall name :: name in mf.properties <==> Collected(form, order, |order|, name) != []
    ensures forall name :: name in mf.properties ==> mf.properties[name] == Collected(form, order, |order|, name)
    ensures mf.children == []
  {
    var types: seq<string> := [];
    if "h" in form {
      var hs := form["h"];
      var i := 0;
      while i < |hs|
        invariant 0 <= i <= |hs|
        invariant |types| == i && forall p :: 0 <= p < i ==> types[p] == "h-" + hs[p]
      {
        types := types + ["h-" + hs[i]];
        i := i + 1;
      }
    }
    var props: map<string, seq<Value>> := map[];
    var n := 0;
    while n < |order|
      invariant 0 <= n <= |order|
      invariant CollectsAll(props, form, order, n)
    {
      var key := order[n];
      var name := PropertyName(key);
      ghost var before := props;
      if name != "access_token" {
        props := AppendValues(props, name, form[key]);
      }
      CollectsAllStep(before, props, form, order, n);
      n := n + 1;
    }
    mf := MicroFormat(types, props, []);
  }

  /** Every value of a form key (other than access_token) is collected under its trimmed name. */
  lemma {:induction false} CollectedKeepsValues(form: map<string, seq<string>>, order: seq<string>, n: nat, p: nat, v: string)
    requires p < n <= |order| && order[p] in form && v in form[order[p]] && PropertyName(order[p]) != "access_token"
    ensures Str(v) in Collected(form, order, n, PropertyName(order[p]))
  {
    if p < n - 1 {
      CollectedKeepsValues(form, order, n - 1, p, v);
    } else {
      VisitedHas(form, order[p], v);
    }
  }

  lemma VisitedHas(form: map<string, seq<string>>, key: string, v: string)
    requires key in form && v in form[key]
    ensures Str(v) in Visited(form, key, PropertyName(key))
  {
    var i :| 0 <= i < |form[key]| && form[key][i] == v;
    assert Strs(form[key])[i] == Str(v);
  }

  /** Nothing is collected that is not the value of some form key trimming to that name. */
  lemma {:induction false} CollectedFromForm(form: map<string, seq<string>>, order: seq<string>, n: nat, name: string, x: Value)
    requires n <= |order| && x in Collected(form, order, n, name)
    ensures name != "access_token" && x.Str?
    ensures exists p :: 0 <= p < n && order[p] in form && PropertyName(order[p]) == name && x.s in form[order[p]]
  {
    var visited := Visited(form, order[n - 1], name);
    if x in Collected(form, order, n - 1, name) {
      CollectedFromForm(form, order, n - 1, name, x);
    } else {
      var key := order[n - 1];
      assert x in visited;
      assert PropertyName(key) == name && key in form && visited == Strs(form[key]);
      var i :| 0 <= i < |form[key]| && visited[i] == x;
      assert form[key][i] == x.s;
    }
  }

  /** A key that is the only one trimming to its name keeps its values as they are. */
  lemma CollectedSingle(form: map<string, seq<string>>, order: seq<string>, n: nat, p: nat)
    requires p < n <= |order| && order[p] in form && PropertyName(order[p]) != "access_token"
    requires forall q :: 0 <= q < n && q != p ==> PropertyName(order[q]) != PropertyName(order[p])
    ensures Collected(form, order, n, PropertyName(order[p])) == Strs(form[order[p]])
  {
    var name := PropertyName(order[p]);
    var vals := Strs(form[order[p]]);
    forall q | 0 <= q < p
      ensures PropertyName(order[q]) != name
    {
    }
    forall q | p + 1 <= q < n
      ensures PropertyName(order[q]) != name
    {
    }
    CollectedUnchanged(form, order, 0, p, name);
    CollectedStep(form, order, p, name, vals);
    CollectedUnchanged(form, order, p + 1, n, name);
  }

  /** Keys that do not trim to `name` add nothing under it. */
  lemma {:induction false} CollectedUnchanged(form: map<string, seq<string>>, order: seq<string>, m: nat, n: nat, name: string)
    requires m <= n <= |order| && name != "access_token"
    requires forall q :: m <= q < n ==> PropertyName(order[q]) != name
    ensures Collected(form, order, n, name) == Collected(form, order, m, name)
  {
    if m < n {
      CollectedUnchanged(form, order, m, n - 1, name);
      CollectedStep(form, order, n - 1, name, []);
    }
  }

  /** Visiting key `order[n]` adds `added` under `name`. */
  lemma CollectedStep(form: map<string, seq<string>>, order: seq<string>, n: nat, name: string, added: seq<Value>)
    requires n < |order| && name != "access_token"
    requires added == if PropertyName(order[n]) == name && order[n] in form then Strs(form[order[n]]) else []
    ensures Collected(form, order, n + 1, name) == Collected(form, order, n, name) + added
  {
  }

  lemma {:induction false} CollectedAbsent(form: map<string, seq<string>>, order: seq<string>, n: nat, name: string)
    requires n <= |order|
    requires forall q :: 0 <= q < n ==> PropertyName(order[q]) != name
    ensures Collected(form, order, n, name) == []
  {
    if n != 0 && name != "access_token" {
      CollectedAbsent(form, order, n - 1, name);
    }
  }

  // ---------------------------------------------------------------------------
  // getFirstString, getStringSlice
  // ---------------------------------------------------------------------------

  /** The first string among the values, or "" when there is none. */
  function FirstString(vs: seq<Value>): (r: string)
    ensures forall i :: 0 <= i < |vs| && vs[i].Str? && (forall j :: 0 <= j < i ==> !vs[j].Str?) ==> r == vs[i].s
    ensures (forall i :: 0 <= i < |vs| ==> !vs[i].Str?) ==> r == ""
  {
    if vs == [] then ""
    else if vs[0].Str? then vs[0].s
    else FirstString(vs[1..])
  }

  /** The string values, in order; every other value is skipped. */
  function StringsOf(vs: seq<Value>): (r: seq<string>)
    ensures |r| <= |vs|
    ensures forall s :: s in r <==> Str(s) in vs
  {
    if vs == [] then []
    else (if vs[0].Str? then [vs[0].s] else []) + StringsOf(vs[1..])
  }

  lemma {:induction false} StringsOfAppend(a: seq<Value>, b: seq<Value>)
    ensures StringsOf(a + b) == StringsOf(a) + StringsOf(b)
  {
    if a == [] {
      assert a + b == b;
    } else {
      assert (a + b)[1..] == a[1..] + b;
      StringsOfAppend(a[1..], b);
    }
  }

  /** The first string is the head of the string slice. */
  lemma {:induction false} FirstStringOfSlice(vs: seq<Value>)
    ensures FirstString(vs) == if StringsOf(vs) == [] then "" else StringsOf(vs)[0]
  {
    if vs != [] && !vs[0].Str? {
      FirstStringOfSlice(vs[1..]);
    }
  }

  /** getFirstString, with its early-returning loop. */
  method GetFirstString(mf: MicroFormat, key: string) returns (r: string)
    ensures r == FirstString(PropertyValues(mf, key))
  {
    var vs := PropertyValues(mf, key);
    var i := 0;
    while i < |vs|
      invariant 0 <= i <= |vs|
      invariant FirstString(vs) == FirstString(vs[i..])
    {
      assert vs[i..][1..] == vs[i + 1..];
      if vs[i].Str? {
        return vs[i].s;
      }
      i := i + 1;
    }
    r := "";
  }

  /** getStringSlice, appending each string value. */
  method GetStringSlice(mf: MicroFormat, key: string) returns (o: seq<string>)
    ensures o == StringsOf(PropertyValues(mf, key))
  {
    var vs := PropertyValues(mf, key);
    o := [];
    var i := 0;
    while i < |vs|
      invariant 0 <= i <= |vs|
      invariant o == StringsOf(vs[..i])
    {
      assert vs[..i + 1] == vs[..i] + [vs[i]];
      StringsOfAppend(vs[..i], [vs[i]]);
      if vs[i].Str? {
        o := o + [vs[i].s];
      }
      i := i + 1;
    }
    assert vs[..i] == vs;
  }

  // ---------------------------------------------------------------------------
  // AddProperty, AddChild, SetDefaults
  // ---------------------------------------------------------------------------

  /** AddProperty: `v` goes to the end of key `k`'s list; the list is created when absent. */
  function AddProperty(mf: MicroFormat, k: string, v: Value): (r: MicroFormat)
    ensures r.types == mf.types && r.children == mf.children
    ensures r.properties.Keys == mf.properties.Keys + {k}
    ensures PropertyValues(r, k) == PropertyValues(mf, k) + [v]
    ensures forall k' :: k' != k ==> PropertyValues(r, k') == PropertyValues(mf, k')
  {
    mf.(properties := mf.properties[k := PropertyValues(mf, k) + [v]])
  }

  /** An added string is the last of the key's strings, and the first one unless an earlier string exists. */
  lemma AddPropertyStrings(mf: MicroFormat, k: string, s: string)
    ensures StringsOf(PropertyValues(AddProperty(mf, k, Str(s)), k)) == StringsOf(PropertyValues(mf, k)) + [s]
    ensures FirstString(PropertyValues(AddProperty(mf, k, Str(s)), k))
            == if StringsOf(PropertyValues(mf, k)) == [] then s else FirstString(PropertyValues(mf, k))
  {
    var before := PropertyValues(mf, k);
    var after := PropertyValues(AddProperty(mf, k, Str(s)), k);
    StringsOfAppend(before, [Str(s)]);
    FirstStringOfSlice(before);
    FirstStringOfSlice(after);
  }

  /** AddChild: one child appended, nothing else changed. */
  function AddChild(mf: MicroFormat, v: Value): (r: MicroFormat)
    ensures r.types == mf.types && r.properties == mf.properties
    ensures |r.children| == |mf.children| + 1
    ensures r.children[..|mf.children|] == mf.children && r.children[|mf.children|] == v
  {
    mf.(children := mf.children + [v])
  }

  /**
   * SetDefaults. `now` stands for the current time in the layout
   * 2006-01-02T15:04:05-07:00. The type becomes h-entry only when there is
   * none; published and author are set only when their lists are empty;
   * uid and url are always replaced by one-element lists.
   */
  function SetDefaults(mf: MicroFormat, defaultAuthor: string, uuid: string, url: string, now: string): (r: MicroFormat)
    ensures r.types == if mf.types == [] then ["h-entry"] else mf.types
    ensures r.children == mf.children
    ensures r.properties.Keys == mf.properties.Keys + {"published", "author", "uid", "url"}
    ensures PropertyValues(r, "published")
            == if PropertyValues(mf, "published") == [] then [Str(now)] else PropertyValues(mf, "published")
    ensures PropertyValues(r, "author")
            == if PropertyValues(mf, "author") == [] then [Str(defaultAuthor)] else PropertyValues(mf, "author")
    ensures PropertyValues(r, "uid") == [Str(uuid)]
    ensures PropertyValues(r, "url") == [Str(url)]
    ensures forall k :: k !in {"published", "author", "uid", "url"} ==> PropertyValues(r, k) == PropertyValues(mf, k)
  {
    var p0 := mf.properties;
    var p1 := if PropertyValues(mf, "published") == [] then p0["published" := [Str(now)]] else p0;
    var p2 := if PropertyValues(mf, "author") == [] then p1["author" := [Str(defaultAuthor)]] else p1;
    var p3 := p2["uid" := [Str(uuid)]]["url" := [Str(url)]];
    MicroFormat(if mf.types == [] then ["h-entry"] else mf.types, p3, mf.children)
  }

  /**
   * Defaults are only filled in once: a second SetDefaults changes nothing
   * but uid and url.
   */
  lemma SetDefaultsTwice(mf: MicroFormat, author1: string, uuid1: string, url1: string, now1: string,
                         author2: string, uuid2: string, url2: string, now2: string)
    ensures SetDefaults(SetDefaults(mf, author1, uuid1, url1, now1), author2, uuid2, url2, now2)
            == SetDefaults(mf, author1, uuid2, url2, now1)
  {
    var lhs := SetDefaults(SetDefaults(mf, author1, uuid1, url1, now1), author2, uuid2, url2, now2);
    var rhs := SetDefaults(mf, author1, uuid2, url2, now1);
    forall k | k in lhs.properties
      ensures lhs.properties[k] == rhs.properties[k]
    {
      assert PropertyValues(lhs, k) == PropertyValues(rhs, k);
    }
  }

  // ---------------------------------------------------------------------------
  // Feeds
  // ---------------------------------------------------------------------------

  /**
   * parseYearMonth. `yearMonthOf` stands for parsing an RFC 3339 time and
   * formatting it as 200601; None is a parse error, which yields "000000".
   */
  function ParseYearMonth(published: string, yearMonthOf: string -> Option<string>): string {
    match yearMonthOf(published)
    case None => "000000"
    case Some(ym) => ym
  }

  /** Feeds: the "all" feed, then the year-month feed of the first published string. */
  function Feeds(mf: MicroFormat, yearMonthOf: string -> Option<string>): (r: seq<string>)
    ensures |r| == 2 && r[0] == "all"
    ensures r[1] == ParseYearMonth(FirstString(PropertyValues(mf, "published")), yearMonthOf)
  {
    ["all", ParseYearMonth(FirstString(PropertyValues(mf, "published")), yearMonthOf)]
  }

  /** A post without a published string, where "" does not parse, lands in the 000000 feed. */
  lemma FeedsUnpublished(mf: MicroFormat, yearMonthOf: string -> Option<string>)
    requires forall v :: v in PropertyValues(mf, "published") ==> !v.Str?
    requires yearMonthOf("") == None
    ensures Feeds(mf, yearMonthOf) == ["all", "000000"]
  {
    var vs := PropertyValues(mf, "published");
    assert forall i :: 0 <= i < |vs| ==> !vs[i].Str? by {
      forall i | 0 <= i < |vs| ensures !vs[i].Str? { assert vs[i] in vs; }
    }
  }

  /** After SetDefaults on a post with no published value, its feed is the month of `now`. */
  lemma FeedsAfterDefaults(mf: MicroFormat, author: string, uuid: string, url: string, now: string,
                           yearMonthOf: string -> Option<string>)
    requires PropertyValues(mf, "published") == []
    ensures Feeds(SetDefaults(mf, author, uuid, url, now), yearMonthOf) == ["all", ParseYearMonth(now, yearMonthOf)]
  {
    assert PropertyValues(SetDefaults(mf, author, uuid, url, now), "published") == [Str(now)];
  }

  // ---------------------------------------------------------------------------
  // The view
  // ---------------------------------------------------------------------------

  /** MicroFormatView, the flattened (jf2-like) post used for rendering. */
  datatype MicroFormatView = MicroFormatView(
    kind: string, uid: string, url: string, published: string, updated: string,
    author: string, name: string, summary: string, content: string, rsvp: string,
    location: string, repostOf: seq<string>, likeOf: seq<string>, bookmarkOf: seq<string>,
    category: seq<string>, syndication: seq<string>, inReplyTo: seq<string>,
    photo: seq<string>, comment: seq<string>, video: seq<string>,
    children: seq<MicroFormatView>, archive: string)

  const HugoSite := "https://jay.funabashi.co.uk"

  /** PrepForHugo: the site prefix is dropped from the URL when present; nothing else changes. */
  function PrepForHugo(v: MicroFormatView): (r: MicroFormatView)
    ensures r == v.(url := r.url)
    ensures HugoSite <= v.url ==> HugoSite + r.url == v.url
    ensures !(HugoSite <= v.url) ==> r.url == v.url
  {
    v.(url := TrimPrefix(v.url, HugoSite))
  }

  /** A site URL becomes a root-relative path, which a second PrepForHugo leaves alone. */
  lemma PrepForHugoPath(v: MicroFormatView, path: string)
    requires v.url == HugoSite + "/" + path
    ensures PrepForHugo(v).url == "/" + path
    ensures PrepForHugo(PrepForHugo(v)) == PrepForHugo(v)
  {
    assert HugoSite <= v.url;
    var r := PrepForHugo(v);
    assert r.url[0] == '/' != HugoSite[0];
  }

  /** Every photo link behind the image proxy. */
  function Proxied(imgProxy: string, photos: seq<string>): (r: seq<string>)
    ensures |r| == |photos| && forall k :: 0 <= k < |photos| ==> r[k] == imgProxy + photos[k]
  {
    seq(|photos|, k requires 0 <= k < |photos| => imgProxy + photos[k])
  }

  /** Proxying twice is proxying once behind both prefixes. */
  lemma ProxiedTwice(outer: string, inner: string, photos: seq<string>)
    ensures Proxied(outer, Proxied(inner, photos)) == Proxied(outer + inner, photos)
  {
    forall k | 0 <= k < |photos|
      ensures Proxied(outer, Proxied(inner, photos))[k] == Proxied(outer + inner, photos)[k]
    {
      assert outer + (inner + photos[k]) == (outer + inner) + photos[k];
    }
  }

  /** PrepImageLinks, writing into the Photo slice's backing array. */
  method PrepImageLinks(photo: array<string>, imgProxy: string)
    modifies photo
    ensures photo[..] == Proxied(imgProxy, old(photo[..]))
  {
    var k := 0;
    while k < photo.Length
      invariant 0 <= k <= photo.Length
      invariant forall p :: 0 <= p < k ==> photo[p] == imgProxy + old(photo[p])
      invariant forall p :: k <= p < photo.Length ==> photo[p] == old(photo[p])
    {
      photo[k] := imgProxy + photo[k];
      k := k + 1;
    }
  }

  // ---------------------------------------------------------------------------
  // Sorting by published, newest first
  // ---------------------------------------------------------------------------

  /** Ordered by non-increasing key, in Go's string order. */
  predicate SortedDesc<T>(s: seq<T>, key: T -> string) {
    forall i, j :: 0 <= i < j < |s| ==> !Less(key(s[i]), key(s[j]))
  }

  lemma NotLessTransitive(a: string, b: string, c: string)
    requires !Less(a, b) && !Less(b, c)
    ensures !Less(a, c)
  {
    LessTotal(a, b);
    LessTotal(b, c);
    if Less(a, c) {
      if Less(b, a) { LessTransitive(b, a, c); }
    }
  }

  lemma LessAsymmetric(a: string, b: string)
    requires Less(a, b)
    ensures !Less(b, a)
  {
    if Less(b, a) {
      LessTransitive(a, b, a);
      LessIrreflexive(a);
    }
  }

  /**
   * sort.Slice with `key(x) > key(y)`: a permutation ordered newest first.
   * sort.Slice is not stable, so equal keys may come out in any order; this
   * insertion sort is one such order.
   */
  method SortDesc<T>(a: array<T>, key: T -> string)
    modifies a
    ensures SortedDesc(a[..], key)
    ensures multiset(a[..]) == multiset(old(a[..]))
  {
    var i := 0;
    while i < a.Length
      invariant 0 <= i <= a.Length
      invariant SortedDesc(a[..i], key)
      invariant multiset(a[..]) == multiset(old(a[..]))
    {
      InsertDesc(a, i, key);
      i := i + 1;
    }
    assert a[..i] == a[..];
  }

  /**
   * Inserting `s[j]`, which started at `i`: apart from position `j` the
   * first `i + 1` keys are in order, and `s[j]` is not below anything to its
   * right.
   */
  predicate Inserting<T>(s: seq<T>, i: int, j: int, key: T -> string)
    requires 0 <= j <= i < |s|
  {
    && (forall p, q :: 0 <= p < q <= i && p != j && q != j ==> !Less(key(s[p]), key(s[q])))
    && (forall q :: j < q <= i ==> !Less(key(s[j]), key(s[q])))
  }

  lemma InsertingStart<T>(s: seq<T>, i: int, key: T -> string)
    requires 0 <= i < |s| && SortedDesc(s[..i], key)
    ensures Inserting(s, i, i, key)
  {
    forall p, q | 0 <= p < q < i
      ensures !Less(key(s[p]), key(s[q]))
    {
      assert s[..i][p] == s[p] && s[..i][q] == s[q];
    }
  }

  /** Swapping `s[j]` with a smaller left neighbour moves the insertion point one to the left. */
  lemma InsertingSwap<T>(s: seq<T>, i: int, j: int, key: T -> string)
    requires 0 < j <= i < |s| && Inserting(s, i, j, key)
    requires Less(key(s[j - 1]), key(s[j]))
    ensures Inserting(s[j - 1 := s[j]][j := s[j - 1]], i, j - 1, key)
  {
    LessAsymmetric(key(s[j - 1]), key(s[j]));
  }

  /** Once the left neighbour is not smaller, the first `i + 1` keys are in order. */
  lemma InsertingDone<T>(s: seq<T>, i: int, j: int, key: T -> string)
    requires 0 <= j <= i < |s| && Inserting(s, i, j, key)
    requires j > 0 ==> !Less(key(s[j - 1]), key(s[j]))
    ensures SortedDesc(s[..i + 1], key)
  {
    forall p | 0 <= p < j
      ensures !Less(key(s[p]), key(s[j]))
    {
      if p < j - 1 {
        NotLessTransitive(key(s[p]), key(s[j - 1]), key(s[j]));
      }
    }
    var t := s[..i + 1];
    forall p, q | 0 <= p < q < |t|
      ensures !Less(key(t[p]), key(t[q]))
    {
      assert t[p] == s[p] && t[q] == s[q];
    }
  }

  /** One insertion step: a[i] moves left past every smaller key. */
  method InsertDesc<T>(a: array<T>, i: int, key: T -> string)
    requires 0 <= i < a.Length
    requires SortedDesc(a[..i], key)
    modifies a
    ensures SortedDesc(a[..i + 1], key)
    ensures multiset(a[..]) == multiset(old(a[..]))
  {
    InsertingStart(a[..], i, key);
    var j := i;
    while j > 0 && Less(key(a[j - 1]), key(a[j]))
      invariant 0 <= j <= i
      invariant Inserting(a[..], i, j, key)
      invariant multiset(a[..]) == multiset(old(a[..]))
    {
      InsertingSwap(a[..], i, j, key);
      ghost var before := a[..];
      a[j - 1], a[j] := a[j], a[j - 1];
      assert a[..] == before[j - 1 := before[j]][j := before[j - 1]];
      j := j - 1;
    }
    InsertingDone(a[..], i, j, key);
  }

  /** MicroFormatView.SortChildren, on the Children slice's backing array. */
  method SortChildren(children: array<MicroFormatView>)
    modifies children
    ensures SortedDesc(children[..], (c: MicroFormatView) => c.published)
    ensures multiset(children[..]) == multiset(old(children[..]))
  {
    SortDesc(children, (c: MicroFormatView) => c.published);
  }

  /** PostList: a page of posts and the paging key for the next one. */
  class PostList {
    var items: seq<MicroFormat>
    var after: Option<string>

    constructor ()
      ensures items == [] && after == None
    {
      items := [];
      after := None;
    }

    /** Add: one item appended. */
    method Add(item: MicroFormat)
      modifies this
      ensures items == old(items) + [item] && after == old(after)
    {
      items := items + [item];
    }

    /**
     * Sort, newest first. `publishedOf` stands for ToView().Published, the
     * normalized RFC 3339 published time. ToView reads Type[0], and sorting
     * two or more items compares each of them, so an item with no type
     * panics the sort; the items are then left as they were.
     */
    method Sort(publishedOf: MicroFormat -> string) returns (done: Run<()>)
      modifies this
      ensures done.Panicked? <==> |old(items)| >= 2 && exists i :: 0 <= i < |old(items)| && old(items)[i].types == []
      ensures done.Returned? ==> SortedDesc(items, publishedOf)
      ensures multiset(items) == multiset(old(items)) && after == old(after)
    {
      if |items| >= 2 && exists i :: 0 <= i < |items| && items[i].types == [] {
        return Panicked("index out of range [0] with length 0");
      }
      var s := items;
      var a := new MicroFormat[|s|](i requires 0 <= i < |s| => s[i]);
      assert a[..] == s;
      SortDesc(a, publishedOf);
      items := a[..];
      done := Returned(());
    }
  }
}
