/**
 * The parts of Go's `strings` and `net/url` packages that the core relies on:
 * white-space trimming, splitting on a separator, ASCII lower-casing, trimming
 * by a cut set or a prefix, lexicographic comparison and query escaping.
 */
module Text {

  // ---------------------------------------------------------------------------
  // White space (Go's unicode.IsSpace) and strings.TrimSpace
  // ---------------------------------------------------------------------------

  /** The characters Go's unicode.IsSpace accepts. */
  const Spaces: set<char> := {' ', '\t', '\n', '\U{000B}', '\U{000C}', '\r', '\U{0085}', '\U{00A0}', '\U{1680}',
                              '\U{2000}', '\U{2001}', '\U{2002}', '\U{2003}', '\U{2004}', '\U{2005}',
                              '\U{2006}', '\U{2007}', '\U{2008}', '\U{2009}', '\U{200A}',
                              '\U{2028}', '\U{2029}', '\U{202F}', '\U{205F}', '\U{3000}'}

  predicate AllSpace(s: string) {
    forall i :: 0 <= i < |s| ==> s[i] in Spaces
  }

  /** strings.TrimSpace */
  function TrimSpace(s: string): string {
    TrimRight(TrimLeft(s, Spaces), Spaces)
  }

  /** TrimSpace leaves nothing exactly when the string is all white space. */
  lemma TrimSpaceBlank(s: string)
    ensures TrimSpace(s) == "" <==> AllSpace(s)
  {
    var l := TrimLeft(s, Spaces);
    TrimLeftSuffix(s, Spaces);
    TrimRightPrefix(l, Spaces);
    CutAroundSlice(s, l, TrimRight(l, Spaces), Spaces);
  }

  // ---------------------------------------------------------------------------
  // strings.Split on a one-character separator, and its inverse
  // ---------------------------------------------------------------------------

  function IndexOf(s: string, c: char): (i: nat)
    requires c in s
    ensures i < |s| && s[i] == c && c !in s[..i]
  {
    if s[0] == c then 0 else 1 + IndexOf(s[1..], c)
  }

  /** The parts joined back with the separator (strings.Join). */
  function Join(parts: seq<string>, sep: char): string
    requires |parts| >= 1
  {
    if |parts| == 1 then parts[0] else parts[0] + [sep] + Join(parts[1..], sep)
  }

  /** Joining a part in front of at least one more. */
  lemma JoinCons(a: string, rest: seq<string>, sep: char)
    requires |rest| >= 1
    ensures Join([a] + rest, sep) == a + [sep] + Join(rest, sep)
  {
    assert ([a] + rest)[1..] == rest;
  }

  /**
   * strings.Split(s, sep): never empty, no part holds the separator, and the
   * parts joined back give `s`.
   */
  function Split(s: string, sep: char): (parts: seq<string>)
    ensures |parts| >= 1
    ensures forall p :: p in parts ==> sep !in p
    ensures Join(parts, sep) == s
    decreases |s|
  {
    if sep !in s then [s]
    else
      var i := IndexOf(s, sep);
      assert s == s[..i] + [sep] + s[i + 1..];
      [s[..i]] + Split(s[i + 1..], sep)
  }

  /** The first occurrence is at `k` when `s[k]` is `c` and no earlier character is. */
  lemma {:induction false} IndexOfAt(s: string, c: char, k: nat)
    requires k < |s| && s[k] == c && c !in s[..k]
    ensures IndexOf(s, c) == k
  {
    if k > 0 {
      assert s[0] == s[..k][0];
      assert s[1..][..k - 1] == s[..k][1..];
      IndexOfAt(s[1..], c, k - 1);
    }
  }

  /** Splitting a join of separator-free parts gives the parts back. */
  lemma {:induction false} SplitJoin(parts: seq<string>, sep: char)
    requires |parts| >= 1
    requires forall p :: p in parts ==> sep !in p
    ensures Split(Join(parts, sep), sep) == parts
  {
    if |parts| > 1 {
      var s := Join(parts, sep);
      var k := |parts[0]|;
      assert s == parts[0] + [sep] + Join(parts[1..], sep);
      assert s[..k] == parts[0];
      IndexOfAt(s, sep, k);
      assert s[k + 1..] == Join(parts[1..], sep);
      SplitJoin(parts[1..], sep);
    }
  }

  // ---------------------------------------------------------------------------
  // Case, trimming and prefixes
  // ---------------------------------------------------------------------------

  function LowerChar(c: char): char {
    if 'A' <= c <= 'Z' then (c as int + 32) as char else c
  }

  /** strings.ToLower, for the ASCII letters. */
  function ToLower(s: string): (r: string)
    ensures |r| == |s|
    ensures forall i :: 0 <= i < |s| ==> r[i] == LowerChar(s[i])
  {
    if s == [] then [] else [LowerChar(s[0])] + ToLower(s[1..])
  }

  /** Lower-casing twice is lower-casing once. */
  lemma ToLowerIdempotent(s: string)
    ensures ToLower(ToLower(s)) == ToLower(s)
  {
  }

  /** `r` is the slice of `s` at `i`, and every character of `s` around it is in `cut`. */
  predicate CutAround(s: string, i: int, r: string, cut: set<char>) {
    && 0 <= i <= |s| - |r| && r == s[i..i + |r|]
    && (forall k :: 0 <= k < i ==> s[k] in cut)
    && (forall k :: i + |r| <= k < |s| ==> s[k] in cut)
  }

  /**
   * strings.Trim(s, cut): TrimRight of TrimLeft with the cut set. What is
   * left is a slice of `s` that neither starts nor ends with a cut
   * character, and everything dropped around it is in the cut set.
   */
  function TrimCutset(s: string, cut: set<char>): (r: string)
    ensures |r| <= |s|
    ensures r != [] ==> r[0] !in cut && r[|r| - 1] !in cut
  {
    var l := TrimLeft(s, cut);
    TrimLeftSuffix(s, cut);
    TrimRightPrefix(l, cut);
    TrimRight(l, cut)
  }

  /** What Trim keeps is one slice of its input, with only cut characters around it. */
  lemma TrimCutsetSlice(s: string, cut: set<char>)
    ensures exists i :: CutAround(s, i, TrimCutset(s, cut), cut)
  {
    var l := TrimLeft(s, cut);
    TrimLeftSuffix(s, cut);
    TrimRightPrefix(l, cut);
    CutAroundSlice(s, l, TrimRight(l, cut), cut);
    assert CutAround(s, |s| - |l|, TrimCutset(s, cut), cut);
  }

  /**
   * A suffix `l` of `s` with only cut characters before it, and a prefix `r`
   * of `l` with only cut characters after it: `r` sits in `s` at |s| - |l|.
   */
  lemma CutAroundSlice(s: string, l: string, r: string, cut: set<char>)
    requires |l| <= |s| && l == s[|s| - |l|..]
    requires forall k :: 0 <= k < |s| - |l| ==> s[k] in cut
    requires |r| <= |l| && r == l[..|r|]
    requires forall k :: |r| <= k < |l| ==> l[k] in cut
    ensures CutAround(s, |s| - |l|, r, cut)
  {
    var i := |s| - |l|;
    assert r == s[i..i + |r|];
    forall k | i + |r| <= k < |s|
      ensures s[k] in cut
    {
      assert s[k] == l[k - i];
    }
  }

  /** strings.TrimLeft: drops the leading characters of the cut set. */
  function TrimLeft(s: string, cut: set<char>): (r: string)
    ensures |r| <= |s|
  {
    if |s| > 0 && s[0] in cut then TrimLeft(s[1..], cut) else s
  }

  /** strings.TrimRight: drops the trailing characters of the cut set. */
  function TrimRight(s: string, cut: set<char>): (r: string)
    ensures |r| <= |s|
  {
    if |s| > 0 && s[|s| - 1] in cut then TrimRight(s[..|s| - 1], cut) else s
  }

  /** What TrimLeft keeps is a suffix of its input, and all it drops is in the cut set. */
  lemma {:induction false} TrimLeftSuffix(s: string, cut: set<char>)
    ensures TrimLeft(s, cut) == s[|s| - |TrimLeft(s, cut)|..]
    ensures forall k :: 0 <= k < |s| - |TrimLeft(s, cut)| ==> s[k] in cut
    ensures TrimLeft(s, cut) != [] ==> TrimLeft(s, cut)[0] !in cut
  {
    if |s| > 0 && s[0] in cut {
      TrimLeftSuffix(s[1..], cut);
    }
  }

  /** What TrimRight keeps is a prefix of its input, and all it drops is in the cut set. */
  lemma {:induction false} TrimRightPrefix(s: string, cut: set<char>)
    ensures TrimRight(s, cut) == s[..|TrimRight(s, cut)|]
    ensures forall k :: |TrimRight(s, cut)| <= k < |s| ==> s[k] in cut
    ensures TrimRight(s, cut) != [] ==> TrimRight(s, cut)[|TrimRight(s, cut)| - 1] !in cut
  {
    if |s| > 0 && s[|s| - 1] in cut {
      TrimRightPrefix(s[..|s| - 1], cut);
    }
  }

  /** Characters of the cut set around a string are all dropped, and nothing inside it. */
  lemma TrimCutsetAround(pre: string, s: string, post: string, cut: set<char>)
    requires forall i :: 0 <= i < |pre| ==> pre[i] in cut
    requires forall i :: 0 <= i < |post| ==> post[i] in cut
    requires s != [] && s[0] !in cut && s[|s| - 1] !in cut
    ensures TrimCutset(pre + s + post, cut) == s
  {
    TrimLeftPadding(pre, s + post, cut);
    assert pre + s + post == pre + (s + post);
    TrimRightPadding(s, post, cut);
  }

  lemma {:induction false} TrimLeftPadding(pre: string, s: string, cut: set<char>)
    requires forall i :: 0 <= i < |pre| ==> pre[i] in cut
    requires s != [] && s[0] !in cut
    ensures TrimLeft(pre + s, cut) == s
  {
    if pre == [] {
      assert pre + s == s;
    } else {
      assert (pre + s)[1..] == pre[1..] + s;
      TrimLeftPadding(pre[1..], s, cut);
    }
  }

  lemma {:induction false} TrimRightPadding(s: string, post: string, cut: set<char>)
    requires forall i :: 0 <= i < |post| ==> post[i] in cut
    requires s != [] && s[|s| - 1] !in cut
    ensures TrimRight(s + post, cut) == s
  {
    if post == [] {
      assert s + post == s;
    } else {
      var t := s + post;
      assert t[..|t| - 1] == s + post[..|post| - 1];
      TrimRightPadding(s, post[..|post| - 1], cut);
    }
  }

  /** strings.TrimPrefix */
  function TrimPrefix(s: string, prefix: string): (r: string)
    ensures prefix <= s ==> prefix + r == s
    ensures !(prefix <= s) ==> r == s
  {
    if prefix <= s then s[|prefix|..] else s
  }

  // ---------------------------------------------------------------------------
  // Go's string order (byte-wise, which for UTF-8 is code-point order)
  // ---------------------------------------------------------------------------

  /** a < b in Go's string comparison. */
  predicate Less(a: string, b: string) {
    if a == [] then b != []
    else if b == [] then false
    else a[0] < b[0] || (a[0] == b[0] && Less(a[1..], b[1..]))
  }

  lemma {:induction false} LessIrreflexive(a: string)
    ensures !Less(a, a)
  {
    if a != [] { LessIrreflexive(a[1..]); }
  }

  lemma {:induction false} LessTransitive(a: string, b: string, c: string)
    requires Less(a, b) && Less(b, c)
    ensures Less(a, c)
  {
    if a != [] && b != [] && c != [] && a[0] == b[0] == c[0] {
      LessTransitive(a[1..], b[1..], c[1..]);
    }
  }

  lemma {:induction false} LessTotal(a: string, b: string)
    ensures a == b || Less(a, b) || Less(b, a)
  {
    if a != [] && b != [] && a[0] == b[0] {
      LessTotal(a[1..], b[1..]);
      if a[1..] == b[1..] { assert a == [a[0]] + a[1..] && b == [b[0]] + b[1..]; }
    }
  }

  // ---------------------------------------------------------------------------
  // url.QueryEscape: UTF-8 bytes, unreserved characters kept, ' ' as '+'
  // ---------------------------------------------------------------------------

  /** Characters url.QueryEscape leaves as they are. */
  predicate Unreserved(c: char) {
    ('a' <= c <= 'z') || ('A' <= c <= 'Z') || ('0' <= c <= '9') || c == '-' || c == '_' || c == '.' || c == '~'
  }

  /** The UTF-8 encoding of one character, as byte values. */
  function Utf8(c: char): (bytes: seq<int>)
    ensures 1 <= |bytes| <= 4
    ensures forall i :: 0 <= i < |bytes| ==> 0 <= bytes[i] < 256
  {
    var n := c as int;
    if n < 0x80 then [n]
    else if n < 0x800 then [0xC0 + n / 0x40, 0x80 + n % 0x40]
    else if n < 0x1_0000 then [0xE0 + n / 0x1000, 0x80 + (n / 0x40) % 0x40, 0x80 + n % 0x40]
    else [0xF0 + n / 0x4_0000, 0x80 + (n / 0x1000) % 0x40, 0x80 + (n / 0x40) % 0x40, 0x80 + n % 0x40]
  }

  function HexDigit(d: int): (h: char)
    requires 0 <= d < 16
    ensures ('0' <= h <= '9') || ('A' <= h <= 'F')
  {
    "0123456789ABCDEF"[d]
  }

  /** "%XX" for every byte, upper-case hex. */
  function PercentEncode(bytes: seq<int>): (r: string)
    requires forall i :: 0 <= i < |bytes| ==> 0 <= bytes[i] < 256
    ensures |r| == 3 * |bytes|
    ensures forall i :: 0 <= i < |r| ==> r[i] == '%' || Unreserved(r[i])
  {
    if bytes == [] then ""
    else ['%', HexDigit(bytes[0] / 16), HexDigit(bytes[0] % 16)] + PercentEncode(bytes[1..])
  }

  /** One character of url.QueryEscape's output. */
  function EscapeChar(c: char): (r: string)
    ensures r != []
    ensures forall i :: 0 <= i < |r| ==> r[i] == '%' || r[i] == '+' || Unreserved(r[i])
  {
    if Unreserved(c) then [c]
    else if c == ' ' then "+"
    else PercentEncode(Utf8(c))
  }

  /**
   * url.QueryEscape: the result only holds unreserved characters, '%' and '+',
   * so no escaped value can add a parameter ('&'), a key ('='), or end the
   * query ('#').
   */
  function QueryEscape(s: string): (r: string)
    ensures |r| >= |s|
    ensures forall i :: 0 <= i < |r| ==> r[i] == '%' || r[i] == '+' || Unreserved(r[i])
  {
    if s == [] then "" else EscapeChar(s[0]) + QueryEscape(s[1..])
  }

  /** A string of unreserved characters (a year, a month number) escapes to itself. */
  lemma {:induction false} QueryEscapeUnreserved(s: string)
    requires forall i :: 0 <= i < |s| ==> Unreserved(s[i])
    ensures QueryEscape(s) == s
  {
    if s != [] {
      QueryEscapeUnreserved(s[1..]);
    }
  }
}
