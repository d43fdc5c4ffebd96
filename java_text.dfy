/** The parts of `java.lang.String`, `Character` and Commons-Lang `StringUtils` that the library
    relies on, restated over `seq<char>`. Case mapping covers the ASCII letters only. */
module JavaText {
  import opened Wrappers

  /** `Character.isWhitespace` on the ASCII range: space, tab, line feed, vertical tab, form
      feed, carriage return and the four C0 separators. */
  predicate IsWhitespace(c: char) {
    var n := c as int;
    n == 32 || (9 <= n <= 13) || (28 <= n <= 31)
  }

  /** A non-null string made only of whitespace (the empty string included). */
  predicate Blank(s: string) {
    forall i :: 0 <= i < |s| ==> IsWhitespace(s[i])
  }

  /** `StringUtils.isBlank`: null, empty or only whitespace. */
  predicate IsBlank(s: Option<string>) {
    s.None? || Blank(s.value)
  }

  predicate IsAsciiUpper(c: char) { 'A' <= c <= 'Z' }

  predicate IsAsciiLower(c: char) { 'a' <= c <= 'z' }

  predicate IsAsciiDigit(c: char) { '0' <= c <= '9' }

  function LowerChar(c: char): (r: char)
    ensures !IsAsciiUpper(r)
    ensures IsAsciiUpper(c) || r == c
  {
    if IsAsciiUpper(c) then (c as int + 32) as char else c
  }

  function UpperChar(c: char): (r: char)
    ensures !IsAsciiLower(r)
    ensures IsAsciiLower(c) || r == c
  {
    if IsAsciiLower(c) then (c as int - 32) as char else c
  }

  /** `String.toLowerCase`. */
  function ToLower(s: string): (r: string)
    ensures |r| == |s|
    ensures forall i :: 0 <= i < |s| ==> r[i] == LowerChar(s[i])
  {
    seq(|s|, i requires 0 <= i < |s| => LowerChar(s[i]))
  }

  /** `String.toUpperCase`. */
  function ToUpper(s: string): (r: string)
    ensures |r| == |s|
    ensures forall i :: 0 <= i < |s| ==> r[i] == UpperChar(s[i])
  {
    seq(|s|, i requires 0 <= i < |s| => UpperChar(s[i]))
  }

  /** Lower-casing twice is lower-casing once. */
  lemma ToLowerIdempotent(s: string)
    ensures ToLower(ToLower(s)) == ToLower(s)
  {
    assert forall i :: 0 <= i < |s| ==> LowerChar(LowerChar(s[i])) == LowerChar(s[i]);
  }

  lemma UpperIdempotent(s: string)
    ensures ToUpper(ToUpper(s)) == ToUpper(s)
  {
  }

  lemma LowerOfUpper(s: string)
    ensures ToLower(ToUpper(s)) == ToLower(s)
  {
    forall i | 0 <= i < |s| ensures LowerChar(UpperChar(s[i])) == LowerChar(s[i]) {
    }
  }

  lemma UpperOfLower(s: string)
    ensures ToUpper(ToLower(s)) == ToUpper(s)
  {
    forall i | 0 <= i < |s| ensures UpperChar(LowerChar(s[i])) == UpperChar(s[i]) {
    }
  }

  lemma BlankUpper(s: string)
    ensures Blank(ToUpper(s)) <==> Blank(s)
  {
    assert forall i :: 0 <= i < |s| ==> (IsWhitespace(ToUpper(s)[i]) <==> IsWhitespace(s[i]));
  }

  lemma BlankLower(s: string)
    ensures Blank(ToLower(s)) <==> Blank(s)
  {
    assert forall i :: 0 <= i < |s| ==> (IsWhitespace(ToLower(s)[i]) <==> IsWhitespace(s[i]));
  }

  /** Two characters that `String.regionMatches` treats as equal. */
  predicate CharsMatch(ignoreCase: bool, a: char, b: char) {
    a == b || (ignoreCase && LowerChar(a) == LowerChar(b))
  }

  /** `String.equalsIgnoreCase` on a non-null argument. */
  predicate EqualsIgnoreCase(a: string, b: string) {
    |a| == |b| && forall i :: 0 <= i < |a| ==> LowerChar(a[i]) == LowerChar(b[i])
  }

  /** `s.regionMatches(ignoreCase, toffset, other, ooffset, len)`: false when either region
      leaves its string, otherwise whether the `len` characters agree. */
  predicate RegionMatches(ignoreCase: bool, s: string, toffset: int, other: string, ooffset: int, len: int) {
    0 <= ooffset && 0 <= toffset && toffset <= |s| - len && ooffset <= |other| - len &&
    (len <= 0 || RegionsAgree(ignoreCase, s[toffset..toffset + len], other[ooffset..ooffset + len]))
  }

  /** Two regions of equal length that agree character by character. */
  predicate RegionsAgree(ignoreCase: bool, a: string, b: string)
    requires |a| == |b|
  {
    forall k :: 0 <= k < |a| ==> CharsMatch(ignoreCase, a[k], b[k])
  }

  /** `s.startsWith(prefix)`. */
  predicate StartsWith(s: string, prefix: string) {
    |prefix| <= |s| && s[..|prefix|] == prefix
  }

  /** `s.indexOf(c)`: the first position of `c`, or -1. */
  function IndexOf(s: string, c: char): (r: int)
    ensures -1 <= r < |s|
    ensures r == -1 <==> c !in s
    ensures r >= 0 ==> s[r] == c && c !in s[..r]
  {
    if |s| == 0 then -1
    else if s[0] == c then 0
    else
      var j := IndexOf(s[1..], c);
      if j == -1 then
        assert s == [s[0]] + s[1..];
        -1
      else
        assert s[..j + 1] == [s[0]] + s[1..][..j];
        j + 1
  }

  /** `s.lastIndexOf(c)`: the last position of `c`, or -1. */
  function LastIndexOf(s: string, c: char): (r: int)
    ensures -1 <= r < |s|
    ensures r == -1 <==> c !in s
    ensures r >= 0 ==> s[r] == c && c !in s[r + 1..]
  {
    if |s| == 0 then -1
    else if s[|s| - 1] == c then |s| - 1
    else
      var t := s[..|s| - 1];
      var j := LastIndexOf(t, c);
      assert s == t + [s[|s| - 1]];
      if j == -1 then -1
      else
        assert s[j + 1..] == t[j + 1..] + [s[|s| - 1]];
        j
  }

  /** The longest prefix of `s` made only of characters that `String.trim` removes. */
  function TrimStart(s: string): (r: string)
    ensures |r| <= |s| && r == s[|s| - |r|..]
    ensures r == [] || r[0] > ' '
    ensures forall i :: 0 <= i < |s| - |r| ==> s[i] <= ' '
  {
    if |s| > 0 && s[0] <= ' ' then TrimStart(s[1..]) else s
  }

  function TrimEnd(s: string): (r: string)
    ensures |r| <= |s| && r == s[..|r|]
    ensures r == [] || r[|r| - 1] > ' '
    ensures forall i :: |r| <= i < |s| ==> s[i] <= ' '
  {
    if |s| > 0 && s[|s| - 1] <= ' ' then TrimEnd(s[..|s| - 1]) else s
  }

  /** `String.trim`: drops the characters up to U+0020 at both ends. */
  function Trim(s: string): string {
    TrimEnd(TrimStart(s))
  }

  /** The pieces of `s` between occurrences of `c`, empty pieces included. */
  function Pieces(s: string, c: char): (r: seq<string>)
    ensures |r| >= 1
    ensures forall k :: 0 <= k < |r| ==> c !in r[k]
  {
    var i := IndexOf(s, c);
    if i == -1 then [s]
    else
      assert c !in s[..i];
      [s[..i]] + Pieces(s[i + 1..], c)
  }

  /** `String.split` on a one-character pattern: the pieces without their trailing empty
      strings, except that an empty input gives one empty piece. */
  function JavaSplit(s: string, c: char): seq<string> {
    if s == [] then [[]] else DropTrailingEmpty(Pieces(s, c))
  }

  function DropTrailingEmpty(p: seq<string>): (r: seq<string>)
    ensures |r| <= |p| && r == p[..|r|]
  {
    if |p| > 0 && p[|p| - 1] == [] then DropTrailingEmpty(p[..|p| - 1]) else p
  }

  /** With both regions inside their strings, `regionMatches` compares the region of `s` at
      `toffset` with the first `len` characters of `other`. */
  lemma RegionMatchesMeans(ignoreCase: bool, s: string, toffset: int, other: string, len: int)
    requires 0 <= toffset && 0 <= len && toffset + len <= |s|
    ensures RegionMatches(ignoreCase, s, toffset, other, 0, len) <==>
      len <= |other| && RegionsAgree(ignoreCase, s[toffset..toffset + len], other[..len])
  {
  }

  /** Case-insensitive equality is equality after lower-casing. */
  lemma EqualsIgnoreCaseLower(a: string, b: string)
    ensures EqualsIgnoreCase(a, b) <==> ToLower(a) == ToLower(b)
  {
    if ToLower(a) == ToLower(b) {
      assert forall i :: 0 <= i < |a| ==> ToLower(a)[i] == ToLower(b)[i];
    }
  }

  /** `order` lists every element of `s` exactly once: one iteration order of a hash set. */
  predicate IsListing(order: seq<string>, s: set<string>) {
    (forall i :: 0 <= i < |order| ==> order[i] in s) &&
    (forall x :: x in s ==> x in order) &&
    (forall i, j :: 0 <= i < j < |order| ==> order[i] != order[j])
  }

  /** `order` lists, once each, the elements of `all` already visited: those not in `keys`. */
  predicate PartialListing(order: seq<string>, keys: set<string>, all: set<string>) {
    keys <= all &&
    (forall i :: 0 <= i < |order| ==> order[i] in all && order[i] !in keys) &&
    (forall x :: x in all && x !in keys ==> x in order) &&
    (forall i, j :: 0 <= i < j < |order| ==> order[i] != order[j])
  }

  /** Visiting one more element keeps the partial listing. */
  lemma PartialListingStep(order: seq<string>, keys: set<string>, all: set<string>, key: string)
    requires PartialListing(order, keys, all) && key in keys
    ensures PartialListing(order + [key], keys - {key}, all)
  {
  }

  /** A partial listing followed by a listing of what is left lists the whole set. */
  lemma PartialListingDone(order: seq<string>, keys: set<string>, all: set<string>, rest: seq<string>)
    requires PartialListing(order, keys, all) && IsListing(rest, keys)
    ensures IsListing(order + rest, all)
  {
    var whole := order + rest;
    forall i, j | 0 <= i < j < |whole| ensures whole[i] != whole[j] {
      if j >= |order| && i < |order| {
        assert whole[j] == rest[j - |order|];
      }
    }
    forall x | x in all ensures x in whole {
      if x in keys {
        var k :| 0 <= k < |rest| && rest[k] == x;
        assert whole[|order| + k] == x;
      } else {
        var k :| 0 <= k < |order| && order[k] == x;
        assert whole[k] == x;
      }
    }
  }

  /** Some iteration order of a finite set. */
  ghost function SomeListing(s: set<string>): (r: seq<string>)
    ensures IsListing(r, s)
    decreases |s|
  {
    if s == {} then []
    else
      var x :| x in s;
      [x] + SomeListing(s - {x})
  }

  /** `Joiner.on(sep).join(parts)`. */
  function Joined(parts: seq<string>, sep: string): (r: string)
    ensures parts == [] ==> r == []
  {
    if parts == [] then []
    else if |parts| == 1 then parts[0]
    else parts[0] + sep + Joined(parts[1..], sep)
  }

  /** Joining one more part adds the separator and the part after what was joined. */
  lemma {:induction false} JoinedSnoc(parts: seq<string>, last: string, sep: string)
    ensures Joined(parts + [last], sep) == if parts == [] then last else Joined(parts, sep) + sep + last
  {
    if parts != [] {
      assert (parts + [last])[1..] == parts[1..] + [last];
      JoinedSnoc(parts[1..], last, sep);
    }
  }

  /** `x` can be found in `s` at position `i`. */
  predicate OccursAt(x: string, s: string, i: int) {
    0 <= i && i + |x| <= |s| && s[i..i + |x|] == x
  }

  /** `s.contains(x)`. */
  predicate Occurs(x: string, s: string) {
    exists i :: 0 <= i <= |s| && OccursAt(x, s, i)
  }

  /** A piece can be found where it was put. */
  lemma OccursBetween(a: string, x: string, c: string)
    ensures Occurs(x, a + x + c)
  {
    var s := a + x + c;
    assert s[|a|..|a| + |x|] == x;
    assert OccursAt(x, s, |a|);
  }

  /** Each of four pieces can be found in their concatenation, which is empty exactly when
      they all are. */
  lemma OccursInFour(p1: string, p2: string, p3: string, p4: string)
    ensures Occurs(p1, p1 + p2 + p3 + p4) && Occurs(p2, p1 + p2 + p3 + p4)
    ensures Occurs(p3, p1 + p2 + p3 + p4) && Occurs(p4, p1 + p2 + p3 + p4)
    ensures p1 + p2 + p3 + p4 == "" <==> p1 == "" && p2 == "" && p3 == "" && p4 == ""
  {
    var s := p1 + p2 + p3 + p4;
    OccursBetween("", p1, p2 + p3 + p4);
    assert "" + p1 + (p2 + p3 + p4) == s;
    OccursBetween(p1, p2, p3 + p4);
    assert p1 + p2 + (p3 + p4) == s;
    OccursBetween(p1 + p2, p3, p4);
    OccursBetween(p1 + p2 + p3, p4, "");
    assert p1 + p2 + p3 + p4 + "" == s;
  }

  /** Every part can be found in the joined text. */
  lemma {:induction false} JoinedContains(parts: seq<string>, sep: string, k: nat)
    requires k < |parts|
    ensures Occurs(parts[k], Joined(parts, sep))
  {
    var j := Joined(parts, sep);
    if |parts| == 1 || k == 0 {
      assert j[0..|parts[k]|] == parts[k];
      assert OccursAt(parts[k], j, 0);
    } else {
      var head := parts[0] + sep;
      var rest := Joined(parts[1..], sep);
      JoinedContains(parts[1..], sep, k - 1);
      var x := parts[k];
      assert x == parts[1..][k - 1];
      var i :| 0 <= i <= |rest| && OccursAt(x, rest, i);
      assert j == head + rest;
      assert j[|head| + i..|head| + i + |x|] == rest[i..i + |x|];
      assert OccursAt(x, j, |head| + i);
    }
  }

  /** Case-sensitive region agreement is equality; case-insensitive agreement is
      `equalsIgnoreCase`. */
  lemma RegionsAgreeMeans(ignoreCase: bool, a: string, b: string)
    requires |a| == |b|
    ensures !ignoreCase ==> (RegionsAgree(ignoreCase, a, b) <==> a == b)
    ensures ignoreCase ==> (RegionsAgree(ignoreCase, a, b) <==> EqualsIgnoreCase(a, b))
  {
    if !ignoreCase && RegionsAgree(ignoreCase, a, b) {
      assert forall k :: 0 <= k < |a| ==> a[k] == b[k];
    }
  }
}
