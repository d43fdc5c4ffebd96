/** The `config.impl.FieldIdentity` of the `config` generation: the same idea as
    `FieldIdentityImpl`, always case-sensitive. */
module LegacyFieldIdentities {
  import opened Wrappers
  import opened JavaText
  import JavaNumbers
  import opened LineTokens
  import FieldIdentities

  datatype FieldIdentityValue = FieldIdentityValue(startPosition: Option<int>, fieldLength: Option<int>, matchingStrings: set<string>)

  /** `doesMatch`: a line shorter than the field's end never matches; otherwise some matching
      string must region-match, case-sensitively, at the start position. */
  predicate LineMatches(id: FieldIdentityValue, line: string)
    requires id.startPosition.Some? && id.fieldLength.Some?
  {
    var start, len := id.startPosition.value, id.fieldLength.value;
    !(|line| < JavaNumbers.Int32(start + len)) &&
    exists m :: m in id.matchingStrings && RegionMatches(false, line, start, m, 0, len)
  }

  /** `matchesIdentity(LineToken)`: the chain of conditions, each only narrowing the verdict. */
  predicate TokenMatches(id: FieldIdentityValue, t: TokenValue) {
    var m1 := id.startPosition.Some? && t.columnPosition == id.startPosition.value;
    var m2 := if id.fieldLength.Some? then m1 && t.fullTokenLength == id.fieldLength.value else m1;
    m2 && t.token in id.matchingStrings
  }

  /** The identity of the current generation with case folding off. */
  function AsCurrent(id: FieldIdentityValue): FieldIdentities.FieldIdentityValue {
    FieldIdentities.FieldIdentityValue(id.startPosition, id.fieldLength, id.matchingStrings, false)
  }

  /** Both generations agree, line by line and token by token, once case folding is off. */
  lemma AgreesWithCurrent(id: FieldIdentityValue, line: string, t: TokenValue)
    ensures TokenMatches(id, t) <==> FieldIdentities.TokenMatches(AsCurrent(id), t)
    ensures id.startPosition.Some? && id.fieldLength.Some? ==>
      (LineMatches(id, line) <==> FieldIdentities.LineMatches(AsCurrent(id), Some(line)))
  {
  }

  /** With a start position set, the token needs that column, the set length if any, and
      exactly one of the matching strings as its text; without one it never matches. */
  lemma TokenConditions(id: FieldIdentityValue, t: TokenValue)
    ensures id.startPosition.None? ==> !TokenMatches(id, t)
    ensures id.startPosition.Some? ==> (TokenMatches(id, t) <==>
      t.columnPosition == id.startPosition.value &&
      (id.fieldLength.Some? ==> t.fullTokenLength == id.fieldLength.value) &&
      t.token in id.matchingStrings)
  {
  }

  /** The match rule for a field inside the line: some matching string starts with the field's
      text. */
  lemma LineMatchRule(id: FieldIdentityValue, l: string)
    requires id.startPosition.Some? && id.fieldLength.Some?
    requires var start, len := id.startPosition.value, id.fieldLength.value;
      0 <= start && 0 <= len && start + len <= |l| <= JavaNumbers.INT_MAX
    ensures var start, len := id.startPosition.value, id.fieldLength.value;
      LineMatches(id, l) <==> exists m :: m in id.matchingStrings && len <= |m| && l[start..start + len] == m[..len]
  {
    FieldIdentities.LineMatchRule(AsCurrent(id), l);
  }

  /** A line shorter than the field's end never matches. */
  lemma ShortLinesNeverMatch(id: FieldIdentityValue, line: string)
    requires id.startPosition.Some? && id.fieldLength.Some?
    requires JavaNumbers.INT_MIN <= id.startPosition.value + id.fieldLength.value <= JavaNumbers.INT_MAX
    requires |line| < id.startPosition.value + id.fieldLength.value
    ensures !LineMatches(id, line)
  {
  }

  class FieldIdentity {
    var startPosition: Option<int>
    var fieldLength: Option<int>
    var matchingStrings: set<string>

    function View(): FieldIdentityValue
      reads this
    {
      FieldIdentityValue(startPosition, fieldLength, matchingStrings)
    }

    constructor()
      ensures View() == FieldIdentityValue(None, None, {})
    {
      startPosition := None;
      fieldLength := None;
      matchingStrings := {};
    }

    /** `addMatchingString`: stored as given. */
    method AddMatchingString(matchingString: string)
      modifies this
      ensures View() == old(View()).(matchingStrings := old(matchingStrings) + {matchingString})
    {
      matchingStrings := matchingStrings + {matchingString};
    }

    /** `doesMatch`, with the source's search loop and early exit. */
    method DoesMatch(line: string) returns (matchesLine: bool)
      requires startPosition.Some? && fieldLength.Some?
      ensures matchesLine == LineMatches(View(), line)
    {
      var start, len := startPosition.value, fieldLength.value;
      matchesLine := false;
      if |line| < JavaNumbers.Int32(start + len) {
        matchesLine := false;
      } else {
        var remaining := matchingStrings;
        while remaining != {}
          invariant remaining <= matchingStrings
          invariant !matchesLine
          invariant forall m :: m in matchingStrings && m !in remaining ==> !RegionMatches(false, line, start, m, 0, len)
          decreases |remaining|
        {
          var matchingString :| matchingString in remaining;
          if RegionMatches(false, line, start, matchingString, 0, len) {
            matchesLine := true;
            break;
          }
          remaining := remaining - {matchingString};
        }
      }
    }

    /** `write`: every matching string followed by the delimiter (none when it is null), in
        the set's iteration order. */
    method Write(delimiter: Option<string>) returns (out: string, ghost order: seq<string>)
      ensures IsListing(order, matchingStrings)
      ensures out == EachFollowedBy(order, delimiter.GetOr(""))
    {
      var delimit := delimiter.GetOr("");
      var remaining := matchingStrings;
      out := [];
      order := [];
      while remaining != {}
        invariant remaining <= matchingStrings
        invariant forall i :: 0 <= i < |order| ==> order[i] in matchingStrings && order[i] !in remaining
        invariant forall m :: m in matchingStrings && m !in remaining ==> m in order
        invariant forall i, j :: 0 <= i < j < |order| ==> order[i] != order[j]
        invariant out == EachFollowedBy(order, delimit)
        decreases |remaining|
      {
        var m :| m in remaining;
        EachFollowedBySnoc(order, m, delimit);
        out := out + m + delimit;
        order := order + [m];
        remaining := remaining - {m};
      }
    }
  }

  /** Each part followed by the separator. */
  function EachFollowedBy(parts: seq<string>, sep: string): (r: string)
    ensures |r| == SumLengths(parts) + |parts| * |sep|
  {
    if parts == [] then [] else parts[0] + sep + EachFollowedBy(parts[1..], sep)
  }

  function SumLengths(parts: seq<string>): nat {
    if parts == [] then 0 else |parts[0]| + SumLengths(parts[1..])
  }

  lemma {:induction false} EachFollowedBySnoc(parts: seq<string>, last: string, sep: string)
    ensures EachFollowedBy(parts + [last], sep) == EachFollowedBy(parts, sep) + last + sep
  {
    if parts == [] {
      assert parts + [last] == [last];
    } else {
      assert (parts + [last])[1..] == parts[1..] + [last];
      EachFollowedBySnoc(parts[1..], last, sep);
    }
  }
}
