/** `config.impl.FieldIdentityImpl`: a record or line is identified by a fixed-position field
    of the data line, or by a token of a delimited line, whose text is one of a set of matching
    strings, optionally ignoring case. */
module FieldIdentities {
  import opened Wrappers
  import opened JavaText
  import JavaNumbers
  import opened LineTokens

  /** The state of a field identity. The start position and field length are `Integer`s that
      may be null. */
  datatype FieldIdentityValue = FieldIdentityValue(
    startPosition: Option<int>, fieldLength: Option<int>, matchingStrings: set<string>, ignoreCase: bool)

  /** The form a string is stored and compared in: lower-cased when the identity ignores case. */
  function Folded(ignoreCase: bool, s: string): (r: string)
    ensures !ignoreCase ==> r == s
    ensures ignoreCase ==> r == ToLower(s)
  {
    if ignoreCase then ToLower(s) else s
  }

  /** `matchesIdentity(record, fileFormat, line)`: a null line and a line shorter than the
      field's end never match; otherwise some matching string must agree with the
      `fieldLength` characters at `startPosition`. The end is an `int` sum and wraps. Both
      positions are unboxed, so they must be set. */
  predicate LineMatches(id: FieldIdentityValue, line: Option<string>)
    requires line.Some? ==> id.startPosition.Some? && id.fieldLength.Some?
  {
    match line
    case None => false
    case Some(l) =>
      var start, len := id.startPosition.value, id.fieldLength.value;
      !(|l| < JavaNumbers.Int32(start + len)) &&
      exists m :: m in id.matchingStrings && RegionMatches(id.ignoreCase, l, start, m, 0, len)
  }

  /** `matchesIdentity(LineToken)`: the token must start at `startPosition` (so a null start
      never matches), have the raw length `fieldLength` when that is set, and its case-folded
      text must be one of the matching strings. */
  predicate TokenMatches(id: FieldIdentityValue, t: TokenValue) {
    id.startPosition.Some? && t.columnPosition == id.startPosition.value &&
    (id.fieldLength.None? || t.fullTokenLength == id.fieldLength.value) &&
    Folded(id.ignoreCase, t.token) in id.matchingStrings
  }

  /** `matchesIdentity(String)`: membership of the case-folded token. */
  predicate StringMatches(id: FieldIdentityValue, token: string) {
    Folded(id.ignoreCase, token) in id.matchingStrings
  }

  class FieldIdentityImpl {
    var startPosition: Option<int>
    var fieldLength: Option<int>
    var matchingStrings: set<string>
    const ignoreCase: bool

    function View(): FieldIdentityValue
      reads this
    {
      FieldIdentityValue(startPosition, fieldLength, matchingStrings, ignoreCase)
    }

    /** `new FieldIdentityImpl(ignoreCase)`: no positions and no matching strings. */
    constructor(ignoreCase: bool)
      ensures View() == FieldIdentityValue(None, None, {}, ignoreCase)
    {
      this.ignoreCase := ignoreCase;
      startPosition := None;
      fieldLength := None;
      matchingStrings := {};
    }

    /** `addMatchingString`: the string goes in lower-cased when the identity ignores case, as
        given otherwise; it then matches as a token text. */
    method AddMatchingString(matchingString: string)
      modifies this
      ensures View() == old(View()).(matchingStrings := old(matchingStrings) + {Folded(ignoreCase, matchingString)})
      ensures StringMatches(View(), matchingString)
    {
      var valueToAdd := matchingString;
      if ignoreCase {
        valueToAdd := ToLower(valueToAdd);
      }
      matchingStrings := matchingStrings + {valueToAdd};
    }

    /** `matchesIdentity(record, fileFormat, line)`, with the source's search loop over the set
        and its early exit. */
    method MatchesIdentityLine(line: Option<string>) returns (matchesLine: bool)
      requires line.Some? ==> startPosition.Some? && fieldLength.Some?
      ensures matchesLine == LineMatches(View(), line)
    {
      if line.None? {
        return false;
      }
      var l := line.value;
      var start, len := startPosition.value, fieldLength.value;
      matchesLine := false;
      if |l| < JavaNumbers.Int32(start + len) {
        matchesLine := false;
      } else {
        var remaining := matchingStrings;
        while remaining != {}
          invariant remaining <= matchingStrings
          invariant !matchesLine
          invariant forall m :: m in matchingStrings && m !in remaining ==> !RegionMatches(ignoreCase, l, start, m, 0, len)
          decreases |remaining|
        {
          var matchingString :| matchingString in remaining;
          if RegionMatches(ignoreCase, l, start, matchingString, 0, len) {
            matchesLine := true;
            break;
          }
          remaining := remaining - {matchingString};
        }
      }
    }

    /** `write`: the matching strings joined by the line's delimiter (none when it is null), in
        the set's iteration order. */
    method Write(delimiter: Option<string>) returns (out: string, ghost order: seq<string>)
      ensures IsListing(order, matchingStrings)
      ensures out == Joined(order, delimiter.GetOr(""))
    {
      var delimit := delimiter.GetOr("");
      var remaining := matchingStrings;
      out := [];
      var first := true;
      order := [];
      while remaining != {}
        invariant remaining <= matchingStrings
        invariant forall i :: 0 <= i < |order| ==> order[i] in matchingStrings && order[i] !in remaining
        invariant forall m :: m in matchingStrings && m !in remaining ==> m in order
        invariant forall i, j :: 0 <= i < j < |order| ==> order[i] != order[j]
        invariant out == Joined(order, delimit)
        invariant first <==> order == []
        decreases |remaining|
      {
        var m :| m in remaining;
        JoinedSnoc(order, m, delimit);
        out := if first then m else out + delimit + m;
        first := false;
        order := order + [m];
        remaining := remaining - {m};
      }
    }
  }

  /** A null line never matches, nor does a line shorter than the field's end. */
  lemma ShortLinesNeverMatch(id: FieldIdentityValue, line: Option<string>)
    requires line.Some? ==> id.startPosition.Some? && id.fieldLength.Some?
    requires line.Some? ==> JavaNumbers.INT_MIN <= id.startPosition.value + id.fieldLength.value <= JavaNumbers.INT_MAX
    requires line.None? || |line.value| < id.startPosition.value + id.fieldLength.value
    ensures !LineMatches(id, line)
  {
  }

  /** The match rule for a field inside the line: some matching string has the field's text as
      its first `fieldLength` characters, exactly or ignoring case. */
  lemma LineMatchRule(id: FieldIdentityValue, l: string)
    requires id.startPosition.Some? && id.fieldLength.Some?
    requires var start, len := id.startPosition.value, id.fieldLength.value;
      0 <= start && 0 <= len && start + len <= |l| <= JavaNumbers.INT_MAX
    ensures var start, len := id.startPosition.value, id.fieldLength.value;
      LineMatches(id, Some(l)) <==>
        exists m :: m in id.matchingStrings && len <= |m| &&
          FieldEquals(id.ignoreCase, l[start..start + len], m[..len])
  {
    var start, len := id.startPosition.value, id.fieldLength.value;
    forall m | m in id.matchingStrings
      ensures RegionMatches(id.ignoreCase, l, start, m, 0, len) <==>
        len <= |m| && FieldEquals(id.ignoreCase, l[start..start + len], m[..len])
    {
      RegionMatchesMeans(id.ignoreCase, l, start, m, len);
      if len <= |m| {
        RegionsAgreeMeans(id.ignoreCase, l[start..start + len], m[..len]);
      }
    }
  }

  /** Field text equality, ignoring case or not. */
  predicate FieldEquals(ignoreCase: bool, a: string, b: string) {
    if ignoreCase then EqualsIgnoreCase(a, b) else a == b
  }

  /** The wrapping `int` sum that ends the field never changes the verdict: a field end past
      `Integer.MAX_VALUE` also leaves every region outside the line. */
  lemma EndOverflowIsHarmless(id: FieldIdentityValue, l: string)
    requires id.startPosition.Some? && id.fieldLength.Some?
    requires JavaNumbers.INT_MIN <= id.startPosition.value <= JavaNumbers.INT_MAX
    requires JavaNumbers.INT_MIN <= id.fieldLength.value <= JavaNumbers.INT_MAX
    requires |l| <= JavaNumbers.INT_MAX
    ensures var start, len := id.startPosition.value, id.fieldLength.value;
      LineMatches(id, Some(l)) <==>
        !(|l| < start + len) && exists m :: m in id.matchingStrings && RegionMatches(id.ignoreCase, l, start, m, 0, len)
  {
  }

  /** A token matches iff it sits at the start position, has the set length, and its text
      matches as a string (the check a segment uses). */
  lemma TokenMatchesByText(id: FieldIdentityValue, t: TokenValue)
    ensures TokenMatches(id, t) <==>
      id.startPosition == Some(t.columnPosition) &&
      (id.fieldLength.None? || id.fieldLength == Some(t.fullTokenLength)) &&
      StringMatches(id, t.token)
  {
  }

  /** Without a start position no token matches. */
  lemma NullStartNeverMatches(id: FieldIdentityValue, t: TokenValue)
    requires id.startPosition.None?
    ensures !TokenMatches(id, t)
  {
  }

  /** An identity that ignores case cannot tell apart texts that differ only in case. */
  lemma StringMatchIgnoresCase(id: FieldIdentityValue, a: string, b: string)
    requires id.ignoreCase && EqualsIgnoreCase(a, b)
    ensures StringMatches(id, a) <==> StringMatches(id, b)
  {
    EqualsIgnoreCaseLower(a, b);
  }

  /** The single-string case of the identity tests: "DVD" at 0..3 picks out a DVD line and not a
      VHS line. */
  lemma SingleFieldExample()
    ensures var id := FieldIdentityValue(Some(0), Some(3), {"DVD"}, false);
      LineMatches(id, Some("DVDFrozen Disney")) && !LineMatches(id, Some("VHSFrozen Disney"))
  {
    var dvd, vhs := "DVDFrozen Disney", "VHSFrozen Disney";
    assert RegionMatches(false, dvd, 0, "DVD", 0, 3) by {
      assert dvd[0..3] == "DVD"[0..3];
    }
    assert !RegionMatches(false, vhs, 0, "DVD", 0, 3) by {
      assert !CharsMatch(false, vhs[0..3][0], "DVD"[0..3][0]);
    }
  }

  /** The case-folding test stores "DVD ", "vhs " and "BETA" lower-cased. */
  lemma MultiFieldStored()
    ensures Folded(true, "DVD ") == "dvd " && Folded(true, "vhs ") == "vhs " && Folded(true, "BETA") == "beta"
  {
    assert ToLower("DVD ") == "dvd " by {
      assert forall k :: 0 <= k < 4 ==> ToLower("DVD ")[k] == "dvd "[k];
    }
    assert ToLower("vhs ") == "vhs " by {
      assert forall k :: 0 <= k < 4 ==> ToLower("vhs ")[k] == "vhs "[k];
    }
    assert ToLower("BETA") == "beta" by {
      assert forall k :: 0 <= k < 4 ==> ToLower("BETA")[k] == "beta"[k];
    }
  }

  /** ... the stored strings match lines in either case ... */
  lemma MultiFieldMatches()
    ensures var id := FieldIdentityValue(Some(0), Some(4), {"dvd ", "vhs ", "beta"}, true);
      LineMatches(id, Some("BETAFrozen Disney")) && LineMatches(id, Some("DVD Frozen Disney")) &&
      LineMatches(id, Some("VHS Frozen Disney"))
  {
    var beta, dvd, vhs := "BETAFrozen Disney", "DVD Frozen Disney", "VHS Frozen Disney";
    assert RegionMatches(true, beta, 0, "beta", 0, 4) by {
      assert forall k :: 0 <= k < 4 ==> CharsMatch(true, beta[0..4][k], "beta"[0..4][k]);
    }
    assert RegionMatches(true, dvd, 0, "dvd ", 0, 4) by {
      assert forall k :: 0 <= k < 4 ==> CharsMatch(true, dvd[0..4][k], "dvd "[0..4][k]);
    }
    assert RegionMatches(true, vhs, 0, "vhs ", 0, 4) by {
      assert forall k :: 0 <= k < 4 ==> CharsMatch(true, vhs[0..4][k], "vhs "[0..4][k]);
    }
  }

  /** ... and a CD line matches none of them. */
  lemma MultiFieldRejects()
    ensures var id := FieldIdentityValue(Some(0), Some(4), {"dvd ", "vhs ", "beta"}, true);
      !LineMatches(id, Some("CD  Frozen Disney"))
  {
    var cd := "CD  Frozen Disney";
    assert !RegionMatches(true, cd, 0, "dvd ", 0, 4) by {
      assert !CharsMatch(true, cd[0..4][0], "dvd "[0..4][0]);
    }
    assert !RegionMatches(true, cd, 0, "vhs ", 0, 4) by {
      assert !CharsMatch(true, cd[0..4][0], "vhs "[0..4][0]);
    }
    assert !RegionMatches(true, cd, 0, "beta", 0, 4) by {
      assert !CharsMatch(true, cd[0..4][0], "beta"[0..4][0]);
    }
  }

  /** The empty line and the null line never match. */
  lemma InvalidLineExample()
    ensures var id := FieldIdentityValue(Some(0), Some(3), {"DVD"}, false);
      !LineMatches(id, Some("")) && !LineMatches(id, None)
  {
  }
}
