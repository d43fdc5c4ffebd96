/** The `config.impl.LengthIdentity` of the `config` generation. */
module LegacyLengthIdentities {
  import opened Wrappers
  import JavaNumbers

  datatype LengthIdentityValue = LengthIdentityValue(minLength: Option<int>, maxLength: Option<int>)

  /** `doesMatch`: the line's length lies within both (unboxed) bounds. */
  predicate DoesMatch(id: LengthIdentityValue, line: string)
    requires id.minLength.Some? && id.maxLength.Some?
  {
    |line| >= id.minLength.value && |line| <= id.maxLength.value
  }

  /** The rule: min <= length <= max. */
  lemma MatchRule(id: LengthIdentityValue, line: string)
    requires id.minLength.Some? && id.maxLength.Some?
    ensures DoesMatch(id, line) <==> id.minLength.value <= |line| <= id.maxLength.value
  {
  }

  /** The range 0..`Integer.MAX_VALUE` accepts every line a Java string can hold. */
  lemma FullRangeMatchesAll(line: string)
    requires |line| <= JavaNumbers.INT_MAX
    ensures DoesMatch(LengthIdentityValue(Some(0), Some(JavaNumbers.INT_MAX)), line)
  {
  }

  /** Exact bounds: min = max = length matches, min = max = length + 1 does not. */
  lemma ExactBounds(line: string)
    ensures DoesMatch(LengthIdentityValue(Some(|line|), Some(|line|)), line)
    ensures !DoesMatch(LengthIdentityValue(Some(|line| + 1), Some(|line| + 1)), line)
  {
  }

  /** The inverted range 10..0 matches nothing. */
  lemma InvertedRange(line: string)
    ensures !DoesMatch(LengthIdentityValue(Some(10), Some(0)), line)
  {
  }
}
