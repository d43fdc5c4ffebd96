/** `config.impl.LengthIdentityImpl`: a line is identified by its length falling in a range. */
module LengthIdentities {
  import opened Wrappers
  import JavaNumbers

  /** The bounds are `Integer`s; matching unboxes both, so both must be set. */
  datatype LengthIdentityValue = LengthIdentityValue(minLength: Option<int>, maxLength: Option<int>)

  predicate Bounded(id: LengthIdentityValue) {
    id.minLength.Some? && id.maxLength.Some?
  }

  /** `doesMatchIdentity`: the line's length lies within both bounds. */
  predicate DoesMatchIdentity(id: LengthIdentityValue, line: string)
    requires Bounded(id)
  {
    |line| >= id.minLength.value && |line| <= id.maxLength.value
  }

  /** `matchesIdentity(record, fileFormat, line)`: the record overload. */
  function MatchesRecordLine(id: LengthIdentityValue, line: string): (r: bool)
    requires Bounded(id)
    ensures r <==> id.minLength.value <= |line| <= id.maxLength.value
  {
    DoesMatchIdentity(id, line)
  }

  /** `matchesIdentity(line, fileFormat, dataLine)`: the line overload. */
  function MatchesLineLine(id: LengthIdentityValue, dataLine: string): (r: bool)
    requires Bounded(id)
    ensures r <==> id.minLength.value <= |dataLine| <= id.maxLength.value
  {
    DoesMatchIdentity(id, dataLine)
  }

  /** `write`: a length identity writes nothing. */
  function Write(id: LengthIdentityValue): (out: string)
    ensures |out| == 0
  {
    []
  }

  /** The record and line overloads give the same verdict on the same data line. */
  lemma OverloadsAgree(id: LengthIdentityValue, line: string)
    requires Bounded(id)
    ensures MatchesRecordLine(id, line) == MatchesLineLine(id, line)
  {
  }

  /** A range with its minimum above its maximum matches no line. */
  lemma EmptyRangeMatchesNothing(id: LengthIdentityValue, line: string)
    requires Bounded(id) && id.minLength.value > id.maxLength.value
    ensures !MatchesRecordLine(id, line) && !MatchesLineLine(id, line)
  {
  }
}
