/** The `Identity` of the `config` generation's business objects: what decides whether a record or
    a line of the configuration handles a line of data. A script identity's verdict is the set of
    lines its script accepts, the script engine itself being outside the model. */
module Identities {
  import opened Wrappers
  import opened LineTokens
  import FieldIdentities
  import LengthIdentities

  /** `ScriptletBO`: the script engine, the script text or the resource it was read from, and
      the function the identity calls. */
  datatype Scriptlet = Scriptlet(engineName: string, script: Option<string>, scriptFile: Option<string>, functionName: string)

  datatype Identity =
    | Field(field: FieldIdentities.FieldIdentityValue)
    | Length(length: LengthIdentities.LengthIdentityValue)
    | Script(accepts: iset<Option<string>>, scriptlet: Scriptlet)

  /** The integer settings every match unboxes are present. */
  predicate Configured(id: Identity) {
    match id
    case Field(f) => f.startPosition.Some? && f.fieldLength.Some?
    case Length(l) => LengthIdentities.Bounded(l)
    case Script(_, _) => true
  }

  /** `matchesIdentity(record-or-line, fileFormat, line)` for each kind; a length identity reads
      the length of the line and so throws on a null line. */
  function MatchesIdentity(id: Identity, line: Option<string>): (r: Result<bool>)
    requires Configured(id)
    ensures r.Err? <==> id.Length? && line.None?
    ensures r.Err? ==> r.error == NullPointerException
    ensures id.Field? && r.Ok? ==> (r.value <==> FieldIdentities.LineMatches(id.field, line))
    ensures id.Length? && r.Ok? ==> (r.value <==> id.length.minLength.value <= |line.value| <= id.length.maxLength.value)
    ensures id.Script? ==> r == Ok(line in id.accepts)
  {
    match id
    case Field(f) => Ok(FieldIdentities.LineMatches(f, line))
    case Length(l) =>
      if line.None? then Err(NullPointerException) else Ok(LengthIdentities.MatchesRecordLine(l, line.value))
    case Script(accepts, _) => Ok(line in accepts)
  }

  /** Whether the identity is a `LineTokenIdentity`: only field identities are. */
  predicate IsLineTokenIdentity(id: Identity) {
    id.Field?
  }

  /** `matchesIdentity(LineToken)` where the identity has it; any other identity matches no token. */
  predicate MatchesToken(id: Identity, t: TokenValue) {
    IsLineTokenIdentity(id) && FieldIdentities.TokenMatches(id.field, t)
  }

  /** Only a field identity can claim a token, and then exactly by its token rule. */
  lemma MatchesTokenRule(id: Identity, t: TokenValue)
    ensures !id.Field? ==> !MatchesToken(id, t)
    ensures id.Field? ==> (MatchesToken(id, t) <==> FieldIdentities.TokenMatches(id.field, t))
  {
  }
}
