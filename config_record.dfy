/** The `Record` of the `config` generation: it decides by its identity whether it handles a
    line, and parses a record from a fixed list of lines, one input line per line. */
module ConfigRecords {
  import opened Wrappers
  import opened LineTokens
  import opened Beans
  import opened LineParsing
  import opened Input
  import opened JavaText
  import LegacyFieldIdentities
  import LegacyLengthIdentities
  import LegacyLines
  import Records

  /** The identities a `config` record can carry; a script identity's verdict is the set of
      lines its script accepts. */
  datatype RecordIdentity =
    | FieldId(field: LegacyFieldIdentities.FieldIdentityValue)
    | LengthId(length: LegacyLengthIdentities.LengthIdentityValue)
    | ScriptId(accepts: iset<Option<string>>)

  /** The integer settings `doesMatch` unboxes are present. */
  predicate Configured(id: RecordIdentity) {
    match id
    case FieldId(f) => f.startPosition.Some? && f.fieldLength.Some?
    case LengthId(l) => l.minLength.Some? && l.maxLength.Some?
    case ScriptId(_) => true
  }

  /** `doesMatch(record, fileFormat, line)`: field and length identities read the line's
      length, and so throw on a null line. */
  function DoesMatch(id: RecordIdentity, line: Option<string>): (r: Result<bool>)
    requires Configured(id)
  {
    match id
    case FieldId(f) => if line.None? then Err(NullPointerException) else Ok(LegacyFieldIdentities.LineMatches(f, line.value))
    case LengthId(l) => if line.None? then Err(NullPointerException) else Ok(LegacyLengthIdentities.DoesMatch(l, line.value))
    case ScriptId(accepts) => Ok(line in accepts)
  }

  /** `matchesLine` of a record whose identity is `recordIdentity`: a record without an
      identity takes every line. */
  function MatchesLine(recordIdentity: Option<RecordIdentity>, line: Option<string>): (r: Result<bool>)
    requires recordIdentity.Some? ==> Configured(recordIdentity.value)
  {
    if recordIdentity.None? then Ok(true) else DoesMatch(recordIdentity.value, line)
  }

  /** The match rule: no identity takes every line, even a null one; a null line fails exactly
      under a field or length identity; otherwise the identity's own rule decides. */
  lemma MatchesLineRule(recordIdentity: Option<RecordIdentity>, line: Option<string>)
    requires recordIdentity.Some? ==> Configured(recordIdentity.value)
    ensures recordIdentity.None? ==> MatchesLine(recordIdentity, line) == Ok(true)
    ensures MatchesLine(recordIdentity, line).Err? <==> line.None? && recordIdentity.Some? && !recordIdentity.value.ScriptId?
    ensures MatchesLine(recordIdentity, line).Err? ==> MatchesLine(recordIdentity, line).error == NullPointerException
    ensures recordIdentity.Some? && recordIdentity.value.LengthId? && line.Some? ==>
      var l := recordIdentity.value.length;
      (MatchesLine(recordIdentity, line) == Ok(true) <==> l.minLength.value <= |line.value| <= l.maxLength.value)
    ensures recordIdentity.Some? && recordIdentity.value.FieldId? && line.Some? ==>
      (MatchesLine(recordIdentity, line) == Ok(true) <==> LegacyFieldIdentities.LineMatches(recordIdentity.value.field, line.value))
    ensures recordIdentity.Some? && recordIdentity.value.ScriptId? ==>
      MatchesLine(recordIdentity, line) == Ok(line in recordIdentity.value.accepts)
  {
  }

  /** `matchesIdentifier` of a record whose identity is `recordIdentity`: only a field identity is a `LineTokenIdentity`; every other record
      matches no token. */
  predicate MatchesIdentifier(recordIdentity: Option<RecordIdentity>, t: TokenValue) {
    recordIdentity.Some? && recordIdentity.value.FieldId? && LegacyFieldIdentities.TokenMatches(recordIdentity.value.field, t)
  }

  /** A token is claimed only by a field identity, and then exactly by its token rule. */
  lemma MatchesIdentifierRule(recordIdentity: Option<RecordIdentity>, t: TokenValue)
    ensures (recordIdentity.None? || !recordIdentity.value.FieldId?) ==> !MatchesIdentifier(recordIdentity, t)
    ensures recordIdentity.Some? && recordIdentity.value.FieldId? ==>
      (MatchesIdentifier(recordIdentity, t) <==> LegacyFieldIdentities.TokenMatches(recordIdentity.value.field, t))
    ensures recordIdentity.Some? && recordIdentity.value.FieldId? && recordIdentity.value.field.startPosition.None? ==>
      !MatchesIdentifier(recordIdentity, t)
  {
  }

  /** What `parseInput` reads of a line's configuration. */
  datatype LineShape = LineShape(elements: seq<LegacyLines.LegacyElement>, delimiter: Option<string>, quote: char)

  predicate HasShapes(lines: seq<LegacyLines.Line>, shapes: seq<LineShape>)
    reads set i | 0 <= i < |lines| :: lines[i]
  {
    |lines| == |shapes| &&
    forall i :: 0 <= i < |lines| ==>
      shapes[i] == LineShape(lines[i].elements, lines[i].delimiter, lines[i].quoteChar)
  }

  /** The line loop of `parseRecord` from line `i`, whose text is `inputLine`: each line parses
      its text, and a further line is read after every line but the last. `config.Line` is not
      part of this model: each line is parsed by the legacy `Line` parser in its place. */
  function LinesParse(convert: LegacyLines.LegacyConvert, classes: ClassTable, shapes: seq<LineShape>, input: seq<string>,
                      i: nat, inputLine: Option<string>, pos: nat, st: BeanState): (r: Result<(BeanState, nat)>)
    requires i <= |shapes| && WfState(st) && pos <= |input|
    ensures r.Ok? ==> WfState(r.value.0) && pos <= r.value.1 <= |input|
    decreases |shapes| - i
  {
    if i == |shapes| then Ok((st, pos))
    else
      var st1 :- LegacyLines.ParseLegacyLine(convert, classes, shapes[i].elements, shapes[i].delimiter, shapes[i].quote, inputLine, st);
      if i + 1 < |shapes| then
        var (line, pos1) := Read(input, pos);
        LinesParse(convert, classes, shapes, input, i + 1, line, pos1, st1)
      else Ok((st1, pos))
  }

  /** The line loop reads exactly one line after each line but the last (fewer only when the
      input runs out). */
  lemma {:induction false} LinesReads(convert: LegacyLines.LegacyConvert, classes: ClassTable, shapes: seq<LineShape>, input: seq<string>,
                                      i: nat, inputLine: Option<string>, pos: nat, st: BeanState)
    requires i <= |shapes| && WfState(st) && pos <= |input|
    ensures var r := LinesParse(convert, classes, shapes, input, i, inputLine, pos, st);
      r.Ok? ==> r.value.1 == Min(pos + Records.ReadsAhead(i, |shapes|), |input|) 
    decreases |shapes| - i
  {
    if i < |shapes| {
      var st1 := LegacyLines.ParseLegacyLine(convert, classes, shapes[i].elements, shapes[i].delimiter, shapes[i].quote, inputLine, st);
      if st1.Ok? && i + 1 < |shapes| {
        var (line, pos1) := Read(input, pos);
        LinesReads(convert, classes, shapes, input, i + 1, line, pos1, st1.value);
      }
    }
  }

  /** The whole of `parseRecord` up to its catch: one bean per definition bean, then the lines. */
  function RecordParse(convert: LegacyLines.LegacyConvert, classes: ClassTable, defs: map<string, Records.BeanBO>, order: seq<string>,
                       shapes: seq<LineShape>, firstLine: Option<string>, input: seq<string>, pos: nat): (r: Result<(BeanState, nat)>)
    requires forall i :: 0 <= i < |order| ==> order[i] in defs
    requires pos <= |input|
    ensures r.Ok? ==> WfState(r.value.0) && pos <= r.value.1 <= |input|
  {
    var st :- Records.Instantiated(classes, defs, order);
    LinesParse(convert, classes, shapes, input, 0, firstLine, pos, st)
  }

  /** The beans are created before any line is parsed: a parse that succeeds created one
      fresh bean per definition bean, and then read one line fewer than there are lines (or up
      to the end of the input); a bean of an unknown class fails the whole parse. */
  lemma ParsedRecord(convert: LegacyLines.LegacyConvert, classes: ClassTable, defs: map<string, Records.BeanBO>, order: seq<string>,
                     shapes: seq<LineShape>, firstLine: Option<string>, input: seq<string>, pos: nat)
    requires forall k :: k in defs ==> defs[k].beanName == k
    requires IsListing(order, defs.Keys)
    requires pos <= |input|
    ensures var r := RecordParse(convert, classes, defs, order, shapes, firstLine, input, pos);
      r.Ok? ==>
        r.value.1 == Min(pos + Records.ReadsAhead(0, |shapes|), |input|) &&
        forall k :: k in defs ==> defs[k].beanClass in classes
    ensures (exists k :: k in defs && defs[k].beanClass !in classes) ==>
      RecordParse(convert, classes, defs, order, shapes, firstLine, input, pos).Err?
  {
    var st := Records.Instantiated(classes, defs, order);
    Records.InstantiatedFails(classes, defs, order);
    if st.Ok? {
      LinesReads(convert, classes, shapes, input, 0, firstLine, pos, st.value);
      forall k | k in defs ensures defs[k].beanClass in classes {
        var i :| 0 <= i < |order| && order[i] == k;
      }
    }
  }

  /** The shapes of lines are determined by the lines. */
  lemma ShapesUnique(ls: seq<LegacyLines.Line>, a: seq<LineShape>, b: seq<LineShape>)
    requires HasShapes(ls, a) && HasShapes(ls, b)
    ensures a == b
  {
  }

  function ShapesOf(ls: seq<LegacyLines.Line>): (r: seq<LineShape>)
    reads set i | 0 <= i < |ls| :: ls[i]
    ensures HasShapes(ls, r)
  {
    seq(|ls|, i reads set i | 0 <= i < |ls| :: ls[i] requires 0 <= i < |ls| => LineShape(ls[i].elements, ls[i].delimiter, ls[i].quoteChar))
  }

  /** The line loop of `parseRecord`, which both record generations share. */
  method ParseLines(lines: seq<LegacyLines.Line>, ghost shapes: seq<LineShape>, firstLine: Option<string>, reader: LineReader,
                    convert: LegacyLines.LegacyConvert, classes: ClassTable, beans0: BeanState)
    returns (r: Result<BeanState>)
    requires reader.Valid() && WfState(beans0) && HasShapes(lines, shapes)
    modifies reader, set i | 0 <= i < |lines| :: lines[i]
    ensures reader.Valid() && HasShapes(lines, shapes)
    ensures match LinesParse(convert, classes, shapes, reader.input, 0, firstLine, old(reader.pos), beans0)
      case Ok((st, pos)) => r == Ok(st) && reader.pos == pos
      case Err(e) => r == Err(e)
  {
    var inputLine := firstLine;
    var st := beans0;
    var i := 0;
    while i < |lines|
      invariant 0 <= i <= |lines| && reader.Valid() && WfState(st)
      invariant HasShapes(lines, shapes)
      invariant LinesParse(convert, classes, shapes, reader.input, 0, firstLine, old(reader.pos), beans0) ==
                LinesParse(convert, classes, shapes, reader.input, i, inputLine, reader.pos, st)
    {
      var line := lines[i];
      var parsed := line.ParseInput(inputLine, st, convert, classes);
      if parsed.Err? {
        return Err(parsed.error);
      }
      st := parsed.value;
      if i + 1 < |lines| {
        inputLine := reader.ReadLine();
      }
      i := i + 1;
    }
    return Ok(st);
  }

  class Record {
    var name: Option<string>
    var recordIdentity: Option<RecordIdentity>
    /** The record definition's beans, keyed by bean name. */
    var beans: map<string, Records.BeanBO>
    /** The record definition's lines, in order. */
    var lines: seq<LegacyLines.Line>

    /** `new Record()`, with the definition's empty collections. */
    constructor()
      ensures name == None && recordIdentity == None && beans == map[] && lines == []
    {
      name, recordIdentity := None, None;
      beans, lines := map[], [];
    }

    /** `parseRecord(firstLine, in, conversionHelper)`: every failure is rethrown as a parser
        exception; `order` is the order the bean map was visited in. */
    method ParseRecord(firstLine: Option<string>, reader: LineReader, convert: LegacyLines.LegacyConvert, classes: ClassTable)
      returns (r: Result<BeanState>, ghost order: seq<string>)
      requires reader.Valid()
      modifies reader, set i | 0 <= i < |lines| :: lines[i]
      ensures reader.Valid() && ShapesOf(lines) == old(ShapesOf(lines))
      ensures IsListing(order, beans.Keys)
      ensures match RecordParse(convert, classes, beans, order, ShapesOf(lines), firstLine, reader.input, old(reader.pos))
        case Ok((st, pos)) => r == Ok(st) && reader.pos == pos
        case Err(_) => r == Err(FlatwormParserException)
    {
      var created;
      created, order := Records.InstantiateBeans(beans, classes);
      if created.Err? {
        return Err(FlatwormParserException), order;
      }
      ghost var shapes := ShapesOf(lines);
      var parsed := ParseLines(lines, shapes, firstLine, reader, convert, classes, created.value);
      ShapesUnique(lines, shapes, ShapesOf(lines));
      if parsed.Err? {
        return Err(FlatwormParserException), order;
      }
      return parsed, order;
    }
  }
}
