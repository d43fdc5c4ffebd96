/** The legacy `Record`: an identity flag selects how lines are recognised ('F' by a field,
    'L' by the line length, 'S' by a script, anything else takes every line), and a record is
    parsed from a fixed list of lines. */
module LegacyRecords {
  import opened Wrappers
  import opened JavaText
  import JavaNumbers
  import opened Beans
  import opened LineParsing
  import opened Input
  import LegacyFieldIdentities
  import LegacyLines
  import Records
  import ConfigRecords

  /** The recognition settings of a record. */
  datatype RecordSettings = RecordSettings(
    lengthIdentMin: int, lengthIdentMax: int, fieldIdentStart: int, fieldIdentLength: int,
    fieldIdentScript: Option<string>, fieldIdentMatchStrings: seq<string>, identTypeFlag: char)

  /** What running a record's script gives: its boolean verdict, or the failure it is rethrown
      as. The script engine itself is outside the model. */
  type ScriptVerdict = string -> Result<bool>

  /** Whether some match string region-matches the field at `start`, case-sensitively. */
  predicate SomeMatchAt(line: string, start: int, len: int, matchStrings: seq<string>) {
    exists i :: 0 <= i < |matchStrings| && RegionMatches(false, line, start, matchStrings[i], 0, len)
  }

  /** `matchesLine(line, ff)`, the switch on the identity flag. A field or length flag reads the
      line's length, so a null line throws under them. */
  function Matches(s: RecordSettings, line: Option<string>, script: ScriptVerdict): (r: Result<bool>) {
    match s.identTypeFlag
    case 'F' =>
      if line.None? then Err(NullPointerException)
      else if |line.value| < JavaNumbers.Int32(s.fieldIdentStart + s.fieldIdentLength) then Ok(false)
      else Ok(SomeMatchAt(line.value, s.fieldIdentStart, s.fieldIdentLength, s.fieldIdentMatchStrings))
    case 'L' =>
      if line.None? then Err(NullPointerException)
      else Ok(|line.value| >= s.lengthIdentMin && |line.value| <= s.lengthIdentMax)
    case 'S' =>
      if IsBlank(s.fieldIdentScript) then Ok(true) else script(s.fieldIdentScript.value)
    case _ => Ok(true)
  }

  /** The rules of the switch, flag by flag. */
  lemma MatchesRule(s: RecordSettings, line: Option<string>, script: ScriptVerdict)
    ensures !(s.identTypeFlag in "FLS") ==> Matches(s, line, script) == Ok(true)
    ensures s.identTypeFlag == '\0' ==> Matches(s, line, script) == Ok(true)
    ensures s.identTypeFlag == 'L' && line.Some? ==>
      (Matches(s, line, script) == Ok(true) <==> s.lengthIdentMin <= |line.value| <= s.lengthIdentMax)
    ensures s.identTypeFlag == 'F' && line.Some? && |line.value| < JavaNumbers.Int32(s.fieldIdentStart + s.fieldIdentLength) ==>
      Matches(s, line, script) == Ok(false)
    ensures s.identTypeFlag == 'F' && line.Some? && |line.value| >= JavaNumbers.Int32(s.fieldIdentStart + s.fieldIdentLength) ==>
      (Matches(s, line, script) == Ok(true) <==>
       exists m :: m in s.fieldIdentMatchStrings && RegionMatches(false, line.value, s.fieldIdentStart, m, 0, s.fieldIdentLength))
    ensures (s.identTypeFlag == 'F' || s.identTypeFlag == 'L') ==> (Matches(s, line, script).Err? <==> line.None?)
    ensures s.identTypeFlag == 'S' && IsBlank(s.fieldIdentScript) ==> Matches(s, line, script) == Ok(true)
  {
    if s.identTypeFlag == 'F' && line.Some? && |line.value| >= JavaNumbers.Int32(s.fieldIdentStart + s.fieldIdentLength) {
      if exists m :: m in s.fieldIdentMatchStrings && RegionMatches(false, line.value, s.fieldIdentStart, m, 0, s.fieldIdentLength) {
        var m :| m in s.fieldIdentMatchStrings && RegionMatches(false, line.value, s.fieldIdentStart, m, 0, s.fieldIdentLength);
        var i :| 0 <= i < |s.fieldIdentMatchStrings| && s.fieldIdentMatchStrings[i] == m;
      }
    }
  }

  /** The 'F' flag recognises a line exactly as the `config` generation's field identity with
      the same start, length and match strings. */
  lemma FieldFlagAgrees(s: RecordSettings, line: string, script: ScriptVerdict)
    requires s.identTypeFlag == 'F'
    ensures var id := LegacyFieldIdentities.FieldIdentityValue(Some(s.fieldIdentStart), Some(s.fieldIdentLength), SetOf(s.fieldIdentMatchStrings));
      Matches(s, Some(line), script) == Ok(LegacyFieldIdentities.LineMatches(id, line))
  {
    MatchesRule(s, Some(line), script);
    var id := LegacyFieldIdentities.FieldIdentityValue(Some(s.fieldIdentStart), Some(s.fieldIdentLength), SetOf(s.fieldIdentMatchStrings));
    SetOfMembers(s.fieldIdentMatchStrings);
    if LegacyFieldIdentities.LineMatches(id, line) {
      var m :| m in id.matchingStrings && RegionMatches(false, line, s.fieldIdentStart, m, 0, s.fieldIdentLength);
      assert m in s.fieldIdentMatchStrings;
    }
  }

  function SetOf(xs: seq<string>): (r: set<string>) {
    set i | 0 <= i < |xs| :: xs[i]
  }

  lemma SetOfMembers(xs: seq<string>)
    ensures forall x :: x in SetOf(xs) <==> x in xs
  {
    forall x ensures x in SetOf(xs) <==> x in xs {
      if x in xs {
        var i :| 0 <= i < |xs| && xs[i] == x;
      }
    }
  }

  /** The whole of `parseRecord`: the legacy record lets the failures of its lines through as
      they are, and reports a bean that cannot be created as a conversion failure. */
  function RecordParse(convert: LegacyLines.LegacyConvert, classes: ClassTable, defs: map<string, Records.BeanBO>, order: seq<string>,
                       shapes: seq<ConfigRecords.LineShape>, firstLine: Option<string>, input: seq<string>, pos: nat): (r: Result<(BeanState, nat)>)
    requires forall i :: 0 <= i < |order| ==> order[i] in defs
    requires pos <= |input|
    ensures r.Ok? ==> WfState(r.value.0) && pos <= r.value.1 <= |input|
  {
    var created := Records.Instantiated(classes, defs, order);
    if created.Err? then Err(FlatwormConversionException)
    else ConfigRecords.LinesParse(convert, classes, shapes, input, 0, firstLine, pos, created.value)
  }

  /** Given the same line parser, the record loop of the legacy record and that of the
      `config` record read the same lines and build the same beans; they differ only in how
      failures are reported. Both use the legacy line parser here, so this says nothing about
      `config.Line`, which is not part of this model. */
  lemma SameAsConfigRecord(convert: LegacyLines.LegacyConvert, classes: ClassTable, defs: map<string, Records.BeanBO>, order: seq<string>,
                           shapes: seq<ConfigRecords.LineShape>, firstLine: Option<string>, input: seq<string>, pos: nat)
    requires forall i :: 0 <= i < |order| ==> order[i] in defs
    requires pos <= |input|
    ensures var r := RecordParse(convert, classes, defs, order, shapes, firstLine, input, pos);
      var c := ConfigRecords.RecordParse(convert, classes, defs, order, shapes, firstLine, input, pos);
      (r.Ok? <==> c.Ok?) && (r.Ok? ==> r == c) &&
      (Records.Instantiated(classes, defs, order).Err? ==> r == Err(FlatwormConversionException) && c.Err?)
  {
  }

  class Record {
    var name: Option<string>
    var lengthIdentMin: int
    var lengthIdentMax: int
    var fieldIdentStart: int
    var fieldIdentLength: int
    var fieldIdentScript: Option<string>
    var fieldIdentMatchStrings: seq<string>
    var identTypeFlag: char
    /** The record definition's beans, keyed by bean name. */
    var beans: map<string, Records.BeanBO>
    /** The record definition's lines, in order. */
    var lines: seq<LegacyLines.Line>

    function Settings(): RecordSettings
      reads this
    {
      RecordSettings(lengthIdentMin, lengthIdentMax, fieldIdentStart, fieldIdentLength,
                     fieldIdentScript, fieldIdentMatchStrings, identTypeFlag)
    }

    /** `new Record()`: lengths and starts 0, no match strings, the flag '\0'. */
    constructor()
      ensures Settings() == RecordSettings(0, 0, 0, 0, None, [], '\0')
      ensures name == None && beans == map[] && lines == []
    {
      name := None;
      lengthIdentMin, lengthIdentMax, fieldIdentStart, fieldIdentLength := 0, 0, 0, 0;
      fieldIdentScript, fieldIdentMatchStrings, identTypeFlag := None, [], '\0';
      beans, lines := map[], [];
    }

    /** `addFieldIdentMatchString`: appends to the match list. */
    method AddFieldIdentMatchString(fieldIdentMatch: string)
      modifies this
      ensures Settings() == old(Settings()).(fieldIdentMatchStrings := old(fieldIdentMatchStrings) + [fieldIdentMatch])
      ensures name == old(name) && beans == old(beans) && lines == old(lines)
    {
      fieldIdentMatchStrings := fieldIdentMatchStrings + [fieldIdentMatch];
    }

    /** `matchesLine(line, ff)`, with the search loop of the field flag and its early exit. */
    method MatchesLine(line: Option<string>, script: ScriptVerdict) returns (r: Result<bool>)
      ensures r == Matches(Settings(), line, script)
    {
      var matchesLine := true;
      match identTypeFlag {
        case 'F' =>
          if line.None? {
            return Err(NullPointerException);
          }
          if |line.value| < JavaNumbers.Int32(fieldIdentStart + fieldIdentLength) {
            matchesLine := false;
          } else {
            matchesLine := false;
            var i := 0;
            while i < |fieldIdentMatchStrings|
              invariant 0 <= i <= |fieldIdentMatchStrings|
              invariant !SomeMatchAt(line.value, fieldIdentStart, fieldIdentLength, fieldIdentMatchStrings[..i])
            {
              if RegionMatches(false, line.value, fieldIdentStart, fieldIdentMatchStrings[i], 0, fieldIdentLength) {
                matchesLine := true;
                break;
              }
              assert fieldIdentMatchStrings[..i + 1] == fieldIdentMatchStrings[..i] + [fieldIdentMatchStrings[i]];
              i := i + 1;
            }
            if !matchesLine {
              assert fieldIdentMatchStrings[..i] == fieldIdentMatchStrings;
            }
          }
        case 'L' =>
          if line.None? {
            return Err(NullPointerException);
          }
          matchesLine := |line.value| >= lengthIdentMin && |line.value| <= lengthIdentMax;
        case 'S' =>
          if !IsBlank(fieldIdentScript) {
            return script(fieldIdentScript.value);
          }
        case _ =>
      }
      return Ok(matchesLine);
    }

    /** `parseRecord(firstLine, in, convHelper)`; `order` is the order the bean map was
        visited in. */
    method ParseRecord(firstLine: Option<string>, reader: LineReader, convert: LegacyLines.LegacyConvert, classes: ClassTable)
      returns (r: Result<BeanState>, ghost order: seq<string>)
      requires reader.Valid()
      modifies reader, set i | 0 <= i < |lines| :: lines[i]
      ensures reader.Valid() && ConfigRecords.ShapesOf(lines) == old(ConfigRecords.ShapesOf(lines))
      ensures IsListing(order, beans.Keys)
      ensures match RecordParse(convert, classes, beans, order, ConfigRecords.ShapesOf(lines), firstLine, reader.input, old(reader.pos))
        case Ok((st, pos)) => r == Ok(st) && reader.pos == pos
        case Err(e) => r == Err(e)
    {
      var created;
      created, order := Records.InstantiateBeans(beans, classes);
      if created.Err? {
        return Err(FlatwormConversionException), order;
      }
      ghost var shapes := ConfigRecords.ShapesOf(lines);
      var parsed := ConfigRecords.ParseLines(lines, shapes, firstLine, reader, convert, classes, created.value);
      ConfigRecords.ShapesUnique(lines, shapes, ConfigRecords.ShapesOf(lines));
      if parsed.Err? {
        return Err(parsed.error), order;
      }
      return parsed, order;
    }
  }
}
