/** `FileFormat`: the records of a configuration, tried in the order they were added, and the
    reading of one record at a time from the input. */
module FileFormats {
  import opened Wrappers
  import opened JavaText
  import JavaNumbers
  import opened Beans
  import opened LineParsing
  import opened Input
  import LegacyLines
  import LegacyRecords
  import ConfigRecords
  import ConversionHelpers

  /** `MatchedRecord`: the name of the record that parsed a line, and its beans. */
  datatype MatchedRecord = MatchedRecord(recordName: Option<string>, beans: BeanState)

  /** The first record from position `i` on that takes `line`; a record whose match throws
      ends the search with its failure. */
  function FirstMatching(rs: seq<LegacyRecords.RecordSettings>, line: string, script: LegacyRecords.ScriptVerdict, i: nat): (r: Result<Option<nat>>)
    requires i <= |rs|
    ensures r.Ok? && r.value.Some? ==> i <= r.value.value < |rs|
    decreases |rs| - i
  {
    if i == |rs| then Ok(None)
    else
      var m :- LegacyRecords.Matches(rs[i], Some(line), script);
      if m then Ok(Some(i)) else FirstMatching(rs, line, script, i + 1)
  }

  /** The search rule: a hit takes the line and every record before it declines it; no hit
      means every record declines it; a failure is the failure of the first record that does
      not decline. */
  lemma {:induction false} FirstMatchingRule(rs: seq<LegacyRecords.RecordSettings>, line: string, script: LegacyRecords.ScriptVerdict, i: nat)
    requires i <= |rs|
    ensures var r := FirstMatching(rs, line, script, i);
      (r.Ok? && r.value.Some? ==>
         LegacyRecords.Matches(rs[r.value.value], Some(line), script) == Ok(true) &&
         forall j :: i <= j < r.value.value ==> LegacyRecords.Matches(rs[j], Some(line), script) == Ok(false)) &&
      (r == Ok(None) <==> forall j :: i <= j < |rs| ==> LegacyRecords.Matches(rs[j], Some(line), script) == Ok(false)) &&
      (r.Err? ==> exists k :: i <= k < |rs| && LegacyRecords.Matches(rs[k], Some(line), script) == Err(r.error) &&
                    forall j :: i <= j < k ==> LegacyRecords.Matches(rs[j], Some(line), script) == Ok(false))
    decreases |rs| - i
  {
    if i < |rs| {
      FirstMatchingRule(rs, line, script, i + 1);
      var m := LegacyRecords.Matches(rs[i], Some(line), script);
      if m == Ok(false) {
        var r := FirstMatching(rs, line, script, i + 1);
        assert FirstMatching(rs, line, script, i) == r;
        if r == Ok(None) {
          assert forall j :: i <= j < |rs| ==> LegacyRecords.Matches(rs[j], Some(line), script) == Ok(false) by {
            forall j | i <= j < |rs| ensures LegacyRecords.Matches(rs[j], Some(line), script) == Ok(false) {
              if j > i {
                assert i + 1 <= j;
              }
            }
          }
        }
        if r.Err? {
          var k :| i + 1 <= k < |rs| && LegacyRecords.Matches(rs[k], Some(line), script) == Err(r.error) &&
                   forall j :: i + 1 <= j < k ==> LegacyRecords.Matches(rs[j], Some(line), script) == Ok(false);
          assert forall j :: i <= j < k ==> LegacyRecords.Matches(rs[j], Some(line), script) == Ok(false);
        }
      }
    }
  }

  /** A record with the default flag '\0' takes every line, so no line is left unmapped once
      such a record is among those tried. */
  lemma {:induction false} DefaultRecordMapsAll(rs: seq<LegacyRecords.RecordSettings>, line: string, script: LegacyRecords.ScriptVerdict,
                                                i: nat, k: nat)
    requires i <= k < |rs| && rs[k].identTypeFlag == '\0'
    ensures FirstMatching(rs, line, script, i) != Ok(None)
    decreases k - i
  {
    LegacyRecords.MatchesRule(rs[k], Some(line), script);
    FirstMatchingRule(rs, line, script, i);
  }

  /** The lines of the records `rs`. */
  function LinesOf(rs: seq<LegacyRecords.Record>): set<LegacyLines.Line>
    reads set i | 0 <= i < |rs| :: rs[i]
    decreases |rs|
  {
    if rs == [] then {}
    else
      var last := rs[|rs| - 1];
      assert forall i :: 0 <= i < |rs| - 1 ==> rs[..|rs| - 1][i] == rs[i];
      LinesOf(rs[..|rs| - 1]) + set j | 0 <= j < |last.lines| :: last.lines[j]
  }

  lemma {:induction false} LinesOfHas(rs: seq<LegacyRecords.Record>, k: nat)
    requires k < |rs|
    ensures forall j :: 0 <= j < |rs[k].lines| ==> rs[k].lines[j] in LinesOf(rs)
    decreases |rs|
  {
    if k < |rs| - 1 {
      LinesOfHas(rs[..|rs| - 1], k);
    }
  }

  class FileFormat {
    var records: map<Option<string>, LegacyRecords.Record>
    var recordOrder: seq<LegacyRecords.Record>
    const convHelper: ConversionHelpers.ConversionHelper
    var lineNumber: int
    var currentParsedLine: Option<string>
    var encoding: Option<string>
    var ignoreUnmappedRecords: bool

    /** Every record that can be looked up by name is also tried when matching. */
    predicate Valid()
      reads this
    {
      forall k :: k in records ==> records[k] in recordOrder
    }

    /** `new FileFormat()`: no records, line 0, an empty current line and an empty converter
        registry. */
    constructor()
      ensures Valid() && records == map[] && recordOrder == [] && lineNumber == 0 && currentParsedLine == Some("")
      ensures encoding == None && !ignoreUnmappedRecords && fresh(convHelper) && convHelper.converters == map[]
    {
      records, recordOrder := map[], [];
      lineNumber, currentParsedLine := 0, Some("");
      encoding, ignoreUnmappedRecords := None, false;
      convHelper := new ConversionHelpers.ConversionHelper();
    }

    /** `getRecord`: the record last added under `name`. */
    function GetRecord(name: Option<string>): (r: Option<LegacyRecords.Record>)
      reads this
      ensures r.Some? <==> name in records
      ensures r.Some? ==> r.value == records[name]
    {
      if name in records then Some(records[name]) else None
    }

    /** `addRecord`: keyed by the record's name, and appended to the matching order. */
    method AddRecord(r: LegacyRecords.Record)
      modifies this
      ensures records == old(records)[r.name := r] && recordOrder == old(recordOrder) + [r]
      ensures lineNumber == old(lineNumber) && currentParsedLine == old(currentParsedLine)
      ensures encoding == old(encoding) && ignoreUnmappedRecords == old(ignoreUnmappedRecords)
      ensures GetRecord(r.name) == Some(r)
      ensures old(Valid()) ==> Valid()
    {
      records := records[r.name := r];
      recordOrder := recordOrder + [r];
    }

    /** The recognition settings of the records, in matching order. */
    function Settings(): (r: seq<LegacyRecords.RecordSettings>)
      reads this`recordOrder, set i | 0 <= i < |recordOrder| :: recordOrder[i]
      ensures |r| == |recordOrder|
      ensures forall i :: 0 <= i < |r| ==> r[i] == recordOrder[i].Settings()
    {
      var rs := recordOrder;
      seq(|rs|, i reads set i | 0 <= i < |rs| :: rs[i] requires 0 <= i < |rs| => rs[i].Settings())
    }

    /** `hasDefaultRecord`: some record has the default flag '\0'. */
    predicate HasDefaultRecord()
      reads this`records, set k | k in records :: records[k]
    {
      exists k :: k in records && records[k].identTypeFlag == '\0'
    }

    /** Every line finds a record once there is a default record. */
    lemma DefaultRecordTakesEveryLine(line: string, script: LegacyRecords.ScriptVerdict)
      requires Valid() && HasDefaultRecord()
      ensures FirstMatching(Settings(), line, script, 0) != Ok(None)
    {
      var name :| name in records && records[name].identTypeFlag == '\0';
      var k :| 0 <= k < |recordOrder| && recordOrder[k] == records[name];
      DefaultRecordMapsAll(Settings(), line, script, 0, k);
    }

    /** `addConverter`: registered with the format's conversion helper. */
    method AddConverter(converter: ConversionHelpers.Converter)
      modifies convHelper
      ensures convHelper.converters == old(convHelper.converters)[converter.name := converter]
    {
      convHelper.AddConverter(converter);
    }

    /** `findMatchingRecord`: the search loop over the matching order, with its early exit. */
    method FindMatchingRecord(firstLine: string, script: LegacyRecords.ScriptVerdict) returns (r: Result<Option<LegacyRecords.Record>>, ghost k: Option<nat>)
      ensures match FirstMatching(Settings(), firstLine, script, 0)
        case Ok(found) => r.Ok? && k == found && (found.Some? ==> found.value < |recordOrder| && r.value == Some(recordOrder[found.value])) &&
                          (found.None? ==> r.value.None?)
        case Err(e) => r == Err(e)
    {
      var i := 0;
      while i < |recordOrder|
        invariant 0 <= i <= |recordOrder|
        invariant FirstMatching(Settings(), firstLine, script, 0) == FirstMatching(Settings(), firstLine, script, i)
      {
        var record := recordOrder[i];
        var m := record.MatchesLine(Some(firstLine), script);
        if m.Err? {
          return Err(m.error), None;
        }
        if m.value {
          return Ok(Some(record)), Some(i);
        }
        i := i + 1;
      }
      return Ok(None), None;
    }

    /** The lines of all records, which parsing a record changes. */
    function AllLines(): set<LegacyLines.Line>
      reads this`recordOrder, set i | 0 <= i < |recordOrder| :: recordOrder[i]
    {
      LinesOf(recordOrder)
    }

    /** The part of `nextRecord(in)` after the line is read: the first record that takes
        the line parses it; a line that no record takes is an error unless unmapped records are
        ignored. */
    method ParseMatching(line: string, reader: LineReader, convert: LegacyLines.LegacyConvert, classes: ClassTable, script: LegacyRecords.ScriptVerdict)
      returns (r: Result<Option<MatchedRecord>>, ghost found: Result<Option<nat>>, ghost order: seq<string>)
      requires reader.Valid()
      modifies reader, AllLines()
      ensures reader.Valid()
      ensures found == FirstMatching(Settings(), line, script, 0)
      ensures found.Err? ==> r == Err(found.error)
      ensures found == Ok(None) ==> r == (if ignoreUnmappedRecords then Ok(None) else Err(FlatwormParserException))
      ensures found.Ok? && found.value.Some? ==>
        var k := found.value.value;
        k < |recordOrder| && IsListing(order, recordOrder[k].beans.Keys) &&
        match LegacyRecords.RecordParse(convert, classes, recordOrder[k].beans, order, ConfigRecords.ShapesOf(recordOrder[k].lines),
                                        Some(line), reader.input, old(reader.pos))
        case Ok((st, pos)) => r == Ok(Some(MatchedRecord(recordOrder[k].name, st))) && reader.pos == pos
        case Err(e) => r == Err(e)
    {
      order := [];
      var rd, k := FindMatchingRecord(line, script);
      found := FirstMatching(Settings(), line, script, 0);
      if rd.Err? {
        return Err(rd.error), found, order;
      }
      if rd.value.None? {
        if ignoreUnmappedRecords {
          return Ok(None), found, order;
        }
        return Err(FlatwormParserException), found, order;
      }
      var record := rd.value.value;
      LinesOfHas(recordOrder, k.value);
      var beans;
      beans, order := record.ParseRecord(Some(line), reader, convert, classes);
      if beans.Err? {
        return Err(beans.error), found, order;
      }
      return Ok(Some(MatchedRecord(record.name, beans.value))), found, order;
    }

    /** `nextRecord(in)`: reads a line and counts it; at the end of the input there is no
        record, otherwise the line is parsed as `ParseMatching` says. */
    method NextRecord(reader: LineReader, convert: LegacyLines.LegacyConvert, classes: ClassTable, script: LegacyRecords.ScriptVerdict)
      returns (r: Result<Option<MatchedRecord>>, ghost found: Result<Option<nat>>, ghost order: seq<string>)
      requires reader.Valid()
      modifies this`lineNumber, this`currentParsedLine, reader, AllLines()
      ensures reader.Valid()
      ensures lineNumber == JavaNumbers.Int32(old(lineNumber) + 1)
      ensures (currentParsedLine, old(reader.pos) + (if currentParsedLine.Some? then 1 else 0)) == Read(reader.input, old(reader.pos))
      ensures currentParsedLine.None? ==> r == Ok(None) && reader.pos == old(reader.pos)
      ensures currentParsedLine.Some? ==> found == FirstMatching(Settings(), currentParsedLine.value, script, 0)
      ensures currentParsedLine.Some? && found.Err? ==> r == Err(found.error)
      ensures currentParsedLine.Some? && found == Ok(None) ==>
        r == (if ignoreUnmappedRecords then Ok(None) else Err(FlatwormParserException))
      ensures currentParsedLine.Some? && found.Ok? && found.value.Some? ==>
        var k := found.value.value;
        k < |recordOrder| && old(reader.pos) < |reader.input| && IsListing(order, recordOrder[k].beans.Keys) &&
        match LegacyRecords.RecordParse(convert, classes, recordOrder[k].beans, order, ConfigRecords.ShapesOf(recordOrder[k].lines),
                                        currentParsedLine, reader.input, old(reader.pos) + 1)
        case Ok((st, pos)) => r == Ok(Some(MatchedRecord(recordOrder[k].name, st))) && reader.pos == pos
        case Err(e) => r == Err(e)
    {
      order, found := [], Ok(None);
      currentParsedLine := reader.ReadLine();
      lineNumber := JavaNumbers.Int32(lineNumber + 1);
      if currentParsedLine.None? {
        return Ok(None), found, order;
      }
      assert old(reader.pos) < |reader.input| && reader.pos == old(reader.pos) + 1;
      var line := currentParsedLine.value;
      r, found, order := ParseMatching(line, reader, convert, classes, script);
    }
  }
}
