/** `DefaultConfigurationReader`: the reader of the `config` generation. It reads a record's
    name and identity, a segment's cardinality mode and a record element through the setters
    of the objects it builds. The script engines and the classes they would load are
    parameters, and so is the traversal of the `file-format` element, whose objects
    (`config.Line`, `config.Bean`, `config.RecordElement`) are not part of this model. */
module ConfigReader {
  import opened Wrappers
  import opened JavaText
  import opened Dom
  import Util
  import opened LineElements
  import ConfigRecords
  import LegacyFieldIdentities
  import LegacyLengthIdentities
  import CRI = ConfigReaderImpl
  import LCR = LegacyConfigReader

  /** The world the reader runs in: the script engines `ScriptEngineManager` finds by name,
      whether an engine evaluates a script, and the lines a script identity accepts. */
  datatype Env = Env(engines: set<string>, evaluates: (string, string) -> bool, accepts: ScriptDef -> iset<Option<string>>)

  /** A `ScriptIdentity` as its constructor leaves it: the engine and method names defaulted. */
  datatype ScriptDef = ScriptDef(engineName: string, script: string, methodName: string)

  const DEFAULT_SCRIPT_ENGINE := "nashorn"
  const DEFAULT_SCRIPT_METHOD_NAME := "matchesLine"
  const DOUBLE_DIP := "You cannot have default Records (those lacking identifier configuration) and the ignore-unmapped-records flag set to true - you must have one or the other."

  // ---------------------------------------------------------------------------------------
  // Segments.

  /** The part of a `config.SegmentElement` the reader sets from attributes. Its mode starts
      null. */
  class SegmentElement {
    var beanRef: Option<string>
    var parentBeanRef: Option<string>
    var addMethod: Option<string>
    var collectionPropertyName: Option<string>
    var cardinalityMode: Option<CardinalityMode>

    constructor()
      ensures beanRef == None && parentBeanRef == None && addMethod == None && collectionPropertyName == None && cardinalityMode == None
    {
      beanRef, parentBeanRef, addMethod, collectionPropertyName := None, None, None, None;
      cardinalityMode := None;
    }
  }

  /** The mode after `readCardinalityMode`: LOOSE for a blank setting, STRICT or RESTRICTED for
      a lower-cased setting starting with "strict" or "restrict", and otherwise what it was. */
  function ModeAfter(current: Option<CardinalityMode>, segmentMode: Option<string>): Option<CardinalityMode> {
    if IsBlank(segmentMode) then Some(LOOSE)
    else if StartsWith(ToLower(segmentMode.value), "strict") then Some(STRICT)
    else if StartsWith(ToLower(segmentMode.value), "restrict") then Some(RESTRICTED)
    else current
  }

  /** `readCardinalityMode(node, segment)`. */
  method ReadCardinalityMode(node: Node, segment: SegmentElement)
    modifies segment`cardinalityMode
    ensures segment.cardinalityMode == ModeAfter(old(segment.cardinalityMode), Attr(node, "cardinality-mode"))
  {
    var segmentMode := Attr(node, "cardinality-mode");
    if !IsBlank(segmentMode) {
      var lower := ToLower(segmentMode.value);
      if StartsWith(lower, "strict") {
        segment.cardinalityMode := Some(STRICT);
      } else if StartsWith(lower, "restrict") {
        segment.cardinalityMode := Some(RESTRICTED);
      }
    } else {
      segment.cardinalityMode := Some(LOOSE);
    }
  }

  // ---------------------------------------------------------------------------------------
  // Records and their identities.

  /** `readLengthIdentity`: the bounds from `min-length` and `max-length`. */
  function LengthIdentityOf(node: Node): LegacyLengthIdentities.LengthIdentityValue {
    LegacyLengthIdentities.LengthIdentityValue(Util.TryParseInt(Attr(node, "min-length")), Util.TryParseInt(Attr(node, "max-length")))
  }

  /** The texts the `match-string` children add; a child without text adds null, which the
      model leaves out. */
  function MatchingStrings(nodes: seq<Node>): set<string> {
    if nodes == [] then {}
    else
      var text := LastText(ChildrenOf(nodes[|nodes| - 1]));
      MatchingStrings(nodes[..|nodes| - 1]) + (if text.Some? then {text.value} else {})
  }

  /** `readFieldIdentity`: the start, the length and the texts of the `match-string` children. */
  function FieldIdentityOf(node: Node): LegacyFieldIdentities.FieldIdentityValue {
    LegacyFieldIdentities.FieldIdentityValue(Util.TryParseInt(Attr(node, "field-start")), Util.TryParseInt(Attr(node, "field-length")),
                                             MatchingStrings(AllNamed(ChildrenOf(node), "match-string")))
  }

  /** `readScriptIdentity`: the last text child, or the first CDATA child when that is blank,
      given to `new ScriptIdentity(engine, script, method)`, which defaults a blank engine or
      method name, fails when there is no such engine, and evaluates the script, where a null
      script throws. */
  function ReadScriptIdentity(env: Env, node: Node): Result<ScriptDef> {
    var engineName := Attr(node, "script-engine");
    var methodName := Attr(node, "method-name");
    var script := CRI.ScriptText(node);
    var engine := if IsBlank(engineName) then DEFAULT_SCRIPT_ENGINE else engineName.value;
    var method_ := if IsBlank(methodName) then DEFAULT_SCRIPT_METHOD_NAME else methodName.value;
    if engine !in env.engines then
      Err(FlatwormConfigurationException(["The " + engine + " ScriptEngine could not be found by the given name."]))
    else if script.None? then Err(NullPointerException)
    else if !env.evaluates(engine, script.value) then Err(FlatwormConfigurationException([]))
    else Ok(ScriptDef(engine, script.value, method_))
  }

  /** The identity `readRecord` sets from its `record-ident` child: a length identity wins over
      a field identity, which wins over a script identity; without any the identity is null. */
  function ReadIdentity(env: Env, node: Node): Result<Option<ConfigRecords.RecordIdentity>> {
    var identChild := FirstNamed(ChildrenOf(node), "record-ident");
    if identChild.None? then Ok(None)
    else
      var kids := ChildrenOf(identChild.value);
      var lengthChild := FirstNamed(kids, "length-ident");
      var fieldChild := FirstNamed(kids, "field-ident");
      var scriptChild := FirstNamed(kids, "script-ident");
      if lengthChild.Some? then Ok(Some(ConfigRecords.LengthId(LengthIdentityOf(lengthChild.value))))
      else if fieldChild.Some? then Ok(Some(ConfigRecords.FieldId(FieldIdentityOf(fieldChild.value))))
      else if scriptChild.Some? then
        var s :- ReadScriptIdentity(env, scriptChild.value);
        Ok(Some(ConfigRecords.ScriptId(env.accepts(s))))
      else Ok(None)
  }

  /** The start of `readRecord`: the name, then the identity, which is set only when there is
      one. */
  method ReadRecordHead(env: Env, node: Node, record: ConfigRecords.Record) returns (r: Result<()>)
    modifies record`name, record`recordIdentity
    ensures record.name == Attr(node, "name")
    ensures var expected := ReadIdentity(env, node);
      (r.Err? <==> expected.Err?) && (r.Err? ==> r.error == expected.error) &&
      record.recordIdentity == (if expected.Ok? && expected.value.Some? then expected.value else old(record.recordIdentity))
  {
    record.name := Attr(node, "name");
    var identChild := ChildElementNamed(node, "record-ident");
    if identChild.None? {
      return Ok(());
    }
    var lengthChild := ChildElementNamed(identChild.value, "length-ident");
    var fieldChild := ChildElementNamed(identChild.value, "field-ident");
    var scriptChild := ChildElementNamed(identChild.value, "script-ident");
    if lengthChild.Some? {
      record.recordIdentity := Some(ConfigRecords.LengthId(LengthIdentityOf(lengthChild.value)));
    } else if fieldChild.Some? {
      var f := ReadFieldIdentity(fieldChild.value);
      record.recordIdentity := Some(ConfigRecords.FieldId(f.View()));
    } else if scriptChild.Some? {
      var s := ReadScriptIdentity(env, scriptChild.value);
      if s.Err? {
        return Err(s.error);
      }
      record.recordIdentity := Some(ConfigRecords.ScriptId(env.accepts(s.value)));
    }
    return Ok(());
  }

  /** `readFieldIdentity` as it runs: a new `FieldIdentity`, its positions set, then one
      `addMatchingString` per `match-string` child that has text. A child without text adds a
      null in the source, which the model leaves out. */
  method ReadFieldIdentity(node: Node) returns (f: LegacyFieldIdentities.FieldIdentity)
    ensures fresh(f) && f.View() == FieldIdentityOf(node)
  {
    f := new LegacyFieldIdentities.FieldIdentity();
    f.startPosition := Util.TryParseInt(Attr(node, "field-start"));
    f.fieldLength := Util.TryParseInt(Attr(node, "field-length"));
    var matchNodes := ChildElementsOfType(node, "match-string");
    var i := 0;
    while i < |matchNodes|
      invariant 0 <= i <= |matchNodes|
      invariant f.View() == FieldIdentityOf(node).(matchingStrings := MatchingStrings(matchNodes[..i]))
    {
      var text := LastChildText(matchNodes[i]);
      assert matchNodes[..i + 1][..i] == matchNodes[..i];
      if text.Some? {
        f.AddMatchingString(text.value);
      }
      i := i + 1;
    }
    assert matchNodes[..i] == matchNodes;
  }

  // ---------------------------------------------------------------------------------------
  // Record elements.

  /** What `readRecordElement` sets on a new `config.RecordElement`. */
  datatype ElementSettings = ElementSettings(fieldStart: Option<int>, fieldEnd: Option<int>, fieldLength: Option<int>,
                                             beanRef: Option<string>, converterName: Option<string>, ignoreField: Option<bool>,
                                             conversionOptions: map<string, Util.ConversionOption>)

  /** The setters of `config.RecordElement` that the reader calls. */
  class RecordElement {
    var fieldStart: Option<int>
    var fieldEnd: Option<int>
    var fieldLength: Option<int>
    var beanRef: Option<string>
    var converterName: Option<string>
    var ignoreField: Option<bool>
    var conversionOptions: map<string, Util.ConversionOption>

    function View(): ElementSettings
      reads this
    {
      ElementSettings(fieldStart, fieldEnd, fieldLength, beanRef, converterName, ignoreField, conversionOptions)
    }

    constructor()
      ensures View() == ElementSettings(None, None, None, None, None, None, map[])
    {
      fieldStart, fieldEnd, fieldLength := None, None, None;
      beanRef, converterName, ignoreField := None, None, None;
      conversionOptions := map[];
    }

    /** `addConversionOption(name, option)`: a later option of the same name replaces it. */
    method AddConversionOption(name: string, option: Util.ConversionOption)
      modifies this`conversionOptions
      ensures conversionOptions == old(conversionOptions)[name := option]
    {
      conversionOptions := conversionOptions[name := option];
    }
  }

  /** `readRecordElement`: each attribute that is present is set, the bean reference as it is
      written; then the conversion options. */
  function ElementOf(node: Node): ElementSettings {
    var start, end, length := Attr(node, "start"), Attr(node, "end"), Attr(node, "length");
    var ignoreField := Attr(node, "ignore-field");
    ElementSettings(Util.TryParseInt(start), Util.TryParseInt(end), Util.TryParseInt(length), Attr(node, "beanref"),
                    Attr(node, "converter-name"), if ignoreField.Some? then Util.TryParseBoolean(ignoreField) else None,
                    CRI.OptionsAdded(map[], AllNamed(ChildrenOf(node), "conversion-option")))
  }

  /** `readRecordElement` as it runs. */
  method ReadRecordElement(node: Node) returns (re: RecordElement)
    ensures fresh(re) && re.View() == ElementOf(node)
  {
    re := new RecordElement();
    var start, end, length := Attr(node, "start"), Attr(node, "end"), Attr(node, "length");
    var beanref, converterName, ignoreField := Attr(node, "beanref"), Attr(node, "converter-name"), Attr(node, "ignore-field");
    if start.Some? {
      re.fieldStart := Util.TryParseInt(start);
    }
    if end.Some? {
      re.fieldEnd := Util.TryParseInt(end);
    }
    if length.Some? {
      re.fieldLength := Util.TryParseInt(length);
    }
    if beanref.Some? {
      re.beanRef := beanref;
    }
    if converterName.Some? {
      re.converterName := converterName;
    }
    if ignoreField.Some? {
      re.ignoreField := Util.TryParseBoolean(ignoreField);
    }
    ReadConversionOptions(node, re);
  }

  /** `readConversionOptions`: one option per `conversion-option` child, in order. */
  method ReadConversionOptions(node: Node, re: RecordElement)
    modifies re`conversionOptions
    ensures re.conversionOptions == CRI.OptionsAdded(old(re.conversionOptions), AllNamed(ChildrenOf(node), "conversion-option"))
  {
    var childNodes := ChildElementsOfType(node, "conversion-option");
    var i := 0;
    while i < |childNodes|
      invariant 0 <= i <= |childNodes|
      invariant re.conversionOptions == CRI.OptionsAdded(old(re.conversionOptions), childNodes[..i])
    {
      var (name, co) := CRI.OptionOf(childNodes[i]);
      assert childNodes[..i + 1][..i] == childNodes[..i];
      re.AddConversionOption(name, co);
      i := i + 1;
    }
    assert childNodes[..i] == childNodes;
  }

  // ---------------------------------------------------------------------------------------
  // `loadConfigurationFile`.

  /** The `catch (Exception e)` of `loadConfigurationFile`: a configuration exception with the
      message of what was caught. */
  function Wrapped(e: Exn): Exn {
    if e.FlatwormConfigurationException? then e else FlatwormConfigurationException([])
  }

  /** `loadConfigurationFile` on a parsed document, given what `traverse` makes of a node and
      what `hasDefaultRecord` and `isIgnoreUnmappedRecords` say of the file format it makes:
      the first top-level `file-format` element is traversed, and a default record together
      with ignore-unmapped-records is refused. */
  function Load<F>(document: seq<Node>, traverse: Node -> Result<Option<F>>, hasDefaultRecord: F -> bool, ignoresUnmapped: F -> bool)
    : Result<Option<F>>
  {
    var first := FirstNamed(document, "file-format");
    if first.None? then Ok(None)
    else
      match traverse(first.value)
      case Err(e) => Err(Wrapped(e))
      case Ok(o) =>
        if o.Some? && hasDefaultRecord(o.value) && ignoresUnmapped(o.value) then Err(FlatwormConfigurationException([DOUBLE_DIP]))
        else Ok(o)
  }

  /** The loop of `loadConfigurationFile` over the document's children, stopping at the first
      `file-format` element, and the check after it. */
  method LoadConfigurationFile<F>(document: seq<Node>, traverse: Node -> Result<Option<F>>, hasDefaultRecord: F -> bool,
                                  ignoresUnmapped: F -> bool) returns (r: Result<Option<F>>)
    ensures r == Load(document, traverse, hasDefaultRecord, ignoresUnmapped)
  {
    var fileFormat: Option<F> := None;
    var i := 0;
    while i < |document|
      invariant 0 <= i <= |document|
      invariant FirstNamed(document, "file-format") == FirstNamed(document[i..], "file-format")
    {
      var child := document[i];
      assert document[i..][1..] == document[i + 1..];
      if child.Element? && child.name == "file-format" {
        var o := traverse(child);
        if o.Err? {
          return Err(Wrapped(o.error));
        }
        fileFormat := o.value;
        break;
      }
      i := i + 1;
    }
    if fileFormat.Some? {
      if hasDefaultRecord(fileFormat.value) && ignoresUnmapped(fileFormat.value) {
        return Err(FlatwormConfigurationException([DOUBLE_DIP]));
      }
    }
    return Ok(fileFormat);
  }

  // ---------------------------------------------------------------------------------------
  // Properties of the reader.

  /** A blank setting is LOOSE and the case of the setting does not matter; where this reader
      sets a mode it is the mode the legacy reader gives, and where the legacy reader falls back
      to LOOSE for a setting it does not know, this one keeps the segment's mode. */
  lemma ModeRule(current: Option<CardinalityMode>, s: string)
    ensures ModeAfter(current, None) == Some(LOOSE)
    ensures Blank(s) ==> ModeAfter(current, Some(s)) == Some(LOOSE)
    ensures ModeAfter(current, Some(ToUpper(s))) == ModeAfter(current, Some(s))
    ensures ModeAfter(current, Some(ToLower(s))) == ModeAfter(current, Some(s))
    ensures ModeAfter(current, Some(s)) ==
      if !Blank(s) && LCR.SegmentModeOf(Some(s)) == LOOSE then current else Some(LCR.SegmentModeOf(Some(s)))
  {
    LowerOfUpper(s);
    ToLowerIdempotent(s);
    BlankUpper(s);
    BlankLower(s);
  }

  /** A new segment keeps its null mode for "loose", which the legacy reader reads as LOOSE;
      "Restrict" is RESTRICTED. */
  lemma ModeExamples()
    ensures ModeAfter(None, Some("loose")) == None
    ensures LCR.SegmentModeOf(Some("loose")) == LOOSE
    ensures ModeAfter(None, Some("Restrict")) == Some(RESTRICTED)
  {
    var l := "loose";
    assert !IsWhitespace(l[0]);
    var t := "Restrict";
    assert !IsWhitespace(t[0]);
    forall i | 0 <= i < |t| ensures ToLower(t)[i] == "restrict"[i] {
      if i == 0 {} else if i == 1 {} else if i == 2 {} else if i == 3 {} else if i == 4 {} else if i == 5 {} else if i == 6 {} else {}
    }
    assert ToLower(t) == "restrict";
    assert "restrict"[..6] != "strict" by { assert "restrict"[0] != "strict"[0]; }
  }

  function KindOf(id: ConfigRecords.RecordIdentity): string {
    match id
    case LengthId(_) => "length-ident"
    case FieldId(_) => "field-ident"
    case ScriptId(_) => "script-ident"
  }

  /** The identity is of the kind that comes first in the order length, field, script among the
      children of `record-ident`, whatever other kinds are there; with no `record-ident` or none
      of the kinds it is null, and only a script identity can fail. */
  lemma IdentityPrecedence(env: Env, node: Node)
    ensures var ic, r := FirstNamed(ChildrenOf(node), "record-ident"), ReadIdentity(env, node);
      && (ic.None? ==> r == Ok(None))
      && (ic.Some? && CRI.Preferred(ChildrenOf(ic.value), CRI.IDENT_KINDS).None? ==> r == Ok(None))
      && (r.Err? ==> ic.Some? && CRI.Preferred(ChildrenOf(ic.value), CRI.IDENT_KINDS) == Some("script-ident"))
      && (r.Ok? && r.value.Some? ==> ic.Some? && CRI.Preferred(ChildrenOf(ic.value), CRI.IDENT_KINDS) == Some(KindOf(r.value.value)))
  {
    var ic := FirstNamed(ChildrenOf(node), "record-ident");
    if ic.Some? {
      CRI.PreferredKinds(ChildrenOf(ic.value));
    }
  }

  /** A record whose `record-ident` holds a `length-ident` with both bounds recognises exactly
      the lines whose length lies between them; one whose strongest kind is a `field-ident`
      with both positions recognises a line by the texts of its `match-string` children. */
  lemma IdentityRecognises(env: Env, node: Node, line: string)
    requires FirstNamed(ChildrenOf(node), "record-ident").Some?
    ensures var kids, r := ChildrenOf(FirstNamed(ChildrenOf(node), "record-ident").value), ReadIdentity(env, node);
      var lc, fc := FirstNamed(kids, "length-ident"), FirstNamed(kids, "field-ident");
      && (lc.Some? ==> var min, max := Util.TryParseInt(Attr(lc.value, "min-length")), Util.TryParseInt(Attr(lc.value, "max-length"));
            min.Some? && max.Some? ==> ConfigRecords.MatchesLine(r.value, Some(line)) == Ok(min.value <= |line| <= max.value))
      && (lc.None? && fc.Some? ==> var f := FieldIdentityOf(fc.value);
            f.startPosition.Some? && f.fieldLength.Some? ==>
            ConfigRecords.MatchesLine(r.value, Some(line)) == Ok(LegacyFieldIdentities.LineMatches(f, line)))
  {
    var r := ReadIdentity(env, node);
    if r.Ok? && r.value.Some? && ConfigRecords.Configured(r.value.value) {
      ConfigRecords.MatchesLineRule(r.value, Some(line));
    }
  }

  /** The strings of a field identity are exactly the texts of its `match-string` children. */
  lemma {:induction false} MatchingStringsRule(nodes: seq<Node>)
    ensures forall x :: x in MatchingStrings(nodes) <==> exists k :: 0 <= k < |nodes| && LastText(ChildrenOf(nodes[k])) == Some(x)
  {
    if nodes != [] {
      var init := nodes[..|nodes| - 1];
      MatchingStringsRule(init);
      assert forall k :: 0 <= k < |init| ==> nodes[k] == init[k];
    }
  }

  /** A script identity fails exactly when its engine is missing, its script is null, or the
      engine rejects the script; a text child that is only white space gives way to the CDATA,
      so without CDATA it leaves the script null. */
  lemma ScriptIdentityRule(env: Env, node: Node)
    ensures var r, text, cdata := ReadScriptIdentity(env, node), LastText(ChildrenOf(node)), FirstCData(ChildrenOf(node));
      var engineName := Attr(node, "script-engine");
      var engine := if IsBlank(engineName) then DEFAULT_SCRIPT_ENGINE else engineName.value;
      && (r.Err? <==> engine !in env.engines || CRI.ScriptText(node).None? || !env.evaluates(engine, CRI.ScriptText(node).value))
      && (r.Err? && engine in env.engines ==> r.error == NullPointerException || r.error.FlatwormConfigurationException?)
      && (engine in env.engines && IsBlank(text) && cdata.None? ==> r == Err(NullPointerException))
      && (r.Ok? ==> r.value.engineName == engine && (!IsBlank(text) ==> r.value.script == text.value) &&
                    (IsBlank(text) ==> Some(r.value.script) == cdata) &&
                    (IsBlank(Attr(node, "method-name")) ==> r.value.methodName == DEFAULT_SCRIPT_METHOD_NAME))
  {
  }

  /** The bean reference is kept as written, where the business-object reader splits a dotted
      one: "a.b.c" stays "a.b.c" here and becomes bean "a.b" there. */
  lemma BeanRefVerbatim(node: Node)
    ensures ElementOf(node).beanRef == Attr(node, "beanref")
    ensures Attr(node, "beanref") == Some("a.b.c") ==>
      CRI.ReadRecordElement(node).cardinality.Some? && CRI.ReadRecordElement(node).cardinality.value.beanRef == Some("a.b")
  {
    if Attr(node, "beanref") == Some("a.b.c") {
      var b := "a.b.c";
      assert !IsWhitespace(b[0]);
      assert b[4] == 'c' && b[3] == '.' && b[4..] == "c";
      assert '.' !in b[4..];
      assert LastIndexOf(b, '.') == 3;
      assert b[..3] == "a.b";
    }
  }

  /** Each position and flag is set exactly when its attribute is there (and, for the flag, not
      blank); an option is the last `conversion-option` child of its name. */
  lemma ElementRule(node: Node, key: string)
    ensures var e := ElementOf(node);
      && (e.fieldStart.Some? ==> Attr(node, "start").Some?) && (e.fieldEnd.Some? ==> Attr(node, "end").Some?)
      && (e.fieldLength.Some? ==> Attr(node, "length").Some?)
      && (e.ignoreField.Some? <==> !IsBlank(Attr(node, "ignore-field")))
    ensures var opts, nodes := ElementOf(node).conversionOptions, AllNamed(ChildrenOf(node), "conversion-option");
      var k := CRI.LastOptionIndex(nodes, key);
      && (key in opts <==> k >= 0)
      && (k >= 0 ==> opts[key] == CRI.OptionOf(nodes[k]).1 && forall j :: k < j < |nodes| ==> CRI.OptionOf(nodes[j]).0 != key)
  {
    CRI.OptionsLastWins(map[], AllNamed(ChildrenOf(node), "conversion-option"), key);
  }

  /** Every failure of `loadConfigurationFile` is a configuration exception, and the double dip
      is refused with its own message. */
  lemma LoadFailsAsConfiguration<F>(document: seq<Node>, traverse: Node -> Result<Option<F>>, hasDefaultRecord: F -> bool,
                                    ignoresUnmapped: F -> bool)
    ensures var r := Load(document, traverse, hasDefaultRecord, ignoresUnmapped);
      r.Err? ==> r.error.FlatwormConfigurationException?
    ensures var first := FirstNamed(document, "file-format");
      first.Some? && traverse(first.value).Ok? && traverse(first.value).value.Some? &&
      hasDefaultRecord(traverse(first.value).value.value) && ignoresUnmapped(traverse(first.value).value.value) ==>
      Load(document, traverse, hasDefaultRecord, ignoresUnmapped) == Err(FlatwormConfigurationException([DOUBLE_DIP]))
  {
    var first := FirstNamed(document, "file-format");
    if first.Some? {
      assert first.value.Element? && first.value.name == "file-format";
    }
  }

  /** What loads is what `traverse` makes of the first top-level `file-format` element, when it
      is not both defaulted and ignoring unmapped records; without such an element nothing
      loads. */
  lemma LoadAccepts<F>(document: seq<Node>, traverse: Node -> Result<Option<F>>, hasDefaultRecord: F -> bool, ignoresUnmapped: F -> bool)
    ensures FirstNamed(document, "file-format").None? ==> Load(document, traverse, hasDefaultRecord, ignoresUnmapped) == Ok(None)
    ensures var r := Load(document, traverse, hasDefaultRecord, ignoresUnmapped);
      r.Ok? && r.value.Some? ==>
      var first := FirstNamed(document, "file-format");
      first.Some? && traverse(first.value) == r && !(hasDefaultRecord(r.value.value) && ignoresUnmapped(r.value.value))
  {
  }
}
