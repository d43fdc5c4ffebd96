/** `DefaultConfigurationReaderImpl`: reads the XML configuration of the business-object
    generation. `traverse` turns each element it knows into a business object and every other
    node into null; the objects are built through setters on fresh instances, so each read is
    modelled as the value it builds. Class loading, the script engines, classpath resources, the
    platform's default charset and the validator of the finished file format are parameters. */
module ConfigReaderImpl {
  import opened Wrappers
  import opened JavaText
  import Util
  import opened Dom
  import opened LineElements
  import opened Identities
  import FieldIdentities
  import LengthIdentities
  import LineParsing

  /** `ConverterBO` as the reader builds it: every attribute may be missing. */
  datatype ConverterDef = ConverterDef(converterClass: Option<string>, methodName: Option<string>, returnType: Option<string>, name: Option<string>)

  /** `BeanBO`: a bean's class is one that loaded. */
  datatype BeanDef = BeanDef(beanName: Option<string>, beanClass: string)

  /** `LineBO` with the scriptlets run around it. */
  datatype LineDef = LineDef(config: LineParsing.LineConfig, before: Option<Scriptlet>, after: Option<Scriptlet>)

  /** `RecordDefinitionBO`: beans by name, the sequential lines and the lines with identities. */
  datatype DefinitionDef = DefinitionDef(beans: map<Option<string>, BeanDef>, lines: seq<LineDef>, linesWithIdentities: seq<LineDef>)

  /** `RecordBO`. */
  datatype RecordDef = RecordDef(name: Option<string>, identity: Option<Identity>, before: Option<Scriptlet>, after: Option<Scriptlet>,
                                 definition: DefinitionDef)

  /** `FileFormat`: its encoding and flag, and the converters and records in document order. */
  datatype FileFormatDef = FileFormatDef(encoding: string, ignoreUnmappedRecords: bool, converters: seq<ConverterDef>, records: seq<RecordDef>)

  /** What `traverse` returns for an element it knows. */
  datatype Dto =
    | FileFormatDto(fileFormat: FileFormatDef)
    | ConverterDto(converter: ConverterDef)
    | RecordDto(record: RecordDef)
    | DefinitionDto(definition: DefinitionDef)
    | BeanDto(bean: BeanDef)
    | LineDto(line: LineDef)
    | ElementDto(element: LineElement)

  /** The world the reader runs in: `Charset.defaultCharset()`, the classes `Class.forName`
      loads, the script engines `ScriptEngineManager` finds by name, whether an engine evaluates
      a script, what loading a classpath resource gives, the lines a scriptlet's identity
      accepts, and `ConfigurationValidator.validateFileFormat`. */
  datatype Env = Env(
    defaultCharset: string,
    loadable: set<string>,
    engines: set<string>,
    evaluates: (string, string) -> bool,
    loadResource: string -> Result<string>,
    accepts: Scriptlet -> iset<Option<string>>,
    validate: FileFormatDef -> seq<string>)

  const DEFAULT_SCRIPT_ENGINE := "nashorn"
  const DEFAULT_SCRIPT_FUNCTION := "matchesLine"
  const VALIDATION_HEADER := "Validation of the configuration content failed. See below:"
  const DOUBLE_DIP := "You cannot have default Records (those lacking identifier configuration) and the ignore-unmapped-records flag set to true - you must have one or the other."

  /** The element names `traverse` turns into objects. */
  const KNOWN: set<string> := {"file-format", "converter", "record", "record-definition", "bean", "line", "segment-element", "record-element"}

  // ---------------------------------------------------------------------------------------
  // Scriptlets.

  /** What a scriptlet runs: the last text child, or the first CDATA child when that is blank. */
  function ScriptText(node: Node): Option<string> {
    var text := LastText(ChildrenOf(node));
    if IsBlank(text) then FirstCData(ChildrenOf(node)) else text
  }

  /** `readScriptlet(node)`: `new ScriptletBO(engine, method)` defaults a blank engine and method
      name and fails when the engine is not found; a non-blank script is evaluated, otherwise a
      non-blank script file is loaded and its contents evaluated, otherwise there is no script. */
  function ReadScriptlet(env: Env, node: Node): Result<Scriptlet> {
    var engineName := Attr(node, "script-engine");
    var methodName := Attr(node, "method-name");
    var scriptFile := Attr(node, "script-file");
    var script := ScriptText(node);
    var engine := if IsBlank(engineName) then DEFAULT_SCRIPT_ENGINE else engineName.value;
    var function_ := if IsBlank(methodName) then DEFAULT_SCRIPT_FUNCTION else methodName.value;
    if engine !in env.engines then
      Err(FlatwormConfigurationException(["The " + engine + " ScriptEngine could not be found by the given name."]))
    else if !IsBlank(script) then
      if env.evaluates(engine, script.value) then Ok(Scriptlet(engine, script, None, function_))
      else Err(FlatwormConfigurationException([]))
    else if !IsBlank(scriptFile) then
      var contents :- env.loadResource(scriptFile.value);
      if env.evaluates(engine, contents) then Ok(Scriptlet(engine, Some(contents), scriptFile, function_))
      else Err(FlatwormConfigurationException([]))
    else Ok(Scriptlet(engine, None, None, function_))
  }

  /** `readScriptlet(node, elementName)`: null without such a child element. */
  function ReadNamedScriptlet(env: Env, node: Node, elementName: string): Result<Option<Scriptlet>> {
    var child := FirstNamed(ChildrenOf(node), elementName);
    if child.None? then Ok(None)
    else
      var s :- ReadScriptlet(env, child.value);
      Ok(Some(s))
  }

  // ---------------------------------------------------------------------------------------
  // Identities.

  function ReadLengthIdentity(node: Node): LengthIdentities.LengthIdentityValue {
    LengthIdentities.LengthIdentityValue(Util.TryParseInt(Attr(node, "min-length")), Util.TryParseInt(Attr(node, "max-length")))
  }

  /** The strings the `match-string` children add, in the identity's case folding; a child
      without text cannot be lower-cased. Without case folding such a child adds a null in the
      source, which the model leaves out. */
  function MatchStrings(ignoreCase: bool, nodes: seq<Node>): Result<set<string>> {
    if nodes == [] then Ok({})
    else
      var strings :- MatchStrings(ignoreCase, nodes[..|nodes| - 1]);
      var text := LastText(ChildrenOf(nodes[|nodes| - 1]));
      if text.Some? then Ok(strings + {FieldIdentities.Folded(ignoreCase, text.value)})
      else if ignoreCase then Err(NullPointerException)
      else Ok(strings)
  }

  /** `readFieldIdentity`: `ignore-case` defaults to false. */
  function ReadFieldIdentity(node: Node): Result<FieldIdentities.FieldIdentityValue> {
    var ignoreCase := Util.TryParseBooleanOr(Attr(node, "ignore-case"), false);
    var strings :- MatchStrings(ignoreCase, AllNamed(ChildrenOf(node), "match-string"));
    Ok(FieldIdentities.FieldIdentityValue(Util.TryParseInt(Attr(node, "field-start")), Util.TryParseInt(Attr(node, "field-length")),
                                          strings, ignoreCase))
  }

  /** `readScriptIdentity`. */
  function ReadScriptIdentity(env: Env, node: Node): Result<Identity> {
    var s :- ReadScriptlet(env, node);
    Ok(Script(env.accepts(s), s))
  }

  /** The identity `readRecord` sets: of the three kinds under `record-ident`, the length
      identity wins over the field identity, which wins over the script identity. */
  function ReadRecordIdentity(env: Env, node: Node): Result<Option<Identity>> {
    var identChild := FirstNamed(ChildrenOf(node), "record-ident");
    if identChild.None? then Ok(None)
    else
      var kids := ChildrenOf(identChild.value);
      var lengthChild := FirstNamed(kids, "length-ident");
      var fieldChild := FirstNamed(kids, "field-ident");
      var scriptChild := FirstNamed(kids, "script-ident");
      if lengthChild.Some? then Ok(Some(Length(ReadLengthIdentity(lengthChild.value))))
      else if fieldChild.Some? then
        var f :- ReadFieldIdentity(fieldChild.value);
        Ok(Some(Field(f)))
      else if scriptChild.Some? then
        var s :- ReadScriptIdentity(env, scriptChild.value);
        Ok(Some(s))
      else Ok(None)
  }

  // ---------------------------------------------------------------------------------------
  // Cardinality and record elements.

  /** The mode `readCardinality` sets: blank is LOOSE; otherwise the upper-cased text is tested
      for the prefixes LOOSE, RESTRICTED, STRICT and SINGLE in that order, and anything else
      keeps the LOOSE of `new CardinalityBO()`. */
  function CardinalityModeOf(segmentMode: Option<string>): CardinalityMode {
    if IsBlank(segmentMode) then LOOSE
    else
      var upper := ToUpper(segmentMode.value);
      if StartsWith(upper, "LOOSE") then LOOSE
      else if StartsWith(upper, "RESTRICTED") then RESTRICTED
      else if StartsWith(upper, "STRICT") then STRICT
      else if StartsWith(upper, "SINGLE") then SINGLE
      else LOOSE
  }

  /** `readCardinality`: the counts, references and methods straight from the attributes. */
  function ReadCardinality(node: Node): Cardinality {
    Cardinality(Attr(node, "property-name"), Attr(node, "beanref"), Attr(node, "parent-beanref"), Attr(node, "add-method"),
                Util.TryParseInt(Attr(node, "minCount")), Util.TryParseInt(Attr(node, "maxCount")),
                Some(CardinalityModeOf(Attr(node, "cardinality-mode"))))
  }

  /** A dotted bean reference names a property of a bean: "a.b.c" is property "c" of bean
      "a.b". A blank reference or one without a dot is kept. */
  function SplitBeanRef(c: Cardinality): Cardinality {
    if IsBlank(c.beanRef) then c
    else
      var beanRef := c.beanRef.value;
      var lastIndex := LastIndexOf(beanRef, '.');
      if lastIndex > -1 then c.(beanRef := Some(beanRef[..lastIndex]), propertyName := Some(beanRef[lastIndex + 1..]))
      else c
  }

  /** The stored form of a `conversion-option` child; a nameless option is keyed by "" (the Java
      key is null). */
  function OptionOf(node: Node): (string, Util.ConversionOption) {
    var name := Attr(node, "name").GetOr("");
    (name, Util.ConversionOption(name, Attr(node, "value")))
  }

  /** The options after adding those of `nodes` one by one to `m`. */
  function OptionsAdded(m: map<string, Util.ConversionOption>, nodes: seq<Node>): map<string, Util.ConversionOption> {
    if nodes == [] then m
    else
      var (name, option) := OptionOf(nodes[|nodes| - 1]);
      OptionsAdded(m, nodes[..|nodes| - 1])[name := option]
  }

  /** `readRecordElement`: positions only from the attributes that are present; with a
      `beanref`, the cardinality read from the element, forced to SINGLE, with the reference
      split at its last dot; then the converter name, the ignore flag and the conversion
      options. Elements carry no order of their own. */
  function ReadRecordElement(node: Node): RecordElementValue {
    var start := Attr(node, "start");
    var end := Attr(node, "end");
    var length := Attr(node, "length");
    var beanref := Attr(node, "beanref");
    var ignoreField := Attr(node, "ignore-field");
    RecordElementValue(
      if end.Some? then Util.TryParseInt(end) else None,
      if start.Some? then Util.TryParseInt(start) else None,
      if length.Some? then Util.TryParseInt(length) else None,
      if beanref.Some? then Some(SplitBeanRef(ReadCardinality(node).(cardinalityMode := Some(SINGLE)))) else None,
      Attr(node, "converter-name"),
      if ignoreField.Some? then Util.TryParseBoolean(ignoreField).GetOr(false) else false,
      None,
      OptionsAdded(map[], AllNamed(ChildrenOf(node), "conversion-option")))
  }

  function ReadConverter(node: Node): ConverterDef {
    ConverterDef(Attr(node, "class"), Attr(node, "method"), Attr(node, "return-type"), Attr(node, "name"))
  }

  /** `readBean`: the class must load; `Class.forName(null)` throws. */
  function ReadBean(env: Env, node: Node): Result<BeanDef> {
    var beanClass := Attr(node, "class");
    if beanClass.None? then Err(NullPointerException)
    else if beanClass.value !in env.loadable then Err(FlatwormConfigurationException(["Unable to load class " + beanClass.value]))
    else Ok(BeanDef(Attr(node, "name"), beanClass.value))
  }

  // ---------------------------------------------------------------------------------------
  // Collecting the children's objects.

  /** `new LineBO()`. */
  const NEW_LINE := LineParsing.LineConfig([], None, '\0', None, -1, None, None, false)

  /** `setQuoteChar(String)`: the first character; null changes nothing, "" throws. */
  function WithQuote(config: LineParsing.LineConfig, quote: Option<string>): Result<LineParsing.LineConfig> {
    if quote.None? then Ok(config)
    else if quote.value == "" then Err(IndexOutOfBoundsException)
    else Ok(config.(quoteChar := quote.value[0]))
  }

  /** The line elements among the objects, added one by one with `LineBO.addLineElement`: an
      element without an order is numbered one past the elements before it. */
  function LineElementsOf(dtos: seq<Dto>): seq<LineElement> {
    if dtos == [] then []
    else
      var es := LineElementsOf(dtos[..|dtos| - 1]);
      var d := dtos[|dtos| - 1];
      if d.ElementDto? then es + [if Order(d.element).None? then WithOrder(d.element, |es| + 1) else d.element]
      else es
  }

  /** The line elements among the objects, appended as a segment adds them. */
  function SegmentElementsOf(dtos: seq<Dto>): seq<LineElement> {
    if dtos == [] then []
    else
      var es := SegmentElementsOf(dtos[..|dtos| - 1]);
      var d := dtos[|dtos| - 1];
      if d.ElementDto? then es + [d.element] else es
  }

  /** `RecordDefinitionBO.addLine`: a line without identity is numbered one past the sequential
      lines (unless it has an index) and appended to them; one with an identity goes to the
      identity lines. */
  function AddLine(d: DefinitionDef, l: LineDef): DefinitionDef {
    if l.config.lineIdentity.None? then
      var index := if l.config.index == -1 then |d.lines| + 1 else l.config.index;
      d.(lines := d.lines + [l.(config := l.config.(index := index))])
    else d.(linesWithIdentities := d.linesWithIdentities + [l])
  }

  /** The beans and lines among the objects, added one by one; a bean replaces one of the same
      name. */
  function DefinitionOf(dtos: seq<Dto>): DefinitionDef {
    if dtos == [] then DefinitionDef(map[], [], [])
    else
      var d := DefinitionOf(dtos[..|dtos| - 1]);
      match dtos[|dtos| - 1]
      case BeanDto(b) => d.(beans := d.beans[b.beanName := b])
      case LineDto(l) => AddLine(d, l)
      case _ => d
  }

  function ConvertersOf(dtos: seq<Dto>): seq<ConverterDef> {
    if dtos == [] then []
    else ConvertersOf(dtos[..|dtos| - 1]) + (if dtos[|dtos| - 1].ConverterDto? then [dtos[|dtos| - 1].converter] else [])
  }

  function RecordsOf(dtos: seq<Dto>): seq<RecordDef> {
    if dtos == [] then []
    else RecordsOf(dtos[..|dtos| - 1]) + (if dtos[|dtos| - 1].RecordDto? then [dtos[|dtos| - 1].record] else [])
  }

  /** `Boolean.parseBoolean`. */
  predicate ParseBoolean(s: Option<string>) {
    s.Some? && EqualsIgnoreCase(s.value, "true")
  }

  /** The message `traverse` throws when the file format does not validate. */
  function ValidationMessage(errors: seq<string>): string {
    VALIDATION_HEADER + "\n" + Joined(errors, "\n")
  }

  // ---------------------------------------------------------------------------------------
  // `traverse` and the readers of elements with element children, which traverse them.

  /** `traverse`: a known element becomes its object, a file format only once it validates;
      any other node is null. */
  function Traverse(env: Env, node: Node): Result<Option<Dto>>
    decreases node, 3, 0
  {
    if !node.Element? then Ok(None)
    else if node.name == "file-format" then
      var ff :- ReadFileFormat(env, node);
      var errors := env.validate(ff);
      if errors != [] then Err(FlatwormConfigurationException([ValidationMessage(errors)]))
      else Ok(Some(FileFormatDto(ff)))
    else if node.name == "converter" then Ok(Some(ConverterDto(ReadConverter(node))))
    else if node.name == "record" then
      var r :- ReadRecord(env, node);
      Ok(Some(RecordDto(r)))
    else if node.name == "record-definition" then
      var d :- ReadRecordDefinition(env, node);
      Ok(Some(DefinitionDto(d)))
    else if node.name == "bean" then
      var b :- ReadBean(env, node);
      Ok(Some(BeanDto(b)))
    else if node.name == "line" then
      var l :- ReadLine(env, node);
      Ok(Some(LineDto(l)))
    else if node.name == "segment-element" then
      var s :- ReadSegmentElement(env, node);
      Ok(Some(ElementDto(Segment(s))))
    else if node.name == "record-element" then Ok(Some(ElementDto(Record(ReadRecordElement(node)))))
    else Ok(None)
  }

  /** `getChildNodes` from the `i`-th child on: each child traversed, the nulls dropped; the
      first child that fails ends the walk. */
  function ChildNodesFrom(env: Env, parent: Node, i: nat): Result<seq<Dto>>
    requires i <= |ChildrenOf(parent)|
    decreases parent, 1, |ChildrenOf(parent)| - i
  {
    if i == |ChildrenOf(parent)| then Ok([])
    else
      var o :- Traverse(env, ChildrenOf(parent)[i]);
      var rest :- ChildNodesFrom(env, parent, i + 1);
      Ok((if o.Some? then [o.value] else []) + rest)
  }

  /** `readFileFormat`: the encoding attribute or the default charset, the flag, then the
      converters and records among the children. */
  function ReadFileFormat(env: Env, node: Node): Result<FileFormatDef>
    decreases node, 2, 0
  {
    var encoding := Attr(node, "encoding");
    var dtos :- ChildNodesFrom(env, node, 0);
    Ok(FileFormatDef(if encoding.Some? then encoding.value else env.defaultCharset, ParseBoolean(Attr(node, "ignore-unmapped-records")),
                     ConvertersOf(dtos), RecordsOf(dtos)))
  }

  /** `readRecord`: name, identity, the two scriptlets, then the `record-definition` child,
      whose absence makes `getChildNodes(null)` throw. */
  function ReadRecord(env: Env, node: Node): Result<RecordDef>
    decreases node, 2, 0
  {
    var identity :- ReadRecordIdentity(env, node);
    var before :- ReadNamedScriptlet(env, node, "before-scriptlet");
    var after :- ReadNamedScriptlet(env, node, "after-scriptlet");
    var recordChild := FirstNamed(ChildrenOf(node), "record-definition");
    if recordChild.None? then Err(NullPointerException)
    else
      var d :- ReadRecordDefinition(env, recordChild.value);
      Ok(RecordDef(Attr(node, "name"), identity, before, after, d))
  }

  /** `readRecordDefinition`: the beans and lines among the children. */
  function ReadRecordDefinition(env: Env, node: Node): Result<DefinitionDef>
    decreases node, 2, 0
  {
    var dtos :- ChildNodesFrom(env, node, 0);
    Ok(DefinitionOf(dtos))
  }

  /** `readLine`: delimiter, quote character, the scriptlets, then the line elements among the
      children. */
  function ReadLine(env: Env, node: Node): Result<LineDef>
    decreases node, 2, 0
  {
    var config :- WithQuote(NEW_LINE.(delimiter := Attr(node, "delimit")), Attr(node, "quote"));
    var before :- ReadNamedScriptlet(env, node, "before-scriptlet");
    var after :- ReadNamedScriptlet(env, node, "after-scriptlet");
    var dtos :- ChildNodesFrom(env, node, 0);
    Ok(LineDef(config.(elements := LineElementsOf(dtos)), before, after))
  }

  /** `readSegmentElement`: the cardinality, a field identity when there is a `field-ident`
      child, then the line elements among the children. */
  function ReadSegmentElement(env: Env, node: Node): Result<SegmentElement>
    decreases node, 2, 0
  {
    var fieldChild := FirstNamed(ChildrenOf(node), "field-ident");
    var fieldIdentity :- if fieldChild.Some? then
        var f :- ReadFieldIdentity(fieldChild.value);
        Ok(Some(f))
      else Ok(None);
    var dtos :- ChildNodesFrom(env, node, 0);
    Ok(SegmentElement(fieldIdentity, None, Some(ReadCardinality(node)), SegmentElementsOf(dtos)))
  }

  // ---------------------------------------------------------------------------------------
  // `loadConfigurationFile`.

  /** `fileFormat.hasDefaultRecord()`: some record has no identity and so claims every line. */
  predicate HasDefaultRecord(ff: FileFormatDef) {
    exists k :: 0 <= k < |ff.records| && ff.records[k].identity.None?
  }

  /** The `catch (Exception e)` of `loadConfigurationFile`: every failure becomes a
      configuration exception carrying the original message. */
  function Wrapped(e: Exn): Exn {
    if e.FlatwormConfigurationException? then e else FlatwormConfigurationException([])
  }

  /** `loadConfigurationFile` on a parsed document: the first top-level `file-format` element
      is traversed; a default record together with ignore-unmapped-records is refused. */
  function Load(env: Env, document: seq<Node>): Result<Option<FileFormatDef>> {
    var first := FirstNamed(document, "file-format");
    if first.None? then Ok(None)
    else
      match Traverse(env, first.value)
      case Err(e) => Err(Wrapped(e))
      case Ok(o) =>
        if o.Some? && o.value.FileFormatDto? then
          var ff := o.value.fileFormat;
          if HasDefaultRecord(ff) && ff.ignoreUnmappedRecords then Err(FlatwormConfigurationException([DOUBLE_DIP]))
          else Ok(Some(ff))
        else Ok(None)
  }

  /** The `for` loop of `getChildNodes`. */
  method GetChildNodes(env: Env, node: Node) returns (r: Result<seq<Dto>>)
    ensures r == ChildNodesFrom(env, node, 0)
  {
    var children := ChildrenOf(node);
    var nodes: seq<Dto> := [];
    var i := 0;
    assert ChildNodesFrom(env, node, 0).Ok? ==> [] + ChildNodesFrom(env, node, 0).value == ChildNodesFrom(env, node, 0).value;
    while i < |children|
      invariant 0 <= i <= |children|
      invariant ChildNodesFrom(env, node, 0) == Prepended(nodes, ChildNodesFrom(env, node, i))
    {
      var o := Traverse(env, children[i]);
      if o.Err? {
        assert ChildNodesFrom(env, node, i) == Err(o.error);
        return Err(o.error);
      }
      var found := if o.value.Some? then [o.value.value] else [];
      var rest := ChildNodesFrom(env, node, i + 1);
      assert ChildNodesFrom(env, node, i) == Prepended(found, rest);
      if rest.Ok? {
        assert nodes + (found + rest.value) == (nodes + found) + rest.value;
      }
      nodes := nodes + found;
      i := i + 1;
    }
    assert ChildNodesFrom(env, node, i) == Ok([]);
    assert nodes + [] == nodes;
    r := Ok(nodes);
  }

  /** The rest of a walk behind what the loop has already collected. */
  function Prepended(done: seq<Dto>, rest: Result<seq<Dto>>): Result<seq<Dto>> {
    if rest.Err? then rest else Ok(done + rest.value)
  }

  /** The loop of `loadConfigurationFile` over the document's children, stopping at the first
      `file-format` element, and the check after it. */
  method LoadConfigurationFile(env: Env, document: seq<Node>) returns (r: Result<Option<FileFormatDef>>)
    ensures r == Load(env, document)
  {
    var fileFormat: Option<FileFormatDef> := None;
    var i := 0;
    while i < |document|
      invariant 0 <= i <= |document|
      invariant FirstNamed(document, "file-format") == FirstNamed(document[i..], "file-format")
    {
      var child := document[i];
      assert document[i..][1..] == document[i + 1..];
      if IsElementNamed(child, "file-format") {
        var o := Traverse(env, child);
        if o.Err? {
          return Err(Wrapped(o.error));
        }
        if o.value.Some? && o.value.value.FileFormatDto? {
          fileFormat := Some(o.value.value.fileFormat);
        }
        break;
      }
      i := i + 1;
    }
    if fileFormat.Some? && HasDefaultRecord(fileFormat.value) && fileFormat.value.ignoreUnmappedRecords {
      return Err(FlatwormConfigurationException([DOUBLE_DIP]));
    }
    r := Ok(fileFormat);
  }

  /** `readConversionOptions(node, recordElement)`: one `addConversionOption` per
      `conversion-option` child. */
  method ReadConversionOptions(node: Node, recordElement: RecordElementBO)
    modifies recordElement
    ensures recordElement.View() == old(recordElement.View()).(conversionOptions :=
      OptionsAdded(old(recordElement.conversionOptions), AllNamed(ChildrenOf(node), "conversion-option")))
  {
    var childNodes := ChildElementsOfType(node, "conversion-option");
    ghost var start := recordElement.conversionOptions;
    var i := 0;
    while i < |childNodes|
      invariant 0 <= i <= |childNodes|
      invariant recordElement.View() == old(recordElement.View()).(conversionOptions := OptionsAdded(start, childNodes[..i]))
    {
      var o := childNodes[i];
      var name := Attr(o, "name").GetOr("");
      var co := Util.ConversionOption(name, Attr(o, "value"));
      assert childNodes[..i + 1][..i] == childNodes[..i];
      recordElement.AddConversionOption(name, co);
      i := i + 1;
    }
    assert childNodes[..i] == childNodes;
  }

  /** The position attributes of `readRecordElement`, each set only when present. */
  method SetPositions(node: Node, recordElement: RecordElementBO)
    modifies recordElement
    ensures recordElement.View() == old(recordElement.View()).(
      fieldEnd := if Attr(node, "end").Some? then Util.TryParseInt(Attr(node, "end")) else old(recordElement.View()).fieldEnd,
      fieldStart := if Attr(node, "start").Some? then Util.TryParseInt(Attr(node, "start")) else old(recordElement.View()).fieldStart,
      fieldLength := if Attr(node, "length").Some? then Util.TryParseInt(Attr(node, "length")) else old(recordElement.View()).fieldLength)
  {
    var start := Attr(node, "start");
    var end := Attr(node, "end");
    var length := Attr(node, "length");
    if start.Some? {
      recordElement.SetFieldStart(Util.TryParseInt(start));
    }
    if end.Some? {
      recordElement.SetFieldEnd(Util.TryParseInt(end));
    }
    if length.Some? {
      recordElement.SetFieldLength(Util.TryParseInt(length));
    }
  }

  /** `readRecordElement` as the setter calls on a fresh `RecordElementBO` that it is. */
  method BuildRecordElement(node: Node) returns (recordElement: RecordElementBO)
    ensures fresh(recordElement)
    ensures recordElement.View() == ReadRecordElement(node)
  {
    recordElement := new RecordElementBO();
    SetPositions(node, recordElement);
    var beanref := Attr(node, "beanref");
    var converterName := Attr(node, "converter-name");
    var ignoreField := Attr(node, "ignore-field");
    if beanref.Some? {
      var cardinality := ReadCardinality(node).(cardinalityMode := Some(SINGLE));
      recordElement.SetCardinality(Some(SplitBeanRef(cardinality)));
    }
    if converterName.Some? {
      recordElement.SetConverterName(converterName);
    }
    if ignoreField.Some? {
      recordElement.SetIgnoreField(Util.TryParseBoolean(ignoreField));
    }
    ReadConversionOptions(node, recordElement);
  }

  // ---------------------------------------------------------------------------------------
  // Properties of the reader.

  /** `traverse` is null exactly for a node that is not an element or is an element it does not
      know; a known element gives its object or an exception. */
  lemma TraverseNullRule(env: Env, node: Node)
    ensures (!node.Element? || node.name !in KNOWN) ==> Traverse(env, node) == Ok(None)
    ensures node.Element? && node.name in KNOWN ==> Traverse(env, node) != Ok(None)
  {
  }

  /** The indexes, from `i` on, of the children whose traversal gives an object. */
  /** What `traverse` gives for each child from the `i`-th on. */
  function Outcomes(env: Env, parent: Node, i: nat): seq<Result<Option<Dto>>>
    requires i <= |ChildrenOf(parent)|
    decreases |ChildrenOf(parent)| - i
  {
    if i == |ChildrenOf(parent)| then [] else [Traverse(env, ChildrenOf(parent)[i])] + Outcomes(env, parent, i + 1)
  }

  lemma {:induction false} OutcomesLength(env: Env, parent: Node, i: nat)
    requires i <= |ChildrenOf(parent)|
    ensures |Outcomes(env, parent, i)| == |ChildrenOf(parent)| - i
    decreases |ChildrenOf(parent)| - i
  {
    if i < |ChildrenOf(parent)| {
      OutcomesLength(env, parent, i + 1);
    }
  }

  lemma {:induction false} OutcomesAt(env: Env, parent: Node, i: nat)
    requires i <= |ChildrenOf(parent)|
    ensures |Outcomes(env, parent, i)| == |ChildrenOf(parent)| - i
    ensures forall k :: 0 <= k < |Outcomes(env, parent, i)| ==> Outcomes(env, parent, i)[k] == Traverse(env, ChildrenOf(parent)[i + k])
    decreases |ChildrenOf(parent)| - i
  {
    if i < |ChildrenOf(parent)| {
      OutcomesAt(env, parent, i + 1);
    }
  }

  lemma {:induction false} ChildNodesCollected(env: Env, parent: Node, i: nat)
    requires i <= |ChildrenOf(parent)|
    ensures ChildNodesFrom(env, parent, i) == Collected(Outcomes(env, parent, i))
    decreases |ChildrenOf(parent)| - i
  {
    if i < |ChildrenOf(parent)| {
      ChildNodesCollected(env, parent, i + 1);
      assert Outcomes(env, parent, i)[1..] == Outcomes(env, parent, i + 1);
    }
  }

  /** One step of `getChildNodes`: the `i`-th child's object, if any, before the rest. */
  lemma ChildNodesStep(env: Env, parent: Node, i: nat)
    requires i < |ChildrenOf(parent)|
    ensures var o, rest := Traverse(env, ChildrenOf(parent)[i]), ChildNodesFrom(env, parent, i + 1);
      ChildNodesFrom(env, parent, i) == if o.Err? then Err(o.error) else Prepended(if o.value.Some? then [o.value.value] else [], rest)
  {
  }

  /** `getChildNodes` succeeds exactly when every child traverses. */
  lemma {:induction false} ChildNodesSucceed(env: Env, parent: Node, i: nat)
    requires i <= |ChildrenOf(parent)|
    ensures ChildNodesFrom(env, parent, i).Ok? <==> forall k :: i <= k < |ChildrenOf(parent)| ==> Traverse(env, ChildrenOf(parent)[k]).Ok?
    decreases |ChildrenOf(parent)| - i
  {
    if i < |ChildrenOf(parent)| {
      ChildNodesStep(env, parent, i);
      ChildNodesSucceed(env, parent, i + 1);
    }
  }

  /** A failing `getChildNodes` fails with the exception of the first child that fails. */
  lemma {:induction false} ChildNodesFirstFailure(env: Env, parent: Node, i: nat)
    requires i <= |ChildrenOf(parent)|
    requires ChildNodesFrom(env, parent, i).Err?
    ensures exists k :: i <= k < |ChildrenOf(parent)| && Traverse(env, ChildrenOf(parent)[k]) == Err(ChildNodesFrom(env, parent, i).error) &&
                        forall k' :: i <= k' < k ==> Traverse(env, ChildrenOf(parent)[k']).Ok?
    decreases |ChildrenOf(parent)| - i
  {
    var cs := ChildrenOf(parent);
    var o := Traverse(env, cs[i]);
    ChildNodesStep(env, parent, i);
    if o.Ok? {
      var rest := ChildNodesFrom(env, parent, i + 1);
      assert rest.Err? && ChildNodesFrom(env, parent, i).error == rest.error;
      ChildNodesFirstFailure(env, parent, i + 1);
      var k :| i + 1 <= k < |cs| && Traverse(env, cs[k]) == Err(rest.error) &&
               forall k' :: i + 1 <= k' < k ==> Traverse(env, cs[k']).Ok?;
      assert forall k' :: i <= k' < k ==> Traverse(env, cs[k']).Ok?;
    } else {
      assert Traverse(env, cs[i]) == Err(ChildNodesFrom(env, parent, i).error);
    }
  }

  /** The kinds of record identity, strongest first. */
  const IDENT_KINDS := ["length-ident", "field-ident", "script-ident"]

  function KindOf(id: Identity): string {
    match id
    case Length(_) => "length-ident"
    case Field(_) => "field-ident"
    case Script(_, _) => "script-ident"
  }

  /** The first of `kinds` that has an element among `kids`. */
  function Preferred(kids: seq<Node>, kinds: seq<string>): Option<string> {
    if kinds == [] then None
    else if FirstNamed(kids, kinds[0]).Some? then Some(kinds[0])
    else Preferred(kids, kinds[1..])
  }

  /** `readRecord`'s identity is of the kind that comes first in the order length, field,
      script among the children of `record-ident`, whatever other kinds are there; with no
      `record-ident` or none of the kinds it is null, and a length identity never fails. */
  lemma IdentityPrecedence(env: Env, node: Node)
    ensures var ic, r := FirstNamed(ChildrenOf(node), "record-ident"), ReadRecordIdentity(env, node);
      && (ic.None? ==> r == Ok(None))
      && (ic.Some? && Preferred(ChildrenOf(ic.value), IDENT_KINDS).None? ==> r == Ok(None))
      && (ic.Some? && Preferred(ChildrenOf(ic.value), IDENT_KINDS) == Some("length-ident") ==> r.Ok? && r.value.Some?)
      && (r.Ok? && r.value.Some? ==> ic.Some? && Preferred(ChildrenOf(ic.value), IDENT_KINDS) == Some(KindOf(r.value.value)))
  {
    var ic := FirstNamed(ChildrenOf(node), "record-ident");
    if ic.Some? {
      PreferredKinds(ChildrenOf(ic.value));
    }
  }

  lemma PreferredKinds(kids: seq<Node>)
    ensures Preferred(kids, IDENT_KINDS) ==
      if FirstNamed(kids, "length-ident").Some? then Some("length-ident")
      else if FirstNamed(kids, "field-ident").Some? then Some("field-ident")
      else if FirstNamed(kids, "script-ident").Some? then Some("script-ident")
      else None
  {
    var k := IDENT_KINDS;
    assert k[0] == "length-ident" && k[1..] == ["field-ident", "script-ident"];
    assert ["field-ident", "script-ident"][1..] == ["script-ident"];
    assert ["script-ident"][1..] == [];
    assert Preferred(kids, ["script-ident"]) == if FirstNamed(kids, "script-ident").Some? then Some("script-ident") else None;
    assert Preferred(kids, ["field-ident", "script-ident"]) ==
      if FirstNamed(kids, "field-ident").Some? then Some("field-ident") else Preferred(kids, ["script-ident"]);
  }

  /** The script of a scriptlet: the last text child when it is not blank, else the first CDATA
      child when that is not blank, else the contents of the script file when one is named;
      a blank engine or method name takes its default. */
  lemma ScriptletPrecedence(env: Env, node: Node)
    requires ReadScriptlet(env, node).Ok?
    ensures var s, text, cdata, file := ReadScriptlet(env, node).value, LastText(ChildrenOf(node)), FirstCData(ChildrenOf(node)), Attr(node, "script-file");
      && (!IsBlank(text) ==> s.script == text && s.scriptFile.None?)
      && (IsBlank(text) && !IsBlank(cdata) ==> s.script == cdata && s.scriptFile.None?)
      && (IsBlank(text) && IsBlank(cdata) && !IsBlank(file) ==> s.scriptFile == file && s.script == Some(env.loadResource(file.value).value))
      && (IsBlank(text) && IsBlank(cdata) && IsBlank(file) ==> s.script.None? && s.scriptFile.None?)
      && (IsBlank(Attr(node, "script-engine")) ==> s.engineName == DEFAULT_SCRIPT_ENGINE)
      && (IsBlank(Attr(node, "method-name")) ==> s.functionName == DEFAULT_SCRIPT_FUNCTION)
      && s.engineName in env.engines
  {
  }

  /** The cardinality mode ignores case, is never AUTO_RESOLVE, and is LOOSE when blank. */
  lemma CardinalityModeRule(s: string)
    ensures CardinalityModeOf(Some(s)) != AUTO_RESOLVE && CardinalityModeOf(None) == LOOSE
    ensures CardinalityModeOf(Some(ToUpper(s))) == CardinalityModeOf(Some(s))
    ensures CardinalityModeOf(Some(ToLower(s))) == CardinalityModeOf(Some(s))
    ensures Blank(s) ==> CardinalityModeOf(Some(s)) == LOOSE
  {
    UpperIdempotent(s);
    UpperOfLower(s);
    BlankUpper(s);
    BlankLower(s);
  }

  /** The prefixes are tested in the order LOOSE, RESTRICTED, STRICT: "strict" is STRICT, but
      "restrict" is a prefix of neither RESTRICTED nor STRICT and keeps the default LOOSE. */
  lemma CardinalityModeExamples()
    ensures CardinalityModeOf(Some("strict")) == STRICT
    ensures CardinalityModeOf(Some("restrict")) == LOOSE
  {
    var s := "strict";
    assert !IsWhitespace(s[0]);
    forall i | 0 <= i < |s| ensures ToUpper(s)[i] == "STRICT"[i] {
      if i == 0 {} else if i == 1 {} else if i == 2 {} else if i == 3 {} else if i == 4 {} else {}
    }
    var t := "restrict";
    assert !IsWhitespace(t[0]);
    forall i | 0 <= i < |t| ensures ToUpper(t)[i] == "RESTRICT"[i] {
      if i == 0 {} else if i == 1 {} else if i == 2 {} else if i == 3 {} else if i == 4 {} else if i == 5 {} else if i == 6 {} else {}
    }
    assert ToUpper(t) == "RESTRICT";
    assert "RESTRICT"[..6] != "STRICT" by { assert "RESTRICT"[0] != "STRICT"[0]; }
    assert "RESTRICT"[..5] != "LOOSE" by { assert "RESTRICT"[0] != "LOOSE"[0]; }
    assert "RESTRICT"[..6] != "SINGLE" by { assert "RESTRICT"[0] != "SINGLE"[0]; }
  }

  /** A dotted bean reference is split at its last dot: the bean before it and the property
      after it, which has no dot and rejoins to the reference; a reference without a dot is kept
      whole. */
  lemma BeanRefSplit(c: Cardinality)
    requires c.beanRef.Some? && !Blank(c.beanRef.value)
    ensures '.' in c.beanRef.value ==> var r := SplitBeanRef(c);
      r.beanRef.Some? && r.propertyName.Some? && r.beanRef.value + "." + r.propertyName.value == c.beanRef.value &&
      '.' !in r.propertyName.value && r.cardinalityMode == c.cardinalityMode
    ensures '.' !in c.beanRef.value ==> SplitBeanRef(c) == c
  {
    var b := c.beanRef.value;
    if '.' in b {
      var i := LastIndexOf(b, '.');
      assert b == b[..i] + [b[i]] + b[i + 1..];
    }
  }

  lemma BeanRefExample()
    ensures SplitBeanRef(DEFAULT_CARDINALITY.(beanRef := Some("a.b.c"))).beanRef == Some("a.b")
    ensures SplitBeanRef(DEFAULT_CARDINALITY.(beanRef := Some("a.b.c"))).propertyName == Some("c")
  {
    var b := "a.b.c";
    assert !IsWhitespace(b[0]);
    assert b[4] == 'c' && b[3] == '.' && b[4..] == "c";
    assert '.' !in b[4..];
    assert LastIndexOf(b, '.') == 3;
    assert b[..3] == "a.b";
  }

  /** A record element with a `beanref` attribute has a SINGLE cardinality whose reference is the
      attribute split at its last dot; without one it has no cardinality. */
  lemma RecordElementBeanRef(node: Node)
    ensures var e, b := ReadRecordElement(node), Attr(node, "beanref");
      && (b.None? ==> e.cardinality.None?)
      && (b.Some? ==> e.cardinality.Some? && e.cardinality.value.cardinalityMode == Some(SINGLE) &&
                      (!Blank(b.value) && '.' in b.value ==> e.cardinality.value.beanRef.value + "." + e.cardinality.value.propertyName.value == b.value) &&
                      ('.' !in b.value ==> e.cardinality.value.beanRef == b))
  {
    var b := Attr(node, "beanref");
    if b.Some? {
      var c := ReadCardinality(node).(cardinalityMode := Some(SINGLE));
      if !Blank(b.value) {
        BeanRefSplit(c);
      }
    }
  }

  /** The last of `nodes` whose option is keyed `key`, or -1. */
  function LastOptionIndex(nodes: seq<Node>, key: string): (r: int)
    ensures -1 <= r < |nodes|
  {
    if nodes == [] then -1
    else if OptionOf(nodes[|nodes| - 1]).0 == key then |nodes| - 1
    else LastOptionIndex(nodes[..|nodes| - 1], key)
  }

  /** After the options are added, a key holds the option of the last child of that name, and a
      key no child names keeps what it held before. */
  lemma {:induction false} OptionsLastWins(m: map<string, Util.ConversionOption>, nodes: seq<Node>, key: string)
    ensures var r, k := OptionsAdded(m, nodes), LastOptionIndex(nodes, key);
      && (k >= 0 ==> key in r && r[key] == OptionOf(nodes[k]).1 && OptionOf(nodes[k]).0 == key &&
                     forall j :: k < j < |nodes| ==> OptionOf(nodes[j]).0 != key)
      && (k == -1 ==> (key in r <==> key in m) && (key in m ==> r[key] == m[key]) &&
                      forall j :: 0 <= j < |nodes| ==> OptionOf(nodes[j]).0 != key)
  {
    if nodes != [] {
      var init := nodes[..|nodes| - 1];
      OptionsLastWins(m, init, key);
      assert forall j :: 0 <= j < |init| ==> nodes[j] == init[j];
    }
  }

  /** A `match-string` child without text fails only a case-insensitive identity. */
  lemma {:induction false} MatchStringsRule(ignoreCase: bool, nodes: seq<Node>)
    ensures MatchStrings(ignoreCase, nodes).Err? <==> ignoreCase && exists k :: 0 <= k < |nodes| && LastText(ChildrenOf(nodes[k])).None?
  {
    if nodes != [] {
      var init := nodes[..|nodes| - 1];
      MatchStringsRule(ignoreCase, init);
      assert forall k :: 0 <= k < |init| ==> nodes[k] == init[k];
    }
  }

  /** Otherwise the identity's strings are the folded texts of the children that have one. */
  lemma {:induction false} MatchStringsValues(ignoreCase: bool, nodes: seq<Node>)
    ensures MatchStrings(ignoreCase, nodes).Ok? ==> forall x :: x in MatchStrings(ignoreCase, nodes).value <==>
      exists k :: 0 <= k < |nodes| && LastText(ChildrenOf(nodes[k])).Some? && x == FieldIdentities.Folded(ignoreCase, LastText(ChildrenOf(nodes[k])).value)
  {
    if nodes != [] {
      var init := nodes[..|nodes| - 1];
      MatchStringsValues(ignoreCase, init);
      assert forall k :: 0 <= k < |init| ==> nodes[k] == init[k];
    }
  }

  /** Every failure of `loadConfigurationFile` is a configuration exception. */
  lemma LoadFailsAsConfiguration(env: Env, document: seq<Node>)
    ensures Load(env, document).Err? ==> Load(env, document).error.FlatwormConfigurationException?
  {
  }

  /** A file format that does not validate is refused with one message that holds every
      validation error. */
  lemma {:induction false} LoadRejectsInvalid(env: Env, document: seq<Node>, ff: FileFormatDef)
    requires var first := FirstNamed(document, "file-format"); first.Some? && ReadFileFormat(env, first.value) == Ok(ff)
    requires env.validate(ff) != []
    ensures Load(env, document) == Err(FlatwormConfigurationException([ValidationMessage(env.validate(ff))]))
    ensures forall k :: 0 <= k < |env.validate(ff)| ==> Occurs(env.validate(ff)[k], ValidationMessage(env.validate(ff)))
  {
    var errors := env.validate(ff);
    var first := FirstNamed(document, "file-format");
    assert first.value.Element? && first.value.name == "file-format";
    forall k | 0 <= k < |errors| ensures Occurs(errors[k], ValidationMessage(errors)) {
      JoinedContains(errors, "\n", k);
      var j := Joined(errors, "\n");
      var i :| 0 <= i <= |j| && OccursAt(errors[k], j, i);
      var head := VALIDATION_HEADER + "\n";
      assert ValidationMessage(errors) == head + j;
      assert ValidationMessage(errors)[|head| + i..|head| + i + |errors[k]|] == j[i..i + |errors[k]|];
      assert OccursAt(errors[k], ValidationMessage(errors), |head| + i);
    }
  }

  /** A valid file format with a default record and ignore-unmapped-records is refused. */
  lemma LoadRejectsDoubleDip(env: Env, document: seq<Node>, ff: FileFormatDef)
    requires var first := FirstNamed(document, "file-format"); first.Some? && ReadFileFormat(env, first.value) == Ok(ff)
    requires env.validate(ff) == [] && HasDefaultRecord(ff) && ff.ignoreUnmappedRecords
    ensures Load(env, document) == Err(FlatwormConfigurationException([DOUBLE_DIP]))
  {
    var first := FirstNamed(document, "file-format");
    assert first.value.Element? && first.value.name == "file-format";
  }

  /** What loads is the file format of the first top-level `file-format` element, valid and not
      both defaulted and ignoring unmapped records; a document without one loads as null. */
  lemma LoadAccepts(env: Env, document: seq<Node>)
    ensures FirstNamed(document, "file-format").None? ==> Load(env, document) == Ok(None)
    ensures Load(env, document).Ok? && Load(env, document).value.Some? ==>
      var ff, first := Load(env, document).value.value, FirstNamed(document, "file-format");
      first.Some? && ReadFileFormat(env, first.value) == Ok(ff) && env.validate(ff) == [] &&
      !(HasDefaultRecord(ff) && ff.ignoreUnmappedRecords)
  {
    var first := FirstNamed(document, "file-format");
    if first.Some? {
      assert first.value.Element? && first.value.name == "file-format";
    }
  }

  /** The elements a reader makes carry no order of their own. */
  lemma TraversedElementsUnordered(env: Env, node: Node)
    ensures Traverse(env, node).Ok? && Traverse(env, node).value.Some? && Traverse(env, node).value.value.ElementDto? ==>
      Order(Traverse(env, node).value.value.element).None?
  {
  }

  /** Elements without an order are numbered 1, 2, … as they are added. */
  lemma {:induction false} LineElementsNumbered(dtos: seq<Dto>)
    requires forall k :: 0 <= k < |dtos| && dtos[k].ElementDto? ==> Order(dtos[k].element).None?
    ensures forall k :: 0 <= k < |LineElementsOf(dtos)| ==> Order(LineElementsOf(dtos)[k]) == Some(k + 1)
  {
    if dtos != [] {
      var init := dtos[..|dtos| - 1];
      assert forall k :: 0 <= k < |init| ==> init[k] == dtos[k];
      LineElementsNumbered(init);
    }
  }

  /** No element collected by `getChildNodes` carries an order. */
  lemma {:induction false} ChildElementsUnordered(env: Env, parent: Node, i: nat)
    requires i <= |ChildrenOf(parent)| && ChildNodesFrom(env, parent, i).Ok?
    ensures var dtos := ChildNodesFrom(env, parent, i).value;
      forall k :: 0 <= k < |dtos| && dtos[k].ElementDto? ==> Order(dtos[k].element).None?
    decreases |ChildrenOf(parent)| - i
  {
    if i < |ChildrenOf(parent)| {
      ChildNodesStep(env, parent, i);
      ChildElementsUnordered(env, parent, i + 1);
      TraversedElementsUnordered(env, ChildrenOf(parent)[i]);
    }
  }

  /** The elements of a line read from the configuration are numbered 1, 2, … in document
      order. */
  lemma ReadLineNumbersElements(env: Env, node: Node)
    requires ReadLine(env, node).Ok?
    ensures var es := ReadLine(env, node).value.config.elements;
      forall k :: 0 <= k < |es| ==> Order(es[k]) == Some(k + 1)
  {
    ChildElementsUnordered(env, node, 0);
    LineElementsNumbered(ChildNodesFrom(env, node, 0).value);
  }
}
