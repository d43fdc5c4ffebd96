/** The legacy `ConfigurationReader`: reads the XML configuration into the legacy objects
    (`FileFormat`, `Record`, `RecordDefinition`, `Line`, `SegmentElement`, `RecordElement`).
    `traverse` turns each element it knows into its object and any other node into null. Class
    loading, the script engine of a new `Record` and the platform's default charset are
    parameters. */
module LegacyConfigReader {
  import opened Wrappers
  import opened JavaText
  import opened Dom
  import Seqs
  import Util
  import JavaNumbers
  import LineElements
  import LRE = LegacyRecordElements
  import LL = LegacyLines
  import LR = LegacyRecords
  import CRI = ConfigReaderImpl

  /** A legacy `Line` as the reader configures it. */
  datatype LineDef = LineDef(delimiter: Option<string>, quoteChar: char, elements: seq<LL.LegacyElement>)

  /** `RecordDefinition`: the beans by name and the lines in order. */
  datatype DefinitionDef = DefinitionDef(beans: map<Option<string>, CRI.BeanDef>, lines: seq<LineDef>)

  /** `Record`: its name, its recognition settings and its definition. */
  datatype RecordDef = RecordDef(name: Option<string>, settings: LR.RecordSettings, definition: DefinitionDef)

  /** `FileFormat`: records are kept by name (a later record replaces one of the same name) and
      in the order they were added. */
  datatype FileFormatDef = FileFormatDef(encoding: string, ignoreUnmappedRecords: bool, converters: seq<CRI.ConverterDef>,
                                         records: map<Option<string>, RecordDef>, recordOrder: seq<RecordDef>)

  /** What `traverse` returns for an element it knows. */
  datatype Obj =
    | FileFormatObj(fileFormat: FileFormatDef)
    | ConverterObj(converter: CRI.ConverterDef)
    | RecordObj(record: RecordDef)
    | DefinitionObj(definition: DefinitionDef)
    | BeanObj(bean: CRI.BeanDef)
    | LineObj(line: LineDef)
    | ElementObj(element: LL.LegacyElement)

  /** The world the reader runs in: `Charset.defaultCharset()`, the classes `Class.forName`
      loads, whether `new Record()` found its script engine, and whether that engine
      evaluates a script. */
  datatype Env = Env(defaultCharset: string, loadable: set<string>, hasEngine: bool, evaluates: string -> bool)

  /** The settings of `new Record()`. */
  const NEW_RECORD := LR.RecordSettings(0, 0, 0, 0, None, [], '\0')

  const NO_END_OR_LENGTH := "Must set either the 'end' or 'length' properties"
  const END_AND_LENGTH := "Can't specify both the 'end' or 'length' properties"
  const NO_PARENT_BEANREF := "Must specify the parent-beanref attribute for segment-elements.\n"
  const NO_BEANREF := "Must specify the beanref attribute for segment-elements.\n"
  const NO_COLLECTION := "Must specify either the collection-property-name attribute or add-method attribute for segment-elements.\n"
  const NO_IDENTIFIER := "Must specify the segment identifier.\n"
  const DOUBLE_DIP := "You cannot have default Records (those lacking identifier configuration) and the ignore-unmapped-records flag set to true - you must have one or the other."

  // ---------------------------------------------------------------------------------------
  // Attribute values.

  /** An `Integer` passed to an `int` setter: null throws. */
  function Unboxed(v: Option<int>): (r: Result<int>)
    ensures r.Err? <==> v.None?
    ensures r.Err? ==> r.error == NullPointerException
    ensures r.Ok? ==> r.value == v.value
  {
    if v.None? then Err(NullPointerException) else Ok(v.value)
  }

  /** `setX(Util.tryParseInt(getAttributeValueNamed(node, name)))` with an `int` setter. */
  function ParsedInt(node: Node, name: string): Result<int> {
    Unboxed(Util.TryParseInt(Attr(node, name)))
  }

  /** The texts of the first text children of the `match-string` nodes, in order; a node
      without text adds a null, which the model leaves out. */
  function TextsOf(nodes: seq<Node>): seq<string> {
    if nodes == [] then []
    else
      var text := FirstText(ChildrenOf(nodes[|nodes| - 1]));
      TextsOf(nodes[..|nodes| - 1]) + (if text.Some? then [text.value] else [])
  }

  // ---------------------------------------------------------------------------------------
  // Record identities.

  /** A `length-ident`: both bounds must parse. */
  function LengthIdent(s: LR.RecordSettings, lengthChild: Node): Result<LR.RecordSettings> {
    var min :- ParsedInt(lengthChild, "minlength");
    var max :- ParsedInt(lengthChild, "maxlength");
    Ok(s.(lengthIdentMin := min, lengthIdentMax := max, identTypeFlag := 'L'))
  }

  /** A `field-ident`: start and length must parse; the texts of the `match-string` children
      are added to the match list. */
  function FieldIdent(s: LR.RecordSettings, fieldChild: Node): Result<LR.RecordSettings> {
    var start :- ParsedInt(fieldChild, "field-start");
    var length :- ParsedInt(fieldChild, "field-length");
    Ok(s.(fieldIdentStart := start, fieldIdentLength := length, identTypeFlag := 'F',
          fieldIdentMatchStrings := s.fieldIdentMatchStrings + TextsOf(AllNamed(ChildrenOf(fieldChild), "match-string"))))
  }

  /** A `script-ident`: its CDATA becomes the script, which the engine must accept when there
      is an engine and the script is not blank. */
  function ScriptIdent(env: Env, s: LR.RecordSettings, scriptChild: Node): Result<LR.RecordSettings> {
    var script := FirstCData(ChildrenOf(scriptChild));
    if env.hasEngine && !IsBlank(script) && !env.evaluates(script.value) then Err(FlatwormParserException)
    else Ok(s.(fieldIdentScript := script, identTypeFlag := 'S'))
  }

  /** The settings the `record` branch of `traverse` gives a record from its `record-ident`
      child: a `length-ident` wins over a `field-ident`, which wins over a `script-ident`. */
  function ReadIdent(env: Env, s: LR.RecordSettings, identChild: Option<Node>): Result<LR.RecordSettings> {
    if identChild.None? then Ok(s)
    else
      var kids := ChildrenOf(identChild.value);
      var fieldChild := FirstNamed(kids, "field-ident");
      var lengthChild := FirstNamed(kids, "length-ident");
      var scriptChild := FirstNamed(kids, "script-ident");
      if lengthChild.Some? then LengthIdent(s, lengthChild.value)
      else if fieldChild.Some? then FieldIdent(s, fieldChild.value)
      else if scriptChild.Some? then ScriptIdent(env, s, scriptChild.value)
      else Ok(s)
  }

  /** The identity part of the `record` branch, applied to the record through its setters. */
  method ReadRecordIdent(env: Env, record: LR.Record, identChild: Option<Node>) returns (r: Result<()>)
    modifies record
    ensures var expected := ReadIdent(env, old(record.Settings()), identChild);
      (r.Err? <==> expected.Err?) && (r.Err? ==> r.error == expected.error) && (r.Ok? ==> record.Settings() == expected.value)
    ensures record.name == old(record.name) && record.beans == old(record.beans) && record.lines == old(record.lines)
  {
    if identChild.None? {
      return Ok(());
    }
    var identNode := identChild.value;
    var fieldChild := ChildElementNamed(identNode, "field-ident");
    var lengthChild := ChildElementNamed(identNode, "length-ident");
    var scriptChild := ChildElementNamed(identNode, "script-ident");
    if lengthChild.Some? {
      r := ApplyLengthIdent(record, lengthChild.value);
    } else if fieldChild.Some? {
      r := ApplyFieldIdent(record, fieldChild.value);
    } else if scriptChild.Some? {
      r := ApplyScriptIdent(env, record, scriptChild.value);
    } else {
      r := Ok(());
    }
  }

  method ApplyLengthIdent(record: LR.Record, lengthChild: Node) returns (r: Result<()>)
    modifies record`lengthIdentMin, record`lengthIdentMax, record`identTypeFlag
    ensures var expected := LengthIdent(old(record.Settings()), lengthChild);
      (r.Err? <==> expected.Err?) && (r.Err? ==> r.error == expected.error) && (r.Ok? ==> record.Settings() == expected.value)
  {
    var min := ParsedInt(lengthChild, "minlength");
    if min.Err? {
      return Err(min.error);
    }
    record.lengthIdentMin := min.value;
    var max := ParsedInt(lengthChild, "maxlength");
    if max.Err? {
      return Err(max.error);
    }
    record.lengthIdentMax := max.value;
    record.identTypeFlag := 'L';
    return Ok(());
  }

  method ApplyFieldIdent(record: LR.Record, fieldChild: Node) returns (r: Result<()>)
    modifies record`fieldIdentStart, record`fieldIdentLength, record`identTypeFlag, record`fieldIdentMatchStrings
    ensures var expected := FieldIdent(old(record.Settings()), fieldChild);
      (r.Err? <==> expected.Err?) && (r.Err? ==> r.error == expected.error) && (r.Ok? ==> record.Settings() == expected.value)
  {
    var start := ParsedInt(fieldChild, "field-start");
    if start.Err? {
      return Err(start.error);
    }
    var length := ParsedInt(fieldChild, "field-length");
    if length.Err? {
      return Err(length.error);
    }
    record.fieldIdentStart, record.fieldIdentLength, record.identTypeFlag := start.value, length.value, 'F';
    var matchNodes := ChildElementsOfType(fieldChild, "match-string");
    var texts := MatchTexts(matchNodes);
    var matches := record.fieldIdentMatchStrings + texts;
    record.fieldIdentMatchStrings := matches;
    return Ok(());
  }

  /** The `forEach` over the `match-string` children, each adding its first text. */
  method MatchTexts(matchNodes: seq<Node>) returns (texts: seq<string>)
    ensures texts == TextsOf(matchNodes)
  {
    texts := [];
    var i := 0;
    while i < |matchNodes|
      invariant 0 <= i <= |matchNodes|
      invariant texts == TextsOf(matchNodes[..i])
    {
      var text := FirstChildText(matchNodes[i]);
      assert matchNodes[..i + 1][..i] == matchNodes[..i];
      if text.Some? {
        texts := texts + [text.value];
      }
      i := i + 1;
    }
    assert matchNodes[..i] == matchNodes;
  }

  method ApplyScriptIdent(env: Env, record: LR.Record, scriptChild: Node) returns (r: Result<()>)
    modifies record`fieldIdentScript, record`identTypeFlag
    ensures var expected := ScriptIdent(env, old(record.Settings()), scriptChild);
      (r.Err? <==> expected.Err?) && (r.Err? ==> r.error == expected.error) && (r.Ok? ==> record.Settings() == expected.value)
  {
    ghost var before := record.Settings();
    var script := ChildCData(scriptChild);
    record.fieldIdentScript := script;
    if env.hasEngine && !IsBlank(script) && !env.evaluates(script.value) {
      assert ScriptIdent(env, before, scriptChild) == Err(FlatwormParserException);
      return Err(FlatwormParserException);
    }
    record.identTypeFlag := 'S';
    assert record.Settings() == before.(fieldIdentScript := script, identTypeFlag := 'S');
    assert ScriptIdent(env, before, scriptChild) == Ok(record.Settings());
    return Ok(());
  }

  // ---------------------------------------------------------------------------------------
  // Segments.

  /** The mode of a segment: LOOSE unless the lower-cased `cardinality-mode` starts with
      "strict" (STRICT) or "restrict" (RESTRICTED). */
  function SegmentModeOf(segmentMode: Option<string>): LineElements.CardinalityMode {
    if IsBlank(segmentMode) then LineElements.LOOSE
    else if StartsWith(ToLower(segmentMode.value), "strict") then LineElements.STRICT
    else if StartsWith(ToLower(segmentMode.value), "restrict") then LineElements.RESTRICTED
    else LineElements.LOOSE
  }

  /** The text `validateSegmentConfiguration` collects: one message per missing setting, in
      order. `matchCount` is the size of the segment's match list, which counts `match-string`
      children without text. The collection property is the segment's name. */
  function SegmentErrors(segment: LL.LegacySegment, matchCount: nat): string {
    (if IsBlank(segment.parentBeanRef) then NO_PARENT_BEANREF else "") +
    (if IsBlank(segment.beanRef) then NO_BEANREF else "") +
    (if IsBlank(segment.name) && IsBlank(segment.addMethod) then NO_COLLECTION else "") +
    (if matchCount == 0 then NO_IDENTIFIER else "")
  }

  /** `validateSegmentConfiguration`: the messages appended one after the other, and a
      `FlatwormConfigurationValueException` carrying them all when there is any. */
  method ValidateSegmentConfiguration(segment: LL.LegacySegment, matchCount: nat) returns (r: Result<()>)
    ensures var errors := SegmentErrors(segment, matchCount);
      r == if errors == "" then Ok(()) else Err(FlatwormConfigurationValueException(errors))
  {
    ghost var p1 := if IsBlank(segment.parentBeanRef) then NO_PARENT_BEANREF else "";
    ghost var p2 := if IsBlank(segment.beanRef) then NO_BEANREF else "";
    ghost var p3 := if IsBlank(segment.name) && IsBlank(segment.addMethod) then NO_COLLECTION else "";
    ghost var p4 := if matchCount == 0 then NO_IDENTIFIER else "";
    var errors := "";
    if IsBlank(segment.parentBeanRef) {
      errors := errors + NO_PARENT_BEANREF;
    }
    assert errors == p1;
    if IsBlank(segment.beanRef) {
      errors := errors + NO_BEANREF;
    }
    assert errors == p1 + p2;
    if IsBlank(segment.name) && IsBlank(segment.addMethod) {
      errors := errors + NO_COLLECTION;
    }
    assert errors == p1 + p2 + p3;
    if matchCount == 0 {
      errors := errors + NO_IDENTIFIER;
    }
    assert errors == p1 + p2 + p3 + p4 == SegmentErrors(segment, matchCount);
    if |errors| > 0 {
      return Err(FlatwormConfigurationValueException(errors));
    }
    return Ok(());
  }

  // ---------------------------------------------------------------------------------------
  // Record elements.

  /** An optional `int` position: absent stays unset, present must parse. */
  function Position(node: Node, name: string): Result<Option<int>> {
    if Attr(node, name).None? then Ok(None)
    else
      var v :- ParsedInt(node, name);
      Ok(Some(v))
  }

  /** The `record-element` branch of `traverse`: exactly one of `end` and `length` must be
      given; the positions given must parse; then the bean reference, the type and the
      conversion options. */
  function ReadElementFields(node: Node): Result<LRE.ElementFields> {
    var end := Attr(node, "end");
    var length := Attr(node, "length");
    if end.None? && length.None? then Err(FlatwormConfigurationValueException(NO_END_OR_LENGTH))
    else if end.Some? && length.Some? then Err(FlatwormConfigurationValueException(END_AND_LENGTH))
    else
      var fieldStart :- Position(node, "start");
      var fieldEnd :- Position(node, "end");
      var fieldLength :- Position(node, "length");
      Ok(LRE.ElementFields(fieldEnd, fieldStart, fieldLength, None, '\0', Attr(node, "beanref"), Attr(node, "type"),
                           CRI.OptionsAdded(map[], AllNamed(ChildrenOf(node), "conversion-option"))))
  }

  /** The `record-element` branch as it runs: a new `RecordElement` set up through its
      setters. */
  method BuildRecordElement(node: Node) returns (r: Result<LRE.RecordElement>)
    ensures var expected := ReadElementFields(node);
      (r.Err? <==> expected.Err?) && (r.Err? ==> r.error == expected.error) &&
      (r.Ok? ==> fresh(r.value) && r.value.View() == expected.value)
  {
    var end := Attr(node, "end");
    var length := Attr(node, "length");
    if end.None? && length.None? {
      return Err(FlatwormConfigurationValueException(NO_END_OR_LENGTH));
    }
    if end.Some? && length.Some? {
      return Err(FlatwormConfigurationValueException(END_AND_LENGTH));
    }
    var re := new LRE.RecordElement();
    var p := SetPositions(re, node);
    if p.Err? {
      return Err(p.error);
    }
    var beanref := Attr(node, "beanref");
    var beanType := Attr(node, "type");
    if beanref.Some? {
      re.SetBeanRef(beanref);
    }
    if beanType.Some? {
      re.SetType(beanType);
    }
    var childNodes := ChildElementsOfType(node, "conversion-option");
    AddConversionOptions(re, childNodes);
    return Ok(re);
  }

  /** The three optional positions, in the order the branch sets them. */
  method SetPositions(re: LRE.RecordElement, node: Node) returns (r: Result<()>)
    modifies re`fieldStart, re`fieldEnd, re`fieldLength
    ensures var s, e, l := Position(node, "start"), Position(node, "end"), Position(node, "length");
      && (r.Ok? <==> s.Ok? && e.Ok? && l.Ok?)
      && (r.Err? ==> r.error == NullPointerException)
      && (r.Ok? ==> re.fieldStart == (if s.value.Some? then s.value else old(re.fieldStart)) &&
                    re.fieldEnd == (if e.value.Some? then e.value else old(re.fieldEnd)) &&
                    re.fieldLength == (if l.value.Some? then l.value else old(re.fieldLength)))
  {
    var start := Position(node, "start");
    if start.Err? {
      return Err(start.error);
    }
    if start.value.Some? {
      re.fieldStart := start.value;
    }
    var end := Position(node, "end");
    if end.Err? {
      return Err(end.error);
    }
    if end.value.Some? {
      re.fieldEnd := end.value;
    }
    var length := Position(node, "length");
    if length.Err? {
      return Err(length.error);
    }
    if length.value.Some? {
      re.fieldLength := length.value;
    }
    return Ok(());
  }

  /** The loop over the `conversion-option` children. */
  method AddConversionOptions(re: LRE.RecordElement, nodes: seq<Node>)
    modifies re
    ensures re.View() == old(re.View()).(conversionOptions := CRI.OptionsAdded(old(re.conversionOptions), nodes))
  {
    var i := 0;
    while i < |nodes|
      invariant 0 <= i <= |nodes|
      invariant re.View() == old(re.View()).(conversionOptions := CRI.OptionsAdded(old(re.conversionOptions), nodes[..i]))
    {
      var (name, co) := CRI.OptionOf(nodes[i]);
      assert nodes[..i + 1][..i] == nodes[..i];
      re.AddConversionOption(name, co);
      i := i + 1;
    }
    assert nodes[..i] == nodes;
  }

  // ---------------------------------------------------------------------------------------
  // Beans, lines and the objects the children give.

  /** The `bean` branch: `Class.forName` of the class, where a missing class attribute
      throws. */
  function ReadBean(env: Env, node: Node): Result<CRI.BeanDef> {
    var beanClass := Attr(node, "class");
    if beanClass.None? then Err(NullPointerException)
    else if beanClass.value !in env.loadable then Err(FlatwormConfigurationValueException("Unable to load class " + beanClass.value))
    else Ok(CRI.BeanDef(Attr(node, "name"), beanClass.value))
  }

  /** `Line.setQuoteChar`: the first character; null keeps the quote, an empty string throws. */
  function QuoteOf(quoteChar: char, quote: Option<string>): Result<char> {
    if quote.None? then Ok(quoteChar)
    else if quote.value == "" then Err(IndexOutOfBoundsException)
    else Ok(quote.value[0])
  }

  /** The line elements among the objects, appended in order. */
  function ElementsOf(objs: seq<Obj>): seq<LL.LegacyElement> {
    if objs == [] then []
    else ElementsOf(objs[..|objs| - 1]) + (if objs[|objs| - 1].ElementObj? then [objs[|objs| - 1].element] else [])
  }

  /** The beans and lines among the objects: a bean replaces one of the same name, lines are
      appended. */
  function DefinitionOf(objs: seq<Obj>): DefinitionDef {
    if objs == [] then DefinitionDef(map[], [])
    else
      var d := DefinitionOf(objs[..|objs| - 1]);
      match objs[|objs| - 1]
      case BeanObj(b) => d.(beans := d.beans[b.beanName := b])
      case LineObj(l) => d.(lines := d.lines + [l])
      case _ => d
  }

  /** The converters and records among the objects, added to `ff` one by one. */
  function FormatOf(ff: FileFormatDef, objs: seq<Obj>): FileFormatDef {
    if objs == [] then ff
    else
      var f := FormatOf(ff, objs[..|objs| - 1]);
      match objs[|objs| - 1]
      case ConverterObj(c) => f.(converters := f.converters + [c])
      case RecordObj(r) => f.(records := f.records[r.name := r], recordOrder := f.recordOrder + [r])
      case _ => f
  }

  /** `Boolean.parseBoolean`. */
  predicate ParseBoolean(s: Option<string>) {
    s.Some? && EqualsIgnoreCase(s.value, "true")
  }

  // ---------------------------------------------------------------------------------------
  // `traverse` and the branches with element children, which traverse them.

  function Traverse(env: Env, node: Node): Result<Option<Obj>>
    decreases node, 3, 0
  {
    if !node.Element? then Ok(None)
    else if node.name == "file-format" then
      var ff :- ReadFileFormat(env, node);
      Ok(Some(FileFormatObj(ff)))
    else if node.name == "converter" then Ok(Some(ConverterObj(CRI.ReadConverter(node))))
    else if node.name == "record" then
      var r :- ReadRecord(env, node);
      Ok(Some(RecordObj(r)))
    else if node.name == "record-definition" then
      var d :- ReadRecordDefinition(env, node);
      Ok(Some(DefinitionObj(d)))
    else if node.name == "bean" then
      var b :- ReadBean(env, node);
      Ok(Some(BeanObj(b)))
    else if node.name == "line" then
      var l :- ReadLine(env, node);
      Ok(Some(LineObj(l)))
    else if node.name == "segment-element" then
      var s :- ReadSegment(env, node);
      Ok(Some(ElementObj(LL.Group(s))))
    else if node.name == "record-element" then
      var e :- ReadElementFields(node);
      Ok(Some(ElementObj(LL.Field(e))))
    else Ok(None)
  }

  /** `getChildNodes` from the `i`-th child on: each child traversed, the nulls dropped. */
  function ChildNodesFrom(env: Env, parent: Node, i: nat): Result<seq<Obj>>
    requires i <= |ChildrenOf(parent)|
    decreases parent, 1, |ChildrenOf(parent)| - i
  {
    if i == |ChildrenOf(parent)| then Ok([])
    else
      var o :- Traverse(env, ChildrenOf(parent)[i]);
      var rest :- ChildNodesFrom(env, parent, i + 1);
      Ok((if o.Some? then [o.value] else []) + rest)
  }

  /** The `file-format` branch: the encoding attribute when present, else the default
      charset; the flag; then the converters and records among the children. */
  function ReadFileFormat(env: Env, node: Node): Result<FileFormatDef>
    decreases node, 2, 0
  {
    var encoding := Attr(node, "encoding");
    var objs :- ChildNodesFrom(env, node, 0);
    var empty := FileFormatDef(if encoding.Some? then encoding.value else env.defaultCharset,
                               ParseBoolean(Attr(node, "ignore-unmapped-records")), [], map[], []);
    Ok(FormatOf(empty, objs))
  }

  /** The `record` branch: the name, the identity, then the `record-definition` child, whose
      absence makes `traverse(null)` throw. */
  function ReadRecord(env: Env, node: Node): Result<RecordDef>
    decreases node, 2, 0
  {
    var settings :- ReadIdent(env, NEW_RECORD, FirstNamed(ChildrenOf(node), "record-ident"));
    var recordChild := FirstNamed(ChildrenOf(node), "record-definition");
    if recordChild.None? then Err(NullPointerException)
    else
      var d :- ReadRecordDefinition(env, recordChild.value);
      Ok(RecordDef(Attr(node, "name"), settings, d))
  }

  function ReadRecordDefinition(env: Env, node: Node): Result<DefinitionDef>
    decreases node, 2, 0
  {
    var objs :- ChildNodesFrom(env, node, 0);
    Ok(DefinitionOf(objs))
  }

  /** The `line` branch: the delimiter, the quote, then the line elements among the children. */
  function ReadLine(env: Env, node: Node): Result<LineDef>
    decreases node, 2, 0
  {
    var quoteChar :- QuoteOf('\0', Attr(node, "quote"));
    var objs :- ChildNodesFrom(env, node, 0);
    Ok(LineDef(Attr(node, "delimit"), quoteChar, ElementsOf(objs)))
  }

  /** The segment the `segment-element` branch sets up before it validates; with the size of
      its match list. */
  function SegmentHeader(node: Node): Result<(LL.LegacySegment, nat)> {
    var minCount :- ParsedInt(node, "minCount");
    var maxCount :- ParsedInt(node, "maxCount");
    var fieldChild := FirstNamed(ChildrenOf(node), "field-ident");
    var matchNodes := if fieldChild.Some? then AllNamed(ChildrenOf(fieldChild.value), "match-string") else [];
    var _ :- if fieldChild.Some? then ParsedInt(fieldChild.value, "field-start") else Ok(0);
    var _ :- if fieldChild.Some? then ParsedInt(fieldChild.value, "field-length") else Ok(0);
    Ok((LL.LegacySegment(TextsOf(matchNodes), minCount, maxCount, Attr(node, "collection-property-name"), Attr(node, "beanref"),
                         Attr(node, "parent-beanref"), Attr(node, "add-method"), Some(SegmentModeOf(Attr(node, "cardinality-mode"))), []),
        |matchNodes|))
  }

  /** The `segment-element` branch: the attributes, the field identity, the validation, and
      only then the line elements among the children. */
  function ReadSegment(env: Env, node: Node): Result<LL.LegacySegment>
    decreases node, 2, 0
  {
    var header :- SegmentHeader(node);
    var errors := SegmentErrors(header.0, header.1);
    if errors != "" then Err(FlatwormConfigurationValueException(errors))
    else
      var objs :- ChildNodesFrom(env, node, 0);
      Ok(header.0.(elements := ElementsOf(objs)))
  }

  // ---------------------------------------------------------------------------------------
  // `loadConfigurationFile`.

  /** `hasDefaultRecord`: some record reachable by name has the flag '\0'. */
  predicate HasDefaultRecord(ff: FileFormatDef) {
    exists k :: k in ff.records && ff.records[k].settings.identTypeFlag == '\0'
  }

  /** `loadConfigurationFile` on a parsed document: the first top-level `file-format` element
      is traversed; a default record together with ignore-unmapped-records is refused; and
      every failure leaves as a `FlatwormParserException`. */
  function Load(env: Env, document: seq<Node>): Result<Option<FileFormatDef>> {
    var first := FirstNamed(document, "file-format");
    if first.None? then Ok(None)
    else
      match Traverse(env, first.value)
      case Err(_) => Err(FlatwormParserException)
      case Ok(o) =>
        if o.Some? && o.value.FileFormatObj? then
          var ff := o.value.fileFormat;
          if HasDefaultRecord(ff) && ff.ignoreUnmappedRecords then Err(FlatwormParserException)
          else Ok(Some(ff))
        else Ok(None)
  }

  /** The `for` loop of `getChildNodes`. */
  method GetChildNodes(env: Env, node: Node) returns (r: Result<seq<Obj>>)
    ensures r == ChildNodesFrom(env, node, 0)
  {
    var children := ChildrenOf(node);
    var nodes: seq<Obj> := [];
    var i := 0;
    assert ChildNodesFrom(env, node, 0).Ok? ==> [] + ChildNodesFrom(env, node, 0).value == ChildNodesFrom(env, node, 0).value;
    while i < |children|
      invariant 0 <= i <= |children|
      invariant ChildNodesFrom(env, node, 0) == Prepended(nodes, ChildNodesFrom(env, node, i))
    {
      var o := Traverse(env, children[i]);
      if o.Err? {
        assert ChildNodesFrom(env, node, i) == Err(o.error);
        return Err(o.error);
      }
      var found := if o.value.Some? then [o.value.value] else [];
      var rest := ChildNodesFrom(env, node, i + 1);
      assert ChildNodesFrom(env, node, i) == Prepended(found, rest);
      if rest.Ok? {
        assert nodes + (found + rest.value) == (nodes + found) + rest.value;
      }
      nodes := nodes + found;
      i := i + 1;
    }
    assert ChildNodesFrom(env, node, i) == Ok([]);
    assert nodes + [] == nodes;
    r := Ok(nodes);
  }

  /** The rest of a walk behind what the loop has already collected. */
  function Prepended(done: seq<Obj>, rest: Result<seq<Obj>>): Result<seq<Obj>> {
    if rest.Err? then rest else Ok(done + rest.value)
  }

  /** The loop of `loadConfigurationFile` over the document's children, stopping at the first
      `file-format` element, and the check after it. */
  method LoadConfigurationFile(env: Env, document: seq<Node>) returns (r: Result<Option<FileFormatDef>>)
    ensures r == Load(env, document)
  {
    var fileFormat: Option<FileFormatDef> := None;
    var i := 0;
    while i < |document|
      invariant 0 <= i <= |document|
      invariant FirstNamed(document, "file-format") == FirstNamed(document[i..], "file-format")
    {
      var child := document[i];
      assert document[i..][1..] == document[i + 1..];
      if child.Element? && child.name == "file-format" {
        var o := Traverse(env, child);
        if o.Err? {
          return Err(FlatwormParserException);
        }
        if o.value.Some? && o.value.value.FileFormatObj? {
          fileFormat := Some(o.value.value.fileFormat);
        }
        break;
      }
      i := i + 1;
    }
    if fileFormat.Some? {
      if HasDefaultRecord(fileFormat.value) && fileFormat.value.ignoreUnmappedRecords {
        return Err(FlatwormParserException);
      }
    }
    return Ok(fileFormat);
  }

  // ---------------------------------------------------------------------------------------
  // Properties of the reader.

  /** The `match-string` texts: at most one per node, each the first text of some node. */
  lemma {:induction false} TextsOfRule(nodes: seq<Node>)
    ensures |TextsOf(nodes)| <= |nodes|
    ensures forall t :: t in TextsOf(nodes) ==> exists k :: 0 <= k < |nodes| && FirstText(ChildrenOf(nodes[k])) == Some(t)
  {
    if nodes != [] {
      var n := |nodes| - 1;
      var init := nodes[..n];
      TextsOfRule(init);
      forall t | t in TextsOf(nodes) ensures exists k :: 0 <= k < |nodes| && FirstText(ChildrenOf(nodes[k])) == Some(t) {
        if t in TextsOf(init) {
          var k :| 0 <= k < |init| && FirstText(ChildrenOf(init[k])) == Some(t);
          assert nodes[k] == init[k];
        } else {
          assert FirstText(ChildrenOf(nodes[n])) == Some(t);
        }
      }
    }
  }

  /** When every node has a text, the `match-string` texts are exactly their first texts in
      document order. */
  lemma {:induction false} TextsOfAll(nodes: seq<Node>)
    requires forall k :: 0 <= k < |nodes| ==> FirstText(ChildrenOf(nodes[k])).Some?
    ensures |TextsOf(nodes)| == |nodes| && forall k :: 0 <= k < |nodes| ==> TextsOf(nodes)[k] == FirstText(ChildrenOf(nodes[k])).value
  {
    if nodes != [] {
      var init := nodes[..|nodes| - 1];
      assert forall k :: 0 <= k < |init| ==> nodes[k] == init[k];
      TextsOfAll(init);
    }
  }

  /** With a `length-ident` among the children of `record-ident`, whatever else is there, the
      record recognises exactly the lines whose length lies between its two bounds; a bound that
      is missing or not a number throws. */
  lemma LengthIdentRecognises(env: Env, s: LR.RecordSettings, ident: Node, line: string, script: LR.ScriptVerdict)
    requires FirstNamed(ChildrenOf(ident), "length-ident").Some?
    ensures var lc, r := FirstNamed(ChildrenOf(ident), "length-ident").value, ReadIdent(env, s, Some(ident));
      var min, max := Util.TryParseInt(Attr(lc, "minlength")), Util.TryParseInt(Attr(lc, "maxlength"));
      && (r.Ok? <==> min.Some? && max.Some?)
      && (r.Err? ==> r.error == NullPointerException)
      && (r.Ok? ==> r.value.identTypeFlag == 'L' &&
                    (LR.Matches(r.value, Some(line), script) == Ok(true) <==> min.value <= |line| <= max.value))
  {
    var r := ReadIdent(env, s, Some(ident));
    if r.Ok? {
      LR.MatchesRule(r.value, Some(line), script);
    }
  }

  /** With a `field-ident` and no `length-ident`, the record takes the field's start and length
      and adds the `match-string` texts to its match list; a line long enough for the field is
      recognised exactly when one of them is at the field's place. */
  lemma FieldIdentRecognises(env: Env, s: LR.RecordSettings, ident: Node, line: string, script: LR.ScriptVerdict)
    requires FirstNamed(ChildrenOf(ident), "length-ident").None? && FirstNamed(ChildrenOf(ident), "field-ident").Some?
    ensures var fc, r := FirstNamed(ChildrenOf(ident), "field-ident").value, ReadIdent(env, s, Some(ident));
      var start, length := Util.TryParseInt(Attr(fc, "field-start")), Util.TryParseInt(Attr(fc, "field-length"));
      && (r.Ok? <==> start.Some? && length.Some?)
      && (r.Err? ==> r.error == NullPointerException)
      && (r.Ok? ==> r.value.identTypeFlag == 'F' && r.value.fieldIdentStart == start.value && r.value.fieldIdentLength == length.value &&
                    r.value.fieldIdentMatchStrings == s.fieldIdentMatchStrings + TextsOf(AllNamed(ChildrenOf(fc), "match-string")))
      && (r.Ok? && |line| >= JavaNumbers.Int32(start.value + length.value) ==>
            (LR.Matches(r.value, Some(line), script) == Ok(true) <==>
             exists m :: m in r.value.fieldIdentMatchStrings && RegionMatches(false, line, start.value, m, 0, length.value)))
  {
    var r := ReadIdent(env, s, Some(ident));
    if r.Ok? {
      LR.MatchesRule(r.value, Some(line), script);
    }
  }

  /** With only a `script-ident`, the record takes its CDATA as the script; the read fails, as a
      parser exception, exactly when there is an engine and it rejects a non-blank script. */
  lemma ScriptIdentRule(env: Env, s: LR.RecordSettings, ident: Node, line: Option<string>, script: LR.ScriptVerdict)
    requires FirstNamed(ChildrenOf(ident), "length-ident").None? && FirstNamed(ChildrenOf(ident), "field-ident").None?
    requires FirstNamed(ChildrenOf(ident), "script-ident").Some?
    ensures var sc, r := FirstNamed(ChildrenOf(ident), "script-ident").value, ReadIdent(env, s, Some(ident));
      var text := FirstCData(ChildrenOf(sc));
      && (r.Err? <==> env.hasEngine && !IsBlank(text) && !env.evaluates(text.value))
      && (r.Err? ==> r.error == FlatwormParserException)
      && (r.Ok? ==> r.value.identTypeFlag == 'S' && r.value.fieldIdentScript == text)
      && (r.Ok? && IsBlank(text) ==> LR.Matches(r.value, line, script) == Ok(true))
  {
    var r := ReadIdent(env, s, Some(ident));
    if r.Ok? {
      LR.MatchesRule(r.value, line, script);
    }
  }

  /** A record is a default record, one that takes every line, exactly when it has no
      `record-ident` or its `record-ident` holds none of the three kinds. */
  lemma DefaultRecordRule(env: Env, identChild: Option<Node>, line: Option<string>, script: LR.ScriptVerdict)
    ensures var r := ReadIdent(env, NEW_RECORD, identChild);
      var none := identChild.None? || (FirstNamed(ChildrenOf(identChild.value), "length-ident").None? &&
                                       FirstNamed(ChildrenOf(identChild.value), "field-ident").None? &&
                                       FirstNamed(ChildrenOf(identChild.value), "script-ident").None?);
      && (none ==> r == Ok(NEW_RECORD) && LR.Matches(r.value, line, script) == Ok(true))
      && (r.Ok? ==> (r.value.identTypeFlag == '\0' <==> none))
  {
    LR.MatchesRule(NEW_RECORD, line, script);
  }

  /** The legacy mode: blank is LOOSE, the mode is never AUTO_RESOLVE or SINGLE, and the case
      of the setting does not matter. */
  lemma SegmentModeRule(s: string)
    ensures SegmentModeOf(None) == LineElements.LOOSE
    ensures Blank(s) ==> SegmentModeOf(Some(s)) == LineElements.LOOSE
    ensures SegmentModeOf(Some(s)) in {LineElements.LOOSE, LineElements.STRICT, LineElements.RESTRICTED}
    ensures SegmentModeOf(Some(ToUpper(s))) == SegmentModeOf(Some(s))
    ensures SegmentModeOf(Some(ToLower(s))) == SegmentModeOf(Some(s))
  {
    LowerOfUpper(s);
    ToLowerIdempotent(s);
    BlankUpper(s);
    BlankLower(s);
  }

  /** "restrict" is RESTRICTED here, where the `config` reader, which compares the upper-cased
      setting with the mode names, leaves it LOOSE; "STRICT" is STRICT in both. */
  lemma SegmentModeExamples()
    ensures SegmentModeOf(Some("restrict")) == LineElements.RESTRICTED
    ensures CRI.CardinalityModeOf(Some("restrict")) == LineElements.LOOSE
    ensures SegmentModeOf(Some("STRICT")) == LineElements.STRICT
  {
    CRI.CardinalityModeExamples();
    RestrictModeExample();
    StrictModeExample();
  }

  lemma RestrictModeExample()
    ensures SegmentModeOf(Some("restrict")) == LineElements.RESTRICTED
  {
    var t := "restrict";
    assert !IsWhitespace(t[0]);
    forall i | 0 <= i < |t| ensures ToLower(t)[i] == t[i] {
      if i == 0 {} else if i == 1 {} else if i == 2 {} else if i == 3 {} else if i == 4 {} else if i == 5 {} else if i == 6 {} else {}
    }
    assert ToLower(t) == t;
    assert t[..6] != "strict" by { assert t[0] != "strict"[0]; }
    assert t[..8] == "restrict";
  }

  lemma StrictModeExample()
    ensures SegmentModeOf(Some("STRICT")) == LineElements.STRICT
  {
    var u := "STRICT";
    assert !IsWhitespace(u[0]);
    forall i | 0 <= i < |u| ensures ToLower(u)[i] == "strict"[i] {
      if i == 0 {} else if i == 1 {} else if i == 2 {} else if i == 3 {} else if i == 4 {} else {}
    }
    assert ToLower(u) == "strict";
  }

  /** A segment passes validation exactly when it has a parent bean reference, a bean
      reference, a collection property or an add method, and at least one match string, and
      each missing setting has its message in the exception. */
  lemma SegmentValidationRule(segment: LL.LegacySegment, matchCount: nat)
    ensures SegmentErrors(segment, matchCount) == "" <==>
      !IsBlank(segment.parentBeanRef) && !IsBlank(segment.beanRef) && !(IsBlank(segment.name) && IsBlank(segment.addMethod)) && matchCount > 0
    ensures IsBlank(segment.parentBeanRef) ==> Occurs(NO_PARENT_BEANREF, SegmentErrors(segment, matchCount))
    ensures IsBlank(segment.beanRef) ==> Occurs(NO_BEANREF, SegmentErrors(segment, matchCount))
    ensures IsBlank(segment.name) && IsBlank(segment.addMethod) ==> Occurs(NO_COLLECTION, SegmentErrors(segment, matchCount))
    ensures matchCount == 0 ==> Occurs(NO_IDENTIFIER, SegmentErrors(segment, matchCount))
  {
    var p1 := if IsBlank(segment.parentBeanRef) then NO_PARENT_BEANREF else "";
    var p2 := if IsBlank(segment.beanRef) then NO_BEANREF else "";
    var p3 := if IsBlank(segment.name) && IsBlank(segment.addMethod) then NO_COLLECTION else "";
    var p4 := if matchCount == 0 then NO_IDENTIFIER else "";
    assert SegmentErrors(segment, matchCount) == p1 + p2 + p3 + p4;
    OccursInFour(p1, p2, p3, p4);
  }

  /** The `segment-element` branch validates before it reads any child: an invalid segment is
      refused with its messages whatever its children are, and a segment that is read has what
      validation demands and a mode the legacy reader can give. */
  lemma ReadSegmentValidatesFirst(env: Env, node: Node)
    ensures SegmentHeader(node).Ok? && SegmentErrors(SegmentHeader(node).value.0, SegmentHeader(node).value.1) != "" ==>
      ReadSegment(env, node) == Err(FlatwormConfigurationValueException(SegmentErrors(SegmentHeader(node).value.0, SegmentHeader(node).value.1)))
    ensures ReadSegment(env, node).Ok? ==> var seg := ReadSegment(env, node).value;
      && !IsBlank(seg.parentBeanRef) && !IsBlank(seg.beanRef) && !(IsBlank(seg.name) && IsBlank(seg.addMethod))
      && FirstNamed(ChildrenOf(node), "field-ident").Some?
      && AllNamed(ChildrenOf(FirstNamed(ChildrenOf(node), "field-ident").value), "match-string") != []
      && seg.cardinalityMode.Some? && seg.cardinalityMode.value in {LineElements.LOOSE, LineElements.STRICT, LineElements.RESTRICTED}
  {
    var h := SegmentHeader(node);
    if h.Ok? {
      SegmentValidationRule(h.value.0, h.value.1);
      var mode := Attr(node, "cardinality-mode");
      if mode.Some? {
        SegmentModeRule(mode.value);
      }
    }
  }

  /** A `record-element` needs exactly one of `end` and `length`, each refusal with its own
      message; the element read has an end exactly when `end` is given and a length exactly when
      `length` is, so its length comes either from `length` or from `end` and `start`. */
  lemma EndLengthRule(node: Node)
    ensures var end, length, r := Attr(node, "end"), Attr(node, "length"), ReadElementFields(node);
      && (r == Err(FlatwormConfigurationValueException(NO_END_OR_LENGTH)) <==> end.None? && length.None?)
      && (r == Err(FlatwormConfigurationValueException(END_AND_LENGTH)) <==> end.Some? && length.Some?)
      && (r.Err? && end.Some? != length.Some? ==> r.error == NullPointerException)
      && (r.Ok? ==> (r.value.fieldEnd.Some? <==> end.Some?) && (r.value.fieldLength.Some? <==> length.Some?))
      && (r.Ok? && length.Some? ==> LRE.FieldLength(r.value) == Ok(r.value.fieldLength.value))
      && (r.Ok? && end.Some? ==> (LRE.FieldLength(r.value).Ok? <==> Attr(node, "start").Some?))
  {
    assert NO_END_OR_LENGTH != END_AND_LENGTH by { assert |NO_END_OR_LENGTH| != |END_AND_LENGTH|; }
  }

  /** An option of a record element is the last `conversion-option` child of its name. */
  lemma ElementOptionsLastWins(node: Node, key: string)
    requires ReadElementFields(node).Ok?
    ensures var opts, nodes := ReadElementFields(node).value.conversionOptions, AllNamed(ChildrenOf(node), "conversion-option");
      var k := CRI.LastOptionIndex(nodes, key);
      && (key in opts <==> k >= 0)
      && (k >= 0 ==> opts[key] == CRI.OptionOf(nodes[k]).1 && forall j :: k < j < |nodes| ==> CRI.OptionOf(nodes[j]).0 != key)
  {
    CRI.OptionsLastWins(map[], AllNamed(ChildrenOf(node), "conversion-option"), key);
  }

  /** The records among the objects, in order. */
  function RecordsIn(objs: seq<Obj>): seq<RecordDef> {
    if objs == [] then []
    else RecordsIn(objs[..|objs| - 1]) + (if objs[|objs| - 1].RecordObj? then [objs[|objs| - 1].record] else [])
  }

  /** The converters among the objects, in order. */
  function ConvertersIn(objs: seq<Obj>): seq<CRI.ConverterDef> {
    if objs == [] then []
    else ConvertersIn(objs[..|objs| - 1]) + (if objs[|objs| - 1].ConverterObj? then [objs[|objs| - 1].converter] else [])
  }

  /** Adding the children's objects keeps the encoding and the flag, and appends the converters
      and the records in document order. */
  lemma {:induction false} FormatOfOrder(ff: FileFormatDef, objs: seq<Obj>)
    ensures var f := FormatOf(ff, objs);
      && f.encoding == ff.encoding && f.ignoreUnmappedRecords == ff.ignoreUnmappedRecords
      && f.converters == ff.converters + ConvertersIn(objs)
      && f.recordOrder == ff.recordOrder + RecordsIn(objs)
  {
    if objs != [] {
      FormatOfOrder(ff, objs[..|objs| - 1]);
    }
  }

  /** A name is in the format's records exactly when it was there before or some record
      added has it. */
  lemma {:induction false} FormatOfKeys(ff: FileFormatDef, objs: seq<Obj>, k: Option<string>)
    ensures k in FormatOf(ff, objs).records <==> k in ff.records || exists i :: 0 <= i < |RecordsIn(objs)| && RecordsIn(objs)[i].name == k
  {
    if objs != [] {
      var init := objs[..|objs| - 1];
      var last := objs[|objs| - 1];
      FormatOfKeys(ff, init, k);
      var f, fi, rs, ri := FormatOf(ff, objs), FormatOf(ff, init), RecordsIn(objs), RecordsIn(init);
      if last.RecordObj? {
        assert rs == ri + [last.record];
        assert f.records == fi.records[last.record.name := last.record];
        assert rs[|ri|] == last.record;
        if exists i :: 0 <= i < |rs| && rs[i].name == k {
          var i :| 0 <= i < |rs| && rs[i].name == k;
          if i < |ri| { assert ri[i] == rs[i]; }
        }
        if exists i :: 0 <= i < |ri| && ri[i].name == k {
          var i :| 0 <= i < |ri| && ri[i].name == k;
          assert rs[i] == ri[i];
        }
      } else {
        assert rs == ri + [] == ri;
        assert f.records == fi.records;
        if exists i :: 0 <= i < |rs| && rs[i].name == k {
          var i :| 0 <= i < |rs| && rs[i].name == k;
          assert ri[i].name == k;
        }
      }
    }
  }

  /** Where the record kept under `k` comes from: the format before, when no record added has
      that name, or the last record added under it. */
  predicate KeptFrom(ff: FileFormatDef, f: FileFormatDef, rs: seq<RecordDef>, k: Option<string>) {
    k in f.records ==>
      (k in ff.records && f.records[k] == ff.records[k] && forall i :: 0 <= i < |rs| ==> rs[i].name != k) ||
      (exists i :: 0 <= i < |rs| && rs[i].name == k && f.records[k] == rs[i] && forall j :: i < j < |rs| ==> rs[j].name != k)
  }

  /** A name reaches the last record added under it, or what the format held before when no
      record of that name was added. */
  lemma {:induction false} FormatOfLastWins(ff: FileFormatDef, objs: seq<Obj>, k: Option<string>)
    ensures KeptFrom(ff, FormatOf(ff, objs), RecordsIn(objs), k)
  {
    if objs != [] {
      var init := objs[..|objs| - 1];
      var last := objs[|objs| - 1];
      var f, fi, rs, ri := FormatOf(ff, objs), FormatOf(ff, init), RecordsIn(objs), RecordsIn(init);
      if last.RecordObj? && last.record.name == k {
        assert rs == ri + [last.record];
        assert f.records == fi.records[k := last.record];
        var i := |rs| - 1;
        assert rs[i].name == k && f.records[k] == rs[i];
      } else {
        FormatOfLastWins(ff, init, k);
        if last.RecordObj? {
          assert rs == ri + [last.record];
          assert f.records == fi.records[last.record.name := last.record];
        } else {
          assert rs == ri + [] == ri;
          assert f.records == fi.records;
        }
        assert forall i :: 0 <= i < |ri| ==> rs[i] == ri[i];
        if k in f.records {
          assert k in fi.records && f.records[k] == fi.records[k];
          if !(k in ff.records && fi.records[k] == ff.records[k] && forall i :: 0 <= i < |ri| ==> ri[i].name != k) {
            var i :| 0 <= i < |ri| && ri[i].name == k && fi.records[k] == ri[i] && forall j :: i < j < |ri| ==> ri[j].name != k;
            assert rs[i] == ri[i];
          }
        }
      }
    }
  }

  /** A default record followed by a record of the same name that has an identity is
      shadowed in the map `hasDefaultRecord` looks at, yet stays in the matching order. */
  lemma ShadowedDefault(ff: FileFormatDef, first: RecordDef, second: RecordDef)
    requires ff.records == map[] && first.name == second.name
    requires first.settings.identTypeFlag == '\0' && second.settings.identTypeFlag != '\0'
    ensures var f := FormatOf(ff, [RecordObj(first), RecordObj(second)]);
      !HasDefaultRecord(f) && first in f.recordOrder
  {
    var objs := [RecordObj(first), RecordObj(second)];
    assert objs[..1] == [RecordObj(first)];
    assert objs[..1][..0] == [];
    var f := FormatOf(ff, objs);
    assert FormatOf(ff, objs[..1]).records == map[first.name := first];
    assert forall k :: k in f.records ==> k == second.name && f.records[k] == second;
  }

  /** Every failure of `loadConfigurationFile` leaves as a `FlatwormParserException`. */
  lemma LoadFailsAsParser(env: Env, document: seq<Node>)
    ensures Load(env, document).Err? ==> Load(env, document).error == FlatwormParserException
  {
  }

  /** A file format with a default record and ignore-unmapped-records set is refused. */
  lemma LoadRejectsDoubleDip(env: Env, document: seq<Node>, ff: FileFormatDef)
    requires var first := FirstNamed(document, "file-format"); first.Some? && ReadFileFormat(env, first.value) == Ok(ff)
    requires HasDefaultRecord(ff) && ff.ignoreUnmappedRecords
    ensures Load(env, document) == Err(FlatwormParserException)
  {
    var first := FirstNamed(document, "file-format");
    assert first.value.Element? && first.value.name == "file-format";
  }

  /** What loads is the file format of the first top-level `file-format` element, not both
      defaulted and ignoring unmapped records; a document without one loads as null. */
  lemma LoadAccepts(env: Env, document: seq<Node>)
    ensures FirstNamed(document, "file-format").None? ==> Load(env, document) == Ok(None)
    ensures Load(env, document).Ok? && Load(env, document).value.Some? ==>
      var ff, first := Load(env, document).value.value, FirstNamed(document, "file-format");
      first.Some? && ReadFileFormat(env, first.value) == Ok(ff) && !(HasDefaultRecord(ff) && ff.ignoreUnmappedRecords)
  {
    var first := FirstNamed(document, "file-format");
    if first.Some? {
      assert first.value.Element? && first.value.name == "file-format";
    }
  }

  /** One step of `getChildNodes`: the `i`-th child's object, if any, before the rest. */
  lemma ChildNodesStep(env: Env, parent: Node, i: nat)
    requires i < |ChildrenOf(parent)|
    ensures var o, rest := Traverse(env, ChildrenOf(parent)[i]), ChildNodesFrom(env, parent, i + 1);
      ChildNodesFrom(env, parent, i) == if o.Err? then Err(o.error) else Prepended(if o.value.Some? then [o.value.value] else [], rest)
  {
  }

  /** What `traverse` gives for each child from the `i`-th on. */
  function Outcomes(env: Env, parent: Node, i: nat): seq<Result<Option<Obj>>>
    requires i <= |ChildrenOf(parent)|
    decreases |ChildrenOf(parent)| - i
  {
    if i == |ChildrenOf(parent)| then [] else [Traverse(env, ChildrenOf(parent)[i])] + Outcomes(env, parent, i + 1)
  }

  lemma {:induction false} OutcomesAt(env: Env, parent: Node, i: nat)
    requires i <= |ChildrenOf(parent)|
    ensures |Outcomes(env, parent, i)| == |ChildrenOf(parent)| - i
    ensures forall k :: 0 <= k < |Outcomes(env, parent, i)| ==> Outcomes(env, parent, i)[k] == Traverse(env, ChildrenOf(parent)[i + k])
    decreases |ChildrenOf(parent)| - i
  {
    if i < |ChildrenOf(parent)| {
      OutcomesAt(env, parent, i + 1);
    }
  }

  /** `getChildNodes` is the children's outcomes collected: with `Dom.CollectedKeepsOrder`, the
      objects come in document order, one for every child that gives one. */
  lemma {:induction false} ChildNodesCollected(env: Env, parent: Node, i: nat)
    requires i <= |ChildrenOf(parent)|
    ensures ChildNodesFrom(env, parent, i) == Collected(Outcomes(env, parent, i))
    decreases |ChildrenOf(parent)| - i
  {
    if i < |ChildrenOf(parent)| {
      ChildNodesCollected(env, parent, i + 1);
      assert Outcomes(env, parent, i)[1..] == Outcomes(env, parent, i + 1);
    }
  }

  /** The elements of a line are exactly the element objects among its children's objects. */
  lemma {:induction false} ElementsOfRule(objs: seq<Obj>)
    ensures |ElementsOf(objs)| <= |objs|
    ensures forall x :: x in ElementsOf(objs) <==> ElementObj(x) in objs
  {
    if objs != [] {
      var init := objs[..|objs| - 1];
      ElementsOfRule(init);
      assert objs == init + [objs[|objs| - 1]];
    }
  }
}
