/** `config.ConfigurationValidator`: the checks run over a configuration before it is used. Every
    rule appends its messages to a list the caller passes in and never removes one; the checks
    of the converters come before those of the records. Each message is kept as the `Problem` it
    reports, and `Text` gives its exact wording. Class loading and method lookup, which the
    converter checks do reflectively, are parameters: the names that load, and which methods a
    class has. Map iteration orders are unspecified, so the methods return the order they took. */
module ConfigValidation {
  import opened Wrappers
  import opened JavaText
  import opened Seqs
  import opened Util
  import FieldIdentities
  import LengthIdentities
  import opened Identities
  import opened LineElements
  import opened LineParsing
  import opened Records
  import ConversionHelpers

  /** One message of the validator. The converter messages carry the values `String.format`
      fills in, in the order the source passes them. */
  datatype Problem =
    | RecordNameMissing
    | ConverterNameMissing
    | ConverterClassMissing
    | ConverterClassNotFound(name: string, converterClass: string)
    | ReturnTypeMissing(name: string)
    | ReturnTypeNotFound(returnType: string, name: string)
    | MethodMissing(name: string)
    | MethodNotFound(methodName: string, converterClass: string)
    | MinLengthMissing
    | MaxLengthMissing
    | FieldStartMissing
    | FieldLengthMissing
    | MatchStringsMissing
    | ScriptMissing
    | BeansMissing
    | LinesMissing
    | BeanNameMissing
    | BeanClassMissing
    | IndexedIdentityLine
    | RecordEndWithoutIdentity
    | SegmentIdentityMissing
    | CardinalityModeMissing
    | CardinalityBeanRefMissing
    | PropertyOrAddMethodMissing
    | ElementBeanRefMissing
    | EndOrLengthMissing
    | EndAndLengthSet
    | OptionNameMissing
    | OptionValueMissing
    | Other(text: string)

  /** The message as the source words it. `ConverterClassNotFound` fills the converter's name
      into the place of its class and the class into the place of its name, as the source's
      argument order does. */
  function Text(p: Problem): string {
    match p
    case RecordNameMissing => "Must specify a name for the record."
    case ConverterNameMissing =>
      "Must specify the name of the ConverterBO.This is used to identify which converter to use in the record-element configuration."
    case ConverterClassMissing =>
      "Must specify the class of the ConverterBO.This is used to identify which converter to use in the record-element configuration."
    case ConverterClassNotFound(name, converterClass) =>
      "Failed to locate ConverterBO class: " + name + " for ConverterBO:" + converterClass
      + ".Please double check the fully qualified name for accuracy"
    case ReturnTypeMissing(name) => "Must specify the return-type for ConverterBO " + name + "."
    case ReturnTypeNotFound(returnType, name) => "Failed to find return-type " + returnType + " for ConverterBO " + name + "."
    case MethodMissing(name) => "Must specify the method for ConverterBO " + name + "."
    case MethodNotFound(methodName, converterClass) => "Failed to find method " + methodName + " on ConverterBO " + converterClass + "."
    case MinLengthMissing =>
      "Must specify the min-length attribute when using length-ident. This specifies that a line of data must be of a minimum length for it to be parsed by this RecordBO."
    case MaxLengthMissing =>
      "Must specify the max-length attribute when using length-ident. This specifies that a line of data must not be more than a given length for it to be parsed by this RecordBO."
    case FieldStartMissing =>
      "Must specify the field-start attribute when using field-ident. This indicates where the field identify value starts for the record."
    case FieldLengthMissing =>
      "Must specify the field-length attribute when using field-ident. This indicates the length of field identity for the record."
    case MatchStringsMissing =>
      "Must specify at least one match-string element when using field-ident. These are used to determine if a line of data should be parsed by this RecordBO."
    case ScriptMissing => "The Script Identity configuration must include the script or script-file parameter."
    case BeansMissing =>
      "Must specify at least 1 bean element for a record-definition. This indicates what Java object will be populated with the values parsed."
    case LinesMissing =>
      "Must specify at least 1 line element for a record-definition. This indicates how the line of data is to be parsed."
    case BeanNameMissing =>
      "Must specify the name for a bean element. This is how the bean will be referenced within the record-element configuration."
    case BeanClassMissing =>
      "Must specify the class for a bean element. This indicates the fully qualified name of the Java class that will be instantiated and populated when data is parsed."
    case IndexedIdentityLine => "Lines with Identities defined should not be given an index - use -1 to indicate no index specified."
    case RecordEndWithoutIdentity =>
      "Only Lines with an Identity defined should have the Record End Line set to true.These types of Lines are configured on the Field of a bean vs. in the Record header."
    case SegmentIdentityMissing =>
      "Must specify the Field Identity configuration to use so that the lines can be correctly subdivided during parsing."
    case CardinalityModeMissing =>
      "Must specify a valid Cardinality Mode or leave the attribute out of the configuration to default to LOOSE."
    case CardinalityBeanRefMissing => "Must specify the beanref attribute for segment and record elements."
    case PropertyOrAddMethodMissing => "Must specify either the property-name attribute or add-method attribute for segment-elements."
    case ElementBeanRefMissing => "Must specify a beanref attribute for a record-element."
    case EndOrLengthMissing => "Must set either the 'end' or 'length' properties for a record-element."
    case EndAndLengthSet => "Can't specify both the 'end' or 'length' properties for a record-element."
    case OptionNameMissing => "Must specify the name attribute for a conversion-option element."
    case OptionValueMissing => "Must specify the value attribute for a conversion-option element."
    case Other(text) => text
  }

  /** The messages of the converter checks. */
  predicate IsConverterProblem(p: Problem) {
    p.ConverterNameMissing? || p.ConverterClassMissing? || p.ConverterClassNotFound? || p.ReturnTypeMissing? ||
    p.ReturnTypeNotFound? || p.MethodMissing? || p.MethodNotFound?
  }

  /** The messages only the checks of a record element give. */
  predicate IsElementProblem(p: Problem) {
    p.ElementBeanRefMissing? || p.EndOrLengthMissing? || p.EndAndLengthSet? || p.OptionNameMissing? || p.OptionValueMissing?
  }

  /** The messages only the checks of a segment element give. */
  predicate IsSegmentProblem(p: Problem) {
    p.SegmentIdentityMissing? || p.CardinalityModeMissing? || p.CardinalityBeanRefMissing? || p.PropertyOrAddMethodMissing?
  }

  /** The messages of the identity checks. */
  predicate IsIdentityProblem(p: Problem) {
    p.MinLengthMissing? || p.MaxLengthMissing? || p.FieldStartMissing? || p.FieldLengthMissing? ||
    p.MatchStringsMissing? || p.ScriptMissing?
  }

  /** The messages the checks of a line give. */
  predicate IsLineProblem(p: Problem) {
    IsIdentityProblem(p) || IsElementProblem(p) || IsSegmentProblem(p) || p.IndexedIdentityLine? || p.RecordEndWithoutIdentity?
  }

  /** The messages the checks of a record definition give. */
  predicate IsDefinitionProblem(p: Problem) {
    p.BeansMissing? || p.LinesMissing? || p.BeanNameMissing? || p.BeanClassMissing? || IsLineProblem(p)
  }

  /** The list of messages the caller passes in. */
  class ErrorList {
    var items: seq<Problem>

    constructor()
      ensures items == []
    {
      items := [];
    }

    /** `List.add`. */
    method Add(p: Problem)
      modifies this`items
      ensures items == old(items) + [p]
    {
      items := items + [p];
    }

    /** The strings the list holds. */
    function Messages(): (r: seq<string>)
      reads this`items
      ensures |r| == |items| && forall i :: 0 <= i < |r| ==> r[i] == Text(items[i])
    {
      var its := items;
      seq(|its|, i requires 0 <= i < |its| => Text(its[i]))
    }
  }

  // ---------------------------------------------------------------------------------------
  // the rules, as the messages each gives
  // ---------------------------------------------------------------------------------------

  /** `validateLengthIdentity`: one message for each missing bound. */
  function LengthIdentityProblems(l: LengthIdentities.LengthIdentityValue): seq<Problem> {
    (if l.minLength.None? then [MinLengthMissing] else []) + (if l.maxLength.None? then [MaxLengthMissing] else [])
  }

  /** `validateFieldIdentity`: one message each for a missing start, a missing length and no
      matching strings. */
  function FieldIdentityProblems(f: FieldIdentities.FieldIdentityValue): seq<Problem> {
    (if f.startPosition.None? then [FieldStartMissing] else []) +
    (if f.fieldLength.None? then [FieldLengthMissing] else []) +
    (if f.matchingStrings == {} then [MatchStringsMissing] else [])
  }

  /** `validateScriptlet`: a script identity needs its script or its script file. */
  function ScriptletProblems(s: Scriptlet): seq<Problem> {
    if IsBlank(s.script) && IsBlank(s.scriptFile) then [ScriptMissing] else []
  }

  /** `validateIdentity`: the check of the identity's own kind; no identity, no check. */
  function IdentityProblems(id: Option<Identity>): seq<Problem> {
    match id
    case None => []
    case Some(Length(l)) => LengthIdentityProblems(l)
    case Some(Field(f)) => FieldIdentityProblems(f)
    case Some(Script(_, s)) => ScriptletProblems(s)
  }

  /** `validateCardinality`: no cardinality is one message; otherwise one each for a missing
      mode, a blank bean reference, and neither a property name nor an add method. */
  function CardinalityProblems(c: Option<Cardinality>): seq<Problem> {
    match c
    case None => [CardinalityModeMissing]
    case Some(card) =>
      (if card.cardinalityMode.None? then [CardinalityModeMissing] else []) +
      (if IsBlank(card.beanRef) then [CardinalityBeanRefMissing] else []) +
      (if IsBlank(card.propertyName) && IsBlank(card.addMethod) then [PropertyOrAddMethodMissing] else [])
  }

  /** `validateSegmentElement`: the segment's field identity (or a message that it has none),
      then its cardinality. The segment's own elements are not looked at. */
  function SegmentProblems(s: SegmentElement): seq<Problem> {
    (if s.fieldIdentity.Some? then FieldIdentityProblems(s.fieldIdentity.value) else [SegmentIdentityMissing]) +
    CardinalityProblems(s.cardinality)
  }

  /** `validateConversionOption`: one message each for a blank name and a blank value. */
  function OptionProblems(o: ConversionOption): seq<Problem> {
    (if IsBlank(Some(o.name)) then [OptionNameMissing] else []) + (if IsBlank(o.value) then [OptionValueMissing] else [])
  }

  /** The options of a map checked in the order `order`. */
  function OptionParts(options: map<string, ConversionOption>, order: seq<string>): (r: seq<seq<Problem>>)
    ensures |r| == |order|
  {
    seq(|order|, i requires 0 <= i < |order| => if order[i] in options then OptionProblems(options[order[i]]) else [])
  }

  function OptionsProblems(options: map<string, ConversionOption>, order: seq<string>): seq<Problem> {
    Flatten(OptionParts(options, order))
  }

  /** `validateRecordElement`: an ignored element is not checked. Otherwise it needs a bean
      reference; on a line without a delimiter exactly one of its end and its length; and then
      each conversion option is checked. */
  function RecordElementProblems(delimiter: Option<string>, e: RecordElementValue, order: seq<string>): seq<Problem> {
    if e.ignoreField then [] else RecordElementHead(delimiter, e) + OptionsProblems(e.conversionOptions, order)
  }

  /** The messages about the element itself, before those about its options. */
  function RecordElementHead(delimiter: Option<string>, e: RecordElementValue): seq<Problem> {
    (if e.cardinality.None? || IsBlank(e.cardinality.value.beanRef) then [ElementBeanRefMissing] else []) +
    PositionProblems(delimiter, e)
  }

  /** On a line without a delimiter, an element must have exactly one of an end and a length. */
  function PositionProblems(delimiter: Option<string>, e: RecordElementValue): seq<Problem> {
    if IsBlank(delimiter) then
      (if e.fieldEnd.None? && e.fieldLength.None? then [EndOrLengthMissing] else []) +
      (if e.fieldEnd.Some? && e.fieldLength.Some? then [EndAndLengthSet] else [])
    else []
  }

  /** The checks of a line before those of its elements: with an identity, the identity and
      that the line has no index; without one, that it is not a record end line. */
  function LineHeadProblems(line: LineConfig): seq<Problem> {
    if line.lineIdentity.Some? then
      IdentityProblems(line.lineIdentity) + (if line.index != -1 then [IndexedIdentityLine] else [])
    else if line.recordEndLine == Some(true) then [RecordEndWithoutIdentity]
    else []
  }

  /** What each element of a line gives in the pass over the record elements; `orders` holds
      the option order of each. */
  function ElementParts(delimiter: Option<string>, es: seq<LineElement>, orders: seq<seq<string>>): (r: seq<seq<Problem>>)
    ensures |r| == |es|
  {
    seq(|es|, k requires 0 <= k < |es| =>
      if es[k].Record? then RecordElementProblems(delimiter, es[k].element, if k < |orders| then orders[k] else []) else [])
  }

  /** What each element of a line gives in the pass over the segment elements. */
  function SegmentParts(es: seq<LineElement>): (r: seq<seq<Problem>>)
    ensures |r| == |es|
  {
    seq(|es|, k requires 0 <= k < |es| => if es[k].Segment? then SegmentProblems(es[k].segment) else [])
  }

  /** `validateLine`: the line's own checks, then every record element, then every segment
      element. */
  function LineProblems(line: LineConfig, orders: seq<seq<string>>): seq<Problem> {
    LineHeadProblems(line) + Flatten(ElementParts(line.delimiter, line.elements, orders)) + Flatten(SegmentParts(line.elements))
  }

  /** `orders` gives, for each record element, an order of its options map. */
  predicate ElementOrdersFit(es: seq<LineElement>, orders: seq<seq<string>>) {
    |orders| == |es| &&
    forall k :: 0 <= k < |es| && es[k].Record? ==> IsListing(orders[k], es[k].element.conversionOptions.Keys)
  }

  /** What a bean of a record definition is checked for. */
  datatype BeanFields = BeanFields(name: string, beanClass: string)

  /** `validateBean`: one message each for a blank name and a blank class. */
  function BeanProblems(b: BeanFields): seq<Problem> {
    (if IsBlank(Some(b.name)) then [BeanNameMissing] else []) + (if IsBlank(Some(b.beanClass)) then [BeanClassMissing] else [])
  }

  function BeanParts(beans: map<string, BeanFields>, order: seq<string>): (r: seq<seq<Problem>>)
    ensures |r| == |order|
  {
    seq(|order|, i requires 0 <= i < |order| => if order[i] in beans then BeanProblems(beans[order[i]]) else [])
  }

  function LineParts(lines: seq<LineConfig>, orders: seq<seq<seq<string>>>): (r: seq<seq<Problem>>)
    ensures |r| == |lines|
  {
    seq(|lines|, i requires 0 <= i < |lines| => LineProblems(lines[i], if i < |orders| then orders[i] else []))
  }

  /** What the validator reads of a record: its name and identity, and of its definition the
      beans, the sequential lines and whether there are lines with identities. */
  datatype RecordShape = RecordShape(
    name: Option<string>, identity: Option<Identity>, beans: map<string, BeanFields>,
    lines: seq<LineConfig>, identityLinesEmpty: bool)

  /** The order in which the checks of a record visited its bean map and the options of the
      elements of each of its lines. */
  datatype RecordOrder = RecordOrder(beans: seq<string>, lines: seq<seq<seq<string>>>)

  predicate OrderFits(shape: RecordShape, order: RecordOrder) {
    DefinitionOrderFits(shape.beans, shape.lines, order)
  }

  /** `order` lists the bean map, and for each line the option maps of its record elements. */
  predicate DefinitionOrderFits(beans: map<string, BeanFields>, lines: seq<LineConfig>, order: RecordOrder) {
    IsListing(order.beans, beans.Keys) &&
    |order.lines| == |lines| &&
    forall i :: 0 <= i < |lines| ==> ElementOrdersFit(lines[i].elements, order.lines[i])
  }

  /** The checks of the beans of a definition: at least one bean, each bean checked. */
  function BeansPart(beans: map<string, BeanFields>, order: seq<string>): seq<Problem> {
    if beans == map[] then [BeansMissing] else Flatten(BeanParts(beans, order))
  }

  /** The checks of the lines of a definition: at least one line in either list, and if so
      each sequential line checked. The lines with identities are only counted. */
  function LinesPart(lines: seq<LineConfig>, identityLinesEmpty: bool, orders: seq<seq<seq<string>>>): seq<Problem> {
    if lines == [] && identityLinesEmpty then [LinesMissing] else Flatten(LineParts(lines, orders))
  }

  /** `validateRecordDefinition`: the beans, then the lines. */
  function DefinitionProblems(beans: map<string, BeanFields>, lines: seq<LineConfig>, identityLinesEmpty: bool,
                              order: RecordOrder): seq<Problem>
  {
    BeansPart(beans, order.beans) + LinesPart(lines, identityLinesEmpty, order.lines)
  }

  /** `validateRecord`: the name, the record's identity, then its definition. */
  function RecordProblems(shape: RecordShape, order: RecordOrder): seq<Problem> {
    RecordNameProblems(shape.name) + IdentityProblems(shape.identity) +
    DefinitionProblems(shape.beans, shape.lines, shape.identityLinesEmpty, order)
  }

  function RecordNameProblems(name: Option<string>): seq<Problem> {
    if IsBlank(name) then [RecordNameMissing] else []
  }

  /** `validateConverter`: a blank name; a blank class, or one that does not load; a blank
      return type, or one that does not load; a blank method, or, when the class loaded, no
      method of that name taking an object and a map. */
  function ConverterProblems(c: ConversionHelpers.Converter, loadable: set<string>, hasMethod: (string, string) -> bool): seq<Problem> {
    ConverterNameProblems(c) + ConverterClassProblems(c, loadable) + ReturnTypeProblems(c, loadable) +
    MethodProblems(c, loadable, hasMethod)
  }

  function ConverterNameProblems(c: ConversionHelpers.Converter): seq<Problem> {
    if IsBlank(Some(c.name)) then [ConverterNameMissing] else []
  }

  function ConverterClassProblems(c: ConversionHelpers.Converter, loadable: set<string>): seq<Problem> {
    if IsBlank(Some(c.converterClass)) then [ConverterClassMissing]
    else if c.converterClass !in loadable then [ConverterClassNotFound(c.name, c.converterClass)] else []
  }

  function ReturnTypeProblems(c: ConversionHelpers.Converter, loadable: set<string>): seq<Problem> {
    if IsBlank(Some(c.returnType)) then [ReturnTypeMissing(c.name)]
    else if c.returnType !in loadable then [ReturnTypeNotFound(c.returnType, c.name)] else []
  }

  /** The method is looked up only on a class that loaded. */
  function MethodProblems(c: ConversionHelpers.Converter, loadable: set<string>, hasMethod: (string, string) -> bool): seq<Problem> {
    if IsBlank(Some(c.methodName)) then [MethodMissing(c.name)]
    else if !IsBlank(Some(c.converterClass)) && c.converterClass in loadable && !hasMethod(c.converterClass, c.methodName)
    then [MethodNotFound(c.methodName, c.converterClass)] else []
  }

  function ConverterParts(converters: map<string, ConversionHelpers.Converter>, order: seq<string>,
                          loadable: set<string>, hasMethod: (string, string) -> bool): (r: seq<seq<Problem>>)
    ensures |r| == |order|
  {
    seq(|order|, i requires 0 <= i < |order| =>
      if order[i] in converters then ConverterProblems(converters[order[i]], loadable, hasMethod) else [])
  }

  function RecordParts(shapes: seq<RecordShape>, orders: seq<RecordOrder>): (r: seq<seq<Problem>>)
    ensures |r| == |shapes|
  {
    seq(|shapes|, i requires 0 <= i < |shapes| =>
      RecordProblems(shapes[i], if i < |orders| then orders[i] else RecordOrder([], [])))
  }

  /** `validateFileFormat`: every converter, then every record. */
  function FileFormatProblems(converters: map<string, ConversionHelpers.Converter>, converterOrder: seq<string>,
                              loadable: set<string>, hasMethod: (string, string) -> bool,
                              shapes: seq<RecordShape>, orders: seq<RecordOrder>): seq<Problem>
  {
    Flatten(ConverterParts(converters, converterOrder, loadable, hasMethod)) + Flatten(RecordParts(shapes, orders))
  }

  // ---------------------------------------------------------------------------------------
  // what each rule reports
  // ---------------------------------------------------------------------------------------

  lemma LengthIdentityRule(l: LengthIdentities.LengthIdentityValue)
    ensures var r := LengthIdentityProblems(l);
      (MinLengthMissing in r <==> l.minLength.None?) && (MaxLengthMissing in r <==> l.maxLength.None?) &&
      (r == [] <==> LengthIdentities.Bounded(l)) && forall p :: p in r ==> IsIdentityProblem(p)
  {
  }

  lemma FieldIdentityRule(f: FieldIdentities.FieldIdentityValue)
    ensures var r := FieldIdentityProblems(f);
      (FieldStartMissing in r <==> f.startPosition.None?) && (FieldLengthMissing in r <==> f.fieldLength.None?) &&
      (MatchStringsMissing in r <==> f.matchingStrings == {}) &&
      (r == [] <==> f.startPosition.Some? && f.fieldLength.Some? && f.matchingStrings != {}) &&
      forall p :: p in r ==> IsIdentityProblem(p)
  {
  }

  lemma ScriptletRule(s: Scriptlet)
    ensures ScriptletProblems(s) == [] <==> !IsBlank(s.script) || !IsBlank(s.scriptFile)
    ensures ScriptletProblems(s) != [] ==> ScriptletProblems(s) == [ScriptMissing]
  {
  }

  /** Only identity messages; and an identity that passes has every setting its matching
      unboxes. */
  lemma IdentityRule(id: Option<Identity>)
    ensures id.None? ==> IdentityProblems(id) == []
    ensures forall p :: p in IdentityProblems(id) ==> IsIdentityProblem(p)
    ensures id.Some? && IdentityProblems(id) == [] ==> Configured(id.value)
    ensures id.Some? && id.value.Length? ==> (IdentityProblems(id) == [] <==> LengthIdentities.Bounded(id.value.length))
    ensures id.Some? && id.value.Field? ==> (IdentityProblems(id) == [] <==>
      id.value.field.startPosition.Some? && id.value.field.fieldLength.Some? && id.value.field.matchingStrings != {})
    ensures id.Some? && id.value.Script? ==> (IdentityProblems(id) == [] <==>
      !IsBlank(id.value.scriptlet.script) || !IsBlank(id.value.scriptlet.scriptFile))
  {
    match id
    case None =>
    case Some(Length(l)) => LengthIdentityRule(l);
    case Some(Field(f)) => FieldIdentityRule(f);
    case Some(Script(_, s)) => ScriptletRule(s);
  }

  lemma CardinalityRule(c: Option<Cardinality>)
    ensures var r := CardinalityProblems(c);
      (c.None? ==> r == [CardinalityModeMissing]) &&
      (c.Some? ==> (CardinalityModeMissing in r <==> c.value.cardinalityMode.None?)) &&
      (c.Some? ==> (CardinalityBeanRefMissing in r <==> IsBlank(c.value.beanRef))) &&
      (c.Some? ==> (PropertyOrAddMethodMissing in r <==> IsBlank(c.value.propertyName) && IsBlank(c.value.addMethod))) &&
      forall p :: p in r ==> IsSegmentProblem(p) && !p.SegmentIdentityMissing?
  {
  }

  lemma SegmentRule(s: SegmentElement)
    ensures var r := SegmentProblems(s);
      (SegmentIdentityMissing in r <==> s.fieldIdentity.None?) &&
      (r == [] <==> s.fieldIdentity.Some? && FieldIdentityProblems(s.fieldIdentity.value) == [] && CardinalityProblems(s.cardinality) == []) &&
      forall p :: p in r ==> !IsElementProblem(p) && (IsSegmentProblem(p) || IsIdentityProblem(p))
  {
    SegmentMarker(s);
    SegmentClean(s);
    SegmentProblemKinds(s);
  }

  lemma SegmentMarker(s: SegmentElement)
    ensures SegmentIdentityMissing in SegmentProblems(s) <==> s.fieldIdentity.None?
  {
    CardinalityRule(s.cardinality);
    if s.fieldIdentity.Some? {
      FieldIdentityRule(s.fieldIdentity.value);
    }
  }

  lemma SegmentClean(s: SegmentElement)
    ensures SegmentProblems(s) == [] <==>
      s.fieldIdentity.Some? && FieldIdentityProblems(s.fieldIdentity.value) == [] && CardinalityProblems(s.cardinality) == []
  {
  }

  lemma SegmentProblemKinds(s: SegmentElement)
    ensures forall p :: p in SegmentProblems(s) ==> !IsElementProblem(p) && (IsSegmentProblem(p) || IsIdentityProblem(p))
  {
    CardinalityRule(s.cardinality);
    if s.fieldIdentity.Some? {
      FieldIdentityRule(s.fieldIdentity.value);
    }
  }

  lemma OptionRule(o: ConversionOption)
    ensures var r := OptionProblems(o);
      (OptionNameMissing in r <==> IsBlank(Some(o.name))) && (OptionValueMissing in r <==> IsBlank(o.value)) &&
      forall p :: p in r ==> p.OptionNameMissing? || p.OptionValueMissing?
  {
  }

  lemma ElementHeadRule(delimiter: Option<string>, e: RecordElementValue)
    ensures var r := RecordElementHead(delimiter, e);
      (ElementBeanRefMissing in r <==> IsBlank(BeanRef(e.cardinality))) &&
      (EndOrLengthMissing in r <==> IsBlank(delimiter) && e.fieldEnd.None? && e.fieldLength.None?) &&
      (EndAndLengthSet in r <==> IsBlank(delimiter) && e.fieldEnd.Some? && e.fieldLength.Some?) &&
      forall p :: p in r ==> p.ElementBeanRefMissing? || p.EndOrLengthMissing? || p.EndAndLengthSet?
  {
  }

  lemma LineHeadRule(line: LineConfig)
    ensures var r := LineHeadProblems(line);
      (IndexedIdentityLine in r <==> line.lineIdentity.Some? && line.index != -1) &&
      (RecordEndWithoutIdentity in r <==> line.lineIdentity.None? && line.recordEndLine == Some(true)) &&
      (line.lineIdentity.Some? && r == [] ==> IdentityProblems(line.lineIdentity) == []) &&
      forall p :: p in r ==> IsLineProblem(p) && !IsElementProblem(p) && !IsSegmentProblem(p)
  {
    IdentityRule(line.lineIdentity);
  }

  lemma BeanRule(b: BeanFields)
    ensures var r := BeanProblems(b);
      (BeanNameMissing in r <==> IsBlank(Some(b.name))) && (BeanClassMissing in r <==> IsBlank(Some(b.beanClass))) &&
      forall p :: p in r ==> p.BeanNameMissing? || p.BeanClassMissing?
  {
  }

  /** A converter passes exactly when it names a loadable class and return type and a method
      the class has; a method is never reported missing on a class that did not load. */
  lemma ConverterRule(c: ConversionHelpers.Converter, loadable: set<string>, hasMethod: (string, string) -> bool)
    ensures var r := ConverterProblems(c, loadable, hasMethod);
      (forall p :: p in r ==> IsConverterProblem(p)) &&
      (r == [] <==>
        !IsBlank(Some(c.name)) && !IsBlank(Some(c.converterClass)) && c.converterClass in loadable &&
        !IsBlank(Some(c.returnType)) && c.returnType in loadable &&
        !IsBlank(Some(c.methodName)) && hasMethod(c.converterClass, c.methodName)) &&
      (IsBlank(Some(c.converterClass)) || c.converterClass !in loadable ==> MethodNotFound(c.methodName, c.converterClass) !in r)
  {
  }

  // ---------------------------------------------------------------------------------------
  // which messages come from where
  // ---------------------------------------------------------------------------------------

  /** Every message of a concatenation of pieces has a property every piece's messages have. */
  lemma FlattenAll(parts: seq<seq<Problem>>, prop: Problem -> bool)
    requires forall i, p :: 0 <= i < |parts| && p in parts[i] ==> prop(p)
    ensures forall p :: p in Flatten(parts) ==> prop(p)
  {
    forall p | p in Flatten(parts) ensures prop(p) {
      FlattenMember(parts, p);
    }
  }

  lemma OptionKinds(options: map<string, ConversionOption>, order: seq<string>)
    ensures forall p :: p in OptionsProblems(options, order) ==> p.OptionNameMissing? || p.OptionValueMissing?
  {
    var parts := OptionParts(options, order);
    forall i | 0 <= i < |parts| && order[i] in options {
      OptionRule(options[order[i]]);
    }
    FlattenAll(parts, (p: Problem) => p.OptionNameMissing? || p.OptionValueMissing?);
  }

  lemma ElementKinds(delimiter: Option<string>, es: seq<LineElement>, orders: seq<seq<string>>)
    ensures forall p :: p in Flatten(ElementParts(delimiter, es, orders)) ==> IsElementProblem(p)
  {
    var parts := ElementParts(delimiter, es, orders);
    forall i | 0 <= i < |parts| ensures forall p :: p in parts[i] ==> IsElementProblem(p) {
      if es[i].Record? && !es[i].element.ignoreField {
        ElementHeadRule(delimiter, es[i].element);
        OptionKinds(es[i].element.conversionOptions, if i < |orders| then orders[i] else []);
      }
    }
    FlattenAll(parts, IsElementProblem);
  }

  lemma SegmentKinds(es: seq<LineElement>)
    ensures forall p :: p in Flatten(SegmentParts(es)) ==> !IsElementProblem(p) && (IsSegmentProblem(p) || IsIdentityProblem(p))
  {
    forall i | 0 <= i < |es| && es[i].Segment? {
      SegmentRule(es[i].segment);
    }
    FlattenAll(SegmentParts(es), (p: Problem) => !IsElementProblem(p) && (IsSegmentProblem(p) || IsIdentityProblem(p)));
  }

  /** The messages of a line come from its identity, its own two rules, its record elements
      and its segment elements, and from nothing else. */
  lemma LineKinds(line: LineConfig, orders: seq<seq<string>>)
    ensures forall p :: p in LineProblems(line, orders) ==> IsLineProblem(p)
  {
    LineHeadRule(line);
    ElementKinds(line.delimiter, line.elements, orders);
    SegmentKinds(line.elements);
  }

  /** The messages the bean checks of a definition give. */
  lemma BeansPartRule(beans: map<string, BeanFields>, order: seq<string>)
    ensures BeansMissing in BeansPart(beans, order) <==> beans == map[]
    ensures forall p :: p in BeansPart(beans, order) ==> p.BeansMissing? || p.BeanNameMissing? || p.BeanClassMissing?
  {
    if beans != map[] {
      var parts := BeanParts(beans, order);
      forall i | 0 <= i < |parts| && order[i] in beans {
        BeanRule(beans[order[i]]);
      }
      FlattenAll(parts, (p: Problem) => p.BeanNameMissing? || p.BeanClassMissing?);
    }
  }

  /** The messages the line checks of a definition give. */
  lemma LinesPartRule(lines: seq<LineConfig>, identityLinesEmpty: bool, orders: seq<seq<seq<string>>>)
    ensures LinesMissing in LinesPart(lines, identityLinesEmpty, orders) <==> lines == [] && identityLinesEmpty
    ensures forall p :: p in LinesPart(lines, identityLinesEmpty, orders) ==> p.LinesMissing? || IsLineProblem(p)
  {
    if !(lines == [] && identityLinesEmpty) {
      var parts := LineParts(lines, orders);
      forall i | 0 <= i < |parts| ensures forall p :: p in parts[i] ==> IsLineProblem(p) {
        LineKinds(lines[i], if i < |orders| then orders[i] else []);
      }
      FlattenAll(parts, IsLineProblem);
    }
  }

  lemma DefinitionKinds(beans: map<string, BeanFields>, lines: seq<LineConfig>, identityLinesEmpty: bool, order: RecordOrder)
    ensures forall p :: p in DefinitionProblems(beans, lines, identityLinesEmpty, order) ==> IsDefinitionProblem(p)
  {
    BeansPartRule(beans, order.beans);
    LinesPartRule(lines, identityLinesEmpty, order.lines);
  }

  /** A definition reports missing beans, or missing lines, exactly when it has none. */
  lemma DefinitionMarkers(beans: map<string, BeanFields>, lines: seq<LineConfig>, identityLinesEmpty: bool, order: RecordOrder)
    ensures BeansMissing in DefinitionProblems(beans, lines, identityLinesEmpty, order) <==> beans == map[]
    ensures LinesMissing in DefinitionProblems(beans, lines, identityLinesEmpty, order) <==> lines == [] && identityLinesEmpty
  {
    BeansMarker(beans, lines, identityLinesEmpty, order);
    LinesMarker(beans, lines, identityLinesEmpty, order);
  }

  lemma BeansMarker(beans: map<string, BeanFields>, lines: seq<LineConfig>, identityLinesEmpty: bool, order: RecordOrder)
    ensures BeansMissing in DefinitionProblems(beans, lines, identityLinesEmpty, order) <==> beans == map[]
  {
    BeansPartRule(beans, order.beans);
    LinesPartRule(lines, identityLinesEmpty, order.lines);
  }

  lemma LinesMarker(beans: map<string, BeanFields>, lines: seq<LineConfig>, identityLinesEmpty: bool, order: RecordOrder)
    ensures LinesMissing in DefinitionProblems(beans, lines, identityLinesEmpty, order) <==> lines == [] && identityLinesEmpty
  {
    BeansPartRule(beans, order.beans);
    LinesPartRule(lines, identityLinesEmpty, order.lines);
  }

  /** A record reports a missing name exactly when its name is blank. */
  lemma RecordNameRule(shape: RecordShape, order: RecordOrder)
    ensures RecordNameMissing in RecordProblems(shape, order) <==> IsBlank(shape.name)
  {
    IdentityRule(shape.identity);
    NameNotInDefinition(shape.beans, shape.lines, shape.identityLinesEmpty, order);
    InFirstOfThree(RecordNameMissing, RecordNameProblems(shape.name), IdentityProblems(shape.identity),
      DefinitionProblems(shape.beans, shape.lines, shape.identityLinesEmpty, order));
  }

  lemma NameNotInDefinition(beans: map<string, BeanFields>, lines: seq<LineConfig>, identityLinesEmpty: bool, order: RecordOrder)
    ensures RecordNameMissing !in DefinitionProblems(beans, lines, identityLinesEmpty, order)
  {
    assert !IsDefinitionProblem(RecordNameMissing);
    DefinitionKinds(beans, lines, identityLinesEmpty, order);
  }

  // ---------------------------------------------------------------------------------------
  // properties of the whole report
  // ---------------------------------------------------------------------------------------

  /** Within a line's messages, every message about a record element comes before every
      message about a segment element: the record elements are all checked first. */
  lemma {:induction false} RecordElementsBeforeSegments(line: LineConfig, orders: seq<seq<string>>)
    ensures var r := LineProblems(line, orders);
      forall i, j :: 0 <= i < |r| && 0 <= j < |r| && IsSegmentProblem(r[i]) && IsElementProblem(r[j]) ==> j < i
  {
    var h := LineHeadProblems(line);
    var e := Flatten(ElementParts(line.delimiter, line.elements, orders));
    var s := Flatten(SegmentParts(line.elements));
    var r := LineProblems(line, orders);
    LineHeadRule(line);
    ElementKinds(line.delimiter, line.elements, orders);
    SegmentKinds(line.elements);
    assert forall p :: p in h + e ==> !IsSegmentProblem(p);
    EarlyBeforeLate(h + e, s, IsElementProblem, IsSegmentProblem);
  }

  /** The messages the checks of a record give. */
  predicate IsRecordProblem(p: Problem) {
    p.RecordNameMissing? || IsIdentityProblem(p) || IsDefinitionProblem(p)
  }

  /** No record message is a converter message. */
  lemma RecordNotConverter(p: Problem)
    requires IsRecordProblem(p)
    ensures !IsConverterProblem(p)
  {
  }

  /** Every message about a record is one of the record kinds. */
  lemma RecordKinds(shape: RecordShape, order: RecordOrder)
    ensures forall p :: p in RecordProblems(shape, order) ==> IsRecordProblem(p)
  {
    var a := RecordNameProblems(shape.name);
    var b := IdentityProblems(shape.identity);
    var c := DefinitionProblems(shape.beans, shape.lines, shape.identityLinesEmpty, order);
    IdentityRule(shape.identity);
    DefinitionKinds(shape.beans, shape.lines, shape.identityLinesEmpty, order);
    forall p | p in a + b + c ensures IsRecordProblem(p) {
      if p !in a && p !in b {
        assert p in c;
      }
    }
  }

  lemma ConverterPartsKinds(converters: map<string, ConversionHelpers.Converter>, order: seq<string>,
                            loadable: set<string>, hasMethod: (string, string) -> bool)
    ensures forall p :: p in Flatten(ConverterParts(converters, order, loadable, hasMethod)) ==> IsConverterProblem(p)
  {
    var parts := ConverterParts(converters, order, loadable, hasMethod);
    forall i | 0 <= i < |parts| && order[i] in converters {
      ConverterRule(converters[order[i]], loadable, hasMethod);
    }
    FlattenAll(parts, IsConverterProblem);
  }

  lemma RecordPartsKinds(shapes: seq<RecordShape>, orders: seq<RecordOrder>)
    ensures forall p :: p in Flatten(RecordParts(shapes, orders)) ==> !IsConverterProblem(p)
  {
    var parts := RecordParts(shapes, orders);
    forall i | 0 <= i < |parts| {
      RecordKinds(shapes[i], if i < |orders| then orders[i] else RecordOrder([], []));
    }
    FlattenAll(parts, IsRecordProblem);
    forall p | p in Flatten(parts) ensures !IsConverterProblem(p) {
      RecordNotConverter(p);
    }
  }

  /** In the report of a file format, every converter message comes before every other one. */
  lemma {:induction false} ConvertersFirst(converters: map<string, ConversionHelpers.Converter>, converterOrder: seq<string>,
                                           loadable: set<string>, hasMethod: (string, string) -> bool,
                                           shapes: seq<RecordShape>, orders: seq<RecordOrder>)
    ensures var r := FileFormatProblems(converters, converterOrder, loadable, hasMethod, shapes, orders);
      forall i, j :: 0 <= i < |r| && 0 <= j < |r| && IsConverterProblem(r[j]) && !IsConverterProblem(r[i]) ==> j < i
  {
    var c := Flatten(ConverterParts(converters, converterOrder, loadable, hasMethod));
    var rs := Flatten(RecordParts(shapes, orders));
    var r := FileFormatProblems(converters, converterOrder, loadable, hasMethod, shapes, orders);
    ConverterPartsKinds(converters, converterOrder, loadable, hasMethod);
    RecordPartsKinds(shapes, orders);
    EarlyBeforeLate(c, rs, IsConverterProblem, (p: Problem) => !IsConverterProblem(p));
  }

  /** With every option of the map visited, the options pass is silent exactly when every
      option has a name and a value; the order of the visit does not matter. */
  lemma {:induction false} OptionsClean(options: map<string, ConversionOption>, order: seq<string>)
    requires IsListing(order, options.Keys)
    ensures OptionsProblems(options, order) == [] <==>
      forall k :: k in options ==> !IsBlank(Some(options[k].name)) && !IsBlank(options[k].value)
  {
    var parts := OptionParts(options, order);
    FlattenEmpty(parts);
    if OptionsProblems(options, order) == [] {
      forall k | k in options ensures !IsBlank(Some(options[k].name)) && !IsBlank(options[k].value) {
        var i :| 0 <= i < |order| && order[i] == k;
        assert parts[i] == OptionProblems(options[k]);
        OptionRule(options[k]);
      }
    } else {
      var i :| 0 <= i < |parts| && parts[i] != [];
      var k := order[i];
      OptionRule(options[k]);
      assert parts[i][0] in OptionProblems(options[k]);
    }
  }

  /** A clean line's identity, when it has one, is fully configured. */
  lemma CleanLineConfigured(line: LineConfig, orders: seq<seq<string>>)
    requires LineProblems(line, orders) == []
    ensures line.lineIdentity.Some? ==> Configured(line.lineIdentity.value)
  {
    LineHeadRule(line);
    IdentityRule(line.lineIdentity);
  }

  /** Beans that draw no message: there is one at least, and each has a name and a class. */
  lemma {:induction false} CleanBeans(beans: map<string, BeanFields>, order: seq<string>)
    requires IsListing(order, beans.Keys) && BeansPart(beans, order) == []
    ensures beans != map[]
    ensures forall k :: k in beans ==> !IsBlank(Some(beans[k].name)) && !IsBlank(Some(beans[k].beanClass))
  {
    var parts := BeanParts(beans, order);
    FlattenEmpty(parts);
    forall k | k in beans ensures !IsBlank(Some(beans[k].name)) && !IsBlank(Some(beans[k].beanClass)) {
      var i :| 0 <= i < |order| && order[i] == k;
      assert parts[i] == BeanProblems(beans[k]);
      BeanRule(beans[k]);
    }
  }

  /** Lines that draw no message: there is a line of one kind or the other, and each sequential
      line's identity is fully configured. */
  lemma {:induction false} CleanLines(lines: seq<LineConfig>, identityLinesEmpty: bool, orders: seq<seq<seq<string>>>)
    requires |orders| == |lines| && LinesPart(lines, identityLinesEmpty, orders) == []
    ensures lines != [] || !identityLinesEmpty
    ensures AllConfigured(lines)
  {
    var parts := LineParts(lines, orders);
    FlattenEmpty(parts);
    forall i | 0 <= i < |lines| && lines[i].lineIdentity.Some? ensures Configured(lines[i].lineIdentity.value) {
      assert parts[i] == LineProblems(lines[i], orders[i]);
      CleanLineConfigured(lines[i], orders[i]);
    }
  }

  /** A record without messages has a name and at least one bean, every bean has a name and a
      class, its identity and those of its sequential lines have every setting their matching
      needs, and it has a line of one kind or the other. */
  lemma {:induction false} CleanRecord(shape: RecordShape, order: RecordOrder)
    requires OrderFits(shape, order)
    requires RecordProblems(shape, order) == []
    ensures !IsBlank(shape.name)
    ensures shape.identity.Some? ==> Configured(shape.identity.value)
    ensures shape.beans != map[]
    ensures forall k :: k in shape.beans ==> !IsBlank(Some(shape.beans[k].name)) && !IsBlank(Some(shape.beans[k].beanClass))
    ensures shape.lines != [] || !shape.identityLinesEmpty
    ensures AllConfigured(shape.lines)
  {
    var n := RecordNameProblems(shape.name);
    var id := IdentityProblems(shape.identity);
    var b := BeansPart(shape.beans, order.beans);
    var l := LinesPart(shape.lines, shape.identityLinesEmpty, order.lines);
    assert |n + id + (b + l)| == 0;
    IdentityRule(shape.identity);
    CleanBeans(shape.beans, order.beans);
    CleanLines(shape.lines, shape.identityLinesEmpty, order.lines);
  }

  /** A file format without messages has only converters whose class and return type load and
      whose class has the method, and only records without messages. */
  lemma {:induction false} CleanFileFormat(converters: map<string, ConversionHelpers.Converter>, converterOrder: seq<string>,
                                           loadable: set<string>, hasMethod: (string, string) -> bool,
                                           shapes: seq<RecordShape>, orders: seq<RecordOrder>)
    requires IsListing(converterOrder, converters.Keys) && |orders| == |shapes|
    requires FileFormatProblems(converters, converterOrder, loadable, hasMethod, shapes, orders) == []
    ensures forall k :: k in converters ==>
      converters[k].converterClass in loadable && converters[k].returnType in loadable &&
      hasMethod(converters[k].converterClass, converters[k].methodName)
    ensures forall i :: 0 <= i < |shapes| ==> RecordProblems(shapes[i], orders[i]) == []
  {
    var cParts := ConverterParts(converters, converterOrder, loadable, hasMethod);
    var rParts := RecordParts(shapes, orders);
    FlattenEmpty(cParts);
    FlattenEmpty(rParts);
    forall k | k in converters ensures converters[k].converterClass in loadable && converters[k].returnType in loadable &&
      hasMethod(converters[k].converterClass, converters[k].methodName)
    {
      var i :| 0 <= i < |converterOrder| && converterOrder[i] == k;
      assert cParts[i] == ConverterProblems(converters[k], loadable, hasMethod);
      ConverterRule(converters[k], loadable, hasMethod);
    }
    forall i | 0 <= i < |shapes| ensures RecordProblems(shapes[i], orders[i]) == [] {
      assert rParts[i] == RecordProblems(shapes[i], orders[i]);
    }
  }

  /** A record element that is checked and draws no message has a bean reference and, on a
      line without a delimiter, exactly one of an end and a length. */
  lemma CleanElementPositioned(delimiter: Option<string>, e: RecordElementValue, order: seq<string>)
    requires !e.ignoreField && RecordElementProblems(delimiter, e, order) == []
    ensures !IsBlank(BeanRef(e.cardinality))
    ensures IsBlank(delimiter) ==> (e.fieldEnd.Some? <==> e.fieldLength.None?)
  {
    ElementHeadRule(delimiter, e);
  }

  // ---------------------------------------------------------------------------------------
  // one more piece
  // ---------------------------------------------------------------------------------------

  lemma OptionPartsSnoc(options: map<string, ConversionOption>, order: seq<string>, key: string)
    requires key in options
    ensures OptionsProblems(options, order + [key]) == OptionsProblems(options, order) + OptionProblems(options[key])
  {
    assert OptionParts(options, order + [key]) == OptionParts(options, order) + [OptionProblems(options[key])];
    FlattenSnoc(OptionParts(options, order), OptionProblems(options[key]));
  }

  lemma BeanPartsSnoc(beans: map<string, BeanFields>, order: seq<string>, key: string)
    requires key in beans
    ensures Flatten(BeanParts(beans, order + [key])) == Flatten(BeanParts(beans, order)) + BeanProblems(beans[key])
  {
    assert BeanParts(beans, order + [key]) == BeanParts(beans, order) + [BeanProblems(beans[key])];
    FlattenSnoc(BeanParts(beans, order), BeanProblems(beans[key]));
  }

  lemma ConverterPartsSnoc(converters: map<string, ConversionHelpers.Converter>, order: seq<string>, key: string,
                           loadable: set<string>, hasMethod: (string, string) -> bool)
    requires key in converters
    ensures Flatten(ConverterParts(converters, order + [key], loadable, hasMethod)) ==
      Flatten(ConverterParts(converters, order, loadable, hasMethod)) + ConverterProblems(converters[key], loadable, hasMethod)
  {
    var p := ConverterProblems(converters[key], loadable, hasMethod);
    assert ConverterParts(converters, order + [key], loadable, hasMethod) == ConverterParts(converters, order, loadable, hasMethod) + [p];
    FlattenSnoc(ConverterParts(converters, order, loadable, hasMethod), p);
  }

  lemma ElementPartsSnoc(delimiter: Option<string>, es: seq<LineElement>, orders: seq<seq<string>>, e: LineElement, o: seq<string>)
    requires |orders| == |es|
    ensures Flatten(ElementParts(delimiter, es + [e], orders + [o])) ==
      Flatten(ElementParts(delimiter, es, orders)) + (if e.Record? then RecordElementProblems(delimiter, e.element, o) else [])
  {
    var p := if e.Record? then RecordElementProblems(delimiter, e.element, o) else [];
    assert ElementParts(delimiter, es + [e], orders + [o]) == ElementParts(delimiter, es, orders) + [p];
    FlattenSnoc(ElementParts(delimiter, es, orders), p);
  }

  lemma SegmentPartsSnoc(es: seq<LineElement>, e: LineElement)
    ensures Flatten(SegmentParts(es + [e])) == Flatten(SegmentParts(es)) + (if e.Segment? then SegmentProblems(e.segment) else [])
  {
    var p := if e.Segment? then SegmentProblems(e.segment) else [];
    assert SegmentParts(es + [e]) == SegmentParts(es) + [p];
    FlattenSnoc(SegmentParts(es), p);
  }

  lemma LinePartsSnoc(lines: seq<LineConfig>, orders: seq<seq<seq<string>>>, line: LineConfig, o: seq<seq<string>>)
    requires |orders| == |lines|
    ensures Flatten(LineParts(lines + [line], orders + [o])) == Flatten(LineParts(lines, orders)) + LineProblems(line, o)
  {
    assert LineParts(lines + [line], orders + [o]) == LineParts(lines, orders) + [LineProblems(line, o)];
    FlattenSnoc(LineParts(lines, orders), LineProblems(line, o));
  }

  lemma RecordPartsSnoc(shapes: seq<RecordShape>, orders: seq<RecordOrder>, shape: RecordShape, o: RecordOrder)
    requires |orders| == |shapes|
    ensures Flatten(RecordParts(shapes + [shape], orders + [o])) == Flatten(RecordParts(shapes, orders)) + RecordProblems(shape, o)
  {
    assert RecordParts(shapes + [shape], orders + [o]) == RecordParts(shapes, orders) + [RecordProblems(shape, o)];
    FlattenSnoc(RecordParts(shapes, orders), RecordProblems(shape, o));
  }

  // ---------------------------------------------------------------------------------------
  // the validator's methods
  // ---------------------------------------------------------------------------------------


  /** The bean fields of a definition's bean map. */
  function BeanFieldsOf(beans: map<string, BeanBO>): (r: map<string, BeanFields>)
    ensures r.Keys == beans.Keys
    ensures forall k :: k in beans ==> r[k] == BeanFields(beans[k].beanName, beans[k].beanClass)
  {
    map k | k in beans :: BeanFields(beans[k].beanName, beans[k].beanClass)
  }

  /** What the validator reads of a record. */
  function ShapeOf(record: RecordBO): RecordShape
    reads record, record.recordDefinition
    reads set i | 0 <= i < |record.recordDefinition.lines| :: record.recordDefinition.lines[i]
  {
    var d := record.recordDefinition;
    RecordShape(record.name, record.recordIdentity, BeanFieldsOf(d.beans), Configs(d.lines), d.linesWithIdentities == [])
  }

  method ValidateLengthIdentity(l: LengthIdentities.LengthIdentityValue, errors: ErrorList)
    modifies errors`items
    ensures errors.items == old(errors.items) + LengthIdentityProblems(l)
  {
    if l.minLength.None? {
      errors.Add(MinLengthMissing);
    }
    if l.maxLength.None? {
      errors.Add(MaxLengthMissing);
    }
  }

  method ValidateFieldIdentity(f: FieldIdentities.FieldIdentityValue, errors: ErrorList)
    modifies errors`items
    ensures errors.items == old(errors.items) + FieldIdentityProblems(f)
  {
    if f.startPosition.None? {
      errors.Add(FieldStartMissing);
    }
    if f.fieldLength.None? {
      errors.Add(FieldLengthMissing);
    }
    if f.matchingStrings == {} {
      errors.Add(MatchStringsMissing);
    }
  }

  method ValidateScriptlet(s: Scriptlet, errors: ErrorList)
    modifies errors`items
    ensures errors.items == old(errors.items) + ScriptletProblems(s)
  {
    if IsBlank(s.script) && IsBlank(s.scriptFile) {
      errors.Add(ScriptMissing);
    }
  }

  /** `validateIdentity`: by the identity's kind; no identity is not checked. */
  method ValidateIdentity(id: Option<Identity>, errors: ErrorList)
    modifies errors`items
    ensures errors.items == old(errors.items) + IdentityProblems(id)
  {
    if id.Some? {
      match id.value
      case Length(l) => ValidateLengthIdentity(l, errors);
      case Field(f) => ValidateFieldIdentity(f, errors);
      case Script(_, s) => ValidateScriptlet(s, errors);
    }
  }

  method ValidateCardinality(c: Option<Cardinality>, errors: ErrorList)
    modifies errors`items
    ensures errors.items == old(errors.items) + CardinalityProblems(c)
  {
    if c.None? {
      errors.Add(CardinalityModeMissing);
    } else {
      var card := c.value;
      if card.cardinalityMode.None? {
        errors.Add(CardinalityModeMissing);
      }
      if IsBlank(card.beanRef) {
        errors.Add(CardinalityBeanRefMissing);
      }
      if IsBlank(card.propertyName) && IsBlank(card.addMethod) {
        errors.Add(PropertyOrAddMethodMissing);
      }
    }
  }

  method ValidateSegmentElement(s: SegmentElement, errors: ErrorList)
    modifies errors`items
    ensures errors.items == old(errors.items) + SegmentProblems(s)
  {
    if s.fieldIdentity.Some? {
      ValidateFieldIdentity(s.fieldIdentity.value, errors);
    } else {
      errors.Add(SegmentIdentityMissing);
    }
    ValidateCardinality(s.cardinality, errors);
  }

  method ValidateConversionOption(o: ConversionOption, errors: ErrorList)
    modifies errors`items
    ensures errors.items == old(errors.items) + OptionProblems(o)
  {
    if IsBlank(Some(o.name)) {
      errors.Add(OptionNameMissing);
    }
    if IsBlank(o.value) {
      errors.Add(OptionValueMissing);
    }
  }

  /** The checks of an element before its options. */
  method ValidateElementHead(parentLine: LineConfig, e: RecordElementValue, errors: ErrorList)
    modifies errors`items
    ensures errors.items == old(errors.items) + RecordElementHead(parentLine.delimiter, e)
  {
    if e.cardinality.None? || IsBlank(e.cardinality.value.beanRef) {
      errors.Add(ElementBeanRefMissing);
    }
    ghost var mid := errors.items;
    if IsBlank(parentLine.delimiter) {
      if e.fieldEnd.None? && e.fieldLength.None? {
        errors.Add(EndOrLengthMissing);
      }
      if e.fieldEnd.Some? && e.fieldLength.Some? {
        errors.Add(EndAndLengthSet);
      }
    }
    assert errors.items == mid + PositionProblems(parentLine.delimiter, e);
  }

  /** `validateRecordElement`; `order` is the order in which the options map was visited. */
  method ValidateRecordElement(parentLine: LineConfig, e: RecordElementValue, errors: ErrorList) returns (ghost order: seq<string>)
    modifies errors`items
    ensures IsListing(order, e.conversionOptions.Keys)
    ensures errors.items == old(errors.items) + RecordElementProblems(parentLine.delimiter, e, order)
  {
    order := SomeListing(e.conversionOptions.Keys);
    if e.ignoreField {
      return;
    }
    ValidateElementHead(parentLine, e, errors);
    ghost var start := errors.items;
    var options := e.conversionOptions;
    var keys := options.Keys;
    order := [];
    while keys != {}
      invariant PartialListing(order, keys, options.Keys)
      invariant errors.items == start + OptionsProblems(options, order)
      decreases |keys|
    {
      var key :| key in keys;
      ValidateConversionOption(options[key], errors);
      OptionPartsSnoc(options, order, key);
      AppendAssoc(start, OptionsProblems(options, order), OptionProblems(options[key]));
      PartialListingStep(order, keys, options.Keys, key);
      order, keys := order + [key], keys - {key};
    }
    PartialListingDone(order, keys, options.Keys, []);
    assert order + [] == order;
    AppendAssoc(old(errors.items), RecordElementHead(parentLine.delimiter, e), OptionsProblems(options, order));
  }

  /** The checks of a line before those of its elements. */
  method ValidateLineHead(line: LineConfig, errors: ErrorList)
    modifies errors`items
    ensures errors.items == old(errors.items) + LineHeadProblems(line)
  {
    if line.lineIdentity.Some? {
      ValidateIdentity(line.lineIdentity, errors);
      if line.index != -1 {
        errors.Add(IndexedIdentityLine);
      }
    } else if line.recordEndLine == Some(true) {
      errors.Add(RecordEndWithoutIdentity);
    }
  }

  /** The pass over the record elements of a line. */
  method ValidateRecordElements(line: LineConfig, errors: ErrorList) returns (ghost orders: seq<seq<string>>)
    modifies errors`items
    ensures ElementOrdersFit(line.elements, orders)
    ensures errors.items == old(errors.items) + Flatten(ElementParts(line.delimiter, line.elements, orders))
  {
    var es := line.elements;
    orders := [];
    var k := 0;
    while k < |es|
      invariant 0 <= k <= |es| && |orders| == k
      invariant ElementOrdersFit(es[..k], orders)
      invariant errors.items == old(errors.items) + Flatten(ElementParts(line.delimiter, es[..k], orders))
    {
      ghost var o: seq<string> := [];
      if es[k].Record? {
        o := ValidateRecordElement(line, es[k].element, errors);
      }
      ElementPartsSnoc(line.delimiter, es[..k], orders, es[k], o);
      AppendAssoc(old(errors.items), Flatten(ElementParts(line.delimiter, es[..k], orders)),
        if es[k].Record? then RecordElementProblems(line.delimiter, es[k].element, o) else []);
      SliceSnoc(es, k + 1);
      orders, k := orders + [o], k + 1;
    }
    assert es[..k] == es;
  }

  /** The pass over the segment elements of a line. */
  method ValidateSegmentElements(es: seq<LineElement>, errors: ErrorList)
    modifies errors`items
    ensures errors.items == old(errors.items) + Flatten(SegmentParts(es))
  {
    var k := 0;
    while k < |es|
      invariant 0 <= k <= |es|
      invariant errors.items == old(errors.items) + Flatten(SegmentParts(es[..k]))
    {
      if es[k].Segment? {
        ValidateSegmentElement(es[k].segment, errors);
      }
      SegmentPartsSnoc(es[..k], es[k]);
      AppendAssoc(old(errors.items), Flatten(SegmentParts(es[..k])), if es[k].Segment? then SegmentProblems(es[k].segment) else []);
      SliceSnoc(es, k + 1);
      k := k + 1;
    }
    assert es[..k] == es;
  }

  /** `validateLine`: the line's own checks, then one pass over its record elements and one
      over its segment elements; `orders` holds the option order of each record element. */
  method ValidateLine(line: LineConfig, errors: ErrorList) returns (ghost orders: seq<seq<string>>)
    modifies errors`items
    ensures ElementOrdersFit(line.elements, orders)
    ensures errors.items == old(errors.items) + LineProblems(line, orders)
  {
    ValidateLineHead(line, errors);
    ghost var head := errors.items;
    orders := ValidateRecordElements(line, errors);
    ghost var mid := errors.items;
    ValidateSegmentElements(line.elements, errors);
    AppendAssoc(old(errors.items), LineHeadProblems(line), Flatten(ElementParts(line.delimiter, line.elements, orders)));
    AppendAssoc(old(errors.items), LineHeadProblems(line) + Flatten(ElementParts(line.delimiter, line.elements, orders)),
      Flatten(SegmentParts(line.elements)));
  }

  method ValidateBean(bean: BeanFields, errors: ErrorList)
    modifies errors`items
    ensures errors.items == old(errors.items) + BeanProblems(bean)
  {
    if IsBlank(Some(bean.name)) {
      errors.Add(BeanNameMissing);
    }
    if IsBlank(Some(bean.beanClass)) {
      errors.Add(BeanClassMissing);
    }
  }

  /** The bean half of `validateRecordDefinition`; `order` is the order the map was visited in. */
  method ValidateBeans(beans: map<string, BeanFields>, errors: ErrorList) returns (ghost order: seq<string>)
    modifies errors`items
    ensures IsListing(order, beans.Keys)
    ensures errors.items == old(errors.items) + BeansPart(beans, order)
  {
    order := SomeListing(beans.Keys);
    if beans == map[] {
      errors.Add(BeansMissing);
      return;
    }
    var keys := beans.Keys;
    order := [];
    while keys != {}
      invariant PartialListing(order, keys, beans.Keys)
      invariant errors.items == old(errors.items) + Flatten(BeanParts(beans, order))
      decreases |keys|
    {
      var key :| key in keys;
      ValidateBean(beans[key], errors);
      BeanPartsSnoc(beans, order, key);
      AppendAssoc(old(errors.items), Flatten(BeanParts(beans, order)), BeanProblems(beans[key]));
      PartialListingStep(order, keys, beans.Keys, key);
      order, keys := order + [key], keys - {key};
    }
    PartialListingDone(order, keys, beans.Keys, []);
    assert order + [] == order;
  }

  /** The line half of `validateRecordDefinition`. */
  method ValidateLines(lines: seq<LineConfig>, identityLinesEmpty: bool, errors: ErrorList) returns (ghost orders: seq<seq<seq<string>>>)
    modifies errors`items
    ensures |orders| == |lines| && forall i :: 0 <= i < |lines| ==> ElementOrdersFit(lines[i].elements, orders[i])
    ensures errors.items == old(errors.items) + LinesPart(lines, identityLinesEmpty, orders)
  {
    orders := [];
    if lines == [] && identityLinesEmpty {
      errors.Add(LinesMissing);
      return;
    }
    var i := 0;
    while i < |lines|
      invariant 0 <= i <= |lines| && |orders| == i
      invariant forall j :: 0 <= j < i ==> ElementOrdersFit(lines[j].elements, orders[j])
      invariant errors.items == old(errors.items) + Flatten(LineParts(lines[..i], orders))
    {
      var o := ValidateLine(lines[i], errors);
      LinePartsSnoc(lines[..i], orders, lines[i], o);
      AppendAssoc(old(errors.items), Flatten(LineParts(lines[..i], orders)), LineProblems(lines[i], o));
      SliceSnoc(lines, i + 1);
      orders, i := orders + [o], i + 1;
    }
    assert lines[..i] == lines;
  }

  /** `validateRecordDefinition`, over what it reads of the definition: the bean map, the
      sequential lines and whether there are lines with identities. */
  method ValidateRecordDefinition(beans: map<string, BeanFields>, lines: seq<LineConfig>, identityLinesEmpty: bool, errors: ErrorList)
    returns (ghost order: RecordOrder)
    modifies errors`items
    ensures DefinitionOrderFits(beans, lines, order)
    ensures errors.items == old(errors.items) + DefinitionProblems(beans, lines, identityLinesEmpty, order)
  {
    var beanOrder := ValidateBeans(beans, errors);
    ghost var mid := errors.items;
    var lineOrders := ValidateLines(lines, identityLinesEmpty, errors);
    order := RecordOrder(beanOrder, lineOrders);
    AppendAssoc(old(errors.items), BeansPart(beans, beanOrder), LinesPart(lines, identityLinesEmpty, lineOrders));
  }

  /** `validateRecord`: what it reads of the record, checked as `CheckRecord` does. */
  method ValidateRecord(record: RecordBO, errors: ErrorList) returns (ghost shape: RecordShape, ghost order: RecordOrder)
    modifies errors`items
    ensures shape == old(ShapeOf(record)) && OrderFits(shape, order)
    ensures errors.items == old(errors.items) + RecordProblems(shape, order)
  {
    var s := ShapeOf(record);
    shape := s;
    order := CheckRecord(s, errors);
  }

  /** The body of `validateRecord`: the name, the identity, then the definition. */
  method CheckRecord(shape: RecordShape, errors: ErrorList) returns (ghost order: RecordOrder)
    modifies errors`items
    ensures OrderFits(shape, order)
    ensures errors.items == old(errors.items) + RecordProblems(shape, order)
  {
    if IsBlank(shape.name) {
      errors.Add(RecordNameMissing);
    }
    ghost var name := RecordNameProblems(shape.name);
    assert errors.items == old(errors.items) + name;
    ValidateIdentity(shape.identity, errors);
    ghost var id := IdentityProblems(shape.identity);
    order := ValidateRecordDefinition(shape.beans, shape.lines, shape.identityLinesEmpty, errors);
    ghost var definition := DefinitionProblems(shape.beans, shape.lines, shape.identityLinesEmpty, order);
    assert RecordProblems(shape, order) == name + id + definition;
    AppendAssoc(old(errors.items), name, id);
    AppendAssoc(old(errors.items), name + id, definition);
  }

  /** `validateConverter`: the class and the return type must load, and the method is looked up
      only on a class that loaded. */
  method ValidateConverter(c: ConversionHelpers.Converter, loadable: set<string>, hasMethod: (string, string) -> bool, errors: ErrorList)
    modifies errors`items
    ensures errors.items == old(errors.items) + ConverterProblems(c, loadable, hasMethod)
  {
    var loaded := false;
    if IsBlank(Some(c.name)) {
      errors.Add(ConverterNameMissing);
    }
    ghost var s1 := errors.items;
    assert s1 == old(errors.items) + ConverterNameProblems(c);
    if IsBlank(Some(c.converterClass)) {
      errors.Add(ConverterClassMissing);
    } else if c.converterClass in loadable {
      loaded := true;
    } else {
      errors.Add(ConverterClassNotFound(c.name, c.converterClass));
    }
    assert errors.items == s1 + ConverterClassProblems(c, loadable);
    ghost var s2 := errors.items;
    if IsBlank(Some(c.returnType)) {
      errors.Add(ReturnTypeMissing(c.name));
    } else if c.returnType !in loadable {
      errors.Add(ReturnTypeNotFound(c.returnType, c.name));
    }
    assert errors.items == s2 + ReturnTypeProblems(c, loadable);
    ghost var s3 := errors.items;
    if IsBlank(Some(c.methodName)) {
      errors.Add(MethodMissing(c.name));
    } else if loaded && !hasMethod(c.converterClass, c.methodName) {
      errors.Add(MethodNotFound(c.methodName, c.converterClass));
    }
    assert errors.items == s3 + MethodProblems(c, loadable, hasMethod);
    AppendAssoc4(old(errors.items), ConverterNameProblems(c), ConverterClassProblems(c, loadable), ReturnTypeProblems(c, loadable),
      MethodProblems(c, loadable, hasMethod));
  }

  /** `validateFileFormat`: a new list with every converter's messages, then every record's.
      The converters are those of the format's conversion helper, and `records` its records;
      what the checks read of each record is taken before the list is made. */
  method ValidateFileFormat(helper: ConversionHelpers.ConversionHelper, records: seq<RecordBO>,
                            loadable: set<string>, hasMethod: (string, string) -> bool)
    returns (errors: ErrorList, ghost converterOrder: seq<string>, ghost shapes: seq<RecordShape>, ghost orders: seq<RecordOrder>)
    ensures fresh(errors)
    ensures IsListing(converterOrder, helper.converters.Keys)
    ensures |shapes| == |records| == |orders|
    ensures forall i :: 0 <= i < |records| ==> shapes[i] == old(ShapeOf(records[i])) && OrderFits(shapes[i], orders[i])
    ensures errors.items == FileFormatProblems(helper.converters, converterOrder, loadable, hasMethod, shapes, orders)
  {
    var read := ReadShapes(records);
    errors, converterOrder, orders := Report(helper.converters, read, loadable, hasMethod);
    shapes := read;
  }

  /** The list `validateFileFormat` makes: every converter's messages, then every record's. */
  method Report(converters: map<string, ConversionHelpers.Converter>, shapes: seq<RecordShape>,
                loadable: set<string>, hasMethod: (string, string) -> bool)
    returns (errors: ErrorList, ghost converterOrder: seq<string>, ghost orders: seq<RecordOrder>)
    ensures fresh(errors)
    ensures IsListing(converterOrder, converters.Keys)
    ensures |orders| == |shapes| && forall i :: 0 <= i < |shapes| ==> OrderFits(shapes[i], orders[i])
    ensures errors.items == FileFormatProblems(converters, converterOrder, loadable, hasMethod, shapes, orders)
  {
    errors := new ErrorList();
    converterOrder := ValidateConverters(converters, loadable, hasMethod, errors);
    ghost var convertersPart := Flatten(ConverterParts(converters, converterOrder, loadable, hasMethod));
    assert errors.items == convertersPart;
    orders := CheckRecords(shapes, errors);
  }

  /** What the checks read of each record, taken one record after another. */
  method ReadShapes(records: seq<RecordBO>) returns (read: seq<RecordShape>)
    ensures |read| == |records| && forall j :: 0 <= j < |records| ==> read[j] == ShapeOf(records[j])
  {
    read := [];
    var i := 0;
    while i < |records|
      invariant 0 <= i <= |records| && |read| == i
      invariant forall j :: 0 <= j < i ==> read[j] == ShapeOf(records[j])
    {
      read, i := read + [ShapeOf(records[i])], i + 1;
    }
  }

  /** The converter pass of `validateFileFormat`, in the order the map was visited. */
  method ValidateConverters(converters: map<string, ConversionHelpers.Converter>, loadable: set<string>,
                            hasMethod: (string, string) -> bool, errors: ErrorList) returns (ghost order: seq<string>)
    modifies errors`items
    ensures IsListing(order, converters.Keys)
    ensures errors.items == old(errors.items) + Flatten(ConverterParts(converters, order, loadable, hasMethod))
  {
    var keys := converters.Keys;
    order := [];
    while keys != {}
      invariant PartialListing(order, keys, converters.Keys)
      invariant errors.items == old(errors.items) + Flatten(ConverterParts(converters, order, loadable, hasMethod))
      decreases |keys|
    {
      var key :| key in keys;
      ValidateConverter(converters[key], loadable, hasMethod, errors);
      ConverterPartsSnoc(converters, order, key, loadable, hasMethod);
      AppendAssoc(old(errors.items), Flatten(ConverterParts(converters, order, loadable, hasMethod)),
        ConverterProblems(converters[key], loadable, hasMethod));
      PartialListingStep(order, keys, converters.Keys, key);
      order, keys := order + [key], keys - {key};
    }
    PartialListingDone(order, keys, converters.Keys, []);
    assert order + [] == order;
  }

  /** The record pass of `validateFileFormat`. */
  method CheckRecords(shapes: seq<RecordShape>, errors: ErrorList) returns (ghost orders: seq<RecordOrder>)
    modifies errors`items
    ensures |orders| == |shapes| && forall j :: 0 <= j < |shapes| ==> OrderFits(shapes[j], orders[j])
    ensures errors.items == old(errors.items) + Flatten(RecordParts(shapes, orders))
  {
    orders := [];
    var i := 0;
    while i < |shapes|
      invariant 0 <= i <= |shapes| && |orders| == i
      invariant forall j :: 0 <= j < i ==> OrderFits(shapes[j], orders[j])
      invariant errors.items == old(errors.items) + Flatten(RecordParts(shapes[..i], orders))
    {
      var o := CheckRecord(shapes[i], errors);
      RecordPartsSnoc(shapes[..i], orders, shapes[i], o);
      AppendAssoc(old(errors.items), Flatten(RecordParts(shapes[..i], orders)), RecordProblems(shapes[i], o));
      SliceSnoc(shapes, i + 1);
      orders, i := orders + [o], i + 1;
    }
    assert shapes[..i] == shapes;
  }
}
