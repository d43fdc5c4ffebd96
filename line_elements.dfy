/** The line elements of the `config` generation: `CardinalityBO`, `RecordElementBO` and
    `SegmentElementBO`. Within a parse the configuration is read only, so the element tree is a
    value; `RecordElementBO` is also a class for the configuration readers that build it. */
module LineElements {
  import opened Wrappers
  import opened JavaText
  import JavaNumbers
  import opened LineTokens
  import opened Util
  import FieldIdentities

  datatype CardinalityMode = STRICT | RESTRICTED | LOOSE | SINGLE | AUTO_RESOLVE

  /** `CardinalityBO`: how a bean is attached to its parent. */
  datatype Cardinality = Cardinality(
    propertyName: Option<string>, beanRef: Option<string>, parentBeanRef: Option<string>, addMethod: Option<string>,
    minCount: Option<int>, maxCount: Option<int>, cardinalityMode: Option<CardinalityMode>)

  /** `new CardinalityBO()`: LOOSE, with the widest counts. */
  const DEFAULT_CARDINALITY := Cardinality(None, None, None, None, Some(JavaNumbers.INT_MIN), Some(JavaNumbers.INT_MAX), Some(LOOSE))

  /** The fields of a `RecordElementBO`. */
  datatype RecordElementValue = RecordElementValue(
    fieldEnd: Option<int>, fieldStart: Option<int>, fieldLength: Option<int>, cardinality: Option<Cardinality>,
    converterName: Option<string>, ignoreField: bool, order: Option<int>, conversionOptions: map<string, ConversionOption>)

  /** A `LineElement`: a record element, or a segment holding further elements; the parent line
      of an element is the line whose tree contains it. */
  datatype LineElement =
    | Record(element: RecordElementValue)
    | Segment(segment: SegmentElement)

  /** The fields of a `SegmentElementBO`. */
  datatype SegmentElement = SegmentElement(
    fieldIdentity: Option<FieldIdentities.FieldIdentityValue>, order: Option<int>, cardinality: Option<Cardinality>,
    elements: seq<LineElement>)

  function Order(e: LineElement): Option<int> {
    match e
    case Record(r) => r.order
    case Segment(s) => s.order
  }

  function WithOrder(e: LineElement, order: int): (r: LineElement)
    ensures Order(r) == Some(order)
    ensures r.Record? <==> e.Record?
  {
    match e
    case Record(r) => Record(r.(order := Some(order)))
    case Segment(s) => Segment(s.(order := Some(order)))
  }

  /** The bean reference of an element, read through its cardinality. */
  function BeanRef(c: Option<Cardinality>): Option<string> {
    if c.Some? then c.value.beanRef else None
  }

  /** `SegmentElementBO.matchesIdentity(LineToken)`: only the token text is compared, through
      the identity's string match (segments are positioned relatively); no identity, no match. */
  predicate SegmentMatches(seg: SegmentElement, t: TokenValue) {
    seg.fieldIdentity.Some? && FieldIdentities.StringMatches(seg.fieldIdentity.value, t.token)
  }

  /** A segment without a field identity matches no token; one with an identity matches exactly
      the tokens whose case-folded text is one of its matching strings. */
  lemma SegmentMatchRule(seg: SegmentElement, t: TokenValue)
    ensures seg.fieldIdentity.None? ==> !SegmentMatches(seg, t)
    ensures seg.fieldIdentity.Some? ==>
      (SegmentMatches(seg, t) <==> FieldIdentities.Folded(seg.fieldIdentity.value.ignoreCase, t.token) in seg.fieldIdentity.value.matchingStrings)
  {
  }

  /** The verdict depends on the token text alone, not on its column or raw length. */
  lemma SegmentMatchesTextOnly(seg: SegmentElement, t: TokenValue, u: TokenValue)
    requires t.token == u.token
    ensures SegmentMatches(seg, t) == SegmentMatches(seg, u)
  {
  }

  /** With a case-ignoring identity, tokens whose texts agree up to case get the same verdict. */
  lemma {:induction false} SegmentMatchesIgnoreCase(seg: SegmentElement, t: TokenValue, u: TokenValue)
    requires seg.fieldIdentity.Some? && seg.fieldIdentity.value.ignoreCase
    requires EqualsIgnoreCase(t.token, u.token)
    ensures SegmentMatches(seg, t) == SegmentMatches(seg, u)
  {
    EqualsIgnoreCaseLower(t.token, u.token);
  }

  /** `RecordElementBO`, as populated by the configuration readers. */
  class RecordElementBO {
    var fieldEnd: Option<int>
    var fieldStart: Option<int>
    var fieldLength: Option<int>
    var cardinality: Option<Cardinality>
    var converterName: Option<string>
    var ignoreField: bool
    var order: Option<int>
    var conversionOptions: map<string, ConversionOption>

    function View(): RecordElementValue
      reads this
    {
      RecordElementValue(fieldEnd, fieldStart, fieldLength, cardinality, converterName, ignoreField, order, conversionOptions)
    }

    /** `new RecordElementBO()`: no conversion options and not ignored; all else null. */
    constructor()
      ensures View() == RecordElementValue(None, None, None, None, None, false, None, map[])
    {
      fieldEnd, fieldStart, fieldLength := None, None, None;
      cardinality, converterName := None, None;
      ignoreField, order := false, None;
      conversionOptions := map[];
    }

    function IsFieldStartSet(): (r: bool)
      reads this
      ensures r <==> fieldStart.Some?
    {
      fieldStart.Some?
    }

    function IsFieldEndSet(): (r: bool)
      reads this
      ensures r <==> fieldEnd.Some?
    {
      fieldEnd.Some?
    }

    function IsFieldLengthSet(): (r: bool)
      reads this
      ensures r <==> fieldLength.Some?
    {
      fieldLength.Some?
    }

    method SetFieldStart(v: Option<int>)
      modifies this
      ensures View() == old(View()).(fieldStart := v)
    {
      fieldStart := v;
    }

    method SetFieldEnd(v: Option<int>)
      modifies this
      ensures View() == old(View()).(fieldEnd := v)
    {
      fieldEnd := v;
    }

    method SetFieldLength(v: Option<int>)
      modifies this
      ensures View() == old(View()).(fieldLength := v)
    {
      fieldLength := v;
    }

    method SetCardinality(c: Option<Cardinality>)
      modifies this
      ensures View() == old(View()).(cardinality := c)
    {
      cardinality := c;
    }

    method SetConverterName(name: Option<string>)
      modifies this
      ensures View() == old(View()).(converterName := name)
    {
      converterName := name;
    }

    /** `setIgnoreField(Boolean)`: null stores false. */
    method SetIgnoreField(v: Option<bool>)
      modifies this
      ensures View() == old(View()).(ignoreField := v.GetOr(false))
    {
      if v.Some? {
        ignoreField := v.value;
      } else {
        ignoreField := false;
      }
    }

    /** `addConversionOption`: keyed by name; an option of the same name is replaced and all
        others are kept. */
    method AddConversionOption(name: string, option: ConversionOption)
      modifies this
      ensures View() == old(View()).(conversionOptions := old(conversionOptions)[name := option])
      ensures name in conversionOptions && conversionOptions[name] == option
      ensures forall k :: k in old(conversionOptions) && k != name ==> k in conversionOptions && conversionOptions[k] == old(conversionOptions)[k]
    {
      conversionOptions := conversionOptions[name := option];
    }
  }
}
