/** `config.LineBO`: parsing one line of data into the beans of a record, by character
    positions for a fixed-width line and by tokens for a delimited one. */
module LineParsing {
  import opened Wrappers
  import opened JavaText
  import JavaNumbers
  import opened LineTokens
  import opened Util
  import opened Beans
  import opened LineElements
  import opened ParseUtils
  import opened Identities

  /** The conversion helper as the parse sees it: a record element and a field text give the
      value to store, or the conversion's failure. */
  type Convert = (RecordElementValue, string) -> Result<Value>

  /** The heap of bean objects and the map from bean name to the current object. */
  datatype BeanState = BeanState(heap: Heap, beans: map<string, nat>)

  predicate WfState(st: BeanState) {
    forall n :: n in st.beans ==> st.beans[n] < |st.heap|
  }

  /** `beans.get(name)`: null for a null or unknown name. */
  function Lookup(st: BeanState, name: Option<string>): (r: Option<nat>)
    ensures r.Some? <==> name.Some? && name.value in st.beans
    ensures WfState(st) ==> InHeap(st.heap, r)
  {
    if name.Some? && name.value in st.beans then Some(st.beans[name.value]) else None
  }

  function AsValue(id: Option<nat>): Value {
    if id.Some? then Ref(id.value) else Null
  }

  /** The cardinality an element's delegating getters read; without one every setting is null. */
  function CardinalityOf(c: Option<Cardinality>): Cardinality {
    c.GetOr(Cardinality(None, None, None, None, None, None, None))
  }

  /** Tree sizes, the measure the mutually recursive parse decreases. */
  function Size(e: LineElement): (n: nat)
    ensures n >= 1
    decreases e, 0
  {
    match e
    case Record(_) => 1
    case Segment(s) => 1 + SizeSeq(s.elements)
  }

  function SizeSeq(es: seq<LineElement>): nat
    decreases es, 1
  {
    if es == [] then 0 else SizeSeq(es[..|es| - 1]) + Size(es[|es| - 1])
  }

  /** The bean name and property of a bean reference, split at its last dot; without a dot the
      substring call throws. */
  function SplitBeanRef(beanRef: string): (r: Result<(string, string)>)
    ensures r.Err? <==> '.' !in beanRef
    ensures r.Err? ==> r.error == IndexOutOfBoundsException
    ensures r.Ok? ==> r.value.0 + ['.'] + r.value.1 == beanRef && '.' !in r.value.1
  {
    var dot := LastIndexOf(beanRef, '.');
    if dot < 0 then Err(IndexOutOfBoundsException)
    else
      assert beanRef == beanRef[..dot] + ['.'] + beanRef[dot + 1..];
      Ok((beanRef[..dot], beanRef[dot + 1..]))
  }

  /** A name with a dot-free last part splits back into its parts. */
  lemma SplitBeanRefJoin(beanName: string, property: string)
    requires '.' !in property
    ensures SplitBeanRef(beanName + ['.'] + property) == Ok((beanName, property))
  {
    var s := beanName + ['.'] + property;
    var dot := LastIndexOf(s, '.');
    assert s[|beanName|] == '.';
    assert s[|beanName| + 1..] == property;
    assert dot == |beanName|;
    assert s[..dot] == beanName;
  }

  /** `mapField`: the element's bean reference names a bean and a property; the converted text
      is handed to `mapBean` for that property. A null bean reference throws. */
  function MapField(convert: Convert, st: BeanState, e: RecordElementValue, fieldChars: string): (r: Result<BeanState>)
    requires WfState(st)
    ensures r.Ok? ==> WfState(r.value) && r.value.beans == st.beans && |r.value.heap| == |st.heap|
  {
    var beanRef := BeanRef(e.cardinality);
    if beanRef.None? then Err(NullPointerException)
    else
      var (beanName, property) :- SplitBeanRef(beanRef.value);
      var value :- convert(e, fieldChars);
      var heap :- MapBean(st.heap, Lookup(st, Some(beanName)), property, value, e.conversionOptions);
      Ok(st.(heap := heap))
  }

  /** Where a fixed-width field lies: it starts at its start if set, else at the cursor; it ends
      at start plus length when the length is set (an `int` sum), else at its end if set, else
      at the cursor; the cursor then moves to the end if either was set. */
  function FieldBounds(e: RecordElementValue, charPos: int): (b: (int, int, int))
    ensures b.0 == (if e.fieldStart.Some? then e.fieldStart.value else charPos)
    ensures b.1 == (if e.fieldLength.Some? then JavaNumbers.Int32(b.0 + e.fieldLength.value)
                    else if e.fieldEnd.Some? then e.fieldEnd.value else charPos)
    ensures b.2 == (if e.fieldLength.Some? || e.fieldEnd.Some? then b.1 else charPos)
  {
    var start := if e.fieldStart.Some? then e.fieldStart.value else charPos;
    var end := charPos;
    var pos := charPos;
    var (end, pos) := if e.fieldEnd.Some? then (e.fieldEnd.value, e.fieldEnd.value) else (end, pos);
    var (end, pos) := if e.fieldLength.Some? then
        (JavaNumbers.Int32(start + e.fieldLength.value), JavaNumbers.Int32(start + e.fieldLength.value))
      else (end, pos);
    (start, end, pos)
  }

  /** `captureSegmentBean`: the segment's bean becomes its parent's property in SINGLE mode and
      joins the parent's collection otherwise. */
  function CaptureSegmentBean(st: BeanState, seg: SegmentElement): (r: Result<BeanState>)
    requires WfState(st)
    ensures r.Ok? ==> WfState(r.value) && r.value.beans == st.beans
  {
    var c := CardinalityOf(seg.cardinality);
    var parent := Lookup(st, c.parentBeanRef);
    var toAdd := AsValue(Lookup(st, c.beanRef));
    var heap :- if c.cardinalityMode == Some(SINGLE) then SetProperty(st.heap, parent, c.propertyName, toAdd)
                else AddValueToCollection(st.heap, c, parent, toAdd);
    Ok(st.(heap := heap))
  }

  /** The fixed-width walk over a list of elements, the cursor threading from one to the next. */
  function ParseFixed(convert: Convert, st: BeanState, line: Option<string>, es: seq<LineElement>, charPos: int): (r: Result<(BeanState, int)>)
    requires WfState(st)
    ensures r.Ok? ==> WfState(r.value.0) && r.value.0.beans == st.beans
    decreases SizeSeq(es), 1
  {
    if es == [] then Ok((st, charPos))
    else
      var (st0, pos0) :- ParseFixed(convert, st, line, es[..|es| - 1], charPos);
      FixedStep(convert, st0, line, es[|es| - 1], pos0)
  }

  /** One fixed-width element. A record element past the end of the line is a parser error, and
      a null line throws; one without a bean reference only moves the cursor. A segment is walked
      with the same cursor and its bean is then captured. */
  function FixedStep(convert: Convert, st: BeanState, line: Option<string>, e: LineElement, charPos: int): (r: Result<(BeanState, int)>)
    requires WfState(st)
    ensures r.Ok? ==> WfState(r.value.0) && r.value.0.beans == st.beans
    decreases Size(e), 0
  {
    match e
    case Record(re) =>
      var (start, end, next) := FieldBounds(re, charPos);
      if line.None? then Err(NullPointerException)
      else if end > |line.value| then Err(FlatwormParserException)
      else if BeanRef(re.cardinality).None? then Ok((st, next))
      else if !(0 <= start <= end) then Err(IndexOutOfBoundsException)
      else
        var st1 :- MapField(convert, st, re, line.value[start..end]);
        Ok((st1, next))
    case Segment(seg) =>
      var (st1, pos1) :- ParseFixed(convert, st, line, seg.elements, charPos);
      var st2 :- CaptureSegmentBean(st1, seg);
      Ok((st2, pos1))
  }

  /** `parseInputDelimited`'s split character: a two-character delimiter starting with a
      backslash names \t, \n, \r, \f or \\; any other delimiter splits on its first
      character. */
  function DelimiterChar(delimiter: string): (c: char)
    requires |delimiter| > 0
    ensures |delimiter| == 2 && delimiter[0] == '\\' ==>
      c == (match delimiter[1]
            case 't' => '\t'
            case 'n' => '\n'
            case 'r' => '\r'
            case 'f' => '\U{000C}'
            case '\\' => '\\'
            case _ => '\\')
    ensures !(|delimiter| == 2 && delimiter[0] == '\\') ==> c == delimiter[0]
  {
    var split := delimiter[0];
    if |delimiter| == 2 && delimiter[0] == '\\' then
      match delimiter[1]
      case 't' => '\t'
      case 'n' => '\n'
      case 'r' => '\r'
      case 'f' => '\U{000C}'
      case '\\' => '\\'
      case _ => split
    else split
  }

  /** `cleanupLineTokens`: the tokens the record's identity does not claim, in their order. */
  function Kept(tokens: seq<TokenValue>, recordIdentity: Option<Identity>): (r: seq<TokenValue>)
    ensures |r| <= |tokens|
  {
    if tokens == [] then []
    else
      var rest := Kept(tokens[..|tokens| - 1], recordIdentity);
      var t := tokens[|tokens| - 1];
      if ClaimedByRecord(recordIdentity, t) then rest else rest + [t]
  }

  /** `matchesIdentifier` of the parent record: a null identity claims nothing. */
  predicate ClaimedByRecord(recordIdentity: Option<Identity>, t: TokenValue) {
    recordIdentity.Some? && MatchesToken(recordIdentity.value, t)
  }

  /** How a record element that finds no token left is handled. */
  datatype RunOut =
    | /** The `catch` around the element is for an exception `ArrayList.get` never throws: the
          `IndexOutOfBoundsException` escapes. */ Throws
    | /** The evidently intended handling: the element is skipped (and logged) without
          consuming a token. */ Skipped

  /** `doParseDelimitedInput` over a list of elements, the token cursor threading through. */
  function DoParse(convert: Convert, classes: ClassTable, runOut: RunOut, tokens: seq<TokenValue>,
                   st: BeanState, es: seq<LineElement>, pos: nat): (r: Result<(BeanState, nat)>)
    requires WfState(st) && pos <= |tokens|
    ensures r.Ok? ==> WfState(r.value.0) && pos <= r.value.1 <= |tokens|
    decreases SizeSeq(es), 2, 0
  {
    if es == [] then Ok((st, pos))
    else
      var (st0, pos0) :- DoParse(convert, classes, runOut, tokens, st, es[..|es| - 1], pos);
      DelimitedStep(convert, classes, runOut, tokens, st0, es[|es| - 1], pos0)
  }

  /** One delimited element: a record element takes the next token, mapping it unless the
      element is ignored; a segment runs its repetition loop. */
  function DelimitedStep(convert: Convert, classes: ClassTable, runOut: RunOut, tokens: seq<TokenValue>,
                         st: BeanState, e: LineElement, pos: nat): (r: Result<(BeanState, nat)>)
    requires WfState(st) && pos <= |tokens|
    ensures r.Ok? ==> WfState(r.value.0) && pos <= r.value.1 <= |tokens|
    decreases Size(e), 1, 0
  {
    match e
    case Record(re) =>
      if pos >= |tokens| then
        (if runOut == Throws then Err(IndexOutOfBoundsException) else Ok((st, pos)))
      else if re.ignoreField then Ok((st, pos + 1))
      else
        var st1 :- MapField(convert, st, re, tokens[pos].token);
        Ok((st1, pos + 1))
    case Segment(seg) =>
      var c := CardinalityOf(seg.cardinality);
      if c.minCount.None? || c.maxCount.None? then Err(NullPointerException)
      else SegmentLoop(convert, classes, runOut, tokens, seg, MaxInstances(c.maxCount.value), st, pos, 0)
  }

  /** A maximum of zero or less means no maximum. */
  function MaxInstances(maxCount: int): (m: int)
    ensures maxCount <= 0 ==> m == JavaNumbers.INT_MAX
    ensures maxCount > 0 ==> m == maxCount
  {
    if maxCount <= 0 then JavaNumbers.INT_MAX else maxCount
  }

  /** `parseDelimitedSegmentElement`'s loop: while the next token is the segment's identifier it
      is consumed, and (when the segment names a bean) a new instance is attached to the parent
      and the segment's elements are parsed into it. `count` is the number of instances so far. */
  function SegmentLoop(convert: Convert, classes: ClassTable, runOut: RunOut, tokens: seq<TokenValue>,
                       seg: SegmentElement, maxCount: int, st: BeanState, pos: nat, count: int): (r: Result<(BeanState, nat)>)
    requires WfState(st) && pos <= |tokens|
    ensures r.Ok? ==> WfState(r.value.0) && pos <= r.value.1 <= |tokens|
    decreases Size(Segment(seg)), 0, |tokens| - pos
  {
    if !(pos < |tokens| && SegmentMatches(seg, tokens[pos])) then Ok((st, pos))
    else
      var c := CardinalityOf(seg.cardinality);
      if c.beanRef.None? then SegmentLoop(convert, classes, runOut, tokens, seg, maxCount, st, pos + 1, count)
      else
        var st1 :- if c.parentBeanRef.None? then Ok(st) else NewSegmentInstance(classes, st, c, maxCount, count + 1);
        var (st2, pos2) :- DoParse(convert, classes, runOut, tokens, st1, seg.elements, pos + 1);
        SegmentLoop(convert, classes, runOut, tokens, seg, maxCount, st2, pos2, count + 1)
  }

  /** A new instance of the segment's bean replaces the current one and is attached to the
      parent: as its property in SINGLE mode, otherwise added to its collection unless the
      instance count is past the maximum, where STRICT fails and RESTRICTED drops it. */
  function NewSegmentInstance(classes: ClassTable, st: BeanState, c: Cardinality, maxCount: int, count: int): (r: Result<BeanState>)
    requires WfState(st) && c.beanRef.Some?
    ensures r.Ok? ==> WfState(r.value)
  {
    var (heap1, id) :- NewBeanInstance(st.heap, classes, Lookup(st, c.beanRef));
    var st1 := BeanState(heap1, st.beans[c.beanRef.value := id]);
    var parent := Lookup(st1, c.parentBeanRef);
    var heap2 :-
      if c.cardinalityMode != Some(SINGLE) then
        if count > maxCount then
          if c.cardinalityMode == Some(STRICT) then Err(FlatwormParserException)
          else if c.cardinalityMode != Some(RESTRICTED) then AddValueToCollection(heap1, c, parent, Ref(id))
          else Ok(heap1)
        else AddValueToCollection(heap1, c, parent, Ref(id))
      else SetProperty(heap1, parent, c.propertyName, Ref(id));
    Ok(BeanState(heap2, st1.beans))
  }

  /** The configuration of a line: its element tree, delimiter and quote character, and the
      settings it inherits from its base class. */
  datatype LineConfig = LineConfig(
    elements: seq<LineElement>, delimiter: Option<string>, quoteChar: char, lineIdentity: Option<Identity>,
    index: int, recordEndLine: Option<bool>, cardinality: Option<Cardinality>, propertyLine: bool)

  /** `isDelimited`: the delimiter is not blank. */
  predicate IsDelimited(delimiter: Option<string>) {
    !IsBlank(delimiter)
  }

  /** The tokens a delimited line is parsed from. */
  function LineTokensOf(inputLine: string, delimiter: string, quoteChar: char, recordIdentity: Option<Identity>): seq<TokenValue>
    requires |delimiter| > 0
  {
    Kept(Tokens(inputLine, DelimiterChar(delimiter), quoteChar), recordIdentity)
  }

  /** `parseInput(inputLine, beans, conversionHelper)`: a delimited line is split, cleaned of the
      record's identifier tokens and parsed token by token, except that a null or empty line is
      not parsed at all; any other line is parsed by character positions from column 0. */
  function ParseLine(convert: Convert, classes: ClassTable, runOut: RunOut, line: LineConfig,
                      inputLine: Option<string>, st: BeanState, recordIdentity: Option<Identity>): (r: Result<BeanState>)
    requires WfState(st)
    ensures r.Ok? ==> WfState(r.value)
  {
    if IsDelimited(line.delimiter) then
      if inputLine.None? || inputLine.value == "" then Ok(st)
      else
        var tokens := LineTokensOf(inputLine.value, line.delimiter.value, line.quoteChar, recordIdentity);
        var (st1, _) :- DoParse(convert, classes, runOut, tokens, st, line.elements, 0);
        Ok(st1)
    else
      var (st1, _) :- ParseFixed(convert, st, inputLine, line.elements, 0);
      Ok(st1)
  }

  class LineBO {
    var elements: seq<LineElement>
    var delimiter: Option<string>
    var quoteChar: char
    var lineIdentity: Option<Identity>
    var index: int
    var recordEndLine: Option<bool>
    var cardinality: Option<Cardinality>
    var propertyLine: bool
    // The record definition the line was added to.
    var parentDefinition: object?

    // The state of one parse: the collaborators, the tokens and the token cursor, and the beans.
    var convert: Convert
    var classes: ClassTable
    var lineTokens: seq<TokenValue>
    var currentField: nat
    var state: BeanState

    function Config(): LineConfig
      reads this
    {
      LineConfig(elements, delimiter, quoteChar, lineIdentity, index, recordEndLine, cardinality, propertyLine)
    }

    /** `new LineBO()`: no elements, no delimiter, the quote character '\0', and the base
        class's unset index -1. */
    constructor(convert: Convert)
      ensures Config() == LineConfig([], None, '\0', None, -1, None, None, false) && parentDefinition == null
    {
      elements, delimiter, quoteChar := [], None, '\0';
      lineIdentity, index, recordEndLine, cardinality, propertyLine := None, -1, None, None, false;
      parentDefinition := null;
      this.convert := convert;
      classes := map[];
      lineTokens, currentField := [], 0;
      state := BeanState([], map[]);
    }

    /** `setQuoteChar(String)`: only the first character counts, a null string changes nothing
        and an empty one throws. */
    method SetQuoteChar(quote: Option<string>) returns (r: Result<()>)
      modifies this
      ensures quote.Some? && quote.value == "" <==> r.Err?
      ensures r.Err? ==> r.error == IndexOutOfBoundsException && Config() == old(Config())
      ensures r.Ok? ==> Config() == old(Config()).(quoteChar := if quote.Some? then quote.value[0] else old(quoteChar))
    {
      if quote.Some? {
        if quote.value == "" {
          return Err(IndexOutOfBoundsException);
        }
        quoteChar := quote.value[0];
      }
      return Ok(());
    }

    function IsDelimitedLine(): (r: bool)
      reads this
      ensures r <==> IsDelimited(delimiter)
    {
      !IsBlank(delimiter)
    }

    /** `addLineElement`: an element without an order is numbered one past the current element
        count; an explicit order is kept. */
    method AddLineElement(e: LineElement)
      modifies this
      ensures Config() == old(Config()).(elements := old(elements) + [if Order(e).None? then WithOrder(e, |old(elements)| + 1) else e])
    {
      var element := e;
      if Order(e).None? {
        element := WithOrder(e, |elements| + 1);
      }
      elements := elements + [element];
    }

    /** `parseInput(inputLine, beans, conversionHelper)`; the scriptlets around it are not modelled. */
    method ParseInput(inputLine: Option<string>, beans: BeanState, conversionHelper: Convert, classTable: ClassTable,
                      recordIdentity: Option<Identity>) returns (r: Result<BeanState>)
      modifies this
      requires WfState(beans)
      ensures Config() == old(Config())
      ensures r == ParseLine(conversionHelper, classTable, Skipped, Config(), inputLine, beans, recordIdentity)
    {
      convert, classes, state := conversionHelper, classTable, beans;
      if IsDelimitedLine() {
        if inputLine.Some? && inputLine.value != "" {
          var p := ParseInputDelimited(inputLine.value, recordIdentity);
          if p.Err? {
            return Err(p.error);
          }
        }
      } else {
        var p := ParseFixedElements(inputLine, elements, 0);
        if p.Err? {
          return Err(p.error);
        }
      }
      return Ok(state);
    }

    /** `parseInput(inputLine, lineElements, charPos)`: the fixed-width walk. */
    method ParseFixedElements(inputLine: Option<string>, es: seq<LineElement>, charPos0: int) returns (r: Result<int>)
      modifies this
      requires WfState(state)
      ensures Config() == old(Config()) && convert == old(convert) && classes == old(classes)
      ensures match ParseFixed(convert, old(state), inputLine, es, charPos0)
        case Ok((st, pos)) => r == Ok(pos) && state == st
        case Err(e) => r == Err(e)
      decreases SizeSeq(es), 1
    {
      var charPos := charPos0;
      var i := 0;
      while i < |es|
        invariant 0 <= i <= |es|
        invariant Config() == old(Config()) && convert == old(convert) && classes == old(classes)
        invariant WfState(state)
        invariant ParseFixed(convert, old(state), inputLine, es[..i], charPos0) == Ok((state, charPos))
      {
        ghost var before := state;
        assert es[..i + 1][..i] == es[..i];
        var step := FixedElement(inputLine, es, i, charPos);
        if step.Err? {
          ParseFixedStops(convert, old(state), inputLine, es, i + 1, charPos0);
          return Err(step.error);
        }
        charPos := step.value;
        i := i + 1;
      }
      assert es[..i] == es;
      return Ok(charPos);
    }

    /** The body of the fixed-width loop for element `i`. */
    method FixedElement(inputLine: Option<string>, es: seq<LineElement>, i: nat, charPos: int) returns (r: Result<int>)
      modifies this
      requires i < |es| && WfState(state)
      ensures Config() == old(Config()) && convert == old(convert) && classes == old(classes)
      ensures match FixedStep(convert, old(state), inputLine, es[i], charPos)
        case Ok((st, pos)) => r == Ok(pos) && state == st
        case Err(e) => r == Err(e)
      decreases SizeSeq(es), 0
    {
      SizeBelow(es, i);
      match es[i]
      case Record(recordElement) =>
        var (start, end, next) := FieldBounds(recordElement, charPos);
        if inputLine.None? {
          return Err(NullPointerException);
        }
        if end > |inputLine.value| {
          return Err(FlatwormParserException);
        }
        if BeanRef(recordElement.cardinality).Some? {
          if !(0 <= start <= end) {
            return Err(IndexOutOfBoundsException);
          }
          var mapped := MapField(convert, state, recordElement, inputLine.value[start..end]);
          if mapped.Err? {
            return Err(mapped.error);
          }
          state := mapped.value;
        }
        return Ok(next);
      case Segment(segmentElement) =>
        var p := ParseFixedElements(inputLine, segmentElement.elements, charPos);
        if p.Err? {
          return Err(p.error);
        }
        var captured := CaptureSegmentBean(state, segmentElement);
        if captured.Err? {
          return Err(captured.error);
        }
        state := captured.value;
        return Ok(p.value);
    }

    /** `parseInputDelimited`: split on the decoded delimiter, drop the record's identifier
        tokens and parse from the first token. */
    method ParseInputDelimited(inputLine: string, recordIdentity: Option<Identity>) returns (r: Result<()>)
      modifies this
      requires IsDelimited(delimiter) && WfState(state)
      ensures Config() == old(Config()) && convert == old(convert) && classes == old(classes)
      ensures lineTokens == LineTokensOf(inputLine, delimiter.value, quoteChar, recordIdentity)
      ensures match DoParse(convert, classes, Skipped, lineTokens, old(state), elements, 0)
        case Ok((st, pos)) => r == Ok(()) && state == st && currentField == pos
        case Err(e) => r == Err(e)
    {
      var split := DelimiterChar(delimiter.value);
      var tokens := Split(inputLine, split, quoteChar);
      var values := TokenValues(tokens);
      assert values == Tokens(inputLine, split, quoteChar);
      lineTokens := values;
      CleanupLineTokens(recordIdentity);
      currentField := 0;
      r := DoParseDelimitedInput(elements);
    }

    /** `cleanupLineTokens`: every token the record's identity claims is removed, the others
        are kept in order. */
    method CleanupLineTokens(recordIdentity: Option<Identity>)
      modifies this
      ensures Config() == old(Config()) && convert == old(convert) && classes == old(classes) && state == old(state)
      ensures lineTokens == Kept(old(lineTokens), recordIdentity)
    {
      var remaining: seq<TokenValue> := [];
      var i := 0;
      while i < |lineTokens|
        invariant 0 <= i <= |lineTokens|
        invariant remaining == Kept(lineTokens[..i], recordIdentity)
      {
        assert lineTokens[..i + 1][..i] == lineTokens[..i];
        if !ClaimedByRecord(recordIdentity, lineTokens[i]) {
          remaining := remaining + [lineTokens[i]];
        }
        i := i + 1;
      }
      assert lineTokens[..i] == lineTokens;
      lineTokens := remaining;
    }

    /** `doParseDelimitedInput`, with a record element that finds no token left skipped. */
    method DoParseDelimitedInput(es: seq<LineElement>) returns (r: Result<()>)
      modifies this
      requires WfState(state) && currentField <= |lineTokens|
      ensures Config() == old(Config()) && convert == old(convert) && classes == old(classes) && lineTokens == old(lineTokens)
      ensures match DoParse(convert, classes, Skipped, lineTokens, old(state), es, old(currentField))
        case Ok((st, pos)) => r == Ok(()) && state == st && currentField == pos
        case Err(e) => r == Err(e)
      decreases SizeSeq(es), 2
    {
      var i := 0;
      while i < |es|
        invariant 0 <= i <= |es|
        invariant Config() == old(Config()) && convert == old(convert) && classes == old(classes) && lineTokens == old(lineTokens)
        invariant WfState(state) && currentField <= |lineTokens|
        invariant DoParse(convert, classes, Skipped, lineTokens, old(state), es[..i], old(currentField)) == Ok((state, currentField))
      {
        assert es[..i + 1][..i] == es[..i];
        var step := DelimitedElement(es, i);
        if step.Err? {
          DoParseStops(convert, classes, Skipped, lineTokens, old(state), es, i + 1, old(currentField));
          return Err(step.error);
        }
        i := i + 1;
      }
      assert es[..i] == es;
      return Ok(());
    }

    /** The body of the delimited loop for element `i`: a record element takes the current
        token, when there is one; a segment repeats. */
    method DelimitedElement(es: seq<LineElement>, i: nat) returns (r: Result<()>)
      modifies this
      requires i < |es| && WfState(state) && currentField <= |lineTokens|
      ensures Config() == old(Config()) && convert == old(convert) && classes == old(classes) && lineTokens == old(lineTokens)
      ensures match DelimitedStep(convert, classes, Skipped, lineTokens, old(state), es[i], old(currentField))
        case Ok((st, pos)) => r == Ok(()) && state == st && currentField == pos
        case Err(e) => r == Err(e)
      decreases SizeSeq(es), 1
    {
      SizeBelow(es, i);
      match es[i] {
        case Record(recordElement) =>
          if currentField < |lineTokens| {
            if !recordElement.ignoreField {
              var mapped := MapField(convert, state, recordElement, lineTokens[currentField].token);
              if mapped.Err? {
                return Err(mapped.error);
              }
              state := mapped.value;
            }
            currentField := currentField + 1;
          }
        case Segment(segmentElement) =>
          r := ParseDelimitedSegmentElement(segmentElement);
          return r;
      }
      return Ok(());
    }

    /** `parseDelimitedSegmentElement`: the repetition loop of a segment. The count check in its
        `finally` block and the minimum-count check only log. */
    method ParseDelimitedSegmentElement(segment: SegmentElement) returns (r: Result<()>)
      modifies this
      requires WfState(state) && currentField <= |lineTokens|
      ensures Config() == old(Config()) && convert == old(convert) && classes == old(classes) && lineTokens == old(lineTokens)
      ensures match DelimitedStep(convert, classes, Skipped, lineTokens, old(state), Segment(segment), old(currentField))
        case Ok((st, pos)) => r == Ok(()) && state == st && currentField == pos
        case Err(e) => r == Err(e)
      decreases Size(Segment(segment)), 0
    {
      var c := CardinalityOf(segment.cardinality);
      if c.minCount.None? || c.maxCount.None? {
        return Err(NullPointerException);
      }
      var maxCount := c.maxCount.value;
      if maxCount <= 0 {
        maxCount := JavaNumbers.INT_MAX;
      }
      var cardinality := 0;
      while currentField < |lineTokens| && SegmentMatches(segment, lineTokens[currentField])
        invariant Config() == old(Config()) && convert == old(convert) && classes == old(classes) && lineTokens == old(lineTokens)
        invariant WfState(state) && currentField <= |lineTokens|
        invariant SegmentLoop(convert, classes, Skipped, lineTokens, segment, maxCount, old(state), old(currentField), 0)
               == SegmentLoop(convert, classes, Skipped, lineTokens, segment, maxCount, state, currentField, cardinality)
        decreases |lineTokens| - currentField
      {
        currentField := currentField + 1;
        if c.beanRef.Some? {
          cardinality := cardinality + 1;
          if c.parentBeanRef.Some? {
            var instance := NewInstance(c, maxCount, cardinality);
            if instance.Err? {
              return Err(instance.error);
            }
          }
          var p := DoParseDelimitedInput(segment.elements);
          if p.Err? {
            return Err(p.error);
          }
        }
      }
      return Ok(());
    }

    /** The instance step of the segment loop: a new bean replaces the segment's bean and is
        attached to its parent according to the cardinality mode and the instance count. */
    method NewInstance(c: Cardinality, maxCount: int, cardinality: int) returns (r: Result<()>)
      modifies this
      requires WfState(state) && c.beanRef.Some?
      ensures Config() == old(Config()) && convert == old(convert) && classes == old(classes) && lineTokens == old(lineTokens)
      ensures currentField == old(currentField)
      ensures match NewSegmentInstance(classes, old(state), c, maxCount, cardinality)
        case Ok(st) => r == Ok(()) && state == st
        case Err(e) => r == Err(e)
    {
      var created := NewBeanInstance(state.heap, classes, Lookup(state, c.beanRef));
      if created.Err? {
        return Err(created.error);
      }
      var (heap, instance) := created.value;
      state := BeanState(heap, state.beans[c.beanRef.value := instance]);
      var parent := Lookup(state, c.parentBeanRef);
      if c.cardinalityMode != Some(SINGLE) {
        if cardinality > maxCount {
          if c.cardinalityMode == Some(STRICT) {
            return Err(FlatwormParserException);
          } else if c.cardinalityMode != Some(RESTRICTED) {
            var added := AddValueToCollection(heap, c, parent, Ref(instance));
            if added.Err? {
              return Err(added.error);
            }
            state := state.(heap := added.value);
          }
        } else {
          var added := AddValueToCollection(heap, c, parent, Ref(instance));
          if added.Err? {
            return Err(added.error);
          }
          state := state.(heap := added.value);
        }
      } else {
        var stored := SetProperty(heap, parent, c.propertyName, Ref(instance));
        if stored.Err? {
          return Err(stored.error);
        }
        state := state.(heap := stored.value);
      }
      return Ok(());
    }
  }

  /** The values of a list of tokens. */
  method TokenValues(tokens: seq<LineToken>) returns (values: seq<TokenValue>)
    ensures |values| == |tokens| && forall j :: 0 <= j < |tokens| ==> values[j] == tokens[j].View()
  {
    values := [];
    for k := 0 to |tokens|
      invariant |values| == k && forall j :: 0 <= j < k ==> values[j] == tokens[j].View()
    {
      values := values + [tokens[k].View()];
    }
  }

  lemma {:induction false} SizeBelow(es: seq<LineElement>, i: nat)
    requires i < |es|
    ensures Size(es[i]) <= SizeSeq(es)
    decreases |es|
  {
    if i < |es| - 1 {
      assert es[..|es| - 1][i] == es[i];
      SizeBelow(es[..|es| - 1], i);
    }
  }

  /** A failure at element `k - 1` is the failure of the whole fixed-width walk. */
  lemma {:induction false} ParseFixedStops(convert: Convert, st: BeanState, line: Option<string>, es: seq<LineElement>, k: nat, charPos: int)
    requires WfState(st) && 0 < k <= |es|
    requires ParseFixed(convert, st, line, es[..k], charPos).Err?
    ensures ParseFixed(convert, st, line, es, charPos) == ParseFixed(convert, st, line, es[..k], charPos)
    decreases |es| - k
  {
    if k < |es| {
      assert es[..k + 1][..k] == es[..k];
      ParseFixedStops(convert, st, line, es, k + 1, charPos);
    } else {
      assert es[..k] == es;
    }
  }

  /** A failure at element `k - 1` is the failure of the whole delimited walk. */
  lemma {:induction false} DoParseStops(convert: Convert, classes: ClassTable, runOut: RunOut, tokens: seq<TokenValue>,
                                        st: BeanState, es: seq<LineElement>, k: nat, pos: nat)
    requires WfState(st) && pos <= |tokens| && 0 < k <= |es|
    requires DoParse(convert, classes, runOut, tokens, st, es[..k], pos).Err?
    ensures DoParse(convert, classes, runOut, tokens, st, es, pos) == DoParse(convert, classes, runOut, tokens, st, es[..k], pos)
    decreases |es| - k
  {
    if k < |es| {
      assert es[..k + 1][..k] == es[..k];
      DoParseStops(convert, classes, runOut, tokens, st, es, k + 1, pos);
    } else {
      assert es[..k] == es;
    }
  }

  // ---------------------------------------------------------------------------------------
  // Properties of the line parse.

  /** A delimited line that is null or empty is not parsed: the beans are untouched. */
  lemma EmptyDelimitedLine(convert: Convert, classes: ClassTable, runOut: RunOut, line: LineConfig,
                           inputLine: Option<string>, st: BeanState, recordIdentity: Option<Identity>)
    requires WfState(st) && IsDelimited(line.delimiter)
    requires inputLine.None? || inputLine.value == ""
    ensures ParseLine(convert, classes, runOut, line, inputLine, st, recordIdentity) == Ok(st)
  {
  }

  /** The tokens kept are exactly those the record's identity does not claim. */
  lemma {:induction false} KeptMembers(tokens: seq<TokenValue>, recordIdentity: Option<Identity>)
    ensures forall t :: t in Kept(tokens, recordIdentity) <==> t in tokens && !ClaimedByRecord(recordIdentity, t)
    decreases |tokens|
  {
    if tokens != [] {
      var prefix := tokens[..|tokens| - 1];
      assert tokens == prefix + [tokens[|tokens| - 1]];
      KeptMembers(prefix, recordIdentity);
    }
  }

  /** A record without a token identity (none at all, or a length or script identity) claims no
      token: the token list is kept whole and in order. */
  lemma {:induction false} NothingClaimed(tokens: seq<TokenValue>, recordIdentity: Option<Identity>)
    requires recordIdentity.None? || !IsLineTokenIdentity(recordIdentity.value)
    ensures Kept(tokens, recordIdentity) == tokens
    decreases |tokens|
  {
    if tokens != [] {
      var prefix := tokens[..|tokens| - 1];
      assert tokens == prefix + [tokens[|tokens| - 1]];
      NothingClaimed(prefix, recordIdentity);
    }
  }

  /** A record element with a token left takes exactly that one token, whether it is ignored or
      mapped; an ignored element leaves the beans alone. */
  lemma RecordTakesOneToken(convert: Convert, classes: ClassTable, runOut: RunOut, tokens: seq<TokenValue>,
                            st: BeanState, e: RecordElementValue, pos: nat)
    requires WfState(st) && pos < |tokens|
    ensures var r := DelimitedStep(convert, classes, runOut, tokens, st, Record(e), pos);
      (r.Ok? ==> r.value.1 == pos + 1) &&
      (e.ignoreField ==> r == Ok((st, pos + 1))) &&
      (!e.ignoreField ==> (r.Ok? <==> MapField(convert, st, e, tokens[pos].token).Ok?))
  {
  }

  predicate IgnoredRecords(es: seq<LineElement>) {
    forall i :: 0 <= i < |es| ==> es[i].Record? && es[i].element.ignoreField
  }

  function Min(a: int, b: int): int {
    if a <= b then a else b
  }

  /** A run of ignored record elements consumes one token each. Skipping an element that finds
      no token stops the consumption at the end of the tokens; as written, such an element
      throws `IndexOutOfBoundsException` out of the parse. */
  lemma {:induction false} IgnoredRecordsConsume(convert: Convert, classes: ClassTable, tokens: seq<TokenValue>,
                                                 st: BeanState, es: seq<LineElement>, pos: nat)
    requires WfState(st) && pos <= |tokens| && IgnoredRecords(es)
    ensures DoParse(convert, classes, Skipped, tokens, st, es, pos) == Ok((st, Min(pos + |es|, |tokens|)))
    ensures DoParse(convert, classes, Throws, tokens, st, es, pos) ==
      if pos + |es| <= |tokens| then Ok((st, pos + |es|)) else Err(IndexOutOfBoundsException)
    decreases |es|
  {
    if es != [] {
      var prefix := es[..|es| - 1];
      assert IgnoredRecords(prefix) by {
        forall i | 0 <= i < |prefix| ensures prefix[i].Record? && prefix[i].element.ignoreField {
          assert prefix[i] == es[i];
        }
      }
      IgnoredRecordsConsume(convert, classes, tokens, st, prefix, pos);
    }
  }

  /** The ignored record element used in the run-out example below. */
  const IGNORED_FIELD: LineElement := Record(RecordElementValue(None, None, None, None, None, true, None, map[]))

  /** One token and two record elements: as written the second element's `lineTokens.get`
      ends the parse with `IndexOutOfBoundsException`, which its `catch` for
      `ArrayIndexOutOfBoundsException` does not stop; with the run-out skipped the line parses
      and one token is consumed. */
  lemma RunOutExample(convert: Convert, classes: ClassTable, st: BeanState)
    requires WfState(st)
    ensures DoParse(convert, classes, Throws, [TokenValue("a", 1, 0)], st, [IGNORED_FIELD, IGNORED_FIELD], 0) == Err(IndexOutOfBoundsException)
    ensures DoParse(convert, classes, Skipped, [TokenValue("a", 1, 0)], st, [IGNORED_FIELD, IGNORED_FIELD], 0) == Ok((st, 1))
  {
    IgnoredRecordsConsume(convert, classes, [TokenValue("a", 1, 0)], st, [IGNORED_FIELD, IGNORED_FIELD], 0);
  }

  /** With run-outs skipped, a record element that finds no token never fails the parse and
      leaves it where it is; as written it always fails. */
  lemma RunOutRule(convert: Convert, classes: ClassTable, tokens: seq<TokenValue>, st: BeanState, e: RecordElementValue)
    requires WfState(st)
    ensures DelimitedStep(convert, classes, Skipped, tokens, st, Record(e), |tokens|) == Ok((st, |tokens|))
    ensures DelimitedStep(convert, classes, Throws, tokens, st, Record(e), |tokens|) == Err(IndexOutOfBoundsException)
  {
  }

  /** The corrected walk departs from the walk as written only where the latter ends in
      `IndexOutOfBoundsException`: whatever else the written walk yields, beans and cursor or
      another failure, the corrected walk yields too. */
  lemma {:induction false} AsWrittenAgrees(convert: Convert, classes: ClassTable, tokens: seq<TokenValue>,
                                           st: BeanState, es: seq<LineElement>, pos: nat)
    requires WfState(st) && pos <= |tokens|
    ensures var r := DoParse(convert, classes, Throws, tokens, st, es, pos);
      r != Err(IndexOutOfBoundsException) ==> DoParse(convert, classes, Skipped, tokens, st, es, pos) == r
    decreases SizeSeq(es), 2, 0
  {
    if es != [] {
      AsWrittenAgrees(convert, classes, tokens, st, es[..|es| - 1], pos);
      var p := DoParse(convert, classes, Throws, tokens, st, es[..|es| - 1], pos);
      if p.Ok? {
        AsWrittenStepAgrees(convert, classes, tokens, p.value.0, es[|es| - 1], p.value.1);
      }
    }
  }

  lemma {:induction false} AsWrittenStepAgrees(convert: Convert, classes: ClassTable, tokens: seq<TokenValue>,
                                               st: BeanState, e: LineElement, pos: nat)
    requires WfState(st) && pos <= |tokens|
    ensures var r := DelimitedStep(convert, classes, Throws, tokens, st, e, pos);
      r != Err(IndexOutOfBoundsException) ==> DelimitedStep(convert, classes, Skipped, tokens, st, e, pos) == r
    decreases Size(e), 1, 0
  {
    match e
    case Record(_) =>
    case Segment(seg) =>
      var c := CardinalityOf(seg.cardinality);
      if c.minCount.Some? && c.maxCount.Some? {
        AsWrittenLoopAgrees(convert, classes, tokens, seg, MaxInstances(c.maxCount.value), st, pos, 0);
      }
  }

  lemma {:induction false} AsWrittenLoopAgrees(convert: Convert, classes: ClassTable, tokens: seq<TokenValue>,
                                               seg: SegmentElement, maxCount: int, st: BeanState, pos: nat, count: int)
    requires WfState(st) && pos <= |tokens|
    ensures var r := SegmentLoop(convert, classes, Throws, tokens, seg, maxCount, st, pos, count);
      r != Err(IndexOutOfBoundsException) ==> SegmentLoop(convert, classes, Skipped, tokens, seg, maxCount, st, pos, count) == r
    decreases Size(Segment(seg)), 0, |tokens| - pos
  {
    if pos < |tokens| && SegmentMatches(seg, tokens[pos]) {
      var c := CardinalityOf(seg.cardinality);
      if c.beanRef.None? {
        AsWrittenLoopAgrees(convert, classes, tokens, seg, maxCount, st, pos + 1, count);
      } else {
        var s1 := if c.parentBeanRef.None? then Ok(st) else NewSegmentInstance(classes, st, c, maxCount, count + 1);
        if s1.Ok? {
          assert Size(Segment(seg)) > SizeSeq(seg.elements);
          AsWrittenAgrees(convert, classes, tokens, s1.value, seg.elements, pos + 1);
          var p := DoParse(convert, classes, Throws, tokens, s1.value, seg.elements, pos + 1);
          if p.Ok? {
            AsWrittenLoopAgrees(convert, classes, tokens, seg, maxCount, p.value.0, p.value.1, count + 1);
          }
        }
      }
    }
  }

  /** The same for a whole line: where the line parse as written does not end in
      `IndexOutOfBoundsException`, the corrected line parse has the same outcome. */
  lemma AsWrittenLineAgrees(convert: Convert, classes: ClassTable, line: LineConfig,
                            inputLine: Option<string>, st: BeanState, recordIdentity: Option<Identity>)
    requires WfState(st)
    ensures var r := ParseLine(convert, classes, Throws, line, inputLine, st, recordIdentity);
      r != Err(IndexOutOfBoundsException) ==> ParseLine(convert, classes, Skipped, line, inputLine, st, recordIdentity) == r
  {
    if IsDelimited(line.delimiter) && inputLine.Some? && inputLine.value != "" {
      var tokens := LineTokensOf(inputLine.value, line.delimiter.value, line.quoteChar, recordIdentity);
      AsWrittenAgrees(convert, classes, tokens, st, line.elements, 0);
    }
  }

  /** The end of the run of segment identifiers starting at `pos`. */
  function IdentifierRun(seg: SegmentElement, tokens: seq<TokenValue>, pos: nat): (end: nat)
    requires pos <= |tokens|
    ensures pos <= end <= |tokens|
    ensures forall k :: pos <= k < end ==> SegmentMatches(seg, tokens[k])
    ensures end < |tokens| ==> !SegmentMatches(seg, tokens[end])
    decreases |tokens| - pos
  {
    if pos < |tokens| && SegmentMatches(seg, tokens[pos]) then IdentifierRun(seg, tokens, pos + 1) else pos
  }

  /** A segment without a bean reference consumes exactly its run of identifier tokens and
      changes no bean. */
  lemma {:induction false} SegmentWithoutBean(convert: Convert, classes: ClassTable, runOut: RunOut, tokens: seq<TokenValue>,
                                              seg: SegmentElement, maxCount: int, st: BeanState, pos: nat, count: int)
    requires WfState(st) && pos <= |tokens| && CardinalityOf(seg.cardinality).beanRef.None?
    ensures SegmentLoop(convert, classes, runOut, tokens, seg, maxCount, st, pos, count) == Ok((st, IdentifierRun(seg, tokens, pos)))
    decreases |tokens| - pos
  {
    if pos < |tokens| && SegmentMatches(seg, tokens[pos]) {
      SegmentWithoutBean(convert, classes, runOut, tokens, seg, maxCount, st, pos + 1, count);
    }
  }

  /** A segment whose identifier is not the next token consumes nothing and creates no bean. */
  lemma SegmentAbsent(convert: Convert, classes: ClassTable, runOut: RunOut, tokens: seq<TokenValue>,
                      seg: SegmentElement, st: BeanState, pos: nat)
    requires WfState(st) && pos <= |tokens|
    requires pos == |tokens| || !SegmentMatches(seg, tokens[pos])
    requires CardinalityOf(seg.cardinality).minCount.Some? && CardinalityOf(seg.cardinality).maxCount.Some?
    ensures DelimitedStep(convert, classes, runOut, tokens, st, Segment(seg), pos) == Ok((st, pos))
  {
  }

  /** A segment instance past the maximum: STRICT fails, RESTRICTED creates the instance and
      makes it the segment's bean but attaches it to nothing, and the other collection modes
      attach it as if there were no maximum. */
  lemma InstancePastMaximum(classes: ClassTable, st: BeanState, c: Cardinality, maxCount: int, count: int)
    requires WfState(st) && c.beanRef.Some?
    requires NewBeanInstance(st.heap, classes, Lookup(st, c.beanRef)).Ok?
    requires c.cardinalityMode != Some(SINGLE) && count > maxCount
    ensures var (heap1, id) := NewBeanInstance(st.heap, classes, Lookup(st, c.beanRef)).value;
      var st1 := BeanState(heap1, st.beans[c.beanRef.value := id]);
      var r := NewSegmentInstance(classes, st, c, maxCount, count);
      (c.cardinalityMode == Some(STRICT) ==> r == Err(FlatwormParserException)) &&
      (c.cardinalityMode == Some(RESTRICTED) ==> r == Ok(st1)) &&
      (c.cardinalityMode != Some(STRICT) && c.cardinalityMode != Some(RESTRICTED) ==>
        r == NewSegmentInstance(classes, st, c, JavaNumbers.INT_MAX, 0))
  {
  }

  /** Within the maximum every collection mode attaches the new instance to the parent's
      collection; SINGLE sets it as the parent's property whatever the count. */
  lemma InstanceWithinMaximum(classes: ClassTable, st: BeanState, c: Cardinality, maxCount: int, count: int)
    requires WfState(st) && c.beanRef.Some?
    requires NewBeanInstance(st.heap, classes, Lookup(st, c.beanRef)).Ok?
    requires count <= maxCount || c.cardinalityMode == Some(SINGLE)
    ensures var (heap1, id) := NewBeanInstance(st.heap, classes, Lookup(st, c.beanRef)).value;
      var st1 := BeanState(heap1, st.beans[c.beanRef.value := id]);
      var parent := Lookup(st1, c.parentBeanRef);
      var attached := if c.cardinalityMode == Some(SINGLE) then SetProperty(heap1, parent, c.propertyName, Ref(id))
                      else AddValueToCollection(heap1, c, parent, Ref(id));
      NewSegmentInstance(classes, st, c, maxCount, count) == (if attached.Ok? then Ok(st1.(heap := attached.value)) else Err(attached.error))
  {
  }

  predicate LengthOnlyRecords(es: seq<LineElement>) {
    forall i :: 0 <= i < |es| ==>
      es[i].Record? && es[i].element.fieldStart.None? && es[i].element.fieldLength.Some? && es[i].element.fieldLength.value >= 0
  }

  function LengthSum(es: seq<LineElement>): nat
    requires LengthOnlyRecords(es)
  {
    if es == [] then 0 else LengthSum(es[..|es| - 1]) + es[|es| - 1].element.fieldLength.value
  }

  /** Fixed-width fields given only by their lengths lie end to end: the cursor finishes the sum
      of the lengths past where it started, and when no field names a bean the walk succeeds
      without touching the beans. */
  lemma {:induction false} LengthFieldsEndToEnd(convert: Convert, st: BeanState, line: string, es: seq<LineElement>, charPos: int)
    requires WfState(st) && LengthOnlyRecords(es)
    requires 0 <= charPos && charPos + LengthSum(es) <= |line| <= JavaNumbers.INT_MAX
    ensures var r := ParseFixed(convert, st, Some(line), es, charPos);
      (r.Ok? ==> r.value.1 == charPos + LengthSum(es)) &&
      ((forall i :: 0 <= i < |es| ==> BeanRef(es[i].element.cardinality).None?) ==> r == Ok((st, charPos + LengthSum(es))))
    decreases |es|
  {
    if es != [] {
      var prefix := es[..|es| - 1];
      assert LengthOnlyRecords(prefix) by {
        forall i | 0 <= i < |prefix|
          ensures prefix[i].Record? && prefix[i].element.fieldStart.None? && prefix[i].element.fieldLength.Some? && prefix[i].element.fieldLength.value >= 0
        {
          assert prefix[i] == es[i];
        }
      }
      LengthFieldsEndToEnd(convert, st, line, prefix, charPos);
      if forall i :: 0 <= i < |es| ==> BeanRef(es[i].element.cardinality).None? {
        forall i | 0 <= i < |prefix| ensures BeanRef(prefix[i].element.cardinality).None? {
          assert prefix[i] == es[i];
        }
      }
    }
  }

  /** A fixed-width field reaching past the end of the line is a parser error. */
  lemma FieldPastLineEnd(convert: Convert, st: BeanState, line: string, e: RecordElementValue, charPos: int)
    requires WfState(st) && FieldBounds(e, charPos).1 > |line|
    ensures FixedStep(convert, st, Some(line), Record(e), charPos) == Err(FlatwormParserException)
  {
  }
}
