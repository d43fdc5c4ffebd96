/** The legacy `Line`: parsing one line into beans by character positions, or, for a line with
    a delimiter, by delimited fields with repeating segments. */
module LegacyLines {
  import opened Wrappers
  import opened JavaText
  import JavaNumbers
  import opened Util
  import opened Beans
  import opened LineElements
  import opened ParseUtils
  import opened LegacyRecordElements
  import LineParsing

  /** The legacy conversion helper as the parse sees it: an element and its field text give
      the value to store, or the conversion's failure. */
  type LegacyConvert = (ElementFields, string) -> Result<Value>

  /** The legacy `SegmentElement`: a repeating group identified by its first field's text. */
  datatype LegacySegment = LegacySegment(
    matchStrings: seq<string>, minCount: int, maxCount: int, name: Option<string>, beanRef: Option<string>,
    parentBeanRef: Option<string>, addMethod: Option<string>, cardinalityMode: Option<CardinalityMode>,
    elements: seq<LegacyElement>)

  datatype LegacyElement = Field(field: ElementFields) | Group(segment: LegacySegment)

  /** `SegmentElement.matchesId`: list membership of the field text. */
  predicate MatchesId(seg: LegacySegment, id: string) {
    id in seg.matchStrings
  }

  /** The segment in the role of a cardinality, as `ParseUtils` reads it: its name is the
      collection property. */
  function AsCardinality(seg: LegacySegment): Cardinality {
    Cardinality(seg.name, seg.beanRef, seg.parentBeanRef, seg.addMethod, Some(seg.minCount), Some(seg.maxCount), seg.cardinalityMode)
  }

  function LSize(e: LegacyElement): (n: nat)
    ensures n >= 1
    decreases e, 0
  {
    match e
    case Field(_) => 1
    case Group(s) => 1 + LSizeSeq(s.elements)
  }

  function LSizeSeq(es: seq<LegacyElement>): nat
    decreases es, 1
  {
    if es == [] then 0 else LSizeSeq(es[..|es| - 1]) + LSize(es[|es| - 1])
  }

  /** The split in `mapField`: at the first dot; without a dot the substring call throws. */
  function SplitAtFirstDot(beanRef: string): (r: Result<(string, string)>)
    ensures r.Err? <==> '.' !in beanRef
    ensures r.Err? ==> r.error == IndexOutOfBoundsException
    ensures r.Ok? ==> r.value.0 + ['.'] + r.value.1 == beanRef && '.' !in r.value.0
  {
    var dot := IndexOf(beanRef, '.');
    if dot < 0 then Err(IndexOutOfBoundsException)
    else
      assert beanRef == beanRef[..dot] + ['.'] + beanRef[dot + 1..];
      Ok((beanRef[..dot], beanRef[dot + 1..]))
  }

  /** The two generations split a bean reference differently: "a.b.c" names property "b.c" of
      bean "a" here, and property "c" of bean "a.b" in `LineBO`. */
  lemma SplitsDiffer()
    ensures SplitAtFirstDot("a.b.c") == Ok(("a", "b.c"))
    ensures LineParsing.SplitBeanRef("a.b.c") == Ok(("a.b", "c"))
  {
    assert "a.b.c"[1..] == ".b.c";
    assert IndexOf(".b.c", '.') == 0;
    assert IndexOf("a.b.c", '.') == 1;
    assert "a.b.c"[3] == '.' && "a.b.c"[4] != '.';
    assert "a.b.c"[4..] == "c";
    assert "a.b.c"[..3] == "a.b";
    assert "a.b.c"[2..] == "b.c";
    assert "a.b.c"[..1] == "a";
  }

  /** When the bean reference has a single dot both generations split it alike. */
  lemma {:induction false} SingleDotAgrees(beanName: string, property: string)
    requires '.' !in beanName && '.' !in property
    ensures SplitAtFirstDot(beanName + ['.'] + property) == LineParsing.SplitBeanRef(beanName + ['.'] + property)
  {
    LineParsing.SplitBeanRefJoin(beanName, property);
    var s := beanName + ['.'] + property;
    assert s[|beanName|] == '.';
    assert s[..|beanName|] == beanName;
    assert s[|beanName| + 1..] == property;
    assert IndexOf(s, '.') == |beanName|;
  }

  /** `mapField`: the text is converted first; then the bean reference is split at its first
      dot and the value handed to `mapBean` for that property of that bean. */
  function MapField(convert: LegacyConvert, st: LineParsing.BeanState, e: ElementFields, fieldChars: string): (r: Result<LineParsing.BeanState>)
    requires LineParsing.WfState(st)
    ensures r.Ok? ==> LineParsing.WfState(r.value) && r.value.beans == st.beans && |r.value.heap| == |st.heap|
    ensures r == Err(ArrayIndexOutOfBoundsException) <==> convert(e, fieldChars) == Err(ArrayIndexOutOfBoundsException)
  {
    var value :- convert(e, fieldChars);
    if e.beanRef.None? then Err(NullPointerException)
    else
      var (beanName, property) :- SplitAtFirstDot(e.beanRef.value);
      var heap :- MapBean(st.heap, LineParsing.Lookup(st, Some(beanName)), property, value, e.conversionOptions);
      Ok(st.(heap := heap))
  }

  /** The positions of a field, by the same rules as in `LineBO`. */
  function Positions(e: ElementFields, charPos: int): (int, int, int) {
    LineParsing.FieldBounds(RecordElementValue(e.fieldEnd, e.fieldStart, e.fieldLength, None, None, false, None, map[]), charPos)
  }

  /** The fixed-width loop of `parseInput`: segment elements are passed over (their fixed-width
      parsing is not implemented). */
  function ParseFixed(convert: LegacyConvert, st: LineParsing.BeanState, line: Option<string>, es: seq<LegacyElement>, charPos: int): (r: Result<(LineParsing.BeanState, int)>)
    requires LineParsing.WfState(st)
    ensures r.Ok? ==> LineParsing.WfState(r.value.0) && r.value.0.beans == st.beans
    decreases |es|
  {
    if es == [] then Ok((st, charPos))
    else
      var (st0, pos0) :- ParseFixed(convert, st, line, es[..|es| - 1], charPos);
      FixedStep(convert, st0, line, es[|es| - 1], pos0)
  }

  /** One element of the fixed-width loop: a field past the end of the line is a
      `FlatwormInputLineLengthException`, a null line throws, and a field without a bean
      reference only moves the cursor. */
  function FixedStep(convert: LegacyConvert, st: LineParsing.BeanState, line: Option<string>, e: LegacyElement, charPos: int): (r: Result<(LineParsing.BeanState, int)>)
    requires LineParsing.WfState(st)
    ensures r.Ok? ==> LineParsing.WfState(r.value.0) && r.value.0.beans == st.beans
  {
    match e
    case Group(_) => Ok((st, charPos))
    case Field(re) =>
      var (start, end, next) := Positions(re, charPos);
      if line.None? then Err(NullPointerException)
      else if end > |line.value| then Err(FlatwormInputLineLengthException)
      else if re.beanRef.None? then Ok((st, next))
      else if !(0 <= start <= end) then Err(IndexOutOfBoundsException)
      else
        var st1 :- MapField(convert, st, re, line.value[start..end]);
        Ok((st1, next))
  }

  /** `Util.split` as the legacy line reads it: the texts of the tokens. */
  function FieldTexts(inputLine: string, split: char, quote: char): (r: seq<string>)
    ensures |r| == |Tokens(inputLine, split, quote)|
  {
    var ts := Tokens(inputLine, split, quote);
    seq(|ts|, i requires 0 <= i < |ts| => ts[i].token)
  }

  /** `Util.split` on the line, read as the texts of the tokens it returns. */
  method SplitFields(inputLine: string, split: char, quote: char) returns (texts: seq<string>)
    ensures texts == FieldTexts(inputLine, split, quote)
  {
    var tokens := Split(inputLine, split, quote);
    ghost var ts := Tokens(inputLine, split, quote);
    texts := [];
    for k := 0 to |tokens|
      invariant |texts| == k && forall j :: 0 <= j < k ==> texts[j] == ts[j].token
    {
      assert tokens[k].View() == ts[k];
      texts := texts + [tokens[k].token];
    }
    assert forall j :: 0 <= j < |ts| ==> texts[j] == FieldTexts(inputLine, split, quote)[j];
  }

  /** `doParseDelimitedInput` over a list of elements, the field cursor threading through. */
  function DoParse(convert: LegacyConvert, classes: ClassTable, fields: seq<string>,
                   st: LineParsing.BeanState, es: seq<LegacyElement>, pos: nat): (r: Result<(LineParsing.BeanState, nat)>)
    requires LineParsing.WfState(st) && pos <= |fields|
    ensures r.Ok? ==> LineParsing.WfState(r.value.0) && pos <= r.value.1 <= |fields|
    decreases LSizeSeq(es), 2, 0
  {
    if es == [] then Ok((st, pos))
    else
      var (st0, pos0) :- DoParse(convert, classes, fields, st, es[..|es| - 1], pos);
      DelimitedStep(convert, classes, fields, st0, es[|es| - 1], pos0)
  }

  /** One delimited element. A field element past the last field is logged and skipped (the
      array access throws the `ArrayIndexOutOfBoundsException` its `catch` expects); otherwise
      it takes the next field, mapping it when it has a bean reference. The same `catch` also
      takes an `ArrayIndexOutOfBoundsException` thrown while the field is mapped: the element is
      skipped and the field stays current. A segment at the end of the fields is passed over,
      and otherwise runs its repetition loop. */
  function DelimitedStep(convert: LegacyConvert, classes: ClassTable, fields: seq<string>,
                         st: LineParsing.BeanState, e: LegacyElement, pos: nat): (r: Result<(LineParsing.BeanState, nat)>)
    requires LineParsing.WfState(st) && pos <= |fields|
    ensures r.Ok? ==> LineParsing.WfState(r.value.0) && pos <= r.value.1 <= |fields|
    decreases LSize(e), 1, 0
  {
    match e
    case Field(re) =>
      if pos >= |fields| then Ok((st, pos))
      else if re.beanRef.None? then Ok((st, pos + 1))
      else
        var mapped := MapField(convert, st, re, fields[pos]);
        if mapped == Err(ArrayIndexOutOfBoundsException) then Ok((st, pos))
        else
          var st1 :- mapped;
          Ok((st1, pos + 1))
    case Group(seg) =>
      SegmentLoop(convert, classes, fields, seg, LineParsing.MaxInstances(seg.maxCount), st, pos, 0)
  }

  /** The repetition loop of `parseDelimitedSegmentElement`, advancing past each identifier
      field (as `LineBO` does) before the segment's elements are parsed. */
  function SegmentLoop(convert: LegacyConvert, classes: ClassTable, fields: seq<string>,
                       seg: LegacySegment, maxCount: int, st: LineParsing.BeanState, pos: nat, count: int): (r: Result<(LineParsing.BeanState, nat)>)
    requires LineParsing.WfState(st) && pos <= |fields|
    ensures r.Ok? ==> LineParsing.WfState(r.value.0) && pos <= r.value.1 <= |fields|
    decreases LSize(Group(seg)), 0, |fields| - pos
  {
    if !(pos < |fields| && MatchesId(seg, fields[pos])) then Ok((st, pos))
    else if seg.beanRef.None? then SegmentLoop(convert, classes, fields, seg, maxCount, st, pos + 1, count)
    else
      var st1 :- if seg.parentBeanRef.None? then Ok(st) else NewInstance(classes, st, seg, maxCount, count + 1);
      var (st2, pos2) :- DoParse(convert, classes, fields, st1, seg.elements, pos + 1);
      SegmentLoop(convert, classes, fields, seg, maxCount, st2, pos2, count + 1)
  }

  /** A new instance of the segment's bean replaces the current one and joins the parent's
      collection, except past the maximum, where STRICT fails with
      `FlatwormInvalidRecordException` and RESTRICTED drops it. */
  function NewInstance(classes: ClassTable, st: LineParsing.BeanState, seg: LegacySegment, maxCount: int, count: int): (r: Result<LineParsing.BeanState>)
    requires LineParsing.WfState(st) && seg.beanRef.Some?
    ensures r.Ok? ==> LineParsing.WfState(r.value)
  {
    var (heap1, id) :- NewBeanInstance(st.heap, classes, LineParsing.Lookup(st, seg.beanRef));
    var st1 := LineParsing.BeanState(heap1, st.beans[seg.beanRef.value := id]);
    var parent := LineParsing.Lookup(st1, seg.parentBeanRef);
    var heap2 :-
      if count > maxCount then
        if seg.cardinalityMode == Some(STRICT) then Err(FlatwormInvalidRecordException)
        else if seg.cardinalityMode != Some(RESTRICTED) then AddValueToCollection(heap1, AsCardinality(seg), parent, Ref(id))
        else Ok(heap1)
      else AddValueToCollection(heap1, AsCardinality(seg), parent, Ref(id));
    Ok(LineParsing.BeanState(heap2, st1.beans))
  }

  /** The outcome of a loop run for a bounded number of iterations. */
  datatype Run = Finished(result: Result<(LineParsing.BeanState, nat)>) | OutOfFuel

  /** `parseDelimitedSegmentElement` as written, run for at most `fuel` iterations: the
      minimum-count check reads the current field before the loop tests that one is left, and
      the loop body never moves past the identifier field. The segment's own elements are
      parsed by `DoParse`. */
  function AsWrittenSegment(fuel: nat, convert: LegacyConvert, classes: ClassTable, fields: seq<string>,
                            seg: LegacySegment, st: LineParsing.BeanState, pos: nat): Run
    requires LineParsing.WfState(st) && pos <= |fields|
  {
    if pos >= |fields| then Finished(Err(ArrayIndexOutOfBoundsException))
    else AsWrittenLoop(fuel, convert, classes, fields, seg, LineParsing.MaxInstances(seg.maxCount), st, pos, 0)
  }

  function AsWrittenLoop(fuel: nat, convert: LegacyConvert, classes: ClassTable, fields: seq<string>,
                         seg: LegacySegment, maxCount: int, st: LineParsing.BeanState, pos: nat, count: int): Run
    requires LineParsing.WfState(st) && pos <= |fields|
    decreases fuel
  {
    if !(pos < |fields| && MatchesId(seg, fields[pos])) then Finished(Ok((st, pos)))
    else if fuel == 0 then OutOfFuel
    else if seg.beanRef.None? then AsWrittenLoop(fuel - 1, convert, classes, fields, seg, maxCount, st, pos, count)
    else
      var st1 := if seg.parentBeanRef.None? then Ok(st) else NewInstance(classes, st, seg, maxCount, count + 1);
      if st1.Err? then Finished(Err(st1.error))
      else
        var parsed := DoParse(convert, classes, fields, st1.value, seg.elements, pos);
        if parsed.Err? then Finished(Err(parsed.error))
        else AsWrittenLoop(fuel - 1, convert, classes, fields, seg, maxCount, parsed.value.0, parsed.value.1, count + 1)
  }

  /** As written, a segment without a bean reference whose identifier is the current field
      never leaves its loop: no number of iterations finishes it. */
  lemma {:induction false} AsWrittenNeverFinishes(fuel: nat, convert: LegacyConvert, classes: ClassTable, fields: seq<string>,
                                                  seg: LegacySegment, maxCount: int, st: LineParsing.BeanState, pos: nat, count: int)
    requires LineParsing.WfState(st) && pos < |fields| && MatchesId(seg, fields[pos]) && seg.beanRef.None?
    ensures AsWrittenLoop(fuel, convert, classes, fields, seg, maxCount, st, pos, count) == OutOfFuel
    decreases fuel
  {
    if fuel > 0 {
      AsWrittenNeverFinishes(fuel - 1, convert, classes, fields, seg, maxCount, st, pos, count);
    }
  }

  /** As written, a segment reached after the last field throws from its minimum-count check. */
  lemma AsWrittenSegmentAtEnd(fuel: nat, convert: LegacyConvert, classes: ClassTable, fields: seq<string>,
                              seg: LegacySegment, st: LineParsing.BeanState)
    requires LineParsing.WfState(st)
    ensures AsWrittenSegment(fuel, convert, classes, fields, seg, st, |fields|) == Finished(Err(ArrayIndexOutOfBoundsException))
  {
  }

  /** As written, a bean segment without a parent whose elements leave the state and the
      cursor as they were (each skips its field) never leaves its loop either. */
  lemma {:induction false} AsWrittenStuck(fuel: nat, convert: LegacyConvert, classes: ClassTable, fields: seq<string>,
                                          seg: LegacySegment, maxCount: int, st: LineParsing.BeanState, pos: nat, count: int)
    requires LineParsing.WfState(st) && pos < |fields| && MatchesId(seg, fields[pos])
    requires seg.beanRef.Some? && seg.parentBeanRef.None?
    requires DoParse(convert, classes, fields, st, seg.elements, pos) == Ok((st, pos))
    ensures AsWrittenLoop(fuel, convert, classes, fields, seg, maxCount, st, pos, count) == OutOfFuel
    decreases fuel
  {
    if fuel > 0 {
      AsWrittenStuck(fuel - 1, convert, classes, fields, seg, maxCount, st, pos, count + 1);
    }
  }

  /** The correction also moves a segment with a bean reference past its identifier field:
      on the fields `[id, next]`, a segment identified by `id` whose one element maps a field
      hands that element `id` as written and `next` in the corrected loop. When the conversion
      of `id` throws `ArrayIndexOutOfBoundsException`, the element is skipped without moving
      on, so as written the loop never finishes; the corrected loop skips `next` the same way
      and stops after `id`. */
  lemma BeanSegmentShift(fuel: nat, convert: LegacyConvert, classes: ClassTable, seg: LegacySegment, re: ElementFields,
                         maxCount: int, st: LineParsing.BeanState, id: string, next: string)
    requires LineParsing.WfState(st) && fuel >= 1
    requires seg.beanRef.Some? && seg.parentBeanRef.None? && seg.elements == [Field(re)] && re.beanRef.Some?
    requires MatchesId(seg, id) && !MatchesId(seg, next)
    ensures var m := MapField(convert, st, re, id);
      AsWrittenLoop(fuel, convert, classes, [id, next], seg, maxCount, st, 0, 0) ==
        if m == Err(ArrayIndexOutOfBoundsException) then OutOfFuel
        else Finished(if m.Err? then Err(m.error) else Ok((m.value, 1)))
    ensures var m := MapField(convert, st, re, next);
      SegmentLoop(convert, classes, [id, next], seg, maxCount, st, 0, 0) ==
        if m == Err(ArrayIndexOutOfBoundsException) then Ok((st, 1))
        else if m.Err? then Err(m.error) else Ok((m.value, 2))
  {
    var fields := [id, next];
    assert fields[0] == id && fields[1] == next;
    assert seg.elements[..0] == [];
    var m1 := MapField(convert, st, re, id);
    var step1 := if m1 == Err(ArrayIndexOutOfBoundsException) then Ok((st, 0))
                 else if m1.Err? then Err(m1.error) else Ok((m1.value, 1));
    assert DelimitedStep(convert, classes, fields, st, Field(re), 0) == step1;
    assert DoParse(convert, classes, fields, st, seg.elements, 0) == step1;
    if m1 == Err(ArrayIndexOutOfBoundsException) {
      AsWrittenStuck(fuel, convert, classes, fields, seg, maxCount, st, 0, 0);
    } else if m1.Ok? {
      assert AsWrittenLoop(fuel - 1, convert, classes, fields, seg, maxCount, m1.value, 1, 1) == Finished(Ok((m1.value, 1)));
    }
    var m2 := MapField(convert, st, re, next);
    var step2 := if m2 == Err(ArrayIndexOutOfBoundsException) then Ok((st, 1))
                 else if m2.Err? then Err(m2.error) else Ok((m2.value, 2));
    assert DelimitedStep(convert, classes, fields, st, Field(re), 1) == step2;
    assert DoParse(convert, classes, fields, st, seg.elements, 1) == step2;
    if m2 == Err(ArrayIndexOutOfBoundsException) {
      assert SegmentLoop(convert, classes, fields, seg, maxCount, st, 1, 1) == Ok((st, 1));
    } else if m2.Ok? {
      assert SegmentLoop(convert, classes, fields, seg, maxCount, m2.value, 2, 1) == Ok((m2.value, 2));
    }
  }

  /** The loop that checks for a field first and moves past each identifier: a segment without
      a bean reference consumes exactly its run of identifier fields, and a segment reached
      after the last field consumes nothing. */
  lemma {:induction false} SegmentWithoutBean(convert: LegacyConvert, classes: ClassTable, fields: seq<string>,
                                              seg: LegacySegment, maxCount: int, st: LineParsing.BeanState, pos: nat, count: int)
    requires LineParsing.WfState(st) && pos <= |fields| && seg.beanRef.None?
    ensures SegmentLoop(convert, classes, fields, seg, maxCount, st, pos, count) == Ok((st, IdRun(seg, fields, pos)))
    decreases |fields| - pos
  {
    if pos < |fields| && MatchesId(seg, fields[pos]) {
      SegmentWithoutBean(convert, classes, fields, seg, maxCount, st, pos + 1, count);
    }
  }

  /** The end of the run of identifier fields starting at `pos`. */
  function IdRun(seg: LegacySegment, fields: seq<string>, pos: nat): (end: nat)
    requires pos <= |fields|
    ensures pos <= end <= |fields|
    ensures forall k :: pos <= k < end ==> MatchesId(seg, fields[k])
    ensures end < |fields| ==> !MatchesId(seg, fields[end])
    decreases |fields| - pos
  {
    if pos < |fields| && MatchesId(seg, fields[pos]) then IdRun(seg, fields, pos + 1) else pos
  }

  lemma SegmentAtEnd(convert: LegacyConvert, classes: ClassTable, fields: seq<string>, seg: LegacySegment, st: LineParsing.BeanState)
    requires LineParsing.WfState(st)
    ensures DelimitedStep(convert, classes, fields, st, Group(seg), |fields|) == Ok((st, |fields|))
  {
  }

  /** `parseInput`: a line with a delimiter and a non-empty text is parsed by fields (an empty
      delimiter throws at its first character); any other line, including an empty or null
      one on a delimited line, goes through the fixed-width loop. */
  function ParseLegacyLine(convert: LegacyConvert, classes: ClassTable, elements: seq<LegacyElement>, delimiter: Option<string>,
                           quote: char, inputLine: Option<string>, st: LineParsing.BeanState): (r: Result<LineParsing.BeanState>)
    requires LineParsing.WfState(st)
    ensures r.Ok? ==> LineParsing.WfState(r.value)
  {
    if delimiter.Some? && inputLine.Some? && inputLine.value != "" then
      if delimiter.value == "" then Err(IndexOutOfBoundsException)
      else
        var fields := FieldTexts(inputLine.value, LineParsing.DelimiterChar(delimiter.value), quote);
        var (st1, _) :- DoParse(convert, classes, fields, st, elements, 0);
        Ok(st1)
    else
      var (st1, _) :- ParseFixed(convert, st, inputLine, elements, 0);
      Ok(st1)
  }

  /** An empty or null text on a delimited line is parsed as a fixed-width line. */
  lemma EmptyDelimitedFallsThrough(convert: LegacyConvert, classes: ClassTable, elements: seq<LegacyElement>, delimiter: string,
                                   quote: char, inputLine: Option<string>, st: LineParsing.BeanState)
    requires LineParsing.WfState(st) && (inputLine.None? || inputLine.value == "")
    ensures ParseLegacyLine(convert, classes, elements, Some(delimiter), quote, inputLine, st) ==
            ParseLegacyLine(convert, classes, elements, None, quote, inputLine, st)
  {
  }

  predicate NoGroups(es: seq<LegacyElement>) {
    forall i :: 0 <= i < |es| ==> es[i].Field?
  }

  /** No field element of `es` with a bean reference has a conversion that throws
      `ArrayIndexOutOfBoundsException`, on any text. */
  ghost predicate ConversionsInBounds(convert: LegacyConvert, es: seq<LegacyElement>) {
    forall i, text :: 0 <= i < |es| && es[i].Field? && es[i].field.beanRef.Some? ==>
      convert(es[i].field, text) != Err(ArrayIndexOutOfBoundsException)
  }

  /** Field elements each take one field while fields are left, with or without a bean
      reference, so long as no conversion throws `ArrayIndexOutOfBoundsException`, and running
      out of fields never fails the parse. */
  lemma {:induction false} FieldsConsume(convert: LegacyConvert, classes: ClassTable, fields: seq<string>,
                                         st: LineParsing.BeanState, es: seq<LegacyElement>, pos: nat)
    requires LineParsing.WfState(st) && pos <= |fields| && NoGroups(es)
    ensures var r := DoParse(convert, classes, fields, st, es, pos);
      (ConversionsInBounds(convert, es) && r.Ok? ==> r.value.1 == LineParsing.Min(pos + |es|, |fields|)) &&
      ((forall i :: 0 <= i < |es| ==> es[i].field.beanRef.None?) ==> r == Ok((st, LineParsing.Min(pos + |es|, |fields|))))
    decreases |es|
  {
    if es != [] {
      var prefix := es[..|es| - 1];
      assert NoGroups(prefix) by {
        forall i | 0 <= i < |prefix| ensures prefix[i].Field? {
          assert prefix[i] == es[i];
        }
      }
      FieldsConsume(convert, classes, fields, st, prefix, pos);
      if ConversionsInBounds(convert, es) {
        assert ConversionsInBounds(convert, prefix) by {
          forall i, text | 0 <= i < |prefix| && prefix[i].Field? && prefix[i].field.beanRef.Some?
            ensures convert(prefix[i].field, text) != Err(ArrayIndexOutOfBoundsException) {
            assert prefix[i] == es[i];
          }
        }
      }
      if forall i :: 0 <= i < |es| ==> es[i].field.beanRef.None? {
        forall i | 0 <= i < |prefix| ensures prefix[i].field.beanRef.None? {
          assert prefix[i] == es[i];
        }
      }
    }
  }

  /** A field whose conversion throws `ArrayIndexOutOfBoundsException` (a substring option
      without an end, say) is skipped without taking its field, so the next field element reads
      the same text: on "abc,def", a first element whose conversion throws leaves "abc" to the
      second. */
  lemma SkippedFieldKeepsCursor(convert: LegacyConvert, classes: ClassTable, fields: seq<string>,
                                st: LineParsing.BeanState, re1: ElementFields, re2: ElementFields, pos: nat)
    requires LineParsing.WfState(st) && pos < |fields| && re1.beanRef.Some?
    requires convert(re1, fields[pos]) == Err(ArrayIndexOutOfBoundsException)
    ensures DelimitedStep(convert, classes, fields, st, Field(re1), pos) == Ok((st, pos))
    ensures DoParse(convert, classes, fields, st, [Field(re1), Field(re2)], pos) ==
            DelimitedStep(convert, classes, fields, st, Field(re2), pos)
  {
    var es := [Field(re1), Field(re2)];
    assert es[..1] == [Field(re1)] && es[..1][..0] == [];
    assert DoParse(convert, classes, fields, st, es[..1], pos) == Ok((st, pos));
  }

  /** A segment instance past the maximum: STRICT fails with `FlatwormInvalidRecordException`,
      RESTRICTED creates the instance but attaches it to nothing, and any other mode attaches it
      as if within the maximum. */
  lemma InstancePastMaximum(classes: ClassTable, st: LineParsing.BeanState, seg: LegacySegment, maxCount: int, count: int)
    requires LineParsing.WfState(st) && seg.beanRef.Some? && count > maxCount
    requires NewBeanInstance(st.heap, classes, LineParsing.Lookup(st, seg.beanRef)).Ok?
    ensures var (heap1, id) := NewBeanInstance(st.heap, classes, LineParsing.Lookup(st, seg.beanRef)).value;
      var r := NewInstance(classes, st, seg, maxCount, count);
      (seg.cardinalityMode == Some(STRICT) ==> r == Err(FlatwormInvalidRecordException)) &&
      (seg.cardinalityMode == Some(RESTRICTED) ==> r == Ok(LineParsing.BeanState(heap1, st.beans[seg.beanRef.value := id]))) &&
      (seg.cardinalityMode != Some(STRICT) && seg.cardinalityMode != Some(RESTRICTED) ==>
        r == NewInstance(classes, st, seg, JavaNumbers.INT_MAX, 0))
  {
  }

  /** The legacy line's configuration. */
  class Line {
    var elements: seq<LegacyElement>
    var delimiter: Option<string>
    var quoteChar: char

    var convert: LegacyConvert
    var classes: ClassTable
    var fields: seq<string>
    var currentField: nat
    var state: LineParsing.BeanState

    constructor(convert: LegacyConvert)
      ensures elements == [] && delimiter == None && quoteChar == '\0'
    {
      elements, delimiter, quoteChar := [], None, '\0';
      this.convert := convert;
      classes := map[];
      fields, currentField := [], 0;
      state := LineParsing.BeanState([], map[]);
    }

    /** `setQuoteChar`: the first character; null changes nothing, and an empty string throws. */
    method SetQuoteChar(quote: Option<string>) returns (r: Result<()>)
      modifies this
      ensures quote.Some? && quote.value == "" <==> r.Err?
      ensures elements == old(elements) && delimiter == old(delimiter)
      ensures quoteChar == if quote.Some? && quote.value != "" then quote.value[0] else old(quoteChar)
    {
      if quote.Some? {
        if quote.value == "" {
          return Err(IndexOutOfBoundsException);
        }
        quoteChar := quote.value[0];
      }
      return Ok(());
    }

    /** `isDelimited`: any non-null delimiter, even an empty one. */
    function IsDelimited(): (r: bool)
      reads this
      ensures r <==> delimiter.Some?
    {
      delimiter.Some?
    }

    method SetDelimiter(d: Option<string>)
      modifies this
      ensures delimiter == d && elements == old(elements) && quoteChar == old(quoteChar)
    {
      delimiter := d;
    }

    /** `getElements`: a read-only view, so the list is whatever `addElement` built. */
    function GetElements(): seq<LegacyElement>
      reads this
    {
      elements
    }

    /** `addElement`: appends. */
    method AddElement(e: LegacyElement)
      modifies this
      ensures elements == old(elements) + [e] && delimiter == old(delimiter) && quoteChar == old(quoteChar)
    {
      elements := elements + [e];
    }

    /** `parseInput`. */
    method ParseInput(inputLine: Option<string>, beans: LineParsing.BeanState, conversionHelper: LegacyConvert, classTable: ClassTable)
      returns (r: Result<LineParsing.BeanState>)
      modifies this
      requires LineParsing.WfState(beans)
      ensures elements == old(elements) && delimiter == old(delimiter) && quoteChar == old(quoteChar)
      ensures r == ParseLegacyLine(conversionHelper, classTable, elements, delimiter, quoteChar, inputLine, beans)
    {
      convert, classes, state := conversionHelper, classTable, beans;
      if delimiter.Some? && inputLine.Some? && inputLine.value != "" {
        if delimiter.value == "" {
          return Err(IndexOutOfBoundsException);
        }
        var p := ParseInputDelimited(inputLine.value);
        if p.Err? {
          return Err(p.error);
        }
        return Ok(state);
      }
      var fixed := ParseFixedElements(inputLine);
      if fixed.Err? {
        return Err(fixed.error);
      }
      return Ok(state);
    }

    /** The fixed-width loop of `parseInput`, with its cursor `charPos`. */
    method ParseFixedElements(inputLine: Option<string>) returns (r: Result<int>)
      modifies this
      requires LineParsing.WfState(state)
      ensures elements == old(elements) && delimiter == old(delimiter) && quoteChar == old(quoteChar)
      ensures convert == old(convert) && classes == old(classes)
      ensures match ParseFixed(convert, old(state), inputLine, elements, 0)
        case Ok((st, pos)) => r == Ok(pos) && state == st
        case Err(e) => r == Err(e)
    {
      var charPos := 0;
      var i := 0;
      while i < |elements|
        invariant 0 <= i <= |elements|
        invariant elements == old(elements) && delimiter == old(delimiter) && quoteChar == old(quoteChar)
        invariant convert == old(convert) && classes == old(classes)
        invariant LineParsing.WfState(state)
        invariant ParseFixed(convert, old(state), inputLine, elements[..i], 0) == Ok((state, charPos))
      {
        ParseFixedSnoc(convert, old(state), inputLine, elements, i);
        var step := FixedElement(inputLine, i, charPos);
        if step.Err? {
          ParseFixedStops(convert, old(state), inputLine, elements, i + 1);
          return Err(step.error);
        }
        charPos := step.value;
        i := i + 1;
      }
      assert elements[..i] == elements;
      return Ok(charPos);
    }

    /** The body of the fixed-width loop for element `i`. */
    method FixedElement(inputLine: Option<string>, i: nat, charPos: int) returns (r: Result<int>)
      modifies this
      requires i < |elements| && LineParsing.WfState(state)
      ensures elements == old(elements) && delimiter == old(delimiter) && quoteChar == old(quoteChar)
      ensures convert == old(convert) && classes == old(classes)
      ensures match FixedStep(convert, old(state), inputLine, elements[i], charPos)
        case Ok((st, pos)) => r == Ok(pos) && state == st
        case Err(e) => r == Err(e)
    {
      match elements[i]
      case Group(_) =>
        return Ok(charPos);
      case Field(re) =>
        var (start, end, next) := Positions(re, charPos);
        if inputLine.None? {
          return Err(NullPointerException);
        }
        if end > |inputLine.value| {
          return Err(FlatwormInputLineLengthException);
        }
        if re.beanRef.Some? {
          if !(0 <= start <= end) {
            return Err(IndexOutOfBoundsException);
          }
          var mapped := MapField(convert, state, re, inputLine.value[start..end]);
          if mapped.Err? {
            return Err(mapped.error);
          }
          state := mapped.value;
        }
        return Ok(next);
    }

    /** `parseInputDelimited`: split on the decoded delimiter and parse from the first field. */
    method ParseInputDelimited(inputLine: string) returns (r: Result<()>)
      modifies this
      requires delimiter.Some? && delimiter.value != "" && LineParsing.WfState(state)
      ensures elements == old(elements) && delimiter == old(delimiter) && quoteChar == old(quoteChar)
      ensures convert == old(convert) && classes == old(classes)
      ensures fields == FieldTexts(inputLine, LineParsing.DelimiterChar(delimiter.value), quoteChar)
      ensures match DoParse(convert, classes, fields, old(state), elements, 0)
        case Ok((st, pos)) => r == Ok(()) && state == st && currentField == pos
        case Err(e) => r == Err(e)
    {
      var texts := SplitFields(inputLine, LineParsing.DelimiterChar(delimiter.value), quoteChar);
      fields := texts;
      currentField := 0;
      r := DoParseDelimitedInput(elements);
    }

    /** `doParseDelimitedInput`. */
    method DoParseDelimitedInput(es: seq<LegacyElement>) returns (r: Result<()>)
      modifies this
      requires LineParsing.WfState(state) && currentField <= |fields|
      ensures elements == old(elements) && delimiter == old(delimiter) && quoteChar == old(quoteChar)
      ensures convert == old(convert) && classes == old(classes) && fields == old(fields)
      ensures match DoParse(convert, classes, fields, old(state), es, old(currentField))
        case Ok((st, pos)) => r == Ok(()) && state == st && currentField == pos
        case Err(e) => r == Err(e)
      decreases LSizeSeq(es), 3
    {
      var i := 0;
      while i < |es|
        invariant 0 <= i <= |es|
        invariant elements == old(elements) && delimiter == old(delimiter) && quoteChar == old(quoteChar)
        invariant convert == old(convert) && classes == old(classes) && fields == old(fields)
        invariant LineParsing.WfState(state) && currentField <= |fields|
        invariant DoParse(convert, classes, fields, old(state), es[..i], old(currentField)) == Ok((state, currentField))
      {
        assert es[..i + 1][..i] == es[..i];
        var step := DelimitedElement(es, i);
        if step.Err? {
          DoParseStops(convert, classes, fields, old(state), es, i + 1, old(currentField));
          return Err(step.error);
        }
        i := i + 1;
      }
      assert es[..i] == es;
      return Ok(());
    }

    /** The body of the delimited loop for element `i`: a field takes the current field text,
        when there is one, unless its mapping throws the `ArrayIndexOutOfBoundsException` the
        loop catches; a segment repeats. */
    method DelimitedElement(es: seq<LegacyElement>, i: nat) returns (r: Result<()>)
      modifies this
      requires i < |es| && LineParsing.WfState(state) && currentField <= |fields|
      ensures elements == old(elements) && delimiter == old(delimiter) && quoteChar == old(quoteChar)
      ensures convert == old(convert) && classes == old(classes) && fields == old(fields)
      ensures match DelimitedStep(convert, classes, fields, old(state), es[i], old(currentField))
        case Ok((st, pos)) => r == Ok(()) && state == st && currentField == pos
        case Err(e) => r == Err(e)
      decreases LSizeSeq(es), 2
    {
      LSizeBelow(es, i);
      match es[i] {
        case Field(re) =>
          if currentField < |fields| {
            if re.beanRef.Some? {
              var mapped := MapField(convert, state, re, fields[currentField]);
              if mapped == Err(ArrayIndexOutOfBoundsException) {
                return Ok(());
              }
              if mapped.Err? {
                return Err(mapped.error);
              }
              state := mapped.value;
            }
            currentField := currentField + 1;
          }
        case Group(seg) =>
          r := ParseDelimitedSegmentElement(seg);
          return r;
      }
      return Ok(());
    }

    /** `parseDelimitedSegmentElement`, checking that a field is left before reading it and
        moving past each identifier field. */
    method ParseDelimitedSegmentElement(seg: LegacySegment) returns (r: Result<()>)
      modifies this
      requires LineParsing.WfState(state) && currentField <= |fields|
      ensures elements == old(elements) && delimiter == old(delimiter) && quoteChar == old(quoteChar)
      ensures convert == old(convert) && classes == old(classes) && fields == old(fields)
      ensures match DelimitedStep(convert, classes, fields, old(state), Group(seg), old(currentField))
        case Ok((st, pos)) => r == Ok(()) && state == st && currentField == pos
        case Err(e) => r == Err(e)
      decreases LSize(Group(seg)), 1
    {
      var maxCount := seg.maxCount;
      if maxCount <= 0 {
        maxCount := JavaNumbers.INT_MAX;
      }
      var cardinality := 0;
      while currentField < |fields| && MatchesId(seg, fields[currentField])
        invariant elements == old(elements) && delimiter == old(delimiter) && quoteChar == old(quoteChar)
        invariant convert == old(convert) && classes == old(classes) && fields == old(fields)
        invariant LineParsing.WfState(state) && currentField <= |fields|
        invariant SegmentLoop(convert, classes, fields, seg, maxCount, old(state), old(currentField), 0)
               == SegmentLoop(convert, classes, fields, seg, maxCount, state, currentField, cardinality)
        decreases |fields| - currentField
      {
        var pass := SegmentPass(seg, maxCount, cardinality);
        if pass.Err? {
          return Err(pass.error);
        }
        cardinality := pass.value;
      }
      return Ok(());
    }

    /** One repetition of a segment whose identifier is the current field: the identifier field
        is passed, and for a segment with a bean a new instance is made and the segment's
        elements are parsed. */
    method SegmentPass(seg: LegacySegment, maxCount: int, cardinality: int) returns (r: Result<int>)
      modifies this
      requires LineParsing.WfState(state) && currentField < |fields| && MatchesId(seg, fields[currentField])
      ensures elements == old(elements) && delimiter == old(delimiter) && quoteChar == old(quoteChar)
      ensures convert == old(convert) && classes == old(classes) && fields == old(fields)
      ensures r.Ok? ==> LineParsing.WfState(state) && old(currentField) < currentField <= |fields|
      ensures r.Ok? ==>
        SegmentLoop(convert, classes, fields, seg, maxCount, old(state), old(currentField), cardinality) ==
        SegmentLoop(convert, classes, fields, seg, maxCount, state, currentField, r.value)
      ensures r.Err? ==>
        SegmentLoop(convert, classes, fields, seg, maxCount, old(state), old(currentField), cardinality) == Err(r.error)
      decreases LSize(Group(seg)), 0
    {
      currentField := currentField + 1;
      if seg.beanRef.None? {
        return Ok(cardinality);
      }
      if seg.parentBeanRef.Some? {
        var instance := NewInstance(classes, state, seg, maxCount, cardinality + 1);
        if instance.Err? {
          return Err(instance.error);
        }
        state := instance.value;
      }
      var p := DoParseDelimitedInput(seg.elements);
      if p.Err? {
        return Err(p.error);
      }
      return Ok(cardinality + 1);
    }
  }

  lemma {:induction false} LSizeBelow(es: seq<LegacyElement>, i: nat)
    requires i < |es|
    ensures LSize(es[i]) <= LSizeSeq(es)
    decreases |es|
  {
    if i < |es| - 1 {
      assert es[..|es| - 1][i] == es[i];
      LSizeBelow(es[..|es| - 1], i);
    }
  }

  /** One more element of the fixed-width loop is one more `FixedStep`. */
  lemma ParseFixedSnoc(convert: LegacyConvert, st: LineParsing.BeanState, line: Option<string>, es: seq<LegacyElement>, i: nat)
    requires LineParsing.WfState(st) && i < |es|
    ensures var p := ParseFixed(convert, st, line, es[..i], 0);
      ParseFixed(convert, st, line, es[..i + 1], 0) == if p.Ok? then FixedStep(convert, p.value.0, line, es[i], p.value.1) else Err(p.error)
  {
    assert es[..i + 1][..i] == es[..i];
  }

  lemma {:induction false} ParseFixedStops(convert: LegacyConvert, st: LineParsing.BeanState, line: Option<string>, es: seq<LegacyElement>, k: nat)
    requires LineParsing.WfState(st) && 0 < k <= |es|
    requires ParseFixed(convert, st, line, es[..k], 0).Err?
    ensures ParseFixed(convert, st, line, es, 0) == ParseFixed(convert, st, line, es[..k], 0)
    decreases |es| - k
  {
    if k < |es| {
      assert es[..k + 1][..k] == es[..k];
      ParseFixedStops(convert, st, line, es, k + 1);
    } else {
      assert es[..k] == es;
    }
  }

  lemma {:induction false} DoParseStops(convert: LegacyConvert, classes: ClassTable, fields: seq<string>,
                                        st: LineParsing.BeanState, es: seq<LegacyElement>, k: nat, pos: nat)
    requires LineParsing.WfState(st) && pos <= |fields| && 0 < k <= |es|
    requires DoParse(convert, classes, fields, st, es[..k], pos).Err?
    ensures DoParse(convert, classes, fields, st, es, pos) == DoParse(convert, classes, fields, st, es[..k], pos)
    decreases |es| - k
  {
    if k < |es| {
      assert es[..k + 1][..k] == es[..k];
      DoParseStops(convert, classes, fields, st, es, k + 1, pos);
    } else {
      assert es[..k] == es;
    }
  }
}
