/** `FileCreator`: writing a record of the legacy file format out of named beans. Every line
    of the record becomes its fields, each turned into text and fitted to its length, separated
    by the line's delimiter; the record's identifier strings head its first line, and the record
    separator ends every line. The property getter and the converter that turn a bean property
    into text are reflective, so they are parameters. */
module FileCreators {
  import opened Wrappers
  import opened Seqs
  import opened JavaText
  import opened Util
  import opened Transform
  import opened Beans
  import opened LegacyRecordElements
  import opened LegacyLines
  import LegacyRecords
  import FileFormats

  /** What `write` reads of a line: its delimiter and its elements. */
  datatype LineLayout = LineLayout(delimiter: Option<string>, elements: seq<LegacyElement>)

  /** The beans to write and the steps of the file format's conversion helper:
      `PropertyUtils.getProperty` on a non-null bean, the converter call for a field's type,
      and `transformString` of a text with a field's options and length. */
  datatype Env = Env(
    beans: map<string, Value>,
    getProperty: (Value, string) -> Result<Value>,
    toText: (Option<string>, Value, Options) -> Result<Option<string>>,
    transform: (string, Options, int) -> Result<Option<string>>)

  /** The order in which `transformString` visits the options of a field. `keyOrder` stands
      for the hash map's own iteration order; keys it names that the map lacks are not
      visited. */
  function VisitOrder(keyOrder: Options -> seq<string>, options: Options): (keys: seq<string>)
    ensures forall i :: 0 <= i < |keys| ==> keys[i] in options
    ensures IsKeyOrder(keyOrder(options), options) ==> keys == keyOrder(options)
  {
    var keys := keyOrder(options);
    if forall i :: 0 <= i < |keys| ==> keys[i] in options then keys else []
  }

  /** The helper's `transformString` is the option pipeline of `Transform`, visiting each
      options map in the order `keyOrder` gives. */
  ghost predicate TransformsBy(env: Env, keyOrder: Options -> seq<string>) {
    forall v, o, l :: env.transform(v, o, l) == Transformed(Some(v), VisitOrder(keyOrder, o), o, l)
  }

  /** What has been written, and the exception that ended the writing, if any. */
  datatype Written = Written(text: string, failure: Option<Exn>)

  const LENGTH_UNKNOWN := "Could not deduce field length"
  const CONVERSION_FAILED := "Exception getting/converting bean property"

  /** The field length `write` checks: the element's length where its getter has one, and null
      where it has none. */
  function WrittenLength(e: ElementFields): (r: Option<int>)
    ensures r.Some? <==> FieldLength(e).Ok?
    ensures r.Some? ==> r.value == FieldLength(e).value
  {
    match FieldLength(e)
    case Ok(n) => Some(n)
    case Err(_) => None
  }

  /** The text of the property a bean reference `bean.property` names: everything up to the
      first dot names the bean. A reference without a dot, a missing or null bean, and a failing
      getter or converter all end in a configuration exception. The converter may give null. */
  function PropertyText(env: Env, beanRef: string, typeName: Option<string>, options: Options): (r: Result<Option<string>>)
    ensures IndexOf(beanRef, '.') < 0 ==> r == Err(FlatwormConfigurationException([CONVERSION_FAILED]))
    ensures r.Err? ==> r.error == FlatwormConfigurationException([CONVERSION_FAILED])
  {
    var dot := IndexOf(beanRef, '.');
    if dot < 0 then Err(FlatwormConfigurationException([CONVERSION_FAILED]))
    else
      var name := beanRef[..dot];
      var bean := if name in env.beans then env.beans[name] else Null;
      if bean == Null then Err(FlatwormConfigurationException([CONVERSION_FAILED]))
      else match env.getProperty(bean, beanRef[dot + 1..])
        case Err(_) => Err(FlatwormConfigurationException([CONVERSION_FAILED]))
        case Ok(value) =>
          match env.toText(typeName, value, options)
          case Err(_) => Err(FlatwormConfigurationException([CONVERSION_FAILED]))
          case Ok(t) => Ok(t)
  }

  /** The value written for a record element: its property text (empty without a bean
      reference, and null read as empty), passed through `transformString` with the element's
      options and length. */
  function FieldValue(env: Env, e: ElementFields): (r: Result<Option<string>>)
    ensures WrittenLength(e).None? ==> r == Err(FlatwormConfigurationException([LENGTH_UNKNOWN]))
    ensures r.Ok? ==> WrittenLength(e).Some?
  {
    match WrittenLength(e)
    case None => Err(FlatwormConfigurationException([LENGTH_UNKNOWN]))
    case Some(length) =>
      var raw :- if e.beanRef.Some? then PropertyText(env, e.beanRef.value, e.typeName, e.conversionOptions) else Ok(Some(""));
      var val := if raw.None? then "" else raw.value;
      match env.transform(val, e.conversionOptions, length)
      case Ok(t) => Ok(t)
      case Err(_) => Err(FlatwormConfigurationException([CONVERSION_FAILED]))
  }

  /** Java string concatenation prints null as "null". */
  function Concatenable(v: Option<string>): string {
    if v.None? then "null" else v.value
  }

  /** What one record element adds: its value, followed by the delimiter when another element
      of the line comes after it. Writing a null value on its own throws, which the writer
      reports as a conversion failure. */
  function ElementText(env: Env, e: ElementFields, hasNext: bool, delimit: string): (r: Result<string>)
    ensures FieldValue(env, e).Err? ==> r == Err(FieldValue(env, e).error)
    ensures r.Ok? && hasNext ==> r.value == Concatenable(FieldValue(env, e).value) + delimit
    ensures r.Ok? && !hasNext ==> FieldValue(env, e).value.Some? && r.value == FieldValue(env, e).value.value
    ensures FieldValue(env, e).Ok? && FieldValue(env, e).value.Some? ==>
      r == Ok(if hasNext then FieldValue(env, e).value.value + delimit else FieldValue(env, e).value.value)
  {
    var v :- FieldValue(env, e);
    if hasNext then Ok(Concatenable(v) + delimit)
    else if v.None? then Err(FlatwormConfigurationException([CONVERSION_FAILED]))
    else Ok(v.value)
  }

  /** What each element of a line contributes: nothing for a segment element, otherwise its
      text or its failure. Segment elements count when deciding whether a field is the last. */
  function Outcomes(env: Env, es: seq<LegacyElement>, delimit: string): (r: seq<Option<Result<string>>>)
    ensures |r| == |es|
  {
    seq(|es|, k requires 0 <= k < |es| =>
      if es[k].Field? then Some(ElementText(env, es[k].field, k + 1 < |es|, delimit)) else None)
  }

  /** The first `n` elements of a line written out, stopping at the first failure. */
  function ElementsWritten(outs: seq<Option<Result<string>>>, n: nat): (w: Written)
    requires n <= |outs|
  {
    if n == 0 then Written("", None)
    else
      var w := ElementsWritten(outs, n - 1);
      if w.failure.Some? then w
      else match outs[n - 1]
        case None => w
        case Some(Ok(t)) => Written(w.text + t, None)
        case Some(Err(x)) => Written(w.text, Some(x))
  }

  /** The identifier strings, each followed by the delimiter. */
  function IdentText(ids: seq<string>, delimit: string): (r: string)
  {
    if ids == [] then "" else IdentText(ids[..|ids| - 1], delimit) + (ids[|ids| - 1] + delimit)
  }

  /** One line written out: the identifiers first when it is the record's first line, then its
      elements, then the record separator when there is one. */
  function LineWritten(env: Env, ids: seq<string>, separator: Option<string>, l: LineLayout, first: bool): (w: Written)
  {
    var delimit := l.delimiter.GetOr("");
    var head := if first then IdentText(ids, delimit) else "";
    var body := ElementsWritten(Outcomes(env, l.elements, delimit), |l.elements|);
    if body.failure.Some? then Written(head + body.text, body.failure)
    else Written(head + body.text + separator.GetOr(""), None)
  }

  /** Each line of a record written out on its own; only the first carries the identifiers. */
  function LineResults(env: Env, ids: seq<string>, separator: Option<string>, ls: seq<LineLayout>): (r: seq<Written>)
    ensures |r| == |ls|
  {
    seq(|ls|, i requires 0 <= i < |ls| => LineWritten(env, ids, separator, ls[i], i == 0))
  }

  /** The first `n` lines of a record written out, stopping at the first failure. */
  function LinesWritten(lines: seq<Written>, n: nat): (w: Written)
    requires n <= |lines|
  {
    if n == 0 then Written("", None)
    else
      var w := LinesWritten(lines, n - 1);
      if w.failure.Some? then w
      else Written(w.text + lines[n - 1].text, lines[n - 1].failure)
  }

  /** The layouts of a record's lines. */
  function Layouts(lines: seq<Line>): (r: seq<LineLayout>)
    reads set l | l in lines
    ensures |r| == |lines|
    ensures forall i :: 0 <= i < |lines| ==> r[i] == LineLayout(lines[i].delimiter, lines[i].elements)
  {
    seq(|lines|, i reads lines requires 0 <= i < |lines| => LineLayout(lines[i].delimiter, lines[i].elements))
  }

  // ---------------------------------------------------------------------------------------
  // properties of the written text
  // ---------------------------------------------------------------------------------------

  /** One more element written after a run without failure. */
  lemma ElementsStep(outs: seq<Option<Result<string>>>, j: nat)
    requires j < |outs| && ElementsWritten(outs, j).failure.None?
    ensures outs[j].None? ==> ElementsWritten(outs, j + 1) == ElementsWritten(outs, j)
    ensures outs[j].Some? && outs[j].value.Ok? ==>
      ElementsWritten(outs, j + 1) == Written(ElementsWritten(outs, j).text + outs[j].value.value, None)
    ensures outs[j].Some? && outs[j].value.Err? ==>
      ElementsWritten(outs, j + 1) == Written(ElementsWritten(outs, j).text, Some(outs[j].value.error))
  {
  }

  /** One more line written after lines without failure. */
  lemma LinesStep(lines: seq<Written>, i: nat)
    requires i < |lines| && LinesWritten(lines, i).failure.None?
    ensures LinesWritten(lines, i + 1) == Written(LinesWritten(lines, i).text + lines[i].text, lines[i].failure)
  {
  }

  /** Once writing the elements fails, the later elements add nothing. */
  lemma {:induction false} ElementsFailureSticks(outs: seq<Option<Result<string>>>, m: nat, n: nat)
    requires m <= n <= |outs|
    requires ElementsWritten(outs, m).failure.Some?
    ensures ElementsWritten(outs, n) == ElementsWritten(outs, m)
  {
    if n > m {
      ElementsFailureSticks(outs, m, n - 1);
    }
  }

  /** Once writing the lines fails, the later lines add nothing. */
  lemma {:induction false} LinesFailureSticks(lines: seq<Written>, m: nat, n: nat)
    requires m <= n <= |lines|
    requires LinesWritten(lines, m).failure.Some?
    ensures LinesWritten(lines, n) == LinesWritten(lines, m)
  {
    if n > m {
      LinesFailureSticks(lines, m, n - 1);
    }
  }

  /** Appending the n-th value (and what follows it) to the first n - 1 values joined, each
      followed by the delimiter, gives the first n values joined. */
  lemma JoinedStep(vals: seq<string>, delimit: string, n: nat, tail: string)
    requires 1 <= n <= |vals|
    ensures (if n == 1 then "" else Joined(vals[..n - 1], delimit) + delimit) + (vals[n - 1] + tail)
      == Joined(vals[..n], delimit) + tail
  {
    var v := vals[n - 1];
    SliceSnoc(vals, n);
    var prefix := vals[..n - 1];
    if n > 1 {
      JoinedSnoc(prefix, v, delimit);
      var j := Joined(prefix, delimit);
      AppendAssoc(j + delimit, v, tail);
      AppendAssoc(j, delimit, v);
    } else {
      assert vals[..n] == [v];
      assert "" + (v + tail) == v + tail;
    }
  }

  /** Elements that all write a value, followed by the delimiter unless last, are written as
      their values joined by the delimiter (and one more delimiter while the line goes on). */
  lemma {:induction false} JoinedPrefix(outs: seq<Option<Result<string>>>, vals: seq<string>, delimit: string, n: nat)
    requires |outs| == |vals| && n <= |outs|
    requires forall k :: 0 <= k < |outs| ==> outs[k] == Some(Ok(vals[k] + (if k + 1 < |outs| then delimit else "")))
    ensures ElementsWritten(outs, n) ==
      Written(if n == 0 then "" else Joined(vals[..n], delimit) + (if n < |outs| then delimit else ""), None)
  {
    if n > 0 {
      var tail := if n < |outs| then delimit else "";
      JoinedPrefix(outs, vals, delimit, n - 1);
      assert outs[n - 1] == Some(Ok(vals[n - 1] + tail));
      JoinedStep(vals, delimit, n, tail);
    }
  }

  /** The values of a line made of fields only, each of them non-null. */
  predicate PlainFields(env: Env, es: seq<LegacyElement>)
  {
    forall k :: 0 <= k < |es| ==> es[k].Field? && FieldValue(env, es[k].field).Ok? && FieldValue(env, es[k].field).value.Some?
  }

  function FieldValues(env: Env, es: seq<LegacyElement>): (r: seq<string>)
    requires PlainFields(env, es)
    ensures |r| == |es|
  {
    seq(|es|, k requires 0 <= k < |es| => FieldValue(env, es[k].field).value.value)
  }

  /** A line of non-null fields is written as its values with the delimiter between each two
      and none after the last. */
  lemma DelimitedLine(env: Env, es: seq<LegacyElement>, delimit: string)
    requires PlainFields(env, es)
    ensures ElementsWritten(Outcomes(env, es, delimit), |es|) == Written(Joined(FieldValues(env, es), delimit), None)
  {
    var outs := Outcomes(env, es, delimit);
    var vals := FieldValues(env, es);
    forall k | 0 <= k < |outs|
      ensures outs[k] == Some(Ok(vals[k] + (if k + 1 < |outs| then delimit else "")))
    {
      var t := ElementText(env, es[k].field, k + 1 < |es|, delimit);
      assert outs[k] == Some(t);
      assert vals[k] == FieldValue(env, es[k].field).value.value;
      assert k + 1 >= |es| ==> vals[k] + "" == vals[k];
    }
    JoinedPrefix(outs, vals, delimit, |es|);
    assert vals[..|es|] == vals;
  }

  /** A written field is never longer than a positive field length. */
  lemma FieldFitsLength(env: Env, keyOrder: Options -> seq<string>, e: ElementFields)
    requires TransformsBy(env, keyOrder)
    requires FieldValue(env, e).Ok? && FieldValue(env, e).value.Some?
    requires FieldLength(e).value > 0
    ensures |FieldValue(env, e).value.value| <= FieldLength(e).value
  {
    var length := FieldLength(e).value;
    var raw := if e.beanRef.Some? then PropertyText(env, e.beanRef.value, e.typeName, e.conversionOptions) else Ok(Some(""));
    var val := if raw.value.None? then "" else raw.value.value;
    var keys := VisitOrder(keyOrder, e.conversionOptions);
    TruncationBound(Some(val), keys, e.conversionOptions, length);
  }

  /** The identifiers head the first line of a record and no other. */
  lemma IdentifiersOnFirstLine(env: Env, ids: seq<string>, separator: Option<string>, ls: seq<LineLayout>, i: nat)
    requires i < |ls|
    ensures var lines := LineResults(env, ids, separator, ls);
      i == 0 ==> lines[i].text == IdentText(ids, ls[i].delimiter.GetOr("")) + LineWritten(env, ids, separator, ls[i], false).text
    ensures i > 0 ==> LineResults(env, ids, separator, ls)[i] == LineWritten(env, ids, separator, ls[i], false)
  {
  }

  /** Every line written in full ends with the record separator, and without a separator
      nothing follows the elements. */
  lemma SeparatorAfterLine(env: Env, ids: seq<string>, separator: Option<string>, l: LineLayout, first: bool)
    ensures var w := LineWritten(env, ids, separator, l, first);
      var body := ElementsWritten(Outcomes(env, l.elements, l.delimiter.GetOr("")), |l.elements|);
      var head := if first then IdentText(ids, l.delimiter.GetOr("")) else "";
      w.failure.None? ==> body.failure.None? && w.text == head + body.text + separator.GetOr("")
  {
  }

  /** The legacy writer: the file format it writes, the beans set on it, the record
      separator, and the text written so far. */
  class FileCreator {
    const ff: FileFormats.FileFormat
    var beans: map<string, Value>
    var recordSeparator: Option<string>
    var out: string

    constructor(ff: FileFormats.FileFormat)
      ensures this.ff == ff && beans == map[] && recordSeparator == None && out == ""
    {
      this.ff := ff;
      beans := map[];
      recordSeparator := None;
      out := "";
    }

    /** `setBean`: the bean under `name` is replaced, the others stay. */
    method SetBean(name: string, bean: Value)
      modifies this`beans
      ensures beans == old(beans)[name := bean]
    {
      beans := beans[name := bean];
    }

    /** `setRecordSeparator`. */
    method SetRecordSeparator(separator: Option<string>)
      modifies this`recordSeparator
      ensures recordSeparator == separator
    {
      recordSeparator := separator;
    }

    /** The identifier strings of the record, each followed by the delimiter. */
    method WriteIdents(ids: seq<string>, delimit: string)
      modifies this`out
      ensures out == old(out) + IdentText(ids, delimit)
    {
      ghost var start := out;
      var k := 0;
      assert start + "" == start;
      while k < |ids|
        invariant k <= |ids|
        invariant out == start + IdentText(ids[..k], delimit)
      {
        assert ids[..k + 1][..k] == ids[..k];
        var piece := ids[k] + delimit;
        AppendAssoc(start, IdentText(ids[..k], delimit), piece);
        out := out + piece;
        k := k + 1;
      }
      assert ids[..|ids|] == ids;
    }

    /** The elements of one line, each field's text in turn, stopping at the first failure. */
    method WriteElements(env: Env, es: seq<LegacyElement>, delimit: string) returns (failure: Option<Exn>)
      modifies this`out
      ensures var w := ElementsWritten(Outcomes(env, es, delimit), |es|);
        out == old(out) + w.text && failure == w.failure
    {
      ghost var outs := Outcomes(env, es, delimit);
      ghost var start := out;
      var j := 0;
      assert start + "" == start;
      while j < |es|
        invariant j <= |es|
        invariant ElementsWritten(outs, j).failure.None?
        invariant out == start + ElementsWritten(outs, j).text
      {
        if es[j].Field? {
          var t := ElementText(env, es[j].field, j + 1 < |es|, delimit);
          assert outs[j] == Some(t);
          ElementsStep(outs, j);
          if t.Err? {
            ElementsFailureSticks(outs, j + 1, |es|);
            return Some(t.error);
          }
          AppendAssoc(start, ElementsWritten(outs, j).text, t.value);
          out := out + t.value;
        } else {
          assert outs[j] == None;
          ElementsStep(outs, j);
        }
        j := j + 1;
      }
      failure := None;
    }

    /** One line: the identifiers when it is the first, its elements, and the record
        separator once the elements are written. */
    method WriteLine(env: Env, ids: seq<string>, line: LineLayout, first: bool) returns (failure: Option<Exn>)
      modifies this`out
      ensures var w := LineWritten(env, ids, recordSeparator, line, first);
        out == old(out) + w.text && failure == w.failure
    {
      var delimit := if line.delimiter.Some? then line.delimiter.value else "";
      ghost var start := out;
      ghost var head := if first then IdentText(ids, delimit) else "";
      if first {
        WriteIdents(ids, delimit);
      } else {
        assert start + "" == start;
      }
      assert out == start + head;
      failure := WriteElements(env, line.elements, delimit);
      ghost var body := ElementsWritten(Outcomes(env, line.elements, delimit), |line.elements|);
      AppendAssoc(start, head, body.text);
      if failure.None? {
        var separator := if recordSeparator.Some? then recordSeparator.value else "";
        AppendAssoc(start, head + body.text, separator);
        out := out + separator;
      }
    }

    /** `write(recordName)`: an unknown record throws before anything is written; otherwise
        the record's lines are written out in order, and a failure leaves what was written
        before it. */
    method Write(recordName: string, getProperty: (Value, string) -> Result<Value>,
                 toText: (Option<string>, Value, Options) -> Result<Option<string>>,
                 transform: (string, Options, int) -> Result<Option<string>>) returns (r: Result<()>)
      modifies this`out
      ensures ff.GetRecord(Some(recordName)).None? ==> r == Err(NullPointerException) && out == old(out)
      ensures ff.GetRecord(Some(recordName)).Some? ==>
        var record := ff.GetRecord(Some(recordName)).value;
        var w := LinesWritten(LineResults(Env(beans, getProperty, toText, transform), record.fieldIdentMatchStrings,
                                          recordSeparator, Layouts(record.lines)), |record.lines|);
        out == old(out) + w.text && r == (if w.failure.Some? then Err(w.failure.value) else Ok(()))
    {
      var found := ff.GetRecord(Some(recordName));
      if found.None? {
        return Err(NullPointerException);
      }
      var record := found.value;
      var layouts := Layouts(record.lines);
      var failure := WriteLines(Env(beans, getProperty, toText, transform), record.fieldIdentMatchStrings, layouts);
      r := if failure.Some? then Err(failure.value) else Ok(());
    }

    /** The lines of a record in order, stopping at the first line that fails. */
    method WriteLines(env: Env, ids: seq<string>, lines: seq<LineLayout>) returns (failure: Option<Exn>)
      modifies this`out
      ensures var w := LinesWritten(LineResults(env, ids, recordSeparator, lines), |lines|);
        out == old(out) + w.text && failure == w.failure
    {
      ghost var results := LineResults(env, ids, recordSeparator, lines);
      ghost var start := out;
      assert start + "" == start;
      var first := true;
      var i := 0;
      while i < |lines|
        invariant i <= |lines| && first == (i == 0)
        invariant LinesWritten(results, i).failure.None?
        invariant out == start + LinesWritten(results, i).text
      {
        var f := WriteLine(env, ids, lines[i], first);
        assert results[i] == LineWritten(env, ids, recordSeparator, lines[i], first);
        LinesStep(results, i);
        AppendAssoc(start, LinesWritten(results, i).text, results[i].text);
        if f.Some? {
          LinesFailureSticks(results, i + 1, |lines|);
          return f;
        }
        first := false;
        i := i + 1;
      }
      failure := None;
    }
  }
}
