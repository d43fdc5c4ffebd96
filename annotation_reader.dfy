/** `config.impl.DefaultAnnotationConfigurationReaderImpl`: the configuration read from annotated
    classes. Reflection is a table of class descriptions. The records, lines and segments the
    reader creates are kept in tables of the reader and referred to by position, so that the
    record cache, the file format, the lines and the deque share them as the Java objects are
    shared. */
module AnnotationReader {
  import opened Wrappers
  import opened JavaText
  import JavaNumbers
  import opened Util
  import opened LineElements
  import opened Identities
  import FieldIdentities
  import LengthIdentities
  import ConversionHelpers
  import CRI = ConfigReaderImpl

  // The annotations, as reflection reports them.

  /** `@LengthIdentity`. */
  datatype LengthAnnotation = LengthAnnotation(apply: bool, minLength: int, maxLength: int)

  /** `@FieldIdentity`. */
  datatype FieldAnnotation = FieldAnnotation(
    apply: bool, ignoreCase: bool, startPosition: int, fieldLength: int, matchIdentities: seq<string>)

  /** The script identity of `@Record`: engine, script and function name. */
  datatype ScriptAnnotation = ScriptAnnotation(apply: bool, scriptEngine: string, script: string, scriptMethod: string)

  /** `@Converter`, its classes given by name. */
  datatype ConverterAnnotation = ConverterAnnotation(clazz: string, name: string, returnType: string, methodName: string)

  /** `@Line`. */
  datatype LineAnnotation = LineAnnotation(id: string, delimiter: string, quoteCharacter: char)

  /** `@Record`. */
  datatype RecordAnnotation = RecordAnnotation(
    name: string, encoding: string, lengthIdentity: LengthAnnotation, fieldIdentity: FieldAnnotation,
    scriptIdentity: ScriptAnnotation, converters: seq<ConverterAnnotation>, lines: seq<LineAnnotation>)

  /** `@ConversionOption`. */
  datatype OptionAnnotation = OptionAnnotation(name: string, option: string)

  /** `@RecordElement`; a length or position of -1 is unset. */
  datatype ElementAnnotation = ElementAnnotation(
    lineId: string, converterName: string, order: int, length: int, startPosition: int, endPosition: int,
    conversionOptions: seq<OptionAnnotation>)

  /** `@SegmentElement`. */
  datatype SegmentAnnotation = SegmentAnnotation(
    lineId: string, order: int, cardinalityMode: CardinalityMode, minCount: int, maxCount: int, fieldIdentity: FieldAnnotation)

  /** A declared field: its name, its annotations, the class `Util.getActualFieldType` gives for
      it (the element class of a collection or an array; possibly null), and whether the
      declared type is a collection or an array. */
  datatype FieldInfo = FieldInfo(
    name: string, element: Option<ElementAnnotation>, segment: Option<SegmentAnnotation>,
    actualType: Option<string>, isCollectionOrArray: bool)

  /** A class: its `@Record`, the record class its `@RecordLink` names, and its declared fields. */
  datatype ClassInfo = ClassInfo(record: Option<RecordAnnotation>, recordLink: Option<string>, fields: seq<FieldInfo>)

  /** What the reader reaches outside itself: the classes by name, the script engines that can
      be found, whether an engine evaluates a script, and the lines a scriptlet accepts. */
  datatype Env = Env(
    classes: map<string, ClassInfo>, engines: set<string>, evaluates: (string, string) -> bool,
    accepts: Scriptlet -> iset<Option<string>>)

  /** Every field class a described class names is described too. */
  predicate Closed(env: Env) {
    forall c, i | c in env.classes && 0 <= i < |env.classes[c].fields| && env.classes[c].fields[i].actualType.Some? ::
      env.classes[c].fields[i].actualType.value in env.classes
  }

  // What the reader builds.

  /** `BeanBO` as the reader registers it: a bean named after its class. */
  datatype BeanDef = BeanDef(beanName: string, beanClass: string)

  /** A `RecordBO` with its `RecordDefinitionBO`: the beans by name and the lines, by position
      in the line table. */
  datatype RecordState = RecordState(name: string, recordIdentity: Option<Identity>, beans: map<string, BeanDef>, lines: seq<nat>)

  /** An element of a `LineElementCollection`: a record element's value, or a segment by its
      position in the segment table (the segment object is shared, so what is added to it
      later is seen through the collection). */
  datatype Member = ElementMember(element: RecordElementValue) | SegmentMember(segment: nat)

  /** A `LineBO` as this reader fills it. */
  datatype LineState = LineState(id: string, delimiter: string, quoteChar: char, index: int, elements: seq<Member>)

  /** A `SegmentElementBO`. */
  datatype SegmentState = SegmentState(
    fieldIdentity: Option<FieldIdentities.FieldIdentityValue>, order: Option<int>, cardinality: Option<Cardinality>,
    elements: seq<Member>)

  /** A `LineElementCollection`: a line or a segment, by position in its table. */
  datatype Collection = LineCollection(line: nat) | SegmentCollection(segment: nat)

  /** The settings of a segment, which only the call that creates it writes. */
  function SettingsOf(s: SegmentState): (Option<FieldIdentities.FieldIdentityValue>, Option<int>, Option<Cardinality>) {
    (s.fieldIdentity, s.order, s.cardinality)
  }

  /** The collection an element goes to: the segment on top of the deque, or the line when the
      deque is empty; none when the deque is empty and no line has the id. */
  function TargetOf(deque: seq<nat>, line: Option<nat>): (t: Option<Collection>)
    ensures deque != [] ==> t == Some(SegmentCollection(deque[|deque| - 1]))
    ensures deque == [] ==> (t.Some? <==> line.Some?) && (line.Some? ==> t == Some(LineCollection(line.value)))
  {
    if deque != [] then Some(SegmentCollection(deque[|deque| - 1]))
    else if line.Some? then Some(LineCollection(line.value))
    else None
  }

  /** `lineCache.get(id)`. */
  function Lookup(cache: map<string, nat>, id: string): Option<nat> {
    if id in cache then Some(cache[id]) else None
  }

  // The retry list.

  /** `isValidRetryList`: a non-empty list is retried when it differs in size from the last one,
      or when it holds a class the last one did not. */
  predicate ValidRetry(last: seq<string>, toReprocess: seq<string>) {
    toReprocess != [] && (|last| != |toReprocess| || exists i :: 0 <= i < |toReprocess| && toReprocess[i] !in last)
  }

  /** The loop with its flag and early exit. */
  method IsValidRetryList(last: seq<string>, toReprocess: seq<string>) returns (isValid: bool)
    ensures isValid == ValidRetry(last, toReprocess)
  {
    isValid := false;
    if toReprocess != [] {
      if |last| == |toReprocess| {
        var i := 0;
        while i < |toReprocess|
          invariant 0 <= i <= |toReprocess|
          invariant !isValid
          invariant forall j :: 0 <= j < i ==> toReprocess[j] in last
        {
          if toReprocess[i] !in last {
            isValid := true;
            break;
          }
          i := i + 1;
        }
      } else {
        isValid := true;
      }
    }
  }

  /** The first pass retries whatever it could not load; the same list is never retried twice in
      a row; and a valid retry of a list drawn from the classes of its own pass is shorter than
      that list, which bounds the retries. */
  lemma {:induction false} RetryShrinks(classes: seq<string>, toReprocess: seq<string>)
    requires forall c :: c in toReprocess ==> c in classes
    requires |toReprocess| <= |classes|
    ensures ValidRetry([], toReprocess) <==> toReprocess != []
    ensures !ValidRetry(toReprocess, toReprocess)
    ensures ValidRetry(classes, toReprocess) ==> |toReprocess| < |classes|
  {
  }

  /** Whether a class goes on the retry list: an unloaded linked record, or a configuration error. */
  predicate Retried(o: Result<bool>) {
    o == Ok(true) || (o.Err? && o.error.FlatwormConfigurationException?)
  }

  /** The retry list a pass builds from the outcome for each of its classes, in order. */
  function Reprocessed(classes: seq<string>, outcomes: seq<Result<bool>>): seq<string>
    requires |classes| == |outcomes|
    decreases |classes|
  {
    if classes == [] then []
    else
      var n := |classes| - 1;
      Reprocessed(classes[..n], outcomes[..n]) + (if Retried(outcomes[n]) then [classes[n]] else [])
  }

  /** The retry list holds exactly the classes whose outcome retries them, and is no longer than
      the list of classes. */
  lemma {:induction false} ReprocessedRule(classes: seq<string>, outcomes: seq<Result<bool>>)
    requires |classes| == |outcomes|
    ensures |Reprocessed(classes, outcomes)| <= |classes|
    ensures forall c :: c in Reprocessed(classes, outcomes) <==> exists i :: 0 <= i < |classes| && classes[i] == c && Retried(outcomes[i])
    decreases |classes|
  {
    if classes != [] {
      var n := |classes| - 1;
      ReprocessedRule(classes[..n], outcomes[..n]);
      forall c
        ensures c in Reprocessed(classes, outcomes) <==> exists i :: 0 <= i < |classes| && classes[i] == c && Retried(outcomes[i])
      {
        if exists i :: 0 <= i < |classes| && classes[i] == c && Retried(outcomes[i]) {
          var i :| 0 <= i < |classes| && classes[i] == c && Retried(outcomes[i]);
          if i < n {
            assert classes[..n][i] == c && outcomes[..n][i] == outcomes[i];
          }
        }
        if c in Reprocessed(classes[..n], outcomes[..n]) {
          var i :| 0 <= i < n && classes[..n][i] == c && Retried(outcomes[..n][i]);
          assert classes[i] == c && Retried(outcomes[i]);
        }
      }
    }
  }

  const UNRESOLVABLE := "Unable to complete loading configuration as the following classes provided are not resolvable for a number of reasons. Ensure that all Records and RecordLinks are properly defined. All classes involved must either have a Record annotation or a RecordLink annotation."

  /** `List.toString` of the classes ("class " and the name, for a class). */
  function ClassList(classes: seq<string>): string {
    "[" + Joined(seq(|classes|, i requires 0 <= i < |classes| => "class " + classes[i]), ", ") + "]"
  }

  /** The error of a retry list that may not be retried. */
  function UnresolvableError(toReprocess: seq<string>): Exn {
    FlatwormConfigurationException([UNRESOLVABLE + "\n" + ClassList(toReprocess)])
  }

  // Identities.

  /** The matching strings `addMatchingString` leaves for the given strings. */
  function Folds(ignoreCase: bool, ms: seq<string>): set<string>
    decreases |ms|
  {
    if ms == [] then {} else Folds(ignoreCase, ms[..|ms| - 1]) + {FieldIdentities.Folded(ignoreCase, ms[|ms| - 1])}
  }

  /** An identity string is stored exactly when one of the given strings folds to it. */
  lemma {:induction false} FoldsRule(ignoreCase: bool, ms: seq<string>, x: string)
    ensures x in Folds(ignoreCase, ms) <==> exists k :: 0 <= k < |ms| && x == FieldIdentities.Folded(ignoreCase, ms[k])
    decreases |ms|
  {
    if ms != [] {
      var n := |ms| - 1;
      FoldsRule(ignoreCase, ms[..n], x);
      if exists k :: 0 <= k < |ms| && x == FieldIdentities.Folded(ignoreCase, ms[k]) {
        var k :| 0 <= k < |ms| && x == FieldIdentities.Folded(ignoreCase, ms[k]);
        if k < n {
          assert ms[..n][k] == ms[k];
        }
      }
      if x in Folds(ignoreCase, ms[..n]) {
        var k :| 0 <= k < n && x == FieldIdentities.Folded(ignoreCase, ms[..n][k]);
        assert ms[k] == ms[..n][k];
      }
    }
  }

  /** `loadFieldIdentity`: the field identity an annotation describes. */
  function FieldIdentityOf(a: FieldAnnotation): FieldIdentities.FieldIdentityValue {
    FieldIdentities.FieldIdentityValue(Some(a.startPosition), Some(a.fieldLength), Folds(a.ignoreCase, a.matchIdentities), a.ignoreCase)
  }

  /** The positions are set, every match identity matches as a token text, and nothing else does. */
  lemma FieldIdentityMatches(a: FieldAnnotation, token: string)
    ensures FieldIdentityOf(a).startPosition == Some(a.startPosition) && FieldIdentityOf(a).fieldLength == Some(a.fieldLength)
    ensures FieldIdentities.StringMatches(FieldIdentityOf(a), token) <==>
      exists k :: 0 <= k < |a.matchIdentities| && FieldIdentities.Folded(a.ignoreCase, token) == FieldIdentities.Folded(a.ignoreCase, a.matchIdentities[k])
    ensures token in a.matchIdentities ==> FieldIdentities.StringMatches(FieldIdentityOf(a), token)
  {
    FoldsRule(a.ignoreCase, a.matchIdentities, FieldIdentities.Folded(a.ignoreCase, token));
    if token in a.matchIdentities {
      var k :| 0 <= k < |a.matchIdentities| && a.matchIdentities[k] == token;
      assert FieldIdentities.Folded(a.ignoreCase, token) == FieldIdentities.Folded(a.ignoreCase, a.matchIdentities[k]);
    }
  }

  /** `loadFieldIdentity`: a new identity, its positions set and each match identity added in turn. */
  method LoadFieldIdentity(a: FieldAnnotation) returns (f: FieldIdentities.FieldIdentityImpl)
    ensures fresh(f) && f.View() == FieldIdentityOf(a)
  {
    f := new FieldIdentities.FieldIdentityImpl(a.ignoreCase);
    f.startPosition := Some(a.startPosition);
    f.fieldLength := Some(a.fieldLength);
    var ms := a.matchIdentities;
    var i := 0;
    while i < |ms|
      invariant 0 <= i <= |ms|
      invariant f.View() == FieldIdentities.FieldIdentityValue(Some(a.startPosition), Some(a.fieldLength), Folds(a.ignoreCase, ms[..i]), a.ignoreCase)
    {
      assert ms[..i + 1][..i] == ms[..i];
      f.AddMatchingString(ms[i]);
      i := i + 1;
    }
    assert ms[..i] == ms;
  }

  const ENGINE_NOT_FOUND := " ScriptEngine could not be found by the given name."

  /** The message of `ScriptletBO` for an engine it cannot find. */
  function EngineNotFound(engine: string): string {
    "The " + engine + ENGINE_NOT_FOUND
  }

  /** The script identity: `ScriptletBO(engine, function)` with a blank engine or function
      replaced by its default and an engine that cannot be found rejected, then `setScript`,
      which rejects a script the engine cannot evaluate. */
  function ScriptIdentityOf(env: Env, a: ScriptAnnotation): Result<Identity> {
    var engine := if Blank(a.scriptEngine) then CRI.DEFAULT_SCRIPT_ENGINE else a.scriptEngine;
    var function_ := if Blank(a.scriptMethod) then CRI.DEFAULT_SCRIPT_FUNCTION else a.scriptMethod;
    if engine !in env.engines then
      Err(FlatwormConfigurationException([EngineNotFound(engine)]))
    else if !env.evaluates(engine, a.script) then
      Err(FlatwormConfigurationException([]))
    else
      var s := Scriptlet(engine, Some(a.script), None, function_);
      Ok(Script(env.accepts(s), s))
  }

  /** `loadRecordIdentity`'s identity. */
  function IdentityOf(env: Env, a: RecordAnnotation): Result<Option<Identity>> {
    if a.lengthIdentity.apply then
      Ok(Some(Length(LengthIdentities.LengthIdentityValue(Some(a.lengthIdentity.minLength), Some(a.lengthIdentity.maxLength)))))
    else if a.fieldIdentity.apply then
      Ok(Some(Field(FieldIdentityOf(a.fieldIdentity))))
    else if a.scriptIdentity.apply then
      var s :- ScriptIdentityOf(env, a.scriptIdentity);
      Ok(Some(s))
    else
      Ok(None)
  }

  /** The applied identities take precedence length, field, script, as in the XML reader's order
      of identity kinds; with none applied the record has no identity. Only a script identity
      can fail, and then with a configuration error; any identity loaded is configured, so
      matching a line with it never unboxes a null. */
  lemma IdentityPrecedence(env: Env, a: RecordAnnotation)
    ensures var r := IdentityOf(env, a);
      && (r.Ok? && r.value.Some? <==> a.lengthIdentity.apply || a.fieldIdentity.apply || (a.scriptIdentity.apply && ScriptIdentityOf(env, a.scriptIdentity).Ok?))
      && (r.Ok? && r.value.Some? ==>
            CRI.KindOf(r.value.value) ==
            (if a.lengthIdentity.apply then CRI.IDENT_KINDS[0] else if a.fieldIdentity.apply then CRI.IDENT_KINDS[1] else CRI.IDENT_KINDS[2]))
      && (r.Ok? && r.value.Some? ==> Configured(r.value.value))
      && (a.lengthIdentity.apply ==> r.value.value.length.minLength == Some(a.lengthIdentity.minLength) && r.value.value.length.maxLength == Some(a.lengthIdentity.maxLength))
      && (!a.lengthIdentity.apply && a.fieldIdentity.apply ==> r.value.value.field == FieldIdentityOf(a.fieldIdentity))
      && (r.Err? <==> !a.lengthIdentity.apply && !a.fieldIdentity.apply && a.scriptIdentity.apply && ScriptIdentityOf(env, a.scriptIdentity).Err?)
      && (r.Err? ==> r.error.FlatwormConfigurationException?)
      && (!a.lengthIdentity.apply && !a.fieldIdentity.apply && !a.scriptIdentity.apply ==> r == Ok(None))
  {
  }

  /** A script identity fails exactly when its engine cannot be found or cannot evaluate the
      script; otherwise a blank engine or function takes its default and the identity accepts
      the lines the scriptlet accepts. */
  lemma ScriptIdentityRule(env: Env, a: ScriptAnnotation)
    ensures var engine := if Blank(a.scriptEngine) then CRI.DEFAULT_SCRIPT_ENGINE else a.scriptEngine;
      && (ScriptIdentityOf(env, a).Err? <==> engine !in env.engines || !env.evaluates(engine, a.script))
      && (engine !in env.engines ==>
            ScriptIdentityOf(env, a) == Err(FlatwormConfigurationException([EngineNotFound(engine)])))
      && (ScriptIdentityOf(env, a).Ok? ==>
            var s := ScriptIdentityOf(env, a).value.scriptlet;
            && s.engineName == engine && s.script == Some(a.script)
            && (Blank(a.scriptMethod) ==> s.functionName == CRI.DEFAULT_SCRIPT_FUNCTION)
            && (!Blank(a.scriptMethod) ==> s.functionName == a.scriptMethod)
            && forall line :: MatchesIdentity(ScriptIdentityOf(env, a).value, line) == Ok(line in env.accepts(s)))
  {
  }

  // Record elements.

  /** The conversion options added one after another, keyed by name. */
  function OptionsOf(os: seq<OptionAnnotation>): map<string, ConversionOption>
    decreases |os|
  {
    if os == [] then map[]
    else
      var o := os[|os| - 1];
      OptionsOf(os[..|os| - 1])[o.name := ConversionOption(o.name, Some(o.option))]
  }

  /** An option name is kept exactly when some option has it. */
  lemma {:induction false} OptionsKeys(os: seq<OptionAnnotation>, k: string)
    ensures k in OptionsOf(os) <==> exists i :: 0 <= i < |os| && os[i].name == k
    decreases |os|
  {
    if os != [] {
      var n := |os| - 1;
      OptionsKeys(os[..n], k);
      if os[n].name != k && exists i :: 0 <= i < |os| && os[i].name == k {
        var i :| 0 <= i < |os| && os[i].name == k;
        assert os[..n][i] == os[i];
      }
      if k in OptionsOf(os[..n]) {
        var i :| 0 <= i < n && os[..n][i].name == k;
        assert os[i] == os[..n][i];
      }
    }
  }

  /** The last option of a kept name wins. */
  lemma {:induction false} OptionsLastWins(os: seq<OptionAnnotation>, k: string)
    ensures k in OptionsOf(os) ==>
      exists i :: (0 <= i < |os| && os[i].name == k && OptionsOf(os)[k] == ConversionOption(k, Some(os[i].option))
        && forall j :: i < j < |os| ==> os[j].name != k)
    decreases |os|
  {
    if os != [] {
      var n := |os| - 1;
      if os[n].name == k {
        assert OptionsOf(os)[k] == ConversionOption(k, Some(os[n].option));
      } else {
        OptionsLastWins(os[..n], k);
        if k in OptionsOf(os[..n]) {
          var i :| 0 <= i < n && os[..n][i].name == k && OptionsOf(os[..n])[k] == ConversionOption(k, Some(os[..n][i].option))
            && forall j :: i < j < n ==> os[..n][j].name != k;
          assert os[i] == os[..n][i];
          assert forall j :: i < j < |os| ==> os[j].name != k by {
            forall j | i < j < |os| ensures os[j].name != k {
              if j < n { assert os[j] == os[..n][j]; }
            }
          }
        }
      }
    }
  }

  /** The record element `loadRecordElement` builds: the bean reference is the class name and the
      field name joined by a dot, held by a `new CardinalityBO()`; a length or position of -1 is
      left unset. */
  function ElementOf(clazz: string, field: string, a: ElementAnnotation): RecordElementValue {
    RecordElementValue(
      if a.endPosition != -1 then Some(a.endPosition) else None,
      if a.startPosition != -1 then Some(a.startPosition) else None,
      if a.length != -1 then Some(a.length) else None,
      Some(DEFAULT_CARDINALITY.(beanRef := Some(clazz + "." + field))),
      Some(a.converterName), false, Some(a.order), OptionsOf(a.conversionOptions))
  }

  /** A length or position is set exactly when the annotation gives one other than -1, and then
      it is the annotation's; the bean reference is `class.field`. */
  lemma ElementRule(clazz: string, field: string, a: ElementAnnotation)
    ensures var e := ElementOf(clazz, field, a);
      && (e.fieldLength.Some? <==> a.length != -1) && (e.fieldLength.Some? ==> e.fieldLength.value == a.length)
      && (e.fieldStart.Some? <==> a.startPosition != -1) && (e.fieldStart.Some? ==> e.fieldStart.value == a.startPosition)
      && (e.fieldEnd.Some? <==> a.endPosition != -1) && (e.fieldEnd.Some? ==> e.fieldEnd.value == a.endPosition)
      && BeanRef(e.cardinality) == Some(clazz + "." + field)
      && e.order == Some(a.order) && e.converterName == Some(a.converterName) && !e.ignoreField
  {
  }

  /** Split at its last dot, the bean reference of an element names the class's bean and the
      field as its property, as the XML reader splits a `beanref`. */
  lemma {:induction false} BeanRefSplits(clazz: string, field: string, a: ElementAnnotation)
    requires '.' !in field
    ensures var c := CRI.SplitBeanRef(ElementOf(clazz, field, a).cardinality.value);
      c.beanRef == Some(clazz) && c.propertyName == Some(field)
  {
    var s := clazz + "." + field;
    var k := LastIndexOf(s, '.');
    assert s[|clazz|] == '.';
    assert !IsWhitespace(s[|clazz|]);
    assert !IsBlank(Some(s));
    assert s[|clazz| + 1..] == field;
    assert k == |clazz|;
    assert s[..k] == clazz;
  }

  /** `BeanBO` registration: the class's bean is added when it is missing and kept otherwise. */
  function BeansWith(beans: map<string, BeanDef>, clazz: string): map<string, BeanDef> {
    if clazz in beans then beans else beans[clazz := BeanDef(clazz, clazz)]
  }

  /** The bean is registered after the first element of a class and never again: registering is
      idempotent, keeps every existing bean, and adds only the class's key. */
  lemma BeanRegisteredOnce(beans: map<string, BeanDef>, clazz: string)
    ensures clazz in BeansWith(beans, clazz)
    ensures BeansWith(BeansWith(beans, clazz), clazz) == BeansWith(beans, clazz)
    ensures BeansWith(beans, clazz).Keys == beans.Keys + {clazz}
    ensures forall k :: k in beans ==> BeansWith(beans, clazz)[k] == beans[k]
    ensures clazz !in beans ==> BeansWith(beans, clazz)[clazz] == BeanDef(clazz, clazz)
  {
  }

  /** `LineBO.addLineElement` for a record element: one without an order is numbered one past
      the line's element count. */
  function WithElement(l: LineState, e: RecordElementValue): LineState {
    l.(elements := l.elements + [ElementMember(if e.order.None? then e.(order := Some(|l.elements| + 1)) else e)])
  }

  /** `new RecordElementBO()` with the annotation's settings, then each conversion option in turn. */
  method BuildRecordElement(clazz: string, field: string, a: ElementAnnotation) returns (re: RecordElementBO)
    ensures fresh(re) && re.View() == ElementOf(clazz, field, a)
  {
    re := new RecordElementBO();
    re.SetCardinality(Some(DEFAULT_CARDINALITY.(beanRef := Some(clazz + "." + field))));
    re.SetConverterName(Some(a.converterName));
    re.order := Some(a.order);
    if a.length != -1 {
      re.SetFieldLength(Some(a.length));
    }
    if a.startPosition != -1 {
      re.SetFieldStart(Some(a.startPosition));
    }
    if a.endPosition != -1 {
      re.SetFieldEnd(Some(a.endPosition));
    }
    var os := a.conversionOptions;
    var i := 0;
    while i < |os|
      invariant 0 <= i <= |os|
      invariant re.View() == ElementOf(clazz, field, a).(conversionOptions := OptionsOf(os[..i]))
    {
      assert os[..i + 1][..i] == os[..i];
      re.AddConversionOption(os[i].name, ConversionOption(os[i].name, Some(os[i].option)));
      i := i + 1;
    }
    assert os[..i] == os;
  }

  // Segments.

  /** The cardinality of a segment: the owning class is the parent bean, the field the property
      and the field's class the bean; a collection or array field takes the annotation's mode
      and counts, any other field is SINGLE with the default counts. */
  function SegmentCardinalityOf(clazz: string, f: FieldInfo, fieldType: string, a: SegmentAnnotation): Cardinality {
    var c := DEFAULT_CARDINALITY.(parentBeanRef := Some(clazz), propertyName := Some(f.name), beanRef := Some(fieldType));
    if f.isCollectionOrArray then c.(cardinalityMode := Some(a.cardinalityMode), minCount := Some(a.minCount), maxCount := Some(a.maxCount))
    else c.(cardinalityMode := Some(SINGLE))
  }

  lemma SegmentCardinalityRule(clazz: string, f: FieldInfo, fieldType: string, a: SegmentAnnotation)
    ensures var c := SegmentCardinalityOf(clazz, f, fieldType, a);
      && c.parentBeanRef == Some(clazz) && c.propertyName == Some(f.name) && c.beanRef == Some(fieldType)
      && (f.isCollectionOrArray ==> c.cardinalityMode == Some(a.cardinalityMode) && c.minCount == Some(a.minCount) && c.maxCount == Some(a.maxCount))
      && (!f.isCollectionOrArray ==> c.cardinalityMode == Some(SINGLE) && c.minCount == Some(JavaNumbers.INT_MIN) && c.maxCount == Some(JavaNumbers.INT_MAX))
  {
  }

  /** Whether reflection finds `@Record` or `@RecordLink` on a class. */
  predicate IsRecordType(c: ClassInfo) {
    c.record.Some? || c.recordLink.Some?
  }

  const SEGMENT_ELEMENT := "com.blackbear.flatworm.annotations.SegmentElement"
  const RECORD_LINK := "com.blackbear.flatworm.annotations.RecordLink"
  const RECORD := "com.blackbear.flatworm.annotations.Record"

  function NotARecordType(clazz: string, fieldType: string): Exn {
    FlatwormConfigurationException(["Class " + clazz + " has a " + SEGMENT_ELEMENT + " defined with type " + fieldType
      + ", which must have a " + RECORD_LINK + " or " + RECORD + " annotation."])
  }

  // Lines and converters.

  /** `loadConverter`. */
  function ConverterOf(c: ConverterAnnotation): ConversionHelpers.Converter {
    ConversionHelpers.Converter(c.name, c.clazz, c.methodName, c.returnType)
  }

  function ConvertersOf(cs: seq<ConverterAnnotation>): (r: seq<ConversionHelpers.Converter>)
    ensures |r| == |cs| && forall i :: 0 <= i < |cs| ==> r[i] == ConverterOf(cs[i])
    decreases |cs|
  {
    if cs == [] then [] else ConvertersOf(cs[..|cs| - 1]) + [ConverterOf(cs[|cs| - 1])]
  }

  /** The line for a `@Line`, numbered by `addLine` one past the record's line count. */
  function LineOf(a: LineAnnotation, index: int): LineState {
    LineState(a.id, a.delimiter, a.quoteCharacter, index, [])
  }

  /** The line cache after the lines were put in turn, the first at table position `start`. */
  function LinesCached(cache: map<string, nat>, ls: seq<LineAnnotation>, start: nat): map<string, nat>
    decreases |ls|
  {
    if ls == [] then cache
    else LinesCached(cache, ls[..|ls| - 1], start)[ls[|ls| - 1].id := start + |ls| - 1]
  }

  /** An id is cached exactly when it was or some line has it. */
  lemma {:induction false} LinesCachedKeys(cache: map<string, nat>, ls: seq<LineAnnotation>, start: nat, k: string)
    ensures k in LinesCached(cache, ls, start) <==> k in cache || exists j :: 0 <= j < |ls| && ls[j].id == k
    decreases |ls|
  {
    if ls != [] {
      var n := |ls| - 1;
      var prefix := ls[..n];
      LinesCachedKeys(cache, prefix, start, k);
      assert forall j :: 0 <= j < n ==> prefix[j] == ls[j];
    }
  }

  /** An id no line has keeps its entry. */
  lemma {:induction false} LinesCachedKept(cache: map<string, nat>, ls: seq<LineAnnotation>, start: nat, k: string)
    requires k in cache && forall j :: 0 <= j < |ls| ==> ls[j].id != k
    ensures k in LinesCached(cache, ls, start) && LinesCached(cache, ls, start)[k] == cache[k]
    decreases |ls|
  {
    if ls != [] {
      var n := |ls| - 1;
      var prefix := ls[..n];
      assert forall j :: 0 <= j < n ==> prefix[j] == ls[j];
      LinesCachedKept(cache, prefix, start, k);
    }
  }

  /** An id some line has is cached for the last line with that id. */
  lemma {:induction false} LinesCachedLast(cache: map<string, nat>, ls: seq<LineAnnotation>, start: nat, j: nat)
    requires j < |ls| && forall i :: j < i < |ls| ==> ls[i].id != ls[j].id
    ensures ls[j].id in LinesCached(cache, ls, start) && LinesCached(cache, ls, start)[ls[j].id] == start + j
    decreases |ls|
  {
    var n := |ls| - 1;
    if j < n {
      var prefix := ls[..n];
      assert forall i :: 0 <= i < n ==> prefix[i] == ls[i];
      LinesCachedLast(cache, prefix, start, j);
    }
  }

  /** Line cache entries stay below the table size. */
  lemma {:induction false} LinesCachedBounded(cache: map<string, nat>, ls: seq<LineAnnotation>, start: nat, bound: nat)
    requires forall k :: k in cache ==> cache[k] < bound
    requires start + |ls| <= bound
    ensures forall k :: k in LinesCached(cache, ls, start) ==> LinesCached(cache, ls, start)[k] < bound
    decreases |ls|
  {
    if ls != [] {
      LinesCachedBounded(cache, ls[..|ls| - 1], start, bound);
    }
  }

  /** The positions `from`, `from + 1`, ... of `n` table entries. */
  function Positions(from: nat, n: nat): (r: seq<nat>)
    ensures |r| == n && forall i :: 0 <= i < n ==> r[i] == from + i
  {
    seq(n, i requires 0 <= i < n => from + i)
  }

  /** An element was put into the collection found for it and nowhere else; with no collection
      found it is dropped. */
  predicate Placed(lines0: seq<LineState>, segments0: seq<SegmentState>, lines1: seq<LineState>,
                   segments1: seq<SegmentState>, target: Option<Collection>, e: RecordElementValue)
  {
    match target
    case None => lines1 == lines0 && segments1 == segments0
    case Some(LineCollection(l)) =>
      l < |lines0| && lines1 == lines0[l := WithElement(lines0[l], e)] && segments1 == segments0
    case Some(SegmentCollection(s)) =>
      s < |segments0| && lines1 == lines0
      && segments1 == segments0[s := segments0[s].(elements := segments0[s].elements + [ElementMember(e)])]
  }

  /** The reader: its caches, its deque of open segments, the settings of the file format it is
      building, and the tables of what it has created. */
  class Reader {
    var recordCache: map<string, nat>
    var lineCache: map<string, nat>
    var lineElementDeque: seq<nat>
    var performValidation: bool
    var onFirstPassFlag: bool
    // What the file format has been given.
    var encoding: Option<string>
    var formatRecords: seq<nat>
    var formatConverters: seq<ConversionHelpers.Converter>
    // The records, lines and segments created so far.
    var records: seq<RecordState>
    var lines: seq<LineState>
    var segments: seq<SegmentState>

    /** Every cached record and line and every segment on the deque is a table entry. */
    predicate Valid()
      reads this
    {
      && (forall k :: k in recordCache ==> recordCache[k] < |records|)
      && (forall k :: k in lineCache ==> lineCache[k] < |lines|)
      && (forall i :: 0 <= i < |lineElementDeque| ==> lineElementDeque[i] < |segments|)
    }

    /** What every operation keeps: tables only grow, beans are never dropped, elements are only
        appended, a segment's settings and a record's name and identity are written only by the
        call that creates them, the file format's records are only appended to, the first-pass
        flag once set stays set, and the deque never loses what it held when the operation
        began. */
    twostate predicate Extends()
      reads this
    {
      ExtendsConfiguring(-1)
    }

    /** `Extends`, except that the segment at `configured` may be given its settings. */
    twostate predicate ExtendsConfiguring(configured: int)
      reads this
    {
      && old(lineElementDeque) <= lineElementDeque
      && |old(records)| <= |records| && |old(lines)| <= |lines| && |old(segments)| <= |segments|
      && (forall i :: 0 <= i < |old(records)| ==> old(records)[i].beans.Keys <= records[i].beans.Keys)
      && (forall i :: 0 <= i < |old(lines)| ==> old(lines)[i].elements <= lines[i].elements)
      && (forall i :: 0 <= i < |old(segments)| ==> old(segments)[i].elements <= segments[i].elements)
      && (forall i :: 0 <= i < |old(segments)| && i != configured ==> SettingsOf(old(segments)[i]) == SettingsOf(segments[i]))
      && (forall i :: 0 <= i < |old(records)| ==>
            old(records)[i].name == records[i].name && old(records)[i].recordIdentity == records[i].recordIdentity)
      && old(formatRecords) <= formatRecords
      && (old(onFirstPassFlag) ==> onFirstPassFlag) && performValidation == old(performValidation)
    }

    /** The constructor: empty caches and deque, validation on, not yet on a first pass. */
    constructor()
      ensures Valid()
      ensures recordCache == map[] && lineCache == map[] && lineElementDeque == []
      ensures performValidation && !onFirstPassFlag
      ensures encoding == None && formatRecords == [] && formatConverters == []
      ensures records == [] && lines == [] && segments == []
    {
      recordCache, lineCache, lineElementDeque := map[], map[], [];
      performValidation, onFirstPassFlag := true, false;
      encoding, formatRecords, formatConverters := None, [], [];
      records, lines, segments := [], [], [];
    }

    /** `loadRecordIdentity`: the file format takes the record's encoding first; then the
        identity of the first applied kind is built. */
    method LoadRecordIdentity(env: Env, a: RecordAnnotation) returns (r: Result<Option<Identity>>)
      modifies this`encoding
      ensures encoding == Some(a.encoding)
      ensures r == IdentityOf(env, a)
    {
      encoding := Some(a.encoding);
      if a.lengthIdentity.apply {
        r := Ok(Some(Length(LengthIdentities.LengthIdentityValue(Some(a.lengthIdentity.minLength), Some(a.lengthIdentity.maxLength)))));
      } else if a.fieldIdentity.apply {
        var f := LoadFieldIdentity(a.fieldIdentity);
        r := Ok(Some(Field(f.View())));
      } else if a.scriptIdentity.apply {
        var s := ScriptIdentityOf(env, a.scriptIdentity);
        if s.Err? {
          r := Err(s.error);
        } else {
          r := Ok(Some(s.value));
        }
      } else {
        r := Ok(None);
      }
    }

    /** `loadConverters`: each converter is given to the file format in turn. */
    method LoadConverters(a: RecordAnnotation)
      modifies this`formatConverters
      ensures formatConverters == old(formatConverters) + ConvertersOf(a.converters)
    {
      var cs := a.converters;
      var i := 0;
      while i < |cs|
        invariant 0 <= i <= |cs|
        invariant formatConverters == old(formatConverters) + ConvertersOf(cs[..i])
      {
        assert cs[..i + 1][..i] == cs[..i];
        formatConverters := formatConverters + [ConverterOf(cs[i])];
        i := i + 1;
      }
      assert cs[..i] == cs;
    }

    /** `loadLines`: each line is created, added to the record's definition (which numbers it)
        and put in the line cache under its id. */
    method LoadLines(rec: nat, a: RecordAnnotation)
      modifies this`lines, this`records, this`lineCache
      requires Valid() && rec < |records|
      ensures Valid()
      ensures |lines| == |old(lines)| + |a.lines| && lines[..|old(lines)|] == old(lines)
      ensures forall j :: 0 <= j < |a.lines| ==> lines[|old(lines)| + j] == LineOf(a.lines[j], |old(records)[rec].lines| + j + 1)
      ensures records == old(records)[rec := old(records)[rec].(lines := old(records)[rec].lines + Positions(|old(lines)|, |a.lines|))]
      ensures lineCache == LinesCached(old(lineCache), a.lines, |old(lines)|)
    {
      var ls := a.lines;
      var i := 0;
      assert old(records)[rec].lines + Positions(|old(lines)|, 0) == old(records)[rec].lines;
      assert records == old(records)[rec := old(records)[rec]];
      while i < |ls|
        invariant 0 <= i <= |ls|
        invariant |lines| == |old(lines)| + i && lines[..|old(lines)|] == old(lines)
        invariant forall j :: 0 <= j < i ==> lines[|old(lines)| + j] == LineOf(ls[j], |old(records)[rec].lines| + j + 1)
        invariant records == old(records)[rec := old(records)[rec].(lines := old(records)[rec].lines + Positions(|old(lines)|, i))]
        invariant lineCache == LinesCached(old(lineCache), ls[..i], |old(lines)|)
        invariant forall k :: k in lineCache ==> lineCache[k] < |lines|
      {
        assert ls[..i + 1][..i] == ls[..i];
        var index := |lines|;
        var definition := records[rec];
        lines := lines + [LineOf(ls[i], |definition.lines| + 1)];
        records := records[rec := definition.(lines := definition.lines + [index])];
        lineCache := lineCache[ls[i].id := index];
        assert old(records)[rec].lines + Positions(|old(lines)|, i + 1) == old(records)[rec].lines + Positions(|old(lines)|, i) + [index];
        i := i + 1;
      }
      assert ls[..i] == ls;
    }

    /** The part of `loadRecord` after the identity: the record is added with its converters
        and lines. */
    method BuildRecord(a: RecordAnnotation, identity: Option<Identity>) returns (rec: nat)
      modifies this`records, this`lines, this`lineCache, this`formatConverters
      requires Valid()
      ensures Valid() && Extends()
      ensures rec == |old(records)| && records == old(records) + [RecordState(a.name, identity, map[], Positions(|old(lines)|, |a.lines|))]
      ensures formatConverters == old(formatConverters) + ConvertersOf(a.converters)
      ensures |lines| == |old(lines)| + |a.lines| && lines[..|old(lines)|] == old(lines)
      ensures forall j :: 0 <= j < |a.lines| ==> lines[|old(lines)| + j] == LineOf(a.lines[j], j + 1)
      ensures lineCache == LinesCached(old(lineCache), a.lines, |old(lines)|)
    {
      records := records + [RecordState(a.name, identity, map[], [])];
      rec := |records| - 1;
      LoadConverters(a);
      LoadLines(rec, a);
      assert [] + Positions(|old(lines)|, |a.lines|) == Positions(|old(lines)|, |a.lines|);
    }

    /** `loadRecord`: a new record named by the annotation, with its identity, converters and
        lines; a failing identity throws before anything but the encoding is touched. */
    method LoadRecord(env: Env, a: RecordAnnotation) returns (r: Result<nat>)
      modifies this`encoding, this`records, this`lines, this`lineCache, this`formatConverters
      requires Valid()
      ensures Valid() && Extends()
      ensures encoding == Some(a.encoding)
      ensures r.Err? <==> IdentityOf(env, a).Err?
      ensures r.Err? ==>
        (r.error == IdentityOf(env, a).error
        && records == old(records) && lines == old(lines) && lineCache == old(lineCache) && formatConverters == old(formatConverters))
      ensures r.Ok? ==>
        && r.value == |old(records)| && records == old(records) + [RecordState(a.name, IdentityOf(env, a).value, map[], Positions(|old(lines)|, |a.lines|))]
        && formatConverters == old(formatConverters) + ConvertersOf(a.converters)
        && |lines| == |old(lines)| + |a.lines| && lines[..|old(lines)|] == old(lines)
        && (forall j :: 0 <= j < |a.lines| ==> lines[|old(lines)| + j] == LineOf(a.lines[j], j + 1))
        && lineCache == LinesCached(old(lineCache), a.lines, |old(lines)|)
    {
      var identity := LoadRecordIdentity(env, a);
      if identity.Err? {
        return Err(identity.error);
      }
      var rec := BuildRecord(a, identity.value);
      r := Ok(rec);
    }

    /** `loadRecordElement`: the class's bean is registered with the record unless it already is,
        and the element goes to the segment on top of the deque, or to its line when the deque
        is empty; when neither exists the element is dropped without an error. */
    method LoadRecordElement(rec: nat, clazz: string, field: string, a: ElementAnnotation) returns (re: RecordElementBO)
      modifies this`records, this`lines, this`segments
      requires Valid() && rec < |records|
      ensures Valid() && Extends()
      ensures fresh(re) && re.View() == ElementOf(clazz, field, a)
      ensures records == old(records)[rec := old(records)[rec].(beans := BeansWith(old(records)[rec].beans, clazz))]
      ensures Placed(old(lines), old(segments), lines, segments, TargetOf(lineElementDeque, Lookup(lineCache, a.lineId)), re.View())
    {
      var target := TargetOf(lineElementDeque, Lookup(lineCache, a.lineId));
      re := BuildRecordElement(clazz, field, a);
      PlaceElement(rec, clazz, target, re.View());
    }

    /** The class's bean is registered with the record and the element put into its collection. */
    method PlaceElement(rec: nat, clazz: string, target: Option<Collection>, e: RecordElementValue)
      modifies this`records, this`lines, this`segments
      requires Valid() && rec < |records|
      requires target.Some? && target.value.LineCollection? ==> target.value.line < |lines|
      requires target.Some? && target.value.SegmentCollection? ==> target.value.segment < |segments|
      ensures Valid() && Extends()
      ensures records == old(records)[rec := old(records)[rec].(beans := BeansWith(old(records)[rec].beans, clazz))]
      ensures Placed(old(lines), old(segments), lines, segments, target, e)
    {
      RegisterBean(rec, clazz);
      AddElement(target, e);
    }

    /** The class's bean is registered with the record, unless it already is. */
    method RegisterBean(rec: nat, clazz: string)
      modifies this`records
      requires Valid() && rec < |records|
      ensures Valid() && Extends()
      ensures records == old(records)[rec := old(records)[rec].(beans := BeansWith(old(records)[rec].beans, clazz))]
    {
      var definition := records[rec];
      if clazz !in definition.beans {
        records := records[rec := definition.(beans := definition.beans[clazz := BeanDef(clazz, clazz)])];
      }
    }

    /** An element is added to the collection found for it, if any. */
    method AddElement(target: Option<Collection>, e: RecordElementValue)
      modifies this`lines, this`segments
      requires Valid()
      requires target.Some? && target.value.LineCollection? ==> target.value.line < |lines|
      requires target.Some? && target.value.SegmentCollection? ==> target.value.segment < |segments|
      ensures Valid() && Extends()
      ensures Placed(old(lines), old(segments), lines, segments, target, e)
    {
      if target.Some? {
        match target.value
        case LineCollection(l) =>
          lines := lines[l := WithElement(lines[l], e)];
        case SegmentCollection(s) =>
          segments := segments[s := segments[s].(elements := segments[s].elements + [ElementMember(e)])];
      }
    }

    /** A new segment is added to the given collection; a line numbers it, as it has no order yet. */
    method AttachSegment(target: Collection) returns (s: nat)
      modifies this`segments, this`lines
      requires Valid()
      requires target.LineCollection? ==> target.line < |lines|
      requires target.SegmentCollection? ==> target.segment < |segments|
      ensures Valid() && Extends()
      ensures s == |old(segments)| && |segments| == s + 1 && segments[s].elements == [] && SettingsOf(segments[s]).2 == None
      ensures target.LineCollection? ==>
        lines == old(lines)[target.line := old(lines)[target.line].(elements := old(lines)[target.line].elements + [SegmentMember(s)])]
      ensures target.SegmentCollection? ==>
        (lines == old(lines) && segments[target.segment].elements == old(segments)[target.segment].elements + [SegmentMember(s)])
    {
      s := |segments|;
      segments := segments + [SegmentState(None, None, None, [])];
      match target {
        case LineCollection(l) =>
          segments := segments[s := segments[s].(order := Some(|lines[l].elements| + 1))];
          lines := lines[l := lines[l].(elements := lines[l].elements + [SegmentMember(s)])];
        case SegmentCollection(k) =>
          segments := segments[k := segments[k].(elements := segments[k].elements + [SegmentMember(s)])];
      }
    }

    /** The part of `loadSegment` for a field whose class is a record type: the segment is
        pushed and given its field identity, order and cardinality, the field class is loaded
        with the segment on top of the deque, and the segment is popped; a load that throws
        skips the pop. */
    method OpenSegment(env: Env, s: nat, clazz: string, f: FieldInfo, fieldType: string, a: SegmentAnnotation, fuel: nat)
      returns (r: Result<()>, ghost clean: bool)
      modifies this
      requires Valid() && Closed(env) && s < |segments| && fieldType in env.classes
      ensures Valid() && ExtendsConfiguring(s)
      ensures SettingsOf(segments[s]) ==
        (Some(FieldIdentityOf(a.fieldIdentity)), Some(a.order), Some(SegmentCardinalityOf(clazz, f, fieldType, a)))
      ensures r.Ok? && clean ==> lineElementDeque == old(lineElementDeque)
      ensures r.Err? ==> old(lineElementDeque) + [s] <= lineElementDeque
      decreases fuel, 0, 0, 0
    {
      lineElementDeque := lineElementDeque + [s];
      var fieldIdentity := LoadFieldIdentity(a.fieldIdentity);
      segments := segments[s := segments[s].(order := Some(a.order), fieldIdentity := Some(fieldIdentity.View()),
        cardinality := Some(SegmentCardinalityOf(clazz, f, fieldType, a)))];
      if fuel == 0 {
        return Err(StackOverflowError), false;
      }
      ghost var configured := segments[s];
      var cleanup;
      r, cleanup, clean := LoadClasses(env, [fieldType], fuel - 1);
      assert SettingsOf(configured) == SettingsOf(segments[s]);
      if r.Ok? {
        lineElementDeque := lineElementDeque[..|lineElementDeque| - 1];
      }
    }

    /** What `loadSegment` does with a segment once it is attached: a field whose class
        reflection cannot give is left at that, a field class without `@Record` or `@RecordLink`
        is rejected, and otherwise the segment is opened. */
    method FillSegment(env: Env, s: nat, clazz: string, f: FieldInfo, a: SegmentAnnotation, fuel: nat)
      returns (r: Result<()>, ghost clean: bool)
      modifies this
      requires Valid() && Closed(env) && s < |segments| && (f.actualType.Some? ==> f.actualType.value in env.classes)
      ensures Valid() && ExtendsConfiguring(s)
      ensures f.actualType.None? ==> r.Ok? && unchanged(this)
      ensures f.actualType.Some? && !IsRecordType(env.classes[f.actualType.value]) ==>
        r == Err(NotARecordType(clazz, f.actualType.value)) && unchanged(this)
      ensures f.actualType.Some? && IsRecordType(env.classes[f.actualType.value]) ==>
        && SettingsOf(segments[s]) ==
             (Some(FieldIdentityOf(a.fieldIdentity)), Some(a.order), Some(SegmentCardinalityOf(clazz, f, f.actualType.value, a)))
        && (r.Err? ==> old(lineElementDeque) + [s] <= lineElementDeque)
      ensures r.Ok? && clean ==> lineElementDeque == old(lineElementDeque)
      decreases fuel, 0, 1, 0
    {
      if f.actualType.None? {
        return Ok(()), true;
      }
      var fieldType := f.actualType.value;
      if !IsRecordType(env.classes[fieldType]) {
        return Err(NotARecordType(clazz, fieldType)), true;
      }
      r, clean := OpenSegment(env, s, clazz, f, fieldType, a, fuel);
    }

    /** `loadSegment`: a new segment is added to the segment on top of the deque, or to its line
        when the deque is empty, before anything else; with no such collection that addition
        throws a NullPointerException. Then the segment is filled. */
    method LoadSegment(env: Env, clazz: string, f: FieldInfo, a: SegmentAnnotation, fuel: nat) returns (r: Result<nat>, ghost clean: bool)
      modifies this
      requires Valid() && Closed(env) && (f.actualType.Some? ==> f.actualType.value in env.classes)
      ensures Valid() && Extends()
      ensures var t := TargetOf(old(lineElementDeque), Lookup(old(lineCache), a.lineId));
        var s := |old(segments)|;
        && (t.None? ==> r == Err(NullPointerException) && segments == old(segments) && lines == old(lines))
        && (t.Some? ==>
              && s < |segments| && (r.Ok? ==> r.value == s)
              && (t.value.LineCollection? ==> old(lines)[t.value.line].elements + [SegmentMember(s)] <= lines[t.value.line].elements)
              && (t.value.SegmentCollection? ==>
                    old(segments)[t.value.segment].elements + [SegmentMember(s)] <= segments[t.value.segment].elements))
        && (t.Some? && f.actualType.None? ==> r == Ok(s) && lineElementDeque == old(lineElementDeque))
        && (t.Some? && f.actualType.Some? && !IsRecordType(env.classes[f.actualType.value]) ==>
              r == Err(NotARecordType(clazz, f.actualType.value)) && lineElementDeque == old(lineElementDeque))
        && (t.Some? && f.actualType.Some? && IsRecordType(env.classes[f.actualType.value]) ==>
              && SettingsOf(segments[s]) ==
                   (Some(FieldIdentityOf(a.fieldIdentity)), Some(a.order), Some(SegmentCardinalityOf(clazz, f, f.actualType.value, a)))
              && (r.Err? ==> old(lineElementDeque) + [s] <= lineElementDeque))
      ensures r.Ok? && clean ==> lineElementDeque == old(lineElementDeque)
      decreases fuel, 0, 2, 0
    {
      var target := TargetOf(lineElementDeque, Lookup(lineCache, a.lineId));
      if target.None? {
        return Err(NullPointerException), true;
      }
      var s := AttachSegment(target.value);
      var filled;
      filled, clean := FillSegment(env, s, clazz, f, a, fuel);
      if filled.Err? {
        return Err(filled.error), clean;
      }
      r := Ok(s);
    }

    /** One field of `processFieldAnnotations`: a `@RecordElement` field is loaded as a record
        element, which registers the class's bean and cannot throw; otherwise a
        `@SegmentElement` field is loaded as a segment. */
    method LoadField(env: Env, rec: nat, clazz: string, field: FieldInfo, fuel: nat) returns (r: Result<()>, ghost clean: bool)
      modifies this
      requires Valid() && Closed(env) && rec < |records| && (field.actualType.Some? ==> field.actualType.value in env.classes)
      ensures Valid() && Extends()
      ensures r.Ok? && clean ==> lineElementDeque == old(lineElementDeque)
      ensures field.element.Some? ==> r.Ok? && clean && clazz in records[rec].beans
      ensures field.element.None? && field.segment.None? ==> r.Ok? && clean && unchanged(this)
      ensures r.Err? ==> field.element.None? && field.segment.Some?
      decreases fuel, 1, 0, 0
    {
      clean := true;
      if field.element.Some? {
        var element := LoadRecordElement(rec, clazz, field.name, field.element.value);
      } else if field.segment.Some? {
        var segment;
        segment, clean := LoadSegment(env, clazz, field, field.segment.value, fuel);
        if segment.Err? {
          return Err(segment.error), clean;
        }
      }
      r := Ok(());
    }

    /** `processFieldAnnotations`: each declared field in turn; the first segment that throws
        ends the loop. Once a class has a record element, its bean is registered with the
        record. */
    method ProcessFieldAnnotations(env: Env, rec: nat, clazz: string, fuel: nat) returns (r: Result<()>, ghost clean: bool)
      modifies this
      requires Valid() && Closed(env) && clazz in env.classes && rec < |records|
      ensures Valid() && Extends()
      ensures r.Ok? && clean ==> lineElementDeque == old(lineElementDeque)
      ensures r.Ok? && (exists i :: 0 <= i < |env.classes[clazz].fields| && env.classes[clazz].fields[i].element.Some?) ==>
        clazz in records[rec].beans
      ensures r.Err? ==> exists i :: 0 <= i < |env.classes[clazz].fields| && env.classes[clazz].fields[i].segment.Some?
      decreases fuel, 2, 0, 0
    {
      var fields := env.classes[clazz].fields;
      clean := true;
      var i := 0;
      while i < |fields|
        invariant 0 <= i <= |fields|
        invariant Valid() && Extends() && rec < |records|
        invariant clean ==> lineElementDeque == old(lineElementDeque)
        invariant (exists j :: 0 <= j < i && fields[j].element.Some?) ==> clazz in records[rec].beans
      {
        var field;
        ghost var c;
        field, c := LoadField(env, rec, clazz, fields[i], fuel);
        if field.Err? {
          return Err(field.error), clean;
        }
        clean := clean && c;
        i := i + 1;
      }
      r := Ok(());
    }

    /** The `@Record` case of `LoadClass`: the record is loaded, cached by the class name and
        added to the file format, and the class's fields are processed into it. */
    method LoadRecordClass(env: Env, clazz: string, a: RecordAnnotation, fuel: nat) returns (r: Result<bool>, ghost clean: bool)
      modifies this
      requires Valid() && Closed(env) && clazz in env.classes
      ensures Valid() && Extends()
      ensures r.Ok? && clean ==> lineElementDeque == old(lineElementDeque)
      ensures r != Ok(true)
      ensures IdentityOf(env, a).Err? ==>
        r == Err(IdentityOf(env, a).error) && records == old(records) && formatRecords == old(formatRecords)
      ensures IdentityOf(env, a).Ok? ==>
        && |old(records)| < |records| && records[|old(records)|].name == a.name
        && records[|old(records)|].recordIdentity == IdentityOf(env, a).value
        && |old(formatRecords)| < |formatRecords| && formatRecords[|old(formatRecords)|] == |old(records)|
      decreases fuel, 3, 0, 0
    {
      var loaded := LoadRecord(env, a);
      if loaded.Err? {
        return Err(loaded.error), true;
      }
      var rec := loaded.value;
      recordCache := recordCache[clazz := rec];
      formatRecords := formatRecords + [rec];
      var processed;
      processed, clean := ProcessFieldAnnotations(env, rec, clazz, fuel);
      if processed.Err? {
        return Err(processed.error), clean;
      }
      r := Ok(false);
    }

    /** The body of the loop of `loadConfiguration(lastRetryList, classes)` for one class: a
        `@Record` class is loaded as a record class; a `@RecordLink` class whose record is not
        cached yet is to be retried (`Ok(true)`), and one whose record is cached has its fields
        processed into that record; a class with neither is passed over. */
    method LoadClass(env: Env, clazz: string, fuel: nat) returns (r: Result<bool>, ghost clean: bool)
      modifies this
      requires Valid() && Closed(env) && clazz in env.classes
      ensures Valid() && Extends()
      ensures r.Ok? && clean ==> lineElementDeque == old(lineElementDeque)
      ensures var info := env.classes[clazz];
        && (r == Ok(true) <==> info.record.None? && info.recordLink.Some? && info.recordLink.value !in old(recordCache))
        && (info.record.None? && info.recordLink.None? ==> r == Ok(false) && records == old(records) && lines == old(lines))
        && (info.record.Some? && IdentityOf(env, info.record.value).Err? ==>
              r == Err(IdentityOf(env, info.record.value).error) && records == old(records) && formatRecords == old(formatRecords))
        && (info.record.Some? && IdentityOf(env, info.record.value).Ok? ==>
              && |old(records)| < |records| && records[|old(records)|].name == info.record.value.name
              && records[|old(records)|].recordIdentity == IdentityOf(env, info.record.value).value
              && |old(formatRecords)| < |formatRecords| && formatRecords[|old(formatRecords)|] == |old(records)|)
      decreases fuel, 3, 1, 0
    {
      var info := env.classes[clazz];
      if info.record.Some? {
        r, clean := LoadRecordClass(env, clazz, info.record.value, fuel);
      } else if info.recordLink.Some? {
        var recordClass := info.recordLink.value;
        if recordClass !in recordCache {
          return Ok(true), true;
        }
        var processed;
        processed, clean := ProcessFieldAnnotations(env, recordCache[recordClass], clazz, fuel);
        if processed.Err? {
          return Err(processed.error), clean;
        }
        r := Ok(false);
      } else {
        r, clean := Ok(false), true;
      }
    }

    /** One pass of the loop of `loadConfiguration(lastRetryList, classes)`: a class whose load
        throws a configuration error, or whose linked record is not cached yet, goes on the
        retry list; any other exception ends the pass. The ghost outcomes are what each class's
        load gave. */
    method PassOnce(env: Env, classes: seq<string>, fuel: nat)
      returns (r: Result<seq<string>>, ghost outcomes: seq<Result<bool>>, ghost clean: bool)
      modifies this
      requires Valid() && Closed(env) && forall c :: c in classes ==> c in env.classes
      ensures Valid() && Extends()
      ensures r.Ok? ==> |outcomes| == |classes| && r.value == Reprocessed(classes, outcomes)
      ensures r.Ok? ==> forall i :: 0 <= i < |outcomes| && outcomes[i].Err? ==> outcomes[i].error.FlatwormConfigurationException?
      ensures r.Err? ==> !r.error.FlatwormConfigurationException?
      ensures r.Ok? && clean ==> lineElementDeque == old(lineElementDeque) && forall i :: 0 <= i < |outcomes| ==> outcomes[i].Ok?
      decreases fuel, 4, 0, 0
    {
      var reprocess := [];
      outcomes := [];
      clean := true;
      var i := 0;
      while i < |classes|
        invariant 0 <= i <= |classes|
        invariant Valid() && Extends()
        invariant |outcomes| == i && reprocess == Reprocessed(classes[..i], outcomes)
        invariant forall j :: 0 <= j < i && outcomes[j].Err? ==> outcomes[j].error.FlatwormConfigurationException?
        invariant clean ==> lineElementDeque == old(lineElementDeque) && forall j :: 0 <= j < i ==> outcomes[j].Ok?
      {
        var o;
        ghost var c;
        o, c := LoadClass(env, classes[i], fuel);
        if o.Err? && !o.error.FlatwormConfigurationException? {
          return Err(o.error), outcomes, clean;
        }
        assert classes[..i + 1][..i] == classes[..i];
        assert (outcomes + [o])[..i] == outcomes;
        if Retried(o) {
          reprocess := reprocess + [classes[i]];
        }
        clean := clean && c && o.Ok?;
        outcomes := outcomes + [o];
        i := i + 1;
      }
      assert classes[..i] == classes;
      r := Ok(reprocess);
    }

    /** `loadConfiguration(lastRetryList, classes)`: after a pass, a non-empty retry list is
        loaded again, as both the last list and the classes, while `isValidRetryList` allows it,
        and rejected with a configuration error when it does not. Each retry list is drawn from
        the classes of its pass, so there are at most two more passes than classes. */
    method LoadPass(env: Env, last: seq<string>, classes: seq<string>, fuel: nat)
      returns (r: Result<()>, ghost first: Result<seq<string>>, ghost passes: nat, ghost clean: bool)
      modifies this
      requires Valid() && Closed(env) && forall c :: c in classes ==> c in env.classes
      ensures Valid() && Extends()
      ensures first.Err? ==> r == Err(first.error) && !first.error.FlatwormConfigurationException?
      ensures first.Ok? ==> |first.value| <= |classes| && forall c :: c in first.value ==> c in classes
      ensures first == Ok([]) ==> r == Ok(())
      ensures first.Ok? && first.value != [] && !ValidRetry(last, first.value) ==> r == Err(UnresolvableError(first.value))
      ensures 1 <= passes <= |classes| + (if last == classes then 1 else 2)
      ensures r.Ok? && clean ==> lineElementDeque == old(lineElementDeque)
      decreases fuel, 5, |classes|, if last == classes then 0 else 1
    {
      var pass;
      ghost var outcomes;
      pass, outcomes, clean := PassOnce(env, classes, fuel);
      first, passes := pass, 1;
      if pass.Err? {
        return Err(pass.error), first, passes, clean;
      }
      ReprocessedRule(classes, outcomes);
      var toReprocess := pass.value;
      if toReprocess == [] {
        return Ok(()), first, passes, clean;
      }
      var valid := IsValidRetryList(last, toReprocess);
      if !valid {
        return Err(UnresolvableError(toReprocess)), first, passes, clean;
      }
      RetryShrinks(classes, toReprocess);
      ghost var retried, retries, retryClean;
      r, retried, retries, retryClean := LoadPass(env, toReprocess, toReprocess, fuel);
      passes := 1 + retries;
      clean := clean && retryClean;
    }

    /** `loadConfiguration(Collection)`: only the outermost call, the first to find the
        first-pass flag unset, sorts the line elements and validates the file format afterwards
        (when validation is on and the load succeeded); `cleanup` says whether this call does. */
    method LoadClasses(env: Env, classes: seq<string>, fuel: nat) returns (r: Result<()>, cleanup: bool, ghost clean: bool)
      modifies this
      requires Valid() && Closed(env) && forall c :: c in classes ==> c in env.classes
      ensures Valid() && Extends()
      ensures onFirstPassFlag
      ensures cleanup <==> r.Ok? && !old(onFirstPassFlag) && performValidation
      ensures r.Ok? && clean ==> lineElementDeque == old(lineElementDeque)
      decreases fuel, 6, 0, 0
    {
      var performCleanup := false;
      if !onFirstPassFlag {
        performCleanup := true;
        onFirstPassFlag := true;
      }
      ghost var first, passes;
      r, first, passes, clean := LoadPass(env, [], classes, fuel);
      cleanup := r.Ok? && performCleanup && performValidation;
    }
  }
}
