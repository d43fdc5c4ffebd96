/** `config.RecordDefinitionBO` and `config.RecordBO`: the beans and lines a record is made of,
    which input lines a record claims, and the parse of one record from its first line and the
    lines read after it. */
module Records {
  import opened Wrappers
  import opened JavaText
  import opened Beans
  import opened LineElements
  import opened ParseUtils
  import opened Identities
  import opened LineParsing
  import opened Input

  /** `BeanBO`: a named bean of a record and the class every parse instantiates for it. */
  class BeanBO {
    const beanName: string
    const beanClass: string
    var parentDefinition: object?

    constructor(beanName: string, beanClass: string)
      ensures this.beanName == beanName && this.beanClass == beanClass && parentDefinition == null
    {
      this.beanName := beanName;
      this.beanClass := beanClass;
      parentDefinition := null;
    }
  }

  /** The configurations of a list of lines, in list order. */
  function Configs(ls: seq<LineBO>): (r: seq<LineConfig>)
    reads set i | 0 <= i < |ls| :: ls[i]
    ensures |r| == |ls| && forall i :: 0 <= i < |ls| ==> r[i] == ls[i].Config()
  {
    if ls == [] then [] else Configs(ls[..|ls| - 1]) + [ls[|ls| - 1].Config()]
  }

  /** `cs` are the configurations of the lines `ls`. */
  predicate HasConfigs(ls: seq<LineBO>, cs: seq<LineConfig>)
    reads set i | 0 <= i < |ls| :: ls[i]
  {
    |ls| == |cs| && forall j :: 0 <= j < |ls| ==> ls[j].Config() == cs[j]
  }

  /** Every identity among the lines has the integer settings its match unboxes. */
  predicate AllConfigured(ls: seq<LineConfig>) {
    forall i :: 0 <= i < |ls| && ls[i].lineIdentity.Some? ==> Configured(ls[i].lineIdentity.value)
  }

  /** No script identity among the lines accepts the null line of the end of the input. */
  predicate NullRejected(ls: seq<LineConfig>) {
    forall i :: 0 <= i < |ls| && ls[i].lineIdentity.Some? && ls[i].lineIdentity.value.Script? ==>
      None !in ls[i].lineIdentity.value.accepts
  }

  predicate NoIdentity(ls: seq<LineConfig>) {
    forall i :: 0 <= i < |ls| ==> ls[i].lineIdentity.None?
  }

  /** The identity of line `i` is present and gives `verdict` for the input line. */
  predicate Verdict(ls: seq<LineConfig>, i: int, line: Option<string>, verdict: bool)
    requires AllConfigured(ls)
  {
    0 <= i < |ls| && ls[i].lineIdentity.Some? && MatchesIdentity(ls[i].lineIdentity.value, line) == Ok(verdict)
  }

  // ---------------------------------------------------------------------------------------
  // RecordDefinitionBO

  /** Where `addLine` puts a line: one without an identity joins the sequential lines, one with
      an identity the identity lines. */
  function Route<T>(lines: seq<T>, identityLines: seq<T>, line: T, hasIdentity: bool): (seq<T>, seq<T>) {
    if hasIdentity then (lines, identityLines + [line]) else (lines + [line], identityLines)
  }

  /** The index a sequential line ends up with: the unset index -1 becomes its one-based
      position among the sequential lines. */
  function AssignedIndex(index: int, lineCount: nat): int {
    if index == -1 then lineCount + 1 else index
  }

  /** Exactly one of the two lists grows, by the line at its end, and the other is unchanged. */
  lemma RoutedToOneList<T>(lines: seq<T>, identityLines: seq<T>, line: T, hasIdentity: bool)
    ensures var (l, w) := Route(lines, identityLines, line, hasIdentity);
      |l| + |w| == |lines| + |identityLines| + 1 &&
      (hasIdentity ==> l == lines && |w| == |identityLines| + 1 && w[..|identityLines|] == identityLines && w[|identityLines|] == line) &&
      (!hasIdentity ==> w == identityLines && |l| == |lines| + 1 && l[..|lines|] == lines && l[|lines|] == line)
  {
  }

  /** Numbering the sequential lines as they are added from an empty list gives each unset line
      its own position, and keeps every explicit index. */
  lemma IndexRule(index: int, lineCount: nat)
    ensures index == -1 ==> AssignedIndex(index, lineCount) == lineCount + 1
    ensures index != -1 ==> AssignedIndex(index, lineCount) == index
    ensures AssignedIndex(index, lineCount) != -1
  {
  }

  /** `matchesLine` of a definition: the sequential lines are visited in order, each identity
      overwriting the verdict, and the first identity that matches ends the walk. */
  function MatchScan(ls: seq<LineConfig>, line: Option<string>, matches: bool): Result<bool>
    requires AllConfigured(ls)
    decreases |ls|
  {
    if ls == [] then Ok(matches)
    else if ls[0].lineIdentity.None? then MatchScan(ls[1..], line, matches)
    else
      var m :- MatchesIdentity(ls[0].lineIdentity.value, line);
      if m then Ok(true) else MatchScan(ls[1..], line, false)
  }

  /** The verdict is true exactly when no line carries an identity (keeping the initial verdict)
      or some line's identity matches; it fails only for a null line and a length identity. */
  lemma {:induction false} MatchScanRule(ls: seq<LineConfig>, line: Option<string>, matches: bool)
    requires AllConfigured(ls)
    ensures MatchScan(ls, line, matches).Ok? ==>
      (MatchScan(ls, line, matches).value <==> (matches && NoIdentity(ls)) || exists i :: Verdict(ls, i, line, true))
    ensures MatchScan(ls, line, matches).Err? ==>
      line.None? && exists i :: 0 <= i < |ls| && ls[i].lineIdentity.Some? && ls[i].lineIdentity.value.Length?
    decreases |ls|
  {
    if ls != [] {
      MatchScanRule(ls[1..], line, false);
      MatchScanRule(ls[1..], line, matches);
      forall i | Verdict(ls[1..], i, line, true) ensures Verdict(ls, i + 1, line, true) {}
      if ls[0].lineIdentity.Some? && MatchesIdentity(ls[0].lineIdentity.value, line) == Ok(true) {
        assert Verdict(ls, 0, line, true);
      }
      if MatchScan(ls, line, matches).Ok? && exists i :: Verdict(ls, i, line, true) {
        var i :| Verdict(ls, i, line, true);
        if i > 0 {
          assert Verdict(ls[1..], i - 1, line, true);
        }
      }
      if MatchScan(ls, line, matches).Err? && MatchScan(ls[1..], line, matches).Err? {
        var i :| 0 <= i < |ls[1..]| && ls[1..][i].lineIdentity.Some? && ls[1..][i].lineIdentity.value.Length?;
        assert ls[i + 1] == ls[1..][i];
      }
      if MatchScan(ls, line, matches).Err? && MatchScan(ls[1..], line, false).Err? {
        var i :| 0 <= i < |ls[1..]| && ls[1..][i].lineIdentity.Some? && ls[1..][i].lineIdentity.value.Length?;
        assert ls[i + 1] == ls[1..][i];
      }
      if matches && NoIdentity(ls) {
        assert NoIdentity(ls[1..]) by {
          forall i | 0 <= i < |ls[1..]| ensures ls[1..][i].lineIdentity.None? {
            assert ls[1..][i] == ls[i + 1];
          }
        }
      }
    }
  }

  class RecordDefinitionBO {
    var beans: map<string, BeanBO>
    var lines: seq<LineBO>
    var linesWithIdentities: seq<LineBO>

    /** `new RecordDefinitionBO()`: no beans, no lines and no identity lines. */
    constructor()
      ensures beans == map[] && lines == [] && linesWithIdentities == []
    {
      beans, lines, linesWithIdentities := map[], [], [];
    }

    /** `addBean`: keyed by the bean's name, replacing a bean of the same name. */
    method AddBean(bean: BeanBO)
      modifies this, bean
      ensures beans == old(beans)[bean.beanName := bean]
      ensures lines == old(lines) && linesWithIdentities == old(linesWithIdentities)
      ensures bean.parentDefinition == this
    {
      bean.parentDefinition := this;
      beans := beans[bean.beanName := bean];
    }

    /** `addLine`: a line without an identity is numbered and appended to the sequential lines;
        one with an identity is handed to `addLineWithIdentity`. */
    method AddLine(line: LineBO)
      modifies this, line
      ensures (lines, linesWithIdentities) == Route(old(lines), old(linesWithIdentities), line, old(line.lineIdentity).Some?)
      ensures line.Config() == old(line.Config()).(index :=
        if old(line.lineIdentity).None? then AssignedIndex(old(line.index), |old(lines)|) else old(line.index))
      ensures line.parentDefinition == this && beans == old(beans)
      decreases if line.lineIdentity.None? then 0 else 1
    {
      if line.lineIdentity.None? {
        line.parentDefinition := this;
        if line.index == -1 {
          line.index := |lines| + 1;
        }
        lines := lines + [line];
      } else {
        AddLineWithIdentity(line);
      }
    }

    /** `addLineWithIdentity`: a line with an identity is appended to the identity lines unnumbered;
        one without is handed to `addLine`. */
    method AddLineWithIdentity(line: LineBO)
      modifies this, line
      ensures (lines, linesWithIdentities) == Route(old(lines), old(linesWithIdentities), line, old(line.lineIdentity).Some?)
      ensures line.Config() == old(line.Config()).(index :=
        if old(line.lineIdentity).None? then AssignedIndex(old(line.index), |old(lines)|) else old(line.index))
      ensures line.parentDefinition == this && beans == old(beans)
      decreases if line.lineIdentity.None? then 1 else 0
    {
      if line.lineIdentity.Some? {
        line.parentDefinition := this;
        linesWithIdentities := linesWithIdentities + [line];
      } else {
        AddLine(line);
      }
    }

    /** `matchesLine`: the loop over the sequential lines with its early exit. */
    method MatchesLine(line: Option<string>) returns (r: Result<bool>)
      requires AllConfigured(Configs(lines))
      ensures r == MatchScan(Configs(lines), line, true)
    {
      ghost var cs := Configs(lines);
      var matches := true;
      var i := 0;
      while i < |lines|
        invariant 0 <= i <= |lines|
        invariant MatchScan(cs, line, true) == MatchScan(cs[i..], line, matches)
      {
        assert cs[i..][0] == cs[i] && cs[i..][1..] == cs[i + 1..];
        var identity := lines[i].lineIdentity;
        if identity.Some? {
          var m := MatchesIdentity(identity.value, line);
          if m.Err? {
            return Err(m.error);
          }
          matches := m.value;
          if matches {
            return Ok(true);
          }
        }
        i := i + 1;
      }
      return Ok(matches);
    }
  }

  // ---------------------------------------------------------------------------------------
  // RecordBO.parseRecord

  /** How far a parse has got: the beans, the last line read, whether that line was parsed, and
      the reader's cursor. */
  datatype Progress = Progress(st: BeanState, lastReadLine: Option<string>, parsed: bool, pos: nat)

  /** The bean instantiation loop, visiting the beans of the definition in the order `order`:
      each is a fresh object of its class, put under its name. A class that cannot be
      instantiated fails. */
  function Instantiated(classes: ClassTable, defs: map<string, BeanBO>, order: seq<string>): (r: Result<BeanState>)
    requires forall i :: 0 <= i < |order| ==> order[i] in defs
    ensures r.Ok? ==> WfState(r.value)
    decreases |order|
  {
    if order == [] then Ok(BeanState([], map[]))
    else
      var st :- Instantiated(classes, defs, order[..|order| - 1]);
      var b := defs[order[|order| - 1]];
      if b.beanClass !in classes then Err(FlatwormParserException)
      else Ok(BeanState(st.heap + [Bean(b.beanClass, classes[b.beanClass], [])], st.beans[b.beanName := |st.heap|]))
  }

  /** Visiting one more bean: its class must be known, and it gets the next heap position. */
  lemma InstantiatedAppend(classes: ClassTable, defs: map<string, BeanBO>, order: seq<string>, key: string)
    requires forall i :: 0 <= i < |order| ==> order[i] in defs
    requires key in defs
    ensures var r := Instantiated(classes, defs, order);
      var b := defs[key];
      Instantiated(classes, defs, order + [key]) ==
        if r.Err? then r
        else if b.beanClass !in classes then Err(FlatwormParserException)
        else Ok(BeanState(r.value.heap + [Bean(b.beanClass, classes[b.beanClass], [])], r.value.beans[b.beanName := |r.value.heap|]))
  {
    assert (order + [key])[..|order|] == order;
  }

  /** The instantiation fails exactly when some visited bean's class is unknown. */
  lemma {:induction false} InstantiatedFails(classes: ClassTable, defs: map<string, BeanBO>, order: seq<string>)
    requires forall i :: 0 <= i < |order| ==> order[i] in defs
    ensures Instantiated(classes, defs, order).Ok? <==> forall i :: 0 <= i < |order| ==> defs[order[i]].beanClass in classes
    decreases |order|
  {
    if order != [] {
      var n := |order| - 1;
      var prefix := order[..n];
      InstantiatedFails(classes, defs, prefix);
      assert forall i :: 0 <= i < n ==> prefix[i] == order[i];
    }
  }

  /** For a definition keyed by bean name, visited once per bean: each bean gets its own fresh
      object, the i-th visited at heap position i, as its class's constructor builds it, and
      no other name is bound. */
  lemma {:induction false} InstantiatedBeans(classes: ClassTable, defs: map<string, BeanBO>, order: seq<string>)
    requires forall k :: k in defs ==> defs[k].beanName == k
    requires forall i :: 0 <= i < |order| ==> order[i] in defs
    requires forall i, j :: 0 <= i < j < |order| ==> order[i] != order[j]
    ensures var r := Instantiated(classes, defs, order);
      r.Ok? ==>
        |r.value.heap| == |order| &&
        (forall k :: k in r.value.beans <==> k in order) &&
        (forall i :: 0 <= i < |order| ==>
           r.value.beans[order[i]] == i && defs[order[i]].beanClass in classes &&
           r.value.heap[i] == Bean(defs[order[i]].beanClass, classes[defs[order[i]].beanClass], []))
    decreases |order|
  {
    if order != [] {
      var n := |order| - 1;
      var prefix := order[..n];
      InstantiatedBeans(classes, defs, prefix);
      assert order == prefix + [order[n]];
      InstantiatedAppend(classes, defs, prefix, order[n]);
      var r0 := Instantiated(classes, defs, prefix);
      var r := Instantiated(classes, defs, order);
      if r.Ok? {
        var st := r0.value;
        var key := order[n];
        assert defs[key].beanName == key;
        assert r.value.beans == st.beans[key := n];
        forall k ensures k in r.value.beans <==> k in order {
          assert k in order <==> k in prefix || k == key;
        }
        forall i | 0 <= i < |order|
          ensures r.value.beans[order[i]] == i && defs[order[i]].beanClass in classes
          ensures r.value.heap[i] == Bean(defs[order[i]].beanClass, classes[defs[order[i]].beanClass], [])
        {
          if i < n {
            assert prefix[i] == order[i] && order[i] != key;
          }
        }
      }
    }
  }

  lemma {:induction false} InstantiatedStops(classes: ClassTable, defs: map<string, BeanBO>, order: seq<string>, rest: seq<string>)
    requires forall i :: 0 <= i < |order| ==> order[i] in defs
    requires forall i :: 0 <= i < |rest| ==> rest[i] in defs
    requires Instantiated(classes, defs, order).Err?
    ensures Instantiated(classes, defs, order + rest) == Instantiated(classes, defs, order)
    decreases |rest|
  {
    if rest != [] {
      var n := |rest| - 1;
      InstantiatedStops(classes, defs, order, rest[..n]);
      var whole := order + rest;
      assert whole[..|whole| - 1] == order + rest[..n];
    } else {
      assert order + rest == order;
    }
  }

  /** The bean instantiation loop of `parseRecord` over the definition's bean map, in the map's
      own (unspecified) order; `order` is that order. */
  method InstantiateBeans(defs: map<string, BeanBO>, classes: ClassTable) returns (r: Result<BeanState>, ghost order: seq<string>)
    ensures IsListing(order, defs.Keys)
    ensures r == Instantiated(classes, defs, order)
  {
    var keys := defs.Keys;
    var st := BeanState([], map[]);
    order := [];
    while keys != {}
      invariant PartialListing(order, keys, defs.Keys)
      invariant Instantiated(classes, defs, order) == Ok(st)
      decreases |keys|
    {
      var key :| key in keys;
      var bean := defs[key];
      InstantiatedAppend(classes, defs, order, key);
      PartialListingStep(order, keys, defs.Keys, key);
      if bean.beanClass !in classes {
        ghost var rest := SomeListing(keys - {key});
        InstantiatedStops(classes, defs, order + [key], rest);
        PartialListingDone(order + [key], keys - {key}, defs.Keys, rest);
        order := order + [key] + rest;
        return Err(FlatwormParserException), order;
      }
      st := BeanState(st.heap + [Bean(bean.beanClass, classes[bean.beanClass], [])], st.beans[bean.beanName := |st.heap|]);
      order := order + [key];
      keys := keys - {key};
    }
    PartialListingDone(order, keys, defs.Keys, []);
    assert order + [] == order;
    r := Ok(st);
  }

  /** Attaching a bean to its parent changes objects in place but adds none and changes no
      object's class. */
  lemma AttachKeepsObjects(heap: Heap, target: Option<nat>, toAdd: Value, c: Cardinality)
    requires InHeap(heap, target)
    ensures var r := AddObjectToProperty(heap, target, toAdd, c);
      r.Ok? ==> |r.value| == |heap| && forall i :: 0 <= i < |heap| ==> r.value[i].className == heap[i].className
  {
  }

  /** `addBeanToBean`: a property line attaches the bean named by its cardinality's beanRef to
      the bean named by its parentBeanRef, and then puts a fresh object of the same class under
      the beanRef, ready for the next line. A property line without a cardinality, or whose
      beanRef names no bean, throws. */
  function AddBeanToBean(classes: ClassTable, line: LineConfig, st: BeanState): (r: Result<BeanState>)
    requires WfState(st)
    ensures r.Ok? ==> WfState(r.value)
    ensures !line.propertyLine ==> r == Ok(st)
    ensures line.propertyLine && line.cardinality.None? ==> r == Err(NullPointerException)
    ensures line.propertyLine && line.cardinality.Some? && Lookup(st, line.cardinality.value.beanRef).None? ==> r.Err?
    ensures line.propertyLine && r.Ok? ==>
      var c := line.cardinality.value;
      c.beanRef.Some? && c.beanRef.value in st.beans &&
      |r.value.heap| == |st.heap| + 1 &&
      r.value.beans == st.beans[c.beanRef.value := |st.heap|] &&
      var cls := st.heap[st.beans[c.beanRef.value]].className;
      cls in classes && r.value.heap[|st.heap|] == Bean(cls, classes[cls], [])
  {
    if !line.propertyLine then Ok(st)
    else if line.cardinality.None? then Err(NullPointerException)
    else
      var c := line.cardinality.value;
      var parent := Lookup(st, c.parentBeanRef);
      var toAdd := Lookup(st, c.beanRef);
      var heap1 :- AddObjectToProperty(st.heap, parent, AsValue(toAdd), c);
      AttachKeepsObjects(st.heap, parent, AsValue(toAdd), c);
      var (heap2, id) :- NewBeanInstance(heap1, classes, toAdd);
      Ok(BeanState(heap2, st.beans[c.beanRef.value := id]))
  }

  /** The sequential phase from line `i`: each line parses the last line read and its bean is
      attached, and a further line is read after every line but the last. */
  function Sequential(convert: Convert, classes: ClassTable, lines: seq<LineConfig>, recordIdentity: Option<Identity>,
                      input: seq<string>, i: nat, p: Progress): (r: Result<Progress>)
    requires i <= |lines| && WfState(p.st) && p.pos <= |input|
    ensures r.Ok? ==> WfState(r.value.st) && r.value.pos <= |input|
    decreases |lines| - i
  {
    if i == |lines| then Ok(p)
    else
      var st1 :- ParseLine(convert, classes, Skipped, lines[i], p.lastReadLine, p.st, recordIdentity);
      var st2 :- AddBeanToBean(classes, lines[i], st1);
      var (line, pos) := if i + 1 < |lines| then Read(input, p.pos) else (p.lastReadLine, p.pos);
      Sequential(convert, classes, lines, recordIdentity, input, i + 1, Progress(st2, line, true, pos))
  }

  /** The reads still ahead of the sequential loop at line `i`: one after each line but the last. */
  function ReadsAhead(i: nat, n: nat): nat {
    if i < n then n - 1 - i else 0
  }

  /** The sequential phase parses the line it starts with, then reads exactly one line after
      each line but the last (fewer only when the input runs out), and leaves the last line
      marked as parsed; without sequential lines it changes nothing. */
  lemma {:induction false} SequentialReads(convert: Convert, classes: ClassTable, lines: seq<LineConfig>,
                                           recordIdentity: Option<Identity>, input: seq<string>, i: nat, p: Progress)
    requires i <= |lines| && WfState(p.st) && p.pos <= |input|
    ensures var r := Sequential(convert, classes, lines, recordIdentity, input, i, p);
      r.Ok? ==> r.value.pos == Min(p.pos + ReadsAhead(i, |lines|), |input|) &&
                (i < |lines| ==> r.value.parsed) &&
                (i == |lines| ==> r.value == p)
    decreases |lines| - i
  {
    if i < |lines| {
      var st1 := ParseLine(convert, classes, Skipped, lines[i], p.lastReadLine, p.st, recordIdentity);
      if st1.Ok? {
        var st2 := AddBeanToBean(classes, lines[i], st1.value);
        if st2.Ok? {
          var (line, pos) := if i + 1 < |lines| then Read(input, p.pos) else (p.lastReadLine, p.pos);
          SequentialReads(convert, classes, lines, recordIdentity, input, i + 1, Progress(st2.value, line, true, pos));
        }
      }
    }
  }

  /** The identity lines filtered by their identity's verdict on the line, first hit kept: the
      position of the first identity line that matches, or none. A line whose identity was
      removed throws. */
  function FirstMatch(ls: seq<LineConfig>, line: Option<string>): (r: Result<Option<nat>>)
    requires AllConfigured(ls)
    ensures r.Ok? && r.value.Some? ==> r.value.value < |ls|
    decreases |ls|
  {
    if ls == [] then Ok(None)
    else if ls[0].lineIdentity.None? then Err(NullPointerException)
    else
      var m :- MatchesIdentity(ls[0].lineIdentity.value, line);
      if m then Ok(Some(0))
      else
        var k :- FirstMatch(ls[1..], line);
        Ok(if k.Some? then Some(k.value + 1) else None)
  }

  /** A hit is a line whose identity matches while every earlier one does not; no hit means that
      every identity says no. */
  lemma {:induction false} FirstMatchRule(ls: seq<LineConfig>, line: Option<string>)
    requires AllConfigured(ls)
    ensures var r := FirstMatch(ls, line);
      r.Ok? && r.value.Some? ==>
        Verdict(ls, r.value.value, line, true) && forall j :: 0 <= j < r.value.value ==> Verdict(ls, j, line, false)
    ensures FirstMatch(ls, line) == Ok(None) <==> forall j :: 0 <= j < |ls| ==> Verdict(ls, j, line, false)
    decreases |ls|
  {
    if ls != [] {
      var tail := ls[1..];
      FirstMatchRule(tail, line);
      forall j | 0 <= j < |tail|
        ensures (Verdict(tail, j, line, false) <==> Verdict(ls, j + 1, line, false))
        ensures (Verdict(tail, j, line, true) <==> Verdict(ls, j + 1, line, true))
      {
        assert tail[j] == ls[j + 1];
      }
      if forall j :: 0 <= j < |ls| ==> Verdict(ls, j, line, false) {
        forall j | 0 <= j < |tail| ensures Verdict(tail, j, line, false) {
          assert Verdict(ls, j + 1, line, false);
        }
      }
      if FirstMatch(tail, line) == Ok(None) && Verdict(ls, 0, line, false) {
        forall j | 0 <= j < |ls| ensures Verdict(ls, j, line, false) {
          if j > 0 {
            assert Verdict(tail, j - 1, line, false);
          }
        }
      }
      var r := FirstMatch(ls, line);
      if r.Ok? && r.value.Some? && r.value.value > 0 {
        forall j | 0 <= j < r.value.value ensures Verdict(ls, j, line, false) {
          if j > 0 {
            assert Verdict(tail, j - 1, line, false);
          }
        }
      }
    }
  }

  /** At the end of the input the null line matches none of the identity lines. */
  lemma NullNeverMatches(ls: seq<LineConfig>)
    requires AllConfigured(ls) && NullRejected(ls)
    ensures FirstMatch(ls, None).Ok? ==> FirstMatch(ls, None).value.None?
    decreases |ls|
  {
    if ls != [] {
      assert AllConfigured(ls[1..]) && NullRejected(ls[1..]) by {
        forall i | 0 <= i < |ls[1..]| ensures ls[1..][i] == ls[i + 1] {}
      }
      NullNeverMatches(ls[1..]);
    }
  }

  /** One line of the identity phase: the first identity line that matches parses it and its
      bean is attached. The result is the new beans and, when some line matched, whether that
      line ends the record; a matched line without an end-line setting throws. */
  function IdentityStep(convert: Convert, classes: ClassTable, ls: seq<LineConfig>, line: Option<string>, st: BeanState)
    : (r: Result<(BeanState, Option<bool>)>)
    requires AllConfigured(ls) && NullRejected(ls) && WfState(st)
    ensures r.Ok? ==> WfState(r.value.0)
    ensures r.Ok? && line.None? ==> r.value == (st, None)
  {
    NullNeverMatches(ls);
    var m :- FirstMatch(ls, line);
    if m.None? then Ok((st, None))
    else
      var l := ls[m.value];
      var st1 :- ParseLine(convert, classes, Skipped, l, line, st, l.lineIdentity);
      var st2 :- AddBeanToBean(classes, l, st1);
      if l.recordEndLine.None? then Err(NullPointerException)
      else Ok((st2, Some(l.recordEndLine.value)))
  }

  /** The identity phase: line after line is read and handed to `IdentityStep`; the phase ends
      after a matched end line, or at the first line no identity line matches, which is left
      unparsed. */
  function Identified(convert: Convert, classes: ClassTable, ls: seq<LineConfig>, input: seq<string>, p: Progress): (r: Result<Progress>)
    requires AllConfigured(ls) && NullRejected(ls) && WfState(p.st) && p.pos <= |input|
    ensures r.Ok? ==> WfState(r.value.st) && p.pos <= r.value.pos <= |input|
    decreases |input| - p.pos
  {
    var (line, pos) := Read(input, p.pos);
    var (st, matched) :- IdentityStep(convert, classes, ls, line, p.st);
    if matched.None? then Ok(Progress(st, line, false, pos))
    else if matched.value then Ok(Progress(st, line, true, pos))
    else Identified(convert, classes, ls, input, Progress(st, line, true, pos))
  }

  /** The identity phase stops in one of two ways: its last line was parsed by a matching end
      line, or it was matched by no identity line and is marked unparsed. */
  lemma {:induction false} IdentifiedStops(convert: Convert, classes: ClassTable, ls: seq<LineConfig>, input: seq<string>, p: Progress)
    requires AllConfigured(ls) && NullRejected(ls) && WfState(p.st) && p.pos <= |input|
    ensures var r := Identified(convert, classes, ls, input, p);
      r.Ok? ==>
        var q := r.value;
        var m := FirstMatch(ls, q.lastReadLine);
        (q.parsed ==> m.Ok? && m.value.Some? && ls[m.value.value].recordEndLine == Some(true)) &&
        (!q.parsed ==> m == Ok(None))
    decreases |input| - p.pos
  {
    var (line, pos) := Read(input, p.pos);
    var step := IdentityStep(convert, classes, ls, line, p.st);
    IdentityStepMatched(convert, classes, ls, line, p.st);
    if step.Ok? {
      var (st, matched) := step.value;
      if matched == Some(false) {
        IdentifiedStops(convert, classes, ls, input, Progress(st, line, true, pos));
      } else {
        assert Identified(convert, classes, ls, input, p) == Ok(Progress(st, line, matched.Some?, pos));
      }
    }
  }

  /** The last line the identity phase read is the one just before its final cursor, or null
      at the end of the input. */
  lemma {:induction false} IdentifiedLastLine(convert: Convert, classes: ClassTable, ls: seq<LineConfig>, input: seq<string>, p: Progress)
    requires AllConfigured(ls) && NullRejected(ls) && WfState(p.st) && p.pos <= |input|
    ensures var r := Identified(convert, classes, ls, input, p);
      r.Ok? ==>
        (r.value.lastReadLine.Some? ==> 0 < r.value.pos && r.value.lastReadLine == Some(input[r.value.pos - 1])) &&
        (r.value.lastReadLine.None? ==> r.value.pos == |input|)
    decreases |input| - p.pos
  {
    var (line, pos) := Read(input, p.pos);
    var step := IdentityStep(convert, classes, ls, line, p.st);
    if step.Ok? {
      var (st, matched) := step.value;
      if matched == Some(false) {
        IdentifiedLastLine(convert, classes, ls, input, Progress(st, line, true, pos));
      } else {
        assert Identified(convert, classes, ls, input, p) == Ok(Progress(st, line, matched.Some?, pos));
      }
    }
  }

  /** A successful identity step says whether some identity line matched, and if so whether
      the first one to match is an end line. */
  lemma IdentityStepMatched(convert: Convert, classes: ClassTable, ls: seq<LineConfig>, line: Option<string>, st: BeanState)
    requires AllConfigured(ls) && NullRejected(ls) && WfState(st)
    ensures var r := IdentityStep(convert, classes, ls, line, st);
      r.Ok? ==>
        var m := FirstMatch(ls, line);
        m.Ok? && (r.value.1.None? <==> m.value.None?) &&
        (r.value.1.Some? ==> ls[m.value.value].recordEndLine == r.value.1)
  {
  }

  /** The two line phases of `parseRecord`: the sequential lines, and then, when there are
      identity lines, the lines that follow until the record ends. */
  function LinePhases(convert: Convert, classes: ClassTable, lines: seq<LineConfig>, identityLines: seq<LineConfig>,
                      recordIdentity: Option<Identity>, input: seq<string>, p: Progress): (r: Result<Progress>)
    requires AllConfigured(identityLines) && NullRejected(identityLines) && WfState(p.st) && p.pos <= |input|
    ensures r.Ok? ==> WfState(r.value.st) && p.pos <= r.value.pos <= |input|
  {
    SequentialReads(convert, classes, lines, recordIdentity, input, 0, p);
    var q :- Sequential(convert, classes, lines, recordIdentity, input, 0, p);
    if identityLines == [] then Ok(q) else Identified(convert, classes, identityLines, input, q)
  }

  /** The whole of `parseRecord` up to its catch: the beans are instantiated, and the line phases
      start from the first line. */
  function RecordParse(convert: Convert, classes: ClassTable, defs: map<string, BeanBO>, order: seq<string>,
                       lines: seq<LineConfig>, identityLines: seq<LineConfig>, recordIdentity: Option<Identity>,
                       firstLine: Option<string>, input: seq<string>, pos: nat, parsed: bool): (r: Result<Progress>)
    requires forall i :: 0 <= i < |order| ==> order[i] in defs
    requires AllConfigured(identityLines) && NullRejected(identityLines) && pos <= |input|
    ensures r.Ok? ==> WfState(r.value.st) && pos <= r.value.pos <= |input|
  {
    var st :- Instantiated(classes, defs, order);
    LinePhases(convert, classes, lines, identityLines, recordIdentity, input, Progress(st, firstLine, parsed, pos))
  }

  /** What `parseRecord` returns: the beans, or, whatever went wrong, a parser exception. */
  function ParseRecordResult(convert: Convert, classes: ClassTable, defs: map<string, BeanBO>, order: seq<string>,
                             lines: seq<LineConfig>, identityLines: seq<LineConfig>, recordIdentity: Option<Identity>,
                             firstLine: Option<string>, input: seq<string>, pos: nat, parsed: bool): (r: Result<BeanState>)
    requires forall i :: 0 <= i < |order| ==> order[i] in defs
    requires AllConfigured(identityLines) && NullRejected(identityLines) && pos <= |input|
    ensures r.Err? ==> r.error == FlatwormParserException
    ensures r.Ok? <==> RecordParse(convert, classes, defs, order, lines, identityLines, recordIdentity, firstLine, input, pos, parsed).Ok?
  {
    match RecordParse(convert, classes, defs, order, lines, identityLines, recordIdentity, firstLine, input, pos, parsed)
    case Ok(p) => Ok(p.st)
    case Err(_) => Err(FlatwormParserException)
  }

  class RecordBO {
    var name: Option<string>
    var recordIdentity: Option<Identity>
    var recordDefinition: RecordDefinitionBO
    var cardinality: Option<Cardinality>
    var parsedLastReadLine: bool
    var lastReadLine: Option<string>

    /** A record with the given definition and nothing else set. */
    constructor(definition: RecordDefinitionBO)
      ensures recordDefinition == definition && name.None? && recordIdentity.None? && cardinality.None?
      ensures !parsedLastReadLine && lastReadLine.None?
    {
      recordDefinition := definition;
      name, recordIdentity, cardinality := None, None, None;
      parsedLastReadLine, lastReadLine := false, None;
    }

    /** `matchesLine`: a record without an identity claims every line; otherwise its identity
        decides. */
    function MatchesLine(line: Option<string>): (r: Result<bool>)
      reads this
      requires recordIdentity.Some? ==> Configured(recordIdentity.value)
      ensures recordIdentity.None? ==> r == Ok(true)
      ensures recordIdentity.Some? ==> r == MatchesIdentity(recordIdentity.value, line)
    {
      if recordIdentity.None? then Ok(true) else MatchesIdentity(recordIdentity.value, line)
    }

    /** One pass of the sequential loop of `parseRecord`: line `i` parses the last line read, its
        bean is attached, and a further line is read unless it is the last line. */
    method SequentialPass(lines: seq<LineBO>, ghost cs: seq<LineConfig>, i: nat, reader: LineReader,
                          convert: Convert, classes: ClassTable, beans: BeanState) returns (r: Result<BeanState>)
      requires i < |lines| && reader.Valid() && WfState(beans) && HasConfigs(lines, cs)
      modifies this, reader, lines
      ensures reader.Valid() && HasConfigs(lines, cs)
      ensures name == old(name) && recordIdentity == old(recordIdentity) && recordDefinition == old(recordDefinition) && cardinality == old(cardinality)
      ensures var before := Sequential(convert, classes, cs, recordIdentity, reader.input, i,
                                       Progress(beans, old(lastReadLine), old(parsedLastReadLine), old(reader.pos)));
        match r
        case Err(e) => before == Err(e)
        case Ok(st) =>
          WfState(st) &&
          before == Sequential(convert, classes, cs, recordIdentity, reader.input, i + 1, Progress(st, lastReadLine, parsedLastReadLine, reader.pos))
    {
      var line := lines[i];
      var parsed := line.ParseInput(lastReadLine, beans, convert, classes, recordIdentity);
      if parsed.Err? {
        return Err(parsed.error);
      }
      var added := AddBeanToBean(classes, line.Config(), parsed.value);
      if added.Err? {
        return Err(added.error);
      }
      parsedLastReadLine := true;
      if i + 1 < |lines| {
        lastReadLine := reader.ReadLine();
      }
      return Ok(added.value);
    }

    /** The sequential loop of `parseRecord`, starting from `firstLine`. */
    method ParseSequentialLines(lines: seq<LineBO>, ghost cs: seq<LineConfig>, firstLine: Option<string>, reader: LineReader,
                                convert: Convert, classes: ClassTable, beans0: BeanState) returns (r: Result<BeanState>)
      requires reader.Valid() && WfState(beans0) && HasConfigs(lines, cs)
      modifies this, reader, lines
      ensures reader.Valid() && HasConfigs(lines, cs)
      ensures name == old(name) && recordIdentity == old(recordIdentity) && recordDefinition == old(recordDefinition) && cardinality == old(cardinality)
      ensures forall l :: l in lines ==> l.Config() == old(l.Config())
      ensures var s := Sequential(convert, classes, cs, recordIdentity, reader.input, 0,
                                  Progress(beans0, firstLine, old(parsedLastReadLine), old(reader.pos)));
        match s
        case Ok(p) => r == Ok(p.st) && lastReadLine == p.lastReadLine && parsedLastReadLine == p.parsed && reader.pos == p.pos
        case Err(e) => r == Err(e)
    {
      ghost var start := Progress(beans0, firstLine, parsedLastReadLine, reader.pos);
      var beans := beans0;
      lastReadLine := firstLine;
      var i := 0;
      while i < |lines|
        invariant 0 <= i <= |lines| && reader.Valid() && WfState(beans) && HasConfigs(lines, cs)
        invariant name == old(name) && recordIdentity == old(recordIdentity) && recordDefinition == old(recordDefinition) && cardinality == old(cardinality)
        invariant Sequential(convert, classes, cs, recordIdentity, reader.input, 0, start) ==
                  Sequential(convert, classes, cs, recordIdentity, reader.input, i, Progress(beans, lastReadLine, parsedLastReadLine, reader.pos))
        decreases |lines| - i
      {
        var pass := SequentialPass(lines, cs, i, reader, convert, classes, beans);
        if pass.Err? {
          return Err(pass.error);
        }
        beans := pass.value;
        i := i + 1;
      }
      assert i == |cs|;
      assert Sequential(convert, classes, cs, recordIdentity, reader.input, i, Progress(beans, lastReadLine, parsedLastReadLine, reader.pos))
          == Ok(Progress(beans, lastReadLine, parsedLastReadLine, reader.pos));
      forall l | l in lines
        ensures l.Config() == old(l.Config())
      {
        var j :| 0 <= j < |lines| && lines[j] == l;
      }
      return Ok(beans);
    }

    /** One pass of the do-while loop of `parseRecord`, after the line is read. */
    method ParseIdentityLine(identityLines: seq<LineBO>, ghost cs: seq<LineConfig>, line: Option<string>,
                             convert: Convert, classes: ClassTable, beans: BeanState) returns (r: Result<(BeanState, Option<bool>)>)
      requires WfState(beans) && HasConfigs(identityLines, cs) && AllConfigured(cs) && NullRejected(cs)
      modifies identityLines
      ensures HasConfigs(identityLines, cs)
      ensures r == IdentityStep(convert, classes, cs, line, beans)
    {
      NullNeverMatches(cs);
      assert Configs(identityLines) == cs;
      var matching := FirstMatch(Configs(identityLines), line);
      if matching.Err? {
        return Err(matching.error);
      }
      if matching.value.None? {
        return Ok((beans, None));
      }
      var l := identityLines[matching.value.value];
      var parsed := l.ParseInput(line, beans, convert, classes, l.lineIdentity);
      if parsed.Err? {
        return Err(parsed.error);
      }
      var added := AddBeanToBean(classes, l.Config(), parsed.value);
      if added.Err? {
        return Err(added.error);
      }
      if l.recordEndLine.None? {
        return Err(NullPointerException);
      }
      return Ok((added.value, Some(l.recordEndLine.value)));
    }

    /** One pass of the do-while loop of `parseRecord`: a line is read and parsed; the result
        says whether the loop goes on. */
    method IdentityPass(identityLines: seq<LineBO>, ghost cs: seq<LineConfig>, reader: LineReader,
                        convert: Convert, classes: ClassTable, beans: BeanState) returns (r: Result<(BeanState, bool)>)
      requires reader.Valid() && WfState(beans) && HasConfigs(identityLines, cs) && AllConfigured(cs) && NullRejected(cs)
      modifies this, reader, identityLines
      ensures reader.Valid() && HasConfigs(identityLines, cs)
      ensures name == old(name) && recordIdentity == old(recordIdentity) && recordDefinition == old(recordDefinition) && cardinality == old(cardinality)
      ensures var before := Identified(convert, classes, cs, reader.input, Progress(beans, old(lastReadLine), old(parsedLastReadLine), old(reader.pos)));
        match r
        case Err(e) => before == Err(e)
        case Ok((st, more)) =>
          WfState(st) &&
          (more ==> old(reader.pos) < reader.pos && before == Identified(convert, classes, cs, reader.input, Progress(st, lastReadLine, parsedLastReadLine, reader.pos))) &&
          (!more ==> before == Ok(Progress(st, lastReadLine, parsedLastReadLine, reader.pos)))
    {
      lastReadLine := reader.ReadLine();
      var step := ParseIdentityLine(identityLines, cs, lastReadLine, convert, classes, beans);
      if step.Err? {
        return Err(step.error);
      }
      if step.value.1.None? {
        parsedLastReadLine := false;
        return Ok((step.value.0, false));
      }
      parsedLastReadLine := true;
      return Ok((step.value.0, !step.value.1.value));
    }

    /** The do-while loop of `parseRecord` over the identity lines. */
    method ParseIdentityLines(identityLines: seq<LineBO>, ghost cs: seq<LineConfig>, reader: LineReader,
                              convert: Convert, classes: ClassTable, beans0: BeanState) returns (r: Result<BeanState>)
      requires reader.Valid() && WfState(beans0) && HasConfigs(identityLines, cs) && AllConfigured(cs) && NullRejected(cs)
      modifies this, reader, identityLines
      ensures reader.Valid() && HasConfigs(identityLines, cs)
      ensures name == old(name) && recordIdentity == old(recordIdentity) && recordDefinition == old(recordDefinition) && cardinality == old(cardinality)
      ensures var s := Identified(convert, classes, cs, reader.input, Progress(beans0, old(lastReadLine), old(parsedLastReadLine), old(reader.pos)));
        match s
        case Ok(p) => r == Ok(p.st) && lastReadLine == p.lastReadLine && parsedLastReadLine == p.parsed && reader.pos == p.pos
        case Err(e) => r == Err(e)
    {
      ghost var start := Progress(beans0, lastReadLine, parsedLastReadLine, reader.pos);
      var beans := beans0;
      var continueParsing := true;
      while continueParsing
        invariant reader.Valid() && WfState(beans) && HasConfigs(identityLines, cs)
        invariant name == old(name) && recordIdentity == old(recordIdentity) && recordDefinition == old(recordDefinition) && cardinality == old(cardinality)
        invariant continueParsing ==>
          Identified(convert, classes, cs, reader.input, start) ==
          Identified(convert, classes, cs, reader.input, Progress(beans, lastReadLine, parsedLastReadLine, reader.pos))
        invariant !continueParsing ==>
          Identified(convert, classes, cs, reader.input, start) == Ok(Progress(beans, lastReadLine, parsedLastReadLine, reader.pos))
        decreases |reader.input| - reader.pos, if continueParsing then 1 else 0
      {
        var pass := IdentityPass(identityLines, cs, reader, convert, classes, beans);
        if pass.Err? {
          return Err(pass.error);
        }
        beans, continueParsing := pass.value.0, pass.value.1;
      }
      return Ok(beans);
    }

    /** The line phases of `parseRecord`, from `firstLine`. */
    method ParseLines(lines: seq<LineBO>, ghost cs: seq<LineConfig>, identityLines: seq<LineBO>, ghost ids: seq<LineConfig>,
                      firstLine: Option<string>, reader: LineReader, convert: Convert, classes: ClassTable, beans0: BeanState)
      returns (r: Result<BeanState>)
      requires reader.Valid() && WfState(beans0) && HasConfigs(lines, cs) && HasConfigs(identityLines, ids)
      requires AllConfigured(ids) && NullRejected(ids)
      modifies this, reader, lines, identityLines
      ensures reader.Valid()
      ensures name == old(name) && recordIdentity == old(recordIdentity) && recordDefinition == old(recordDefinition) && cardinality == old(cardinality)
      ensures match LinePhases(convert, classes, cs, ids, recordIdentity, reader.input,
                               Progress(beans0, firstLine, old(parsedLastReadLine), old(reader.pos)))
        case Ok(p) => r == Ok(p.st) && lastReadLine == p.lastReadLine && parsedLastReadLine == p.parsed && reader.pos == p.pos
        case Err(e) => r == Err(e)
    {
      var s := ParseSequentialLines(lines, cs, firstLine, reader, convert, classes, beans0);
      if s.Err? {
        return Err(s.error);
      }
      assert HasConfigs(identityLines, ids);
      if identityLines != [] {
        r := ParseIdentityLines(identityLines, ids, reader, convert, classes, s.value);
        return r;
      }
      return s;
    }

    /** `parseRecord(firstLine, in, conversionHelper)`: the beans of one record. Every failure
        is rethrown as a parser exception; `order` is the order the bean map was visited in. */
    method ParseRecord(firstLine: Option<string>, reader: LineReader, convert: Convert, classes: ClassTable)
      returns (r: Result<BeanState>, ghost order: seq<string>)
      requires reader.Valid()
      requires AllConfigured(Configs(recordDefinition.linesWithIdentities))
      requires NullRejected(Configs(recordDefinition.linesWithIdentities))
      modifies this, reader, recordDefinition.lines, recordDefinition.linesWithIdentities
      ensures reader.Valid()
      ensures name == old(name) && recordIdentity == old(recordIdentity) && recordDefinition == old(recordDefinition) && cardinality == old(cardinality)
      ensures IsListing(order, recordDefinition.beans.Keys)
      ensures match RecordParse(convert, classes, recordDefinition.beans, order,
                                old(Configs(recordDefinition.lines)), old(Configs(recordDefinition.linesWithIdentities)),
                                recordIdentity, firstLine, reader.input, old(reader.pos), old(parsedLastReadLine))
        case Ok(p) => r == Ok(p.st) && lastReadLine == p.lastReadLine && parsedLastReadLine == p.parsed && reader.pos == p.pos
        case Err(_) => r == Err(FlatwormParserException)
    {
      var definition := recordDefinition;
      var lines := definition.lines;
      var identityLines := definition.linesWithIdentities;
      ghost var cs, ids := Configs(lines), Configs(identityLines);
      ghost var input, pos0, parsed0 := reader.input, reader.pos, parsedLastReadLine;
      var created;
      created, order := InstantiateBeans(definition.beans, classes);
      ghost var whole := RecordParse(convert, classes, definition.beans, order, cs, ids, recordIdentity, firstLine, input, pos0, parsed0);
      if created.Err? {
        assert whole.Err?;
        return Err(FlatwormParserException), order;
      }
      assert whole == LinePhases(convert, classes, cs, ids, recordIdentity, input, Progress(created.value, firstLine, parsed0, pos0));
      var parsed := ParseLines(lines, cs, identityLines, ids, firstLine, reader, convert, classes, created.value);
      if parsed.Err? {
        return Err(FlatwormParserException), order;
      }
      return parsed, order;
    }
  }
}
