/** The part of the W3C DOM the configuration readers walk: element, text and CDATA nodes, the
    attributes of an element, and the child-node helpers every reader repeats (the first element
    child of a name, all of them, the first or last text child, the first CDATA child). A document
    is the sequence of its top-level nodes. */
module Dom {
  import opened Wrappers
  import opened JavaText

  datatype Node =
    | Element(name: string, attributes: map<string, string>, children: seq<Node>)
    | Text(value: string)
    | CData(data: string)
    | Comment(data: string)

  /** `getChildNodes()`: only an element has children here. */
  function ChildrenOf(n: Node): seq<Node> {
    if n.Element? then n.children else []
  }

  /** `nodeName.equals(child.getNodeName()) && child.getNodeType() == ELEMENT_NODE`. */
  predicate IsElementNamed(n: Node, name: string) {
    n.Element? && n.name == name
  }

  predicate IsText(n: Node) {
    n.Text?
  }

  predicate IsCData(n: Node) {
    n.CData?
  }

  /** `getAttributeValueNamed`: the attribute's value, or null when the element lacks it. The
      readers only ask elements. */
  function Attr(n: Node, name: string): Option<string> {
    if n.Element? && name in n.attributes then Some(n.attributes[name]) else None
  }

  // ---------------------------------------------------------------------------------------
  // Specification functions: the child a helper answers with.

  /** The first node satisfying `p`. */
  function FirstWhere(cs: seq<Node>, p: Node -> bool): (r: Option<Node>)
    ensures r.Some? ==> r.value in cs && p(r.value)
  {
    if cs == [] then None
    else if p(cs[0]) then Some(cs[0])
    else FirstWhere(cs[1..], p)
  }

  /** The last node satisfying `p`. */
  function LastWhere(cs: seq<Node>, p: Node -> bool): (r: Option<Node>)
    ensures r.Some? ==> r.value in cs && p(r.value)
  {
    if cs == [] then None
    else if p(cs[|cs| - 1]) then Some(cs[|cs| - 1])
    else LastWhere(cs[..|cs| - 1], p)
  }

  /** The nodes satisfying `p`, in document order. */
  function AllWhere(cs: seq<Node>, p: Node -> bool): seq<Node> {
    if cs == [] then []
    else AllWhere(cs[..|cs| - 1], p) + (if p(cs[|cs| - 1]) then [cs[|cs| - 1]] else [])
  }

  /** `getChildElementNodeName` / `getChildElementNodeOfType` on a list of children. */
  function FirstNamed(cs: seq<Node>, name: string): (r: Option<Node>)
    ensures r.Some? ==> r.value in cs
  {
    FirstWhere(cs, n => IsElementNamed(n, name))
  }

  /** `getChildElementNodesOfType` on a list of children. */
  function AllNamed(cs: seq<Node>, name: string): seq<Node> {
    AllWhere(cs, n => IsElementNamed(n, name))
  }

  /** The value of the first text child (the legacy reader's `getChildTextNodeValue`). */
  function FirstText(cs: seq<Node>): Option<string> {
    var n := FirstWhere(cs, IsText);
    if n.Some? then Some(n.value.value) else None
  }

  /** The value of the last text child (the `getChildTextNodeValue` of both newer readers). */
  function LastText(cs: seq<Node>): Option<string> {
    var n := LastWhere(cs, IsText);
    if n.Some? then Some(n.value.value) else None
  }

  /** The data of the first CDATA child, trimmed. */
  function FirstCData(cs: seq<Node>): Option<string> {
    var n := FirstWhere(cs, IsCData);
    if n.Some? then Some(Trim(n.value.data)) else None
  }

  // ---------------------------------------------------------------------------------------
  // What the specification functions mean.

  /** The first match: null exactly when nothing matches, and otherwise a matching child with no
      match before it. */
  lemma {:induction false} FirstWhereRule(cs: seq<Node>, p: Node -> bool)
    ensures FirstWhere(cs, p).None? <==> forall i :: 0 <= i < |cs| ==> !p(cs[i])
    ensures FirstWhere(cs, p).Some? ==> exists i :: 0 <= i < |cs| && cs[i] == FirstWhere(cs, p).value && p(cs[i]) &&
                                         (forall j :: 0 <= j < i ==> !p(cs[j]))
  {
    if cs != [] && !p(cs[0]) {
      var tail := cs[1..];
      FirstWhereRule(tail, p);
      assert forall i :: 1 <= i < |cs| ==> cs[i] == tail[i - 1];
      if FirstWhere(tail, p).Some? {
        var i :| 0 <= i < |tail| && tail[i] == FirstWhere(tail, p).value && p(tail[i]) && forall j :: 0 <= j < i ==> !p(tail[j]);
        assert cs[i + 1] == tail[i];
        forall j | 0 <= j < i + 1 ensures !p(cs[j]) {
          if j > 0 {
            assert cs[j] == tail[j - 1];
          }
        }
      }
    }
  }

  /** The last match: null exactly when nothing matches, and otherwise a matching child with no
      match after it. */
  lemma {:induction false} LastWhereRule(cs: seq<Node>, p: Node -> bool)
    ensures LastWhere(cs, p).None? <==> forall i :: 0 <= i < |cs| ==> !p(cs[i])
    ensures LastWhere(cs, p).Some? ==> exists i :: 0 <= i < |cs| && cs[i] == LastWhere(cs, p).value && p(cs[i]) &&
                                        (forall j :: i < j < |cs| ==> !p(cs[j]))
  {
    if cs == [] {
    } else if p(cs[|cs| - 1]) {
      assert cs[|cs| - 1] == LastWhere(cs, p).value;
    } else {
      var init := cs[..|cs| - 1];
      LastWhereRule(init, p);
      if LastWhere(init, p).Some? {
        var i :| 0 <= i < |init| && init[i] == LastWhere(init, p).value && p(init[i]) && forall j :: i < j < |init| ==> !p(init[j]);
        assert cs[i] == init[i];
        forall j | i < j < |cs| ensures !p(cs[j]) {
          if j < |init| {
            assert cs[j] == init[j];
          }
        }
      } else {
        forall i | 0 <= i < |cs| ensures !p(cs[i]) {
          if i < |init| {
            assert cs[i] == init[i];
          }
        }
      }
    }
  }

  /** The matches split over a concatenation: document order is kept. */
  lemma {:induction false} AllWhereAppend(a: seq<Node>, b: seq<Node>, p: Node -> bool)
    ensures AllWhere(a + b, p) == AllWhere(a, p) + AllWhere(b, p)
  {
    if b == [] {
      assert a + b == a;
    } else {
      var init := b[..|b| - 1];
      AllWhereAppend(a, init, p);
      assert (a + b)[..|a + b| - 1] == a + init;
      assert (a + b)[|a + b| - 1] == b[|b| - 1];
    }
  }

  /** A node is among the matches exactly when it is a child that matches. */
  lemma {:induction false} AllWhereMember(cs: seq<Node>, p: Node -> bool, x: Node)
    ensures x in AllWhere(cs, p) <==> x in cs && p(x)
  {
    if cs != [] {
      var init := cs[..|cs| - 1];
      AllWhereMember(init, p, x);
      assert cs == init + [cs[|cs| - 1]];
    }
  }

  /** Text before the last text child does not count for the newer readers, text after the
      first does not count for the legacy reader: with two text children they disagree. */
  lemma TextChildrenDisagree(a: string, b: string)
    requires a != b
    ensures FirstText([Text(a), Text(b)]) == Some(a)
    ensures LastText([Text(a), Text(b)]) == Some(b)
  {
    assert [Text(a), Text(b)][..1] == [Text(a)];
    assert [Text(a), Text(b)][1..] == [Text(b)];
  }

  /** The CDATA helper trims, the text helpers do not. */
  lemma CDataIsTrimmed(d: string, t: string)
    ensures FirstCData([Text(t), CData(d)]) == Some(Trim(d))
    ensures LastText([Text(t), CData(d)]) == Some(t)
  {
    var cs := [Text(t), CData(d)];
    assert cs[1..] == [CData(d)];
    assert FirstWhere(cs[1..], IsCData) == Some(CData(d));
    assert cs[..1] == [Text(t)];
    assert LastWhere(cs[..1], IsText) == Some(Text(t));
  }

  // ---------------------------------------------------------------------------------------
  // The `getChildNodes` walk of the readers, over what `traverse` gave for each child.

  /** The `getChildNodes` loop over a list of outcomes: the first failure, or the objects. */
  function Collected<T>(os: seq<Result<Option<T>>>): Result<seq<T>> {
    if os == [] then Ok([])
    else
      var o :- os[0];
      var rest :- Collected(os[1..]);
      Ok((if o.Some? then [o.value] else []) + rest)
  }

  /** The positions, counted from `base`, of the outcomes that are objects. */
  function Kept<T>(os: seq<Result<Option<T>>>, base: nat): seq<nat> {
    if os == [] then [] else (if os[0].Ok? && os[0].value.Some? then [base] else []) + Kept(os[1..], base + 1)
  }

  /** One object is collected per kept position. */
  lemma {:induction false} CollectedLength<T>(os: seq<Result<Option<T>>>, base: nat)
    requires Collected(os).Ok?
    ensures |Kept(os, base)| == |Collected(os).value|
  {
    if os != [] {
      CollectedLength(os[1..], base + 1);
    }
  }

  /** The `j`-th object collected is what the `j`-th kept position gave. */
  lemma {:induction false} CollectedAt<T>(os: seq<Result<Option<T>>>, base: nat, j: nat)
    requires Collected(os).Ok? && j < |Kept(os, base)| && j < |Collected(os).value|
    ensures base <= Kept(os, base)[j] < base + |os|
    ensures os[Kept(os, base)[j] - base] == Ok(Some(Collected(os).value[j]))
  {
    var tail := os[1..];
    CollectedLength(tail, base + 1);
    var mine := if os[0].value.Some? then [base] else [];
    var found := if os[0].value.Some? then [os[0].value.value] else [];
    assert Kept(os, base) == mine + Kept(tail, base + 1);
    assert Collected(os).value == found + Collected(tail).value;
    if j >= |mine| {
      CollectedAt(tail, base + 1, j - |mine|);
      assert os[Kept(os, base)[j] - base] == tail[Kept(tail, base + 1)[j - |mine|] - (base + 1)];
    }
  }

  /** Kept positions rise. */
  lemma {:induction false} KeptRises<T>(os: seq<Result<Option<T>>>, base: nat)
    ensures forall j :: 0 <= j < |Kept(os, base)| ==> base <= Kept(os, base)[j] < base + |os|
    ensures forall j, j' :: 0 <= j < j' < |Kept(os, base)| ==> Kept(os, base)[j] < Kept(os, base)[j']
  {
    if os != [] {
      var tail := os[1..];
      KeptRises(tail, base + 1);
      var mine := if os[0].Ok? && os[0].value.Some? then [base] else [];
      var idx, idx' := Kept(os, base), Kept(tail, base + 1);
      assert idx == mine + idx';
      forall j | 0 <= j < |idx| ensures base <= idx[j] < base + |os| {
        if j >= |mine| {
          assert idx[j] == idx'[j - |mine|];
        }
      }
      forall j, j' | 0 <= j < j' < |idx| ensures idx[j] < idx[j'] {
        if j >= |mine| {
          assert idx[j] == idx'[j - |mine|] && idx[j'] == idx'[j' - |mine|];
        } else {
          assert idx[j'] == idx'[j' - 1];
        }
      }
    }
  }

  /** Every outcome that is an object has its position kept. */
  lemma {:induction false} KeptComplete<T>(os: seq<Result<Option<T>>>, base: nat, k: nat)
    requires Collected(os).Ok? && k < |os| && os[k] != Ok(None)
    ensures base + k in Kept(os, base)
  {
    if k > 0 {
      KeptComplete(os[1..], base + 1, k - 1);
    }
  }

  /** The objects collected are those of the kept positions, in order, none left out. */
  lemma CollectedKeepsOrder<T>(os: seq<Result<Option<T>>>, base: nat)
    requires Collected(os).Ok?
    ensures var list, idx := Collected(os).value, Kept(os, base);
      && |idx| == |list|
      && (forall j :: 0 <= j < |idx| ==> base <= idx[j] < base + |os| && os[idx[j] - base] == Ok(Some(list[j])))
      && (forall j, j' :: 0 <= j < j' < |idx| ==> idx[j] < idx[j'])
      && (forall k :: base <= k < base + |os| && os[k - base] != Ok(None) ==> k in idx)
  {
    CollectedLength(os, base);
    KeptRises(os, base);
    forall j | 0 <= j < |Kept(os, base)| ensures os[Kept(os, base)[j] - base] == Ok(Some(Collected(os).value[j])) {
      CollectedAt(os, base, j);
    }
    forall k | base <= k < base + |os| && os[k - base] != Ok(None) ensures k in Kept(os, base) {
      KeptComplete(os, base, k - base);
    }
  }

  // ---------------------------------------------------------------------------------------
  // The helpers, as the loops over the `NodeList` they are.

  /** `getChildElementNodeName(node, name)`: the loop stops at the first element of the name. */
  method ChildElementNamed(node: Node, nodeName: string) returns (r: Option<Node>)
    ensures r == FirstNamed(ChildrenOf(node), nodeName)
  {
    var children := ChildrenOf(node);
    var p := (n: Node) => IsElementNamed(n, nodeName);
    r := None;
    var i := 0;
    while i < |children|
      invariant 0 <= i <= |children|
      invariant FirstWhere(children, p) == FirstWhere(children[i..], p)
    {
      var child := children[i];
      assert children[i..][1..] == children[i + 1..];
      if IsElementNamed(child, nodeName) {
        r := Some(child);
        return;
      }
      i := i + 1;
    }
  }

  /** `getChildElementNodesOfType(node, name)`: every element of the name, in order. */
  method ChildElementsOfType(node: Node, nodeName: string) returns (nodes: seq<Node>)
    ensures nodes == AllNamed(ChildrenOf(node), nodeName)
  {
    var children := ChildrenOf(node);
    var p := (n: Node) => IsElementNamed(n, nodeName);
    nodes := [];
    var i := 0;
    while i < |children|
      invariant 0 <= i <= |children|
      invariant nodes == AllWhere(children[..i], p)
    {
      var child := children[i];
      assert children[..i + 1][..i] == children[..i];
      if IsElementNamed(child, nodeName) {
        nodes := nodes + [child];
      }
      i := i + 1;
    }
    assert children[..i] == children;
  }

  /** The legacy `getChildTextNodeValue`: the loop stops at the first text child. */
  method FirstChildText(node: Node) returns (textValue: Option<string>)
    ensures textValue == FirstText(ChildrenOf(node))
  {
    var children := ChildrenOf(node);
    textValue := None;
    var i := 0;
    while i < |children|
      invariant 0 <= i <= |children|
      invariant FirstWhere(children, IsText) == FirstWhere(children[i..], IsText)
    {
      var child := children[i];
      assert children[i..][1..] == children[i + 1..];
      if child.Text? {
        textValue := Some(child.value);
        return;
      }
      i := i + 1;
    }
  }

  /** The newer `getChildTextNodeValue`: the loop runs to the end and every text child
      overwrites the value. */
  method LastChildText(node: Node) returns (textValue: Option<string>)
    ensures textValue == LastText(ChildrenOf(node))
  {
    var children := ChildrenOf(node);
    textValue := None;
    var i := 0;
    while i < |children|
      invariant 0 <= i <= |children|
      invariant textValue == LastText(children[..i])
    {
      var child := children[i];
      assert children[..i + 1][..i] == children[..i];
      if child.Text? {
        textValue := Some(child.value);
      }
      i := i + 1;
    }
    assert children[..i] == children;
  }

  /** `getChildCDataNodeValue`: the first CDATA child's data, trimmed. */
  method ChildCData(node: Node) returns (result: Option<string>)
    ensures result == FirstCData(ChildrenOf(node))
  {
    var children := ChildrenOf(node);
    result := None;
    var i := 0;
    while i < |children|
      invariant 0 <= i <= |children|
      invariant FirstWhere(children, IsCData) == FirstWhere(children[i..], IsCData)
    {
      var child := children[i];
      assert children[i..][1..] == children[i + 1..];
      if child.CData? {
        result := Some(Trim(child.data));
        return;
      }
      i := i + 1;
    }
  }
}
