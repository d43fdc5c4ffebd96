/** Beans as data: the reflective property access of the library is replaced by plain values.
    Objects live in a heap, a sequence indexed by object id, so that a bean put into a
    collection and then filled in is the same object in both places. A converted field is
    recorded as the converter's name applied to the field text, since the converter classes
    themselves are user code. */
module Beans {
  import opened Wrappers

  datatype Value =
    | Null
    | Converted(converter: string, text: Option<string>)
    | Ref(id: nat)
    | Items(items: seq<Value>)
    // The string `front.toString() + back`; the text of a user object is not known.
    | Concatenated(front: Value, back: Value)

  /** A bean: its class, its properties (the ones the class declares) and the calls made to its
      named add methods, in order. */
  datatype Bean = Bean(className: string, properties: map<string, Value>, addCalls: seq<(string, Value)>)

  type Heap = seq<Bean>

  /** What a class's no-argument constructor sets its properties to. */
  type ClassTable = map<string, map<string, Value>>

  /** `target` is null or an object of the heap. */
  predicate InHeap(heap: Heap, target: Option<nat>) {
    target.Some? ==> target.value < |heap|
  }

  /** Every object other than `id` is the same in both heaps, and no object was added. */
  predicate OnlyChanged(h: Heap, h': Heap, id: nat) {
    |h'| == |h| && forall i :: 0 <= i < |h| && i != id ==> h'[i] == h[i]
  }

  /** `newBeanInstance`: a fresh object of the given bean's class, as its constructor builds it.
      A null bean throws while the error message is built; a class that cannot be instantiated
      is a parser error. */
  function NewBeanInstance(heap: Heap, classes: ClassTable, beanType: Option<nat>): (r: Result<(Heap, nat)>)
    requires InHeap(heap, beanType)
    ensures beanType.None? ==> r == Err(NullPointerException)
    ensures beanType.Some? && heap[beanType.value].className !in classes ==> r == Err(FlatwormParserException)
    ensures r.Ok? ==> var (h', id) := r.value;
      var className := heap[beanType.value].className;
      className in classes && id == |heap| && h' == heap + [Bean(className, classes[className], [])]
  {
    if beanType.None? then Err(NullPointerException)
    else
      var className := heap[beanType.value].className;
      if className !in classes then Err(FlatwormParserException)
      else Ok((heap + [Bean(className, classes[className], [])], |heap|))
  }
}
