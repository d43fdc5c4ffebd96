/** `ParseUtils`: attaching a child bean to its parent according to the cardinality
    configuration. Reflection is replaced by the bean heap: a property exists when the class
    declares it, and a collection property holds `Items`. */
module ParseUtils {
  import opened Wrappers
  import opened JavaText
  import opened Beans
  import opened LineElements
  import Util

  /** `setProperty`: a null target or property name, or a property the class does not declare,
      is a parser error; otherwise the property takes the value. */
  function SetProperty(heap: Heap, target: Option<nat>, propertyName: Option<string>, toAdd: Value): (r: Result<Heap>)
    requires InHeap(heap, target)
    ensures r.Ok? <==> target.Some? && propertyName.Some? && propertyName.value in heap[target.value].properties
    ensures r.Err? ==> r.error == FlatwormParserException
    ensures r.Ok? ==> (OnlyChanged(heap, r.value, target.value) &&
      r.value[target.value] == heap[target.value].(properties := heap[target.value].properties[propertyName.value := toAdd]))
  {
    if target.None? || propertyName.None? || propertyName.value !in heap[target.value].properties then
      Err(FlatwormParserException)
    else
      var b := heap[target.value];
      Ok(heap[target.value := b.(properties := b.properties[propertyName.value := toAdd])])
  }

  /** Whether the options ask `mapBean` to append: an "append" option whose value is "true",
      in any case. */
  predicate Appends(options: map<string, Util.ConversionOption>) {
    var v := Util.GetValue(options, "append");
    v.Some? && EqualsIgnoreCase(v.value, "true")
  }

  /** `PropertyUtilsMappingStrategy.mapBean`: the value is stored in the bean's property, except
      that under the append option a property already holding a non-null value receives the
      string of that value followed by the new one. Reading the current value fails as the
      write does, so a null bean or an undeclared property is a parser error either way. */
  function MapBean(heap: Heap, bean: Option<nat>, property: string, value: Value,
                   options: map<string, Util.ConversionOption>): (r: Result<Heap>)
    requires InHeap(heap, bean)
    ensures r.Ok? <==> bean.Some? && property in heap[bean.value].properties
    ensures !Appends(options) ==> r == SetProperty(heap, bean, Some(property), value)
    ensures r.Ok? && Appends(options) ==>
      var current := heap[bean.value].properties[property];
      r == SetProperty(heap, bean, Some(property), if current == Null then value else Concatenated(current, value))
  {
    if Appends(options) && bean.Some? && property in heap[bean.value].properties then
      var current := heap[bean.value].properties[property];
      SetProperty(heap, bean, Some(property), if current != Null then Concatenated(current, value) else value)
    else
      SetProperty(heap, bean, Some(property), value)
  }

  /** Appending twice to a property keeps both earlier values, in order, ahead of the new one. */
  lemma AppendAccumulates(heap: Heap, b: nat, property: string, v1: Value, v2: Value,
                          options: map<string, Util.ConversionOption>)
    requires b < |heap| && property in heap[b].properties && Appends(options)
    requires heap[b].properties[property] != Null
    ensures var current := heap[b].properties[property];
      match MapBean(heap, Some(b), property, v1, options)
      case Ok(h1) => (match MapBean(h1, Some(b), property, v2, options)
        case Ok(h2) => h2[b].properties[property] == Concatenated(Concatenated(current, v1), v2)
        case Err(_) => false)
      case Err(_) => false
  {
    var current := heap[b].properties[property];
    var h1 := MapBean(heap, Some(b), property, v1, options).value;
    assert h1[b].properties[property] == Concatenated(current, v1);
  }

  /** `invokeAddMethod`: the named add method is called with the value. A null target or value
      throws inside the method lookup, and the handler throws again while it names the two
      classes in its message, so a null pointer error escapes rather than a parser error. */
  function InvokeAddMethod(heap: Heap, target: Option<nat>, methodName: string, toAdd: Value): (r: Result<Heap>)
    requires InHeap(heap, target)
    ensures r.Ok? <==> target.Some? && toAdd != Null
    ensures r.Err? ==> r.error == NullPointerException
    ensures r.Ok? ==> (OnlyChanged(heap, r.value, target.value) &&
      r.value[target.value] == heap[target.value].(addCalls := heap[target.value].addCalls + [(methodName, toAdd)]))
  {
    if target.None? || toAdd == Null then Err(NullPointerException)
    else
      var b := heap[target.value];
      Ok(heap[target.value := b.(addCalls := b.addCalls + [(methodName, toAdd)])])
  }

  /** `addValueToCollection(target, name, toAdd)`: a null target, blank name or null value is a
      no-op; otherwise the property must hold a collection, which gets the value appended. */
  function AddToNamedCollection(heap: Heap, target: Option<nat>, name: Option<string>, toAdd: Value): (r: Result<Heap>)
    requires InHeap(heap, target)
    ensures target.None? || IsBlank(name) || toAdd == Null ==> r == Ok(heap)
    ensures r.Err? ==> r.error == FlatwormParserException
    ensures target.Some? && !IsBlank(name) && toAdd != Null ==>
      match CollectionOf(heap, target.value, name)
      case None => r.Err?
      case Some(items) => (r.Ok? && OnlyChanged(heap, r.value, target.value) &&
        CollectionOf(r.value, target.value, name) == Some(items + [toAdd]) &&
        r.value[target.value].className == heap[target.value].className &&
        r.value[target.value].addCalls == heap[target.value].addCalls)
  {
    if target.None? || IsBlank(name) || toAdd == Null then Ok(heap)
    else match CollectionOf(heap, target.value, name)
      case None => Err(FlatwormParserException)
      case Some(items) =>
        var b := heap[target.value];
        Ok(heap[target.value := b.(properties := b.properties[name.value := Items(items + [toAdd])])])
  }

  /** The collection a property holds, if it is declared and holds one. */
  function CollectionOf(heap: Heap, target: nat, name: Option<string>): Option<seq<Value>>
    requires target < |heap|
  {
    if name.Some? && name.value in heap[target].properties && heap[target].properties[name.value].Items? then
      Some(heap[target].properties[name.value].items)
    else None
  }

  /** Whether a STRICT or RESTRICTED collection may take one more value. */
  function MayAdd(currentSize: nat, maxCount: int): (r: bool)
    ensures r <==> currentSize < maxCount || maxCount < 0
  {
    currentSize < maxCount || maxCount < 0
  }

  /** The add step once the capacity check has passed: the add method when one is named,
      otherwise the collection property, otherwise nothing. */
  function AddAllowed(heap: Heap, c: Cardinality, target: Option<nat>, toAdd: Value): Result<Heap>
    requires InHeap(heap, target)
  {
    if !IsBlank(c.addMethod) then InvokeAddMethod(heap, target, c.addMethod.value, toAdd)
    else if !IsBlank(c.propertyName) then AddToNamedCollection(heap, target, c.propertyName, toAdd)
    else Ok(heap)
  }

  /** `addValueToCollection(cardinality, target, toAdd)`. A SINGLE mode is a parser error (and a
      null target or value throws while its message is built). Under STRICT and RESTRICTED the
      property's current collection is measured first: a null target throws while reporting,
      and an undeclared or non-collection property, or a null maximum, is a parser error. Past
      the maximum STRICT fails and RESTRICTED adds nothing. */
  function AddValueToCollection(heap: Heap, c: Cardinality, target: Option<nat>, toAdd: Value): (r: Result<Heap>)
    requires InHeap(heap, target)
  {
    if c.cardinalityMode == Some(SINGLE) then
      if target.None? || toAdd == Null then Err(NullPointerException) else Err(FlatwormParserException)
    else if c.cardinalityMode == Some(STRICT) || c.cardinalityMode == Some(RESTRICTED) then
      if target.None? then Err(NullPointerException)
      else match CollectionOf(heap, target.value, c.propertyName)
        case None => Err(FlatwormParserException)
        case Some(items) =>
          if c.maxCount.None? then Err(FlatwormParserException)
          else if MayAdd(|items|, c.maxCount.value) then AddAllowed(heap, c, target, toAdd)
          else if c.cardinalityMode == Some(STRICT) then Err(FlatwormParserException)
          else Ok(heap)
    else AddAllowed(heap, c, target, toAdd)
  }

  /** `addObjectToProperty`: SINGLE sets the property, every other mode adds to the collection. */
  function AddObjectToProperty(heap: Heap, target: Option<nat>, toAdd: Value, c: Cardinality): (r: Result<Heap>)
    requires InHeap(heap, target)
    ensures c.cardinalityMode == Some(SINGLE) ==> r == SetProperty(heap, target, c.propertyName, toAdd)
    ensures c.cardinalityMode != Some(SINGLE) ==> r == AddValueToCollection(heap, c, target, toAdd)
  {
    if c.cardinalityMode == Some(SINGLE) then SetProperty(heap, target, c.propertyName, toAdd)
    else AddValueToCollection(heap, c, target, toAdd)
  }

  /** A collection add under SINGLE always fails. */
  lemma SingleRefusesCollections(heap: Heap, c: Cardinality, target: Option<nat>, toAdd: Value)
    requires InHeap(heap, target) && c.cardinalityMode == Some(SINGLE)
    ensures AddValueToCollection(heap, c, target, toAdd).Err?
  {
  }

  /** With the capacity check passing, STRICT and RESTRICTED add exactly as LOOSE does. */
  lemma WithinCapacity(heap: Heap, c: Cardinality, t: nat, toAdd: Value)
    requires t < |heap| && (c.cardinalityMode == Some(STRICT) || c.cardinalityMode == Some(RESTRICTED))
    requires CollectionOf(heap, t, c.propertyName).Some? && c.maxCount.Some?
    requires MayAdd(|CollectionOf(heap, t, c.propertyName).value|, c.maxCount.value)
    ensures AddValueToCollection(heap, c, Some(t), toAdd) == AddValueToCollection(heap, c.(cardinalityMode := Some(LOOSE)), Some(t), toAdd)
  {
  }

  /** Past the maximum STRICT fails and RESTRICTED leaves every bean as it was. */
  lemma OverCapacity(heap: Heap, c: Cardinality, t: nat, toAdd: Value)
    requires t < |heap| && CollectionOf(heap, t, c.propertyName).Some? && c.maxCount.Some?
    requires !MayAdd(|CollectionOf(heap, t, c.propertyName).value|, c.maxCount.value)
    ensures c.cardinalityMode == Some(STRICT) ==> AddValueToCollection(heap, c, Some(t), toAdd) == Err(FlatwormParserException)
    ensures c.cardinalityMode == Some(RESTRICTED) ==> AddValueToCollection(heap, c, Some(t), toAdd) == Ok(heap)
  {
  }

  /** LOOSE (or an unset mode) always adds: through the add method when one is named, else into
      the named collection, which then ends with the value; with neither named nothing changes. */
  lemma LooseAdds(heap: Heap, c: Cardinality, t: nat, toAdd: Value)
    requires t < |heap| && (c.cardinalityMode == Some(LOOSE) || c.cardinalityMode.None?) && toAdd != Null
    ensures var r := AddValueToCollection(heap, c, Some(t), toAdd);
      (!IsBlank(c.addMethod) ==> r.Ok? && r.value[t].addCalls == heap[t].addCalls + [(c.addMethod.value, toAdd)]) &&
      (IsBlank(c.addMethod) && !IsBlank(c.propertyName) && CollectionOf(heap, t, c.propertyName).Some? ==>
        r.Ok? && CollectionOf(r.value, t, c.propertyName) == Some(CollectionOf(heap, t, c.propertyName).value + [toAdd])) &&
      (IsBlank(c.addMethod) && IsBlank(c.propertyName) ==> r == Ok(heap))
  {
  }

  /** A field type's shape, as far as cardinality resolution looks at it. */
  datatype FieldType = FieldType(name: string, isCollection: bool, isArray: bool)

  /** `resolveCardinality`: LOOSE for a collection or array type, SINGLE otherwise, null included. */
  function ResolveCardinality(fieldType: Option<FieldType>): (mode: CardinalityMode)
    ensures mode == LOOSE <==> fieldType.Some? && (fieldType.value.isCollection || fieldType.value.isArray)
    ensures mode != LOOSE ==> mode == SINGLE
  {
    if fieldType.Some? && (fieldType.value.isCollection || fieldType.value.isArray) then LOOSE else SINGLE
  }
}
