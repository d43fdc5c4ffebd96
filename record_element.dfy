/** The legacy `RecordElement`: a field of a line, whose position getters throw when the
    position was never set, and whose length can be derived from its start and end. */
module LegacyRecordElements {
  import opened Wrappers
  import opened Util
  import JavaNumbers

  /** The fields of a `RecordElement`; `typeName` is its converter type. */
  datatype ElementFields = ElementFields(
    fieldEnd: Option<int>, fieldStart: Option<int>, fieldLength: Option<int>, spacerLength: Option<int>,
    fieldType: char, beanRef: Option<string>, typeName: Option<string>, conversionOptions: map<string, ConversionOption>)

  const UNSET_ELEMENT := ElementFields(None, None, None, None, '\0', None, None, map[])

  /** `getFieldStart` and `getFieldEnd`: the value, or `FlatwormUnsetFieldValueException`. */
  function SetValue(v: Option<int>): Result<int> {
    if v.None? then Err(FlatwormUnsetFieldValueException) else Ok(v.value)
  }

  /** `getFieldLength`: the explicit length, else `end - start` (an `int` difference) when both
      are set, else `FlatwormUnsetFieldValueException`. */
  function FieldLength(e: ElementFields): Result<int> {
    if e.fieldLength.Some? then Ok(e.fieldLength.value)
    else if !(e.fieldStart.Some? && e.fieldEnd.Some?) then Err(FlatwormUnsetFieldValueException)
    else Ok(JavaNumbers.Int32(e.fieldEnd.value - e.fieldStart.value))
  }

  /** A position getter fails exactly when its position is unset, and otherwise returns it. */
  lemma PositionGetters(e: ElementFields)
    ensures SetValue(e.fieldStart).Err? <==> e.fieldStart.None?
    ensures SetValue(e.fieldEnd).Err? <==> e.fieldEnd.None?
    ensures e.fieldStart.Some? ==> SetValue(e.fieldStart) == Ok(e.fieldStart.value)
    ensures e.fieldEnd.Some? ==> SetValue(e.fieldEnd) == Ok(e.fieldEnd.value)
    ensures SetValue(e.fieldStart).Err? ==> SetValue(e.fieldStart).error == FlatwormUnsetFieldValueException
  {
  }

  /** The length getter: an explicit length wins; otherwise the length is defined exactly when
      both ends are, and then start plus length is the end (for positions whose difference is an
      `int`). */
  lemma LengthRule(e: ElementFields)
    ensures e.fieldLength.Some? ==> FieldLength(e) == Ok(e.fieldLength.value)
    ensures e.fieldLength.None? ==> (FieldLength(e).Ok? <==> e.fieldStart.Some? && e.fieldEnd.Some?)
    ensures FieldLength(e).Err? ==> FieldLength(e).error == FlatwormUnsetFieldValueException
    ensures e.fieldLength.None? && FieldLength(e).Ok? &&
            JavaNumbers.INT_MIN <= e.fieldEnd.value - e.fieldStart.value <= JavaNumbers.INT_MAX ==>
      SetValue(e.fieldStart).value + FieldLength(e).value == e.fieldEnd.value
  {
  }

  class RecordElement {
    var fieldEnd: Option<int>
    var fieldStart: Option<int>
    var fieldLength: Option<int>
    var spacerLength: Option<int>
    var fieldType: char
    var beanRef: Option<string>
    var typeName: Option<string>
    var conversionOptions: map<string, ConversionOption>

    function View(): ElementFields
      reads this
    {
      ElementFields(fieldEnd, fieldStart, fieldLength, spacerLength, fieldType, beanRef, typeName, conversionOptions)
    }

    /** `new RecordElement()`: nothing set, the field type '\0' and no options. */
    constructor()
      ensures View() == UNSET_ELEMENT
    {
      fieldEnd, fieldStart, fieldLength, spacerLength := None, None, None, None;
      fieldType, beanRef, typeName := '\0', None, None;
      conversionOptions := map[];
    }

    function GetFieldStart(): (r: Result<int>)
      reads this
      ensures r == SetValue(View().fieldStart)
    {
      if fieldStart.None? then Err(FlatwormUnsetFieldValueException) else Ok(fieldStart.value)
    }

    function GetFieldEnd(): (r: Result<int>)
      reads this
      ensures r == SetValue(View().fieldEnd)
    {
      if fieldEnd.None? then Err(FlatwormUnsetFieldValueException) else Ok(fieldEnd.value)
    }

    function GetFieldLength(): (r: Result<int>)
      reads this
      ensures r == FieldLength(View())
    {
      if fieldLength.None? then
        if !(fieldStart.Some? && fieldEnd.Some?) then Err(FlatwormUnsetFieldValueException)
        else Ok(JavaNumbers.Int32(fieldEnd.value - fieldStart.value))
      else Ok(fieldLength.value)
    }

    method SetFieldStart(v: int)
      modifies this
      ensures View() == old(View()).(fieldStart := Some(v))
    {
      fieldStart := Some(v);
    }

    method SetFieldEnd(v: int)
      modifies this
      ensures View() == old(View()).(fieldEnd := Some(v))
    {
      fieldEnd := Some(v);
    }

    method SetFieldLength(v: int)
      modifies this
      ensures View() == old(View()).(fieldLength := Some(v))
    {
      fieldLength := Some(v);
    }

    method SetBeanRef(v: Option<string>)
      modifies this
      ensures View() == old(View()).(beanRef := v)
    {
      beanRef := v;
    }

    method SetType(v: Option<string>)
      modifies this
      ensures View() == old(View()).(typeName := v)
    {
      typeName := v;
    }

    /** `addConversionOption`: keyed by name, replacing an option of the same name. */
    method AddConversionOption(name: string, option: ConversionOption)
      modifies this
      ensures View() == old(View()).(conversionOptions := old(conversionOptions)[name := option])
    {
      conversionOptions := conversionOptions[name := option];
    }
  }

  /** An element that was only given a start and an end has the derived length; after a length
      is set, that length is reported whatever the ends. */
  method DerivedThenExplicit(start: int, end: int, length: int) returns (derived: Result<int>, explicit: Result<int>)
    requires JavaNumbers.INT_MIN <= end - start <= JavaNumbers.INT_MAX
    ensures derived == Ok(end - start)
    ensures explicit == Ok(length)
  {
    var e := new RecordElement();
    e.SetFieldStart(start);
    e.SetFieldEnd(end);
    derived := e.GetFieldLength();
    e.SetFieldLength(length);
    explicit := e.GetFieldLength();
  }
}
