/** `CoreConverters`: the built-in conversions between field text and Java values for strings,
    integers, longs and dates. Dates are kept abstract: a date is a number of milliseconds, and
    the `SimpleDateFormat` parsing and formatting the library delegates to are parameters. */
module CoreConverters {
  import opened Wrappers
  import opened JavaNumbers
  import opened Util

  /** A Java object that a converter produces or consumes, tagged with its runtime class. */
  datatype Obj =
    | JString(s: string)
    | JInteger(i: int)
    | JLong(l: int)
    | JDate(millis: int)
    | JOther(className: string, id: nat)

  const STRING_CLASS := "java.lang.String"
  const INTEGER_CLASS := "java.lang.Integer"
  const LONG_CLASS := "java.lang.Long"
  const DATE_CLASS := "java.util.Date"

  /** `getClass().getName()` of an object. */
  function ClassOf(o: Obj): (c: string)
    ensures o.JOther? ==> c == o.className
  {
    match o
    case JString(_) => STRING_CLASS
    case JInteger(_) => INTEGER_CLASS
    case JLong(_) => LONG_CLASS
    case JDate(_) => DATE_CLASS
    case JOther(c, _) => c
  }

  /** `toString()` of an object; classes the model does not know are printed by `foreign`. */
  function ObjToString(o: Obj, foreign: Obj -> string): (r: string)
    ensures o.JString? ==> r == o.s
  {
    match o
    case JString(s) => s
    case JInteger(i) => ToDecimal(i)
    case JLong(l) => ToDecimal(l)
    case _ => foreign(o)
  }

  /** `convertChar(String, options)`: the text itself; padding was removed before the call. */
  function ConvertChar(str: string, options: map<string, ConversionOption>): (r: string)
    ensures |r| == |str| && forall i :: 0 <= i < |r| ==> r[i] == str[i]
  {
    str
  }

  /** `convertChar(Object, options)`: the object's `toString()`; null throws. */
  function ConvertCharToString(obj: Option<Obj>, options: map<string, ConversionOption>, foreign: Obj -> string): (r: Result<string>)
    ensures obj.None? <==> r == Err(NullPointerException)
    ensures obj.Some? && obj.value.JString? ==> r == Ok(obj.value.s)
  {
    if obj.None? then Err(NullPointerException) else Ok(ObjToString(obj.value, foreign))
  }

  /** `convertInteger(String, options)`: the empty text is 0, any other text must be a decimal
      `int`. */
  function ConvertInteger(str: string, options: map<string, ConversionOption>): (r: Result<int>)
    ensures str == "" ==> r == Ok(0)
    ensures str != "" ==> (r.Err? <==> ParseInt(str).None?)
    ensures r.Err? ==> r.error == FlatwormConversionException
    ensures r.Ok? ==> INT_MIN <= r.value <= INT_MAX
    ensures str != "" && r.Ok? ==> ParseInt(str) == Some(r.value)
  {
    if |str| == 0 then Ok(0)
    else
      match ParseInt(str)
      case Some(v) => Ok(v)
      case None => Err(FlatwormConversionException)
  }

  /** `convertInteger(Object, options)`: null gives null, an `Integer` its decimal text. */
  function ConvertIntegerToString(obj: Option<Obj>, options: map<string, ConversionOption>): (r: Result<Option<string>>)
    ensures obj.None? <==> r == Ok(None)
    ensures obj.Some? && !obj.value.JInteger? ==> r == Err(ClassCastException)
    ensures obj.Some? && obj.value.JInteger? ==> r.Ok? && r.value.Some? && |r.value.value| >= 1
  {
    match obj
    case None => Ok(None)
    case Some(JInteger(i)) => Ok(Some(ToDecimal(i)))
    case Some(_) => Err(ClassCastException)
  }

  /** `convertLong(String, options)`: the empty text is 0, any other text must be a decimal
      `long`. */
  function ConvertLong(str: string, options: map<string, ConversionOption>): (r: Result<int>)
    ensures str == "" ==> r == Ok(0)
    ensures str != "" ==> (r.Err? <==> ParseLong(str).None?)
    ensures r.Err? ==> r.error == FlatwormConversionException
    ensures r.Ok? ==> LONG_MIN <= r.value <= LONG_MAX
    ensures str != "" && r.Ok? ==> ParseLong(str) == Some(r.value)
  {
    if |str| == 0 then Ok(0)
    else
      match ParseLong(str)
      case Some(v) => Ok(v)
      case None => Err(FlatwormConversionException)
  }

  /** `convertLong(Object, options)`: null gives null, a `Long` its decimal text. */
  function ConvertLongToString(obj: Option<Obj>, options: map<string, ConversionOption>): (r: Result<Option<string>>)
    ensures obj.None? <==> r == Ok(None)
    ensures obj.Some? && !obj.value.JLong? ==> r == Err(ClassCastException)
    ensures obj.Some? && obj.value.JLong? ==> r.Ok? && r.value.Some? && |r.value.value| >= 1
  {
    match obj
    case None => Ok(None)
    case Some(JLong(l)) => Ok(Some(ToDecimal(l)))
    case Some(_) => Err(ClassCastException)
  }

  /** The date pattern a field uses: its `format` option, by default `yyyy-MM-dd`. */
  function DateFormat(options: map<string, ConversionOption>): (f: string)
    ensures "format" in options && options["format"].value.Some? ==> f == options["format"].value.value
    ensures ("format" !in options || options["format"].value.None?) ==> f == "yyyy-MM-dd"
  {
    GetValue(options, "format").GetOr("yyyy-MM-dd")
  }

  /** `convertDate(String, options)`: the empty text is null; otherwise `parse` reads the text
      in the field's pattern, and text it rejects is a conversion error. */
  function ConvertDate(str: string, options: map<string, ConversionOption>, parse: (string, string) -> Option<int>): (r: Result<Option<int>>)
    ensures str == "" ==> r == Ok(None)
    ensures str != "" ==> match parse(DateFormat(options), str)
      case Some(d) => r == Ok(Some(d))
      case None => r == Err(FlatwormConversionException)
  {
    if |str| == 0 then Ok(None)
    else
      match parse(DateFormat(options), str)
      case Some(d) => Ok(Some(d))
      case None => Err(FlatwormConversionException)
  }

  /** `convertDate(Object, options)`: null gives null; a date is printed by `format` in the
      field's pattern; any other object fails its cast to `Date`. */
  function ConvertDateToString(obj: Option<Obj>, options: map<string, ConversionOption>, format: (string, int) -> string): (r: Result<Option<string>>)
    ensures obj.None? <==> r == Ok(None)
    ensures obj.Some? && !obj.value.JDate? ==> r == Err(ClassCastException)
    ensures obj.Some? && obj.value.JDate? ==> r == Ok(Some(format(DateFormat(options), obj.value.millis)))
  {
    match obj
    case None => Ok(None)
    case Some(JDate(d)) => Ok(Some(format(DateFormat(options), d)))
    case Some(_) => Err(ClassCastException)
  }

  /** An `int` written out by `convertInteger(Object)` reads back as the same `int`. */
  lemma IntegerRoundTrip(i: int, options: map<string, ConversionOption>)
    requires INT_MIN <= i <= INT_MAX
    ensures var t := ConvertIntegerToString(Some(JInteger(i)), options);
      t.Ok? && t.value.Some? && ConvertInteger(t.value.value, options) == Ok(i)
  {
    ToDecimalRoundTrip(i, true, INT_MIN, INT_MAX);
  }

  /** A `long` written out by `convertLong(Object)` reads back as the same `long`. */
  lemma LongRoundTrip(l: int, options: map<string, ConversionOption>)
    requires LONG_MIN <= l <= LONG_MAX
    ensures var t := ConvertLongToString(Some(JLong(l)), options);
      t.Ok? && t.value.Some? && ConvertLong(t.value.value, options) == Ok(l)
  {
    ToDecimalRoundTrip(l, true, LONG_MIN, LONG_MAX);
  }

  /** A string written out by `convertChar(Object)` reads back unchanged. */
  lemma CharRoundTrip(s: string, options: map<string, ConversionOption>, foreign: Obj -> string)
    ensures ConvertCharToString(Some(JString(s)), options, foreign) == Ok(s)
    ensures ConvertChar(s, options) == s
  {
  }

  /** Text that is not a number is rejected by both numeric converters. */
  lemma NonNumericRejected(str: string, options: map<string, ConversionOption>)
    requires str != "" && !AllDigits(str) && str[0] != '-' && str[0] != '+'
    ensures ConvertInteger(str, options) == Err(FlatwormConversionException)
    ensures ConvertLong(str, options) == Err(FlatwormConversionException)
  {
  }

  /** A text of a sign (none, a minus or a plus) and digits converts to its signed value when
      that fits an `int`, and is a conversion exception otherwise; the same for `long`. */
  lemma SignedTextValue(sign: string, digits: string, options: map<string, ConversionOption>)
    requires sign == "" || sign == "-" || sign == "+"
    requires |digits| >= 1 && AllDigits(digits)
    ensures var v := SignedValue(sign == "-", digits);
      ConvertInteger(sign + digits, options) ==
        (if INT_MIN <= v <= INT_MAX then Ok(v) else Err(FlatwormConversionException)) &&
      ConvertLong(sign + digits, options) ==
        (if LONG_MIN <= v <= LONG_MAX then Ok(v) else Err(FlatwormConversionException))
  {
    SignedDigitsRule(sign, digits, true, INT_MIN, INT_MAX);
    SignedDigitsRule(sign, digits, true, LONG_MIN, LONG_MAX);
  }

  /** Leading zeros are read as `Integer.valueOf` reads them. */
  lemma LeadingZerosExample(options: map<string, ConversionOption>)
    ensures ConvertInteger("007", options) == Ok(7)
  {
    LeadingZero("7");
    LeadingZero("07");
    assert "0" + "07" == "007";
    assert SignedValue(false, "007") == 7;
    SignedTextValue("", "007", options);
  }

  /** A plus sign is accepted, as `Integer.valueOf` accepts it. */
  lemma PlusSignExample(options: map<string, ConversionOption>)
    ensures ConvertInteger("+5", options) == Ok(5)
  {
    assert "+" + "5" == "+5";
    assert SignedValue(false, "5") == 5;
    SignedTextValue("+", "5", options);
  }

  /** A minus sign negates, for `long` as for `int`. */
  lemma NegativeLongExample(options: map<string, ConversionOption>)
    ensures ConvertLong("-12", options) == Ok(-12)
  {
    assert "-" + "12" == "-12";
    assert "12"[..1] == "1";
    assert DigitsValue("12") == 12;
    assert SignedValue(true, "12") == -12;
    SignedTextValue("-", "12", options);
  }
}
