/** The legacy `ConversionHelper`: the same option pipeline, a registry of mutable converter
    records that hands out copies, and the legacy exception mapping. */
module LegacyConversion {
  import opened Wrappers
  import opened Util
  import opened Transform
  import opened Beans

  /** The fields of a legacy `Converter`. */
  datatype ConverterFields = ConverterFields(name: string, converterClass: string, methodName: string, returnType: string)

  /** The legacy `Converter`: a record with setters. */
  class Converter {
    var name: string
    var converterClass: string
    var methodName: string
    var returnType: string

    function View(): ConverterFields
      reads this
    {
      ConverterFields(name, converterClass, methodName, returnType)
    }

    constructor(fields: ConverterFields)
      ensures View() == fields
    {
      name := fields.name;
      converterClass := fields.converterClass;
      methodName := fields.methodName;
      returnType := fields.returnType;
    }
  }

  class ConversionHelper {
    var converters: map<string, Converter>

    constructor()
      ensures converters == map[]
    {
      converters := map[];
    }

    /** `addConverter`: keyed by the converter's name at the time it is added; a later
        converter replaces an earlier one under the same name. */
    method AddConverter(converter: Converter)
      modifies this
      ensures converters == old(converters)[converter.name := converter]
    {
      converters := converters[converter.name := converter];
    }

    /** `getConverter`: null for an unknown name, otherwise a fresh copy of the registered
        converter, so changing the copy leaves the registry alone. */
    method GetConverter(name: string) returns (r: Converter?)
      ensures name !in converters <==> r == null
      ensures r != null ==> fresh(r) && r.View() == converters[name].View()
      ensures r != null ==> forall n :: n in converters ==> converters[n] != r
    {
      r := null;
      if name in converters {
        var convert := converters[name];
        r := new Converter(convert.View());
      }
    }

    /** `transformString`, as in the current generation. */
    method TransformString(fieldChars: Option<string>, options: Options, length: int)
      returns (r: Result<Option<string>>, ghost order: seq<string>)
      ensures IsKeyOrder(order, options)
      ensures r == Transformed(fieldChars, order, options, length)
    {
      r, order := RunOptions(fieldChars, options, length);
    }

    /** `convert(type, fieldChars, options, beanRef)`: an unregistered type fails with a
        conversion exception. Only the illegal-argument family is caught from the option
        pipeline and rethrown as a conversion exception, so a number-format failure there
        becomes one while a null pointer or index failure passes through unchanged. A
        converter method that throws reaches the handler as an `InvocationTargetException`,
        and that too becomes a conversion exception. `invoke` stands for the reflective call
        of the method with the text and the options. */
    method Convert(converterName: string, fieldChars: Option<string>, options: Options, beanRef: string,
                   invoke: Invoke)
      returns (r: Result<Value>, ghost order: seq<string>)
      ensures converterName !in converters ==> r == Err(FlatwormConversionException)
      ensures converterName in converters ==>
        IsKeyOrder(order, options) &&
        r == LegacyOutcome(converters[converterName].View(), Transformed(fieldChars, order, options, 0), options, invoke)
    {
      order := [];
      if converterName !in converters {
        return Err(FlatwormConversionException), order;
      }
      var t;
      t, order := TransformString(fieldChars, options, 0);
      r := LegacyOutcome(converters[converterName].View(), t, options, invoke);
    }
  }

  /** The reflective call of a converter's method on a text and the field's options: the
      value it returns, or the exception it throws. */
  type Invoke = (ConverterFields, Option<string>, Options) -> Result<Value>

  /** The legacy exception mapping of `convert`: a number-format failure of the pipeline and
      any failure of the converter's method are conversion exceptions, other pipeline failures
      pass through. */
  function LegacyOutcome(converter: ConverterFields, t: Result<Option<string>>, options: Options, invoke: Invoke): (r: Result<Value>)
    ensures r.Ok? <==> t.Ok? && invoke(converter, t.value, options).Ok?
    ensures r.Ok? ==> r.value == invoke(converter, t.value, options).value
    ensures t == Err(NumberFormatException) ==> r == Err(FlatwormConversionException)
    ensures t.Err? && t.error != NumberFormatException ==> r == Err(t.error)
    ensures t.Ok? && invoke(converter, t.value, options).Err? ==> r == Err(FlatwormConversionException)
  {
    match t
    case Err(NumberFormatException) => Err(FlatwormConversionException)
    case Err(e) => Err(e)
    case Ok(text) =>
      match invoke(converter, text, options)
      case Err(_) => Err(FlatwormConversionException)
      case Ok(v) => Ok(v)
  }
}
