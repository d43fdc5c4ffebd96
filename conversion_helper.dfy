/** `converters.ConversionHelper`: the registry of named converters and the conversion of a
    field text through the conversion-option pipeline. */
module ConversionHelpers {
  import opened Wrappers
  import opened Util
  import opened Transform
  import opened Beans

  /** `ConverterBO`: a converter's name, class, method and return type. */
  datatype Converter = Converter(name: string, converterClass: string, methodName: string, returnType: string)

  class ConversionHelper {
    var converters: map<string, Converter>

    /** Every converter is registered under its own name. */
    ghost predicate Valid()
      reads this
    {
      forall n :: n in converters ==> converters[n].name == n
    }

    constructor()
      ensures converters == map[] && Valid()
    {
      converters := map[];
    }

    /** `addConverter`: keyed by the converter's name; a same-named converter is replaced and
        the others are left alone. */
    method AddConverter(converter: Converter)
      modifies this
      ensures converters == old(converters)[converter.name := converter]
      ensures GetConverter(converter.name) == Some(converter)
      ensures forall n :: n != converter.name ==> GetConverter(n) == old(GetConverter(n))
      ensures old(Valid()) ==> Valid()
    {
      converters := converters[converter.name := converter];
    }

    /** `getConverter`: the converter registered under `name`, or null. */
    function GetConverter(name: string): (r: Option<Converter>)
      reads this
      ensures name !in converters <==> r.None?
      ensures r.Some? ==> r.value == converters[name]
    {
      if name in converters then Some(converters[name]) else None
    }

    /** `getConverters`: exactly the registered converters. */
    function GetConverters(): (r: set<Converter>)
      reads this
      ensures forall c :: c in r <==> exists n :: n in converters && converters[n] == c
    {
      converters.Values
    }

    /** `transformString`: the options of the map visited in its own order, then the cut to
        `length`. */
    method TransformString(fieldChars: Option<string>, options: Options, length: int)
      returns (r: Result<Option<string>>, ghost order: seq<string>)
      ensures IsKeyOrder(order, options)
      ensures r == Transformed(fieldChars, order, options, length)
    {
      r, order := RunOptions(fieldChars, options, length);
    }

    /** `convert(converterName, fieldChars, options, beanRef)`: an unregistered converter name
        fails, and so does any failure of the option pipeline or of the converter's method,
        all as a parser exception; otherwise the value is what the registered converter's
        method makes of the transformed text. `invoke` stands for the reflective call of that
        method with the text and the options. */
    method Convert(converterName: string, fieldChars: Option<string>, options: Options, beanRef: string,
                   invoke: Invoke)
      returns (r: Result<Value>, ghost order: seq<string>)
      ensures converterName !in converters ==> r == Err(FlatwormParserException)
      ensures converterName in converters ==>
        IsKeyOrder(order, options) &&
        r == ConvertOutcome(converters[converterName], Transformed(fieldChars, order, options, 0), options, invoke)
    {
      order := [];
      if converterName !in converters {
        return Err(FlatwormParserException), order;
      }
      var t;
      t, order := TransformString(fieldChars, options, 0);
      r := ConvertOutcome(converters[converterName], t, options, invoke);
    }
  }

  /** The reflective call of a converter's method on a text and the field's options: the
      value it returns, or the exception it throws. */
  type Invoke = (Converter, Option<string>, Options) -> Result<Value>

  /** Any failure while converting, of the pipeline or of the converter, surfaces as a parser
      exception; a success is the converter's own value. */
  function ConvertOutcome(converter: Converter, t: Result<Option<string>>, options: Options, invoke: Invoke): (r: Result<Value>)
    ensures r.Ok? <==> t.Ok? && invoke(converter, t.value, options).Ok?
    ensures r.Ok? ==> r.value == invoke(converter, t.value, options).value
    ensures r.Err? ==> r.error == FlatwormParserException
  {
    match t
    case Err(_) => Err(FlatwormParserException)
    case Ok(text) =>
      match invoke(converter, text, options)
      case Err(_) => Err(FlatwormParserException)
      case Ok(v) => Ok(v)
  }

  /** The conversion never cuts the field text: it transforms with length 0, and the
      converter sees the text the options made, however long. */
  lemma ConvertDoesNotCut(converter: Converter, fieldChars: Option<string>, order: seq<string>, options: Options, invoke: Invoke)
    requires IsKeyOrder(order, options)
    ensures ConvertOutcome(converter, Transformed(fieldChars, order, options, 0), options, invoke) ==
            ConvertOutcome(converter, ApplyOptions(fieldChars, order, options, 0), options, invoke)
  {
  }
}
