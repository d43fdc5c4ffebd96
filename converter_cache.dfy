/** `ConverterFunctionCache`: the registry of conversion functions keyed by class name, one map
    for text-to-object and one for object-to-text. A lookup takes the exact class name when it
    is registered, and otherwise any registered class the wanted class can be assigned to. The
    class path is a parameter: which names load at all, and each class's supertypes. */
module ConverterCache {
  import opened Wrappers
  import opened Util
  import opened CoreConverters

  /** A registered conversion function: one of the built-in `CoreConverters` methods, or a
      function supplied by the user. */
  datatype ConverterFn =
    | CoreChar
    | CoreDouble
    | CoreBigDecimal
    | CoreFloat
    | CoreLong
    | CoreInteger
    | CoreDate
    | UserFunction(name: string)

  /** What `Class.forName` can load, and the supertypes (classes and interfaces, transitively)
      of each loadable class. */
  datatype ClassPath = ClassPath(loadable: set<string>, supertypes: map<string, set<string>>)

  /** `sup.isAssignableFrom(sub)`. */
  predicate AssignableFrom(cp: ClassPath, sup: string, sub: string) {
    sup == sub || (sub in cp.supertypes && sup in cp.supertypes[sub])
  }

  /** A key the heavier search of `findKey` accepts: it loads and is a supertype of `clazz`. */
  predicate Fallback(cp: ClassPath, key: string, clazz: string) {
    key in cp.loadable && AssignableFrom(cp, key, clazz)
  }

  /** What `findKey` may answer for `clazz` among `keys`: the exact name when present;
      otherwise some key that is a loadable supertype, and null only when there is none. The
      stream runs over a hash set, so which of several supertypes is found first is left open. */
  predicate KeyChoice(cp: ClassPath, clazz: string, keys: set<string>, r: Option<string>) {
    if clazz in keys then r == Some(clazz)
    else match r
      case Some(k) => k in keys && Fallback(cp, k, clazz)
      case None => forall k :: k in keys ==> !Fallback(cp, k, clazz)
  }

  /** Out of the built-in functions, the ones `convertFromString` can run here; the rest
      (decimal, big decimal, float and any user function) are done by `foreign`. */
  function ApplyToType(f: ConverterFn, value: string, options: map<string, ConversionOption>,
                       parseDate: (string, string) -> Option<int>,
                       foreign: (ConverterFn, string, map<string, ConversionOption>) -> Result<Option<Obj>>): (r: Result<Option<Obj>>)
    ensures f == CoreChar ==> r == Ok(Some(JString(value)))
    ensures f == CoreInteger ==> match ConvertInteger(value, options)
      case Ok(i) => r == Ok(Some(JInteger(i)))
      case Err(e) => r == Err(e)
    ensures f == CoreLong ==> match ConvertLong(value, options)
      case Ok(l) => r == Ok(Some(JLong(l)))
      case Err(e) => r == Err(e)
  {
    match f
    case CoreChar => Ok(Some(JString(ConvertChar(value, options))))
    case CoreInteger =>
      var i :- ConvertInteger(value, options);
      Ok(Some(JInteger(i)))
    case CoreLong =>
      var l :- ConvertLong(value, options);
      Ok(Some(JLong(l)))
    case CoreDate =>
      var d :- ConvertDate(value, options, parseDate);
      if d.Some? then Ok(Some(JDate(d.value))) else Ok(None)
    case _ => foreign(f, value, options)
  }

  /** The same for `convertToString`. */
  function ApplyFromType(f: ConverterFn, value: Obj, options: map<string, ConversionOption>,
                         formatDate: (string, int) -> string, printObj: Obj -> string,
                         foreign: (ConverterFn, Obj, map<string, ConversionOption>) -> Result<Option<string>>): (r: Result<Option<string>>)
    ensures f == CoreChar && value.JString? ==> r == Ok(Some(value.s))
    ensures f == CoreInteger ==> r == ConvertIntegerToString(Some(value), options)
    ensures f == CoreLong ==> r == ConvertLongToString(Some(value), options)
  {
    match f
    case CoreChar =>
      var s := ConvertCharToString(Some(value), options, printObj);
      if s.Ok? then Ok(Some(s.value)) else Err(NullPointerException)
    case CoreInteger => ConvertIntegerToString(Some(value), options)
    case CoreLong => ConvertLongToString(Some(value), options)
    case CoreDate => ConvertDateToString(Some(value), options, formatDate)
    case _ => foreign(f, value, options)
  }

  /** The classes the static initializer registers, in both directions. */
  const BUILT_IN: map<string, ConverterFn> := map[
    STRING_CLASS := CoreChar,
    "java.lang.Double" := CoreDouble,
    "java.math.BigDecimal" := CoreBigDecimal,
    "java.lang.Float" := CoreFloat,
    LONG_CLASS := CoreLong,
    INTEGER_CLASS := CoreInteger,
    DATE_CLASS := CoreDate]

  /** The two static maps of the cache, as one object. */
  class ConverterFunctionCache {
    var toType: map<string, ConverterFn>
    var fromType: map<string, ConverterFn>

    /** The static initializer: the seven built-in classes in both directions. */
    constructor ()
      ensures toType == BUILT_IN && fromType == BUILT_IN
    {
      toType := BUILT_IN;
      fromType := BUILT_IN;
    }

    /** `registerToTypeConverterFunction`: a later registration for the class replaces an
        earlier one. */
    method RegisterToType(clazz: string, f: ConverterFn)
      modifies this`toType
      ensures toType == old(toType)[clazz := f]
    {
      toType := toType[clazz := f];
    }

    /** `removeToTypeConverterFunction`: the function that was registered, or null. */
    method RemoveToType(clazz: string) returns (r: Option<ConverterFn>)
      modifies this`toType
      ensures r == (if clazz in old(toType) then Some(old(toType)[clazz]) else None)
      ensures toType == old(toType) - {clazz}
    {
      r := if clazz in toType then Some(toType[clazz]) else None;
      toType := toType - {clazz};
    }

    /** `registerFromTypeConverterFunction`. */
    method RegisterFromType(clazz: string, f: ConverterFn)
      modifies this`fromType
      ensures fromType == old(fromType)[clazz := f]
    {
      fromType := fromType[clazz := f];
    }

    /** `removeFromTypeConverterFunction`. */
    method RemoveFromType(clazz: string) returns (r: Option<ConverterFn>)
      modifies this`fromType
      ensures r == (if clazz in old(fromType) then Some(old(fromType)[clazz]) else None)
      ensures fromType == old(fromType) - {clazz}
    {
      r := if clazz in fromType then Some(fromType[clazz]) else None;
      fromType := fromType - {clazz};
    }

    /** `findToTypeConverter`: the function under the key `findKey` picks, or null. */
    method FindToTypeConverter(cp: ClassPath, clazz: string) returns (r: Option<ConverterFn>, ghost key: Option<string>)
      ensures KeyChoice(cp, clazz, toType.Keys, key)
      ensures r == (if key.Some? then Some(toType[key.value]) else None)
    {
      var k := FindKey(cp, clazz, toType.Keys);
      key := k;
      r := if k.Some? then Some(toType[k.value]) else None;
    }

    /** `findFromTypeConverter`. */
    method FindFromTypeConverter(cp: ClassPath, clazz: string) returns (r: Option<ConverterFn>, ghost key: Option<string>)
      ensures KeyChoice(cp, clazz, fromType.Keys, key)
      ensures r == (if key.Some? then Some(fromType[key.value]) else None)
    {
      var k := FindKey(cp, clazz, fromType.Keys);
      key := k;
      r := if k.Some? then Some(fromType[k.value]) else None;
    }

    /** `convertFromString`: null when no function is found for the class, otherwise what the
        function makes of the text. */
    method ConvertFromString(cp: ClassPath, clazz: string, value: string, options: map<string, ConversionOption>,
                             parseDate: (string, string) -> Option<int>,
                             foreign: (ConverterFn, string, map<string, ConversionOption>) -> Result<Option<Obj>>)
      returns (r: Result<Option<Obj>>, ghost key: Option<string>)
      ensures KeyChoice(cp, clazz, toType.Keys, key)
      ensures key.None? ==> r == Ok(None)
      ensures key.Some? ==> r == ApplyToType(toType[key.value], value, options, parseDate, foreign)
    {
      var f;
      f, key := FindToTypeConverter(cp, clazz);
      if f.Some? {
        r := ApplyToType(f.value, value, options, parseDate, foreign);
      } else {
        r := Ok(None);
      }
    }

    /** `convertToString`: the function is looked up by the value's runtime class (a null
        value is excluded, its `getClass()` would throw); null when none is found. */
    method ConvertToString(cp: ClassPath, value: Obj, options: map<string, ConversionOption>,
                           formatDate: (string, int) -> string, printObj: Obj -> string,
                           foreign: (ConverterFn, Obj, map<string, ConversionOption>) -> Result<Option<string>>)
      returns (r: Result<Option<string>>, ghost key: Option<string>)
      ensures KeyChoice(cp, ClassOf(value), fromType.Keys, key)
      ensures key.None? ==> r == Ok(None)
      ensures key.Some? ==> r == ApplyFromType(fromType[key.value], value, options, formatDate, printObj, foreign)
    {
      var f;
      f, key := FindFromTypeConverter(cp, ClassOf(value));
      if f.Some? {
        r := ApplyFromType(f.value, value, options, formatDate, printObj, foreign);
      } else {
        r := Ok(None);
      }
    }
  }

  /** `findKey`: the exact class name first, then the first key that loads and is assignable
      from the class. */
  method FindKey(cp: ClassPath, clazz: string, keys: set<string>) returns (r: Option<string>)
    ensures KeyChoice(cp, clazz, keys, r)
  {
    if clazz in keys {
      return Some(clazz);
    }
    var candidates := set k | k in keys && Fallback(cp, k, clazz);
    if candidates == {} {
      assert forall k :: k in keys ==> k !in candidates;
      r := None;
    } else {
      var k :| k in candidates;
      r := Some(k);
    }
  }

  /** After registering a function for a class, the lookup for that class finds exactly it,
      whatever else is registered. */
  lemma RegisteredIsFound(cp: ClassPath, m: map<string, ConverterFn>, clazz: string, f: ConverterFn, key: Option<string>)
    requires KeyChoice(cp, clazz, m[clazz := f].Keys, key)
    ensures key == Some(clazz) && m[clazz := f][key.value] == f
  {
  }

  /** With no registration for the class or any loadable supertype, nothing is found. */
  lemma UnregisteredIsNull(cp: ClassPath, keys: set<string>, clazz: string, key: Option<string>)
    requires KeyChoice(cp, clazz, keys, key)
    requires clazz !in keys && forall k :: k in keys ==> !Fallback(cp, k, clazz)
    ensures key.None?
  {
  }

  /** A subclass with no converter of its own is served by one registered for a loadable
      supertype. */
  lemma SupertypeFallback(cp: ClassPath, keys: set<string>, clazz: string, sup: string, key: Option<string>)
    requires KeyChoice(cp, clazz, keys, key)
    requires clazz !in keys && sup in keys && sup in cp.loadable
    requires clazz in cp.supertypes && sup in cp.supertypes[clazz]
    ensures key.Some? && key.value in keys && AssignableFrom(cp, key.value, clazz)
  {
  }

  /** Removing twice: the second removal finds nothing. */
  method RemoveTwice(cache: ConverterFunctionCache, clazz: string, f: ConverterFn) returns (first: Option<ConverterFn>, second: Option<ConverterFn>)
    modifies cache
    ensures first == Some(f) && second == None
  {
    cache.RegisterToType(clazz, f);
    first := cache.RemoveToType(clazz);
    second := cache.RemoveToType(clazz);
  }

  /** Every built-in class converts from text by its own core function. */
  lemma BuiltInsExact(cp: ClassPath, clazz: string, key: Option<string>)
    requires clazz in BUILT_IN
    requires KeyChoice(cp, clazz, BUILT_IN.Keys, key)
    ensures key == Some(clazz)
  {
  }
}
