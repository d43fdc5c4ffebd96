/** The conversion-option pipeline of `transformString`, shared by both generations of
    `ConversionHelper`: each option applies one `Util` transform to a field text that may be
    null, and the result is then cut to the field length. */
module Transform {
  import opened Wrappers
  import opened JavaText
  import opened Util

  type Options = map<string, ConversionOption>

  /** `Util.justify` when the text may be null: removing padding from null reads its length,
      unless the value names no side; adding padding takes the first pad character and then
      reads the length. */
  function JustifyNullable(s: Option<string>, value: Option<string>, options: Options, length: int): (r: Result<Option<string>>)
    ensures s.Some? ==> (r.Ok? <==> Justified(s.value, value, options, length).Ok?)
    ensures s.Some? && r.Ok? ==> r.value == Some(Justified(s.value, value, options, length).value)
    ensures s.None? ==> (r.Ok? <==> length == 0 && JustifySides(value) == (false, false))
  {
    match s
    case Some(str) =>
      var t :- Justified(str, value, options, length);
      Ok(Some(t))
    case None =>
      if length == 0 then
        (if JustifySides(value).0 || JustifySides(value).1 then Err(NullPointerException) else Ok(None))
      else if PadChars(options) == [] then Err(IndexOutOfBoundsException)
      else Err(NullPointerException)
  }

  /** Whether a strip-chars value names one of the three character classes. */
  predicate NamesStripClass(v: string) {
    EqualsIgnoreCase(v, "non-numeric") || EqualsIgnoreCase(v, "non-alpha") || EqualsIgnoreCase(v, "non-alphanumeric")
  }

  /** `Util.strip` when the text may be null: a matching value hands null to the pattern. */
  function StripNullable(s: Option<string>, value: Option<string>): (r: Result<Option<string>>)
    ensures value.None? ==> r.Err?
    ensures s.Some? && value.Some? ==> r.Ok? && r.value == Some(Strip(s.value, value).value)
    ensures s.None? && value.Some? ==> (r.Ok? <==> !NamesStripClass(value.value)) && (r.Ok? ==> r.value == None)
  {
    if value.None? then Err(NullPointerException)
    else match s
      case Some(str) => Ok(Some(Strip(str, value).value))
      case None => if NamesStripClass(value.value) then Err(NullPointerException) else Ok(None)
  }

  /** `Util.substring` when the text may be null: the range is read first, then the null text
      throws. */
  function SubstringNullable(s: Option<string>, value: Option<string>): (r: Result<Option<string>>)
    ensures s.None? ==> r.Err?
    ensures s.Some? ==> (r.Ok? <==> Substring(s.value, value).Ok?)
  {
    match s
    case Some(str) =>
      var t :- Substring(str, value);
      Ok(Some(t))
    case None =>
      var _ :- SubstringBounds(value);
      Err(NullPointerException)
  }

  /** One conversion option applied to the field text; an option with any other name leaves it
      alone. */
  function Step(s: Option<string>, conv: ConversionOption, options: Options, length: int): Result<Option<string>> {
    if conv.name == "justify" then JustifyNullable(s, conv.value, options, length)
    else if conv.name == "strip-chars" then StripNullable(s, conv.value)
    else if conv.name == "substring" then SubstringNullable(s, conv.value)
    else if conv.name == "default-value" then Ok(DefaultValue(s, conv.value))
    else Ok(s)
  }

  predicate IsTransformOption(conv: ConversionOption) {
    conv.name in {"justify", "strip-chars", "substring", "default-value"}
  }

  /** The options visited in the order `keys`, stopping at the first that throws. */
  function ApplyOptions(s: Option<string>, keys: seq<string>, options: Options, length: int): Result<Option<string>>
    requires forall i :: 0 <= i < |keys| ==> keys[i] in options
    decreases |keys|
  {
    if keys == [] then Ok(s)
    else
      var s1 :- Step(s, options[keys[0]], options, length);
      ApplyOptions(s1, keys[1..], options, length)
  }

  /** The final cut: with a positive length a longer text keeps its first `length` characters
      (a null text throws); otherwise nothing is cut. */
  function Truncate(s: Option<string>, length: int): (r: Result<Option<string>>)
    ensures length <= 0 ==> r == Ok(s)
    ensures length > 0 ==> (r.Ok? <==> s.Some?)
    ensures length > 0 && r.Ok? ==>
      (r.value.Some? && |r.value.value| <= length && |r.value.value| <= |s.value| &&
       r.value.value == s.value[..|r.value.value|] &&
       (|s.value| <= length ==> r.value == s))
  {
    if length <= 0 then Ok(s)
    else match s
      case None => Err(NullPointerException)
      case Some(str) => Ok(Some(if |str| > length then str[..length] else str))
  }

  /** `transformString` for one visiting order of the options map. */
  function Transformed(s: Option<string>, keys: seq<string>, options: Options, length: int): Result<Option<string>>
    requires forall i :: 0 <= i < |keys| ==> keys[i] in options
  {
    var t :- ApplyOptions(s, keys, options, length);
    Truncate(t, length)
  }

  /** `keys` lists every key of the map exactly once: one iteration order of its key set. */
  predicate IsKeyOrder(keys: seq<string>, options: Options) {
    IsListing(keys, options.Keys)
  }

  /** With a positive length the result is never longer than the length. */
  lemma TruncationBound(s: Option<string>, keys: seq<string>, options: Options, length: int)
    requires forall i :: 0 <= i < |keys| ==> keys[i] in options
    requires length > 0
    ensures var r := Transformed(s, keys, options, length);
      r.Ok? ==> r.value.Some? && |r.value.value| <= length
  {
  }

  /** With a length of zero or less nothing is cut. */
  lemma NoTruncation(s: Option<string>, keys: seq<string>, options: Options, length: int)
    requires forall i :: 0 <= i < |keys| ==> keys[i] in options
    requires length <= 0
    ensures Transformed(s, keys, options, length) == ApplyOptions(s, keys, options, length)
  {
  }

  /** Options other than the four recognised names leave the text unchanged, in any order. */
  lemma {:induction false} IgnoredOptions(s: Option<string>, keys: seq<string>, options: Options, length: int)
    requires forall i :: 0 <= i < |keys| ==> keys[i] in options && !IsTransformOption(options[keys[i]])
    ensures ApplyOptions(s, keys, options, length) == Ok(s)
  {
    if keys != [] {
      IgnoredOptions(s, keys[1..], options, length);
    }
  }

  /** A single left-justify option pads a short non-null text with spaces to exactly the field
      length. */
  lemma LeftJustifiedField(str: string, length: int)
    requires 0 <= |str| < length
    ensures var options := map["justify" := ConversionOption("justify", Some("left"))];
      Transformed(Some(str), ["justify"], options, length) == Ok(Some(str + Repeat(' ', length - |str|)))
  {
    var options := map["justify" := ConversionOption("justify", Some("left"))];
    assert !EqualsIgnoreCase("left", "both") by {
      assert LowerChar("left"[0]) != LowerChar("both"[0]);
    }
    assert JustifySides(Some("left")) == (true, false);
    assert PadChars(options) == " ";
  }

  lemma {:induction false} ApplyOptionsAppend(s: Option<string>, a: seq<string>, b: seq<string>, options: Options, length: int)
    requires forall i :: 0 <= i < |a| ==> a[i] in options
    requires forall i :: 0 <= i < |b| ==> b[i] in options
    ensures var r := ApplyOptions(s, a, options, length);
      ApplyOptions(s, a + b, options, length) == if r.Err? then Err(r.error) else ApplyOptions(r.value, b, options, length)
    decreases |a|
  {
    if a == [] {
      assert a + b == b;
    } else {
      assert (a + b)[1..] == a[1..] + b;
      var s1 := Step(s, options[a[0]], options, length);
      if s1.Ok? {
        ApplyOptionsAppend(s1.value, a[1..], b, options, length);
      }
    }
  }

  lemma VisitKey(fieldChars: Option<string>, order: seq<string>, key: string, s: Option<string>, options: Options, length: int)
    requires forall i :: 0 <= i < |order| ==> order[i] in options
    requires key in options && ApplyOptions(fieldChars, order, options, length) == Ok(s)
    ensures ApplyOptions(fieldChars, order + [key], options, length) == Step(s, options[key], options, length)
  {
    ApplyOptionsAppend(fieldChars, order, [key], options, length);
  }

  lemma ErrorStops(fieldChars: Option<string>, prefix: seq<string>, rest: seq<string>, options: Options, length: int)
    requires forall i :: 0 <= i < |prefix| ==> prefix[i] in options
    requires forall i :: 0 <= i < |rest| ==> rest[i] in options
    requires ApplyOptions(fieldChars, prefix, options, length).Err?
    ensures ApplyOptions(fieldChars, prefix + rest, options, length) == ApplyOptions(fieldChars, prefix, options, length)
  {
    ApplyOptionsAppend(fieldChars, prefix, rest, options, length);
  }

  /** The `transformString` loop: the keys of the options map are visited in the map's own
      (unspecified) order, each option rewriting the text, and a throwing transform ends the
      loop; the result is then cut to the length. `order` is the visiting order. */
  method RunOptions(fieldChars: Option<string>, options: Options, length: int)
    returns (r: Result<Option<string>>, ghost order: seq<string>)
    ensures IsKeyOrder(order, options)
    ensures r == Transformed(fieldChars, order, options, length)
  {
    var keys := options.Keys;
    var s := fieldChars;
    order := [];
    while keys != {}
      invariant PartialListing(order, keys, options.Keys)
      invariant ApplyOptions(fieldChars, order, options, length) == Ok(s)
      decreases |keys|
    {
      var key :| key in keys;
      var next := Step(s, options[key], options, length);
      VisitKey(fieldChars, order, key, s, options, length);
      PartialListingStep(order, keys, options.Keys, key);
      if next.Err? {
        ghost var rest := SomeListing(keys - {key});
        ErrorStops(fieldChars, order + [key], rest, options, length);
        PartialListingDone(order + [key], keys - {key}, options.Keys, rest);
        order := order + [key] + rest;
        return Err(next.error), order;
      }
      s := next.value;
      order := order + [key];
      keys := keys - {key};
    }
    PartialListingDone(order, keys, options.Keys, []);
    assert order + [] == order;
    r := Truncate(s, length);
  }
}
