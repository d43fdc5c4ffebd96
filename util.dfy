/** `Util`: the quote-aware splitter that cuts a delimited line into `LineToken`s, and the small
    string transforms behind the conversion options (justify, strip-chars, substring,
    default-value) together with the option and parse helpers. */
module Util {
  import opened Wrappers
  import opened JavaText
  import JavaNumbers
  import opened LineTokens

  /** A named conversion option; its value may be absent (null). */
  datatype ConversionOption = ConversionOption(name: string, value: Option<string>)

  // ---------------------------------------------------------------------------------------
  // split
  // ---------------------------------------------------------------------------------------

  /** Whether the scan is inside quotes just before position `i` of `str`: a quote character
      that is not splitting the line flips the state. */
  function InQuoteAt(str: string, chrSplit: char, chrQuote: char, i: nat): bool
    requires i <= |str|
  {
    if i == 0 then false
    else
      var before := InQuoteAt(str, chrSplit, chrQuote, i - 1);
      if str[i - 1] == chrSplit && !before then before
      else if str[i - 1] == chrQuote then !before
      else before
  }

  /** Position `i` holds a delimiter outside quotes: the line is split there. */
  predicate SplitsAt(str: string, chrSplit: char, chrQuote: char, i: nat)
    requires i < |str|
  {
    str[i] == chrSplit && !InQuoteAt(str, chrSplit, chrQuote, i)
  }

  /** The splitting positions below `n`, in increasing order. */
  function SplitPositionsBelow(str: string, chrSplit: char, chrQuote: char, n: nat): (ps: seq<nat>)
    requires n <= |str|
    ensures forall k :: 0 <= k < |ps| ==> ps[k] < n && SplitsAt(str, chrSplit, chrQuote, ps[k])
    ensures forall k, l :: 0 <= k < l < |ps| ==> ps[k] < ps[l]
    ensures forall i :: 0 <= i < n && SplitsAt(str, chrSplit, chrQuote, i) ==> i in ps
  {
    if n == 0 then []
    else
      var ps := SplitPositionsBelow(str, chrSplit, chrQuote, n - 1);
      if SplitsAt(str, chrSplit, chrQuote, n - 1) then ps + [n - 1] else ps
  }

  /** Every splitting position of the line, in increasing order. */
  function SplitPositions(str: string, chrSplit: char, chrQuote: char): seq<nat> {
    SplitPositionsBelow(str, chrSplit, chrQuote, |str|)
  }

  /** The raw text of a token without its quote characters. */
  function WithoutQuotes(s: string, chrQuote: char): (r: string)
    ensures chrQuote !in r
    ensures |r| <= |s|
  {
    if s == [] then []
    else WithoutQuotes(s[..|s| - 1], chrQuote) + (if s[|s| - 1] == chrQuote then [] else [s[|s| - 1]])
  }

  /** Where token `k` starts: at 0, or one past the `k`-th splitting delimiter. */
  function TokenStart(ps: seq<nat>, k: nat): nat
    requires k <= |ps|
  {
    if k == 0 then 0 else ps[k - 1] + 1
  }

  /** Where token `k` ends: at the next splitting delimiter, or at the end of the line. */
  function TokenEnd(str: string, ps: seq<nat>, k: nat): nat
    requires k <= |ps|
  {
    if k == |ps| then |str| else ps[k]
  }

  predicate WellSpaced(str: string, ps: seq<nat>) {
    (forall k :: 0 <= k < |ps| ==> ps[k] < |str|) &&
    (forall k, l :: 0 <= k < l < |ps| ==> ps[k] < ps[l])
  }

  lemma TokenBounds(str: string, ps: seq<nat>, k: nat)
    requires WellSpaced(str, ps) && k <= |ps|
    ensures TokenStart(ps, k) <= TokenEnd(str, ps, k) <= |str|
  {
  }

  /** Token `k` of a line split at positions `ps`: the raw text between two splitting
      delimiters, with its quote characters dropped. */
  function TokenAt(str: string, chrQuote: char, ps: seq<nat>, k: nat): (t: TokenValue)
    requires WellSpaced(str, ps) && k <= |ps|
    ensures t.columnPosition == TokenStart(ps, k) && t.fullTokenLength == TokenEnd(str, ps, k) - TokenStart(ps, k)
  {
    var b, e := TokenStart(ps, k), TokenEnd(str, ps, k);
    TokenValue(WithoutQuotes(str[b..e], chrQuote), e - b, b)
  }

  /** The tokens of a line, one per stretch between splitting positions. */
  function Tokens(str: string, chrSplit: char, chrQuote: char): (r: seq<TokenValue>)
  {
    var ps := SplitPositions(str, chrSplit, chrQuote);
    seq(|ps| + 1, k requires 0 <= k <= |ps| => TokenAt(str, chrQuote, ps, k))
  }

  /** The scan state after some characters of the line: the finished tokens, the current
      token's text and raw length, and whether the scan is inside quotes. */
  datatype Scan = Scan(done: seq<TokenValue>, str1: string, tokenLength: int, inQuote: bool)

  /** One character of `split`'s loop: a delimiter outside quotes closes the current token,
      a quote flips the quote state, any other character is kept. */
  function ScanStep(st: Scan, c: char, colIdx: nat, chrSplit: char, chrQuote: char): Scan {
    if c == chrSplit && !st.inQuote then
      Scan(st.done + [TokenValue(st.str1, st.tokenLength, colIdx - st.tokenLength)], [], 0, st.inQuote)
    else if c == chrQuote then st.(tokenLength := st.tokenLength + 1, inQuote := !st.inQuote)
    else st.(tokenLength := st.tokenLength + 1, str1 := st.str1 + [c])
  }

  /** The scan state after the first `n` characters. */
  function ScanTo(str: string, chrSplit: char, chrQuote: char, n: nat): Scan
    requires n <= |str|
  {
    if n == 0 then Scan([], [], 0, false)
    else ScanStep(ScanTo(str, chrSplit, chrQuote, n - 1), str[n - 1], n - 1, chrSplit, chrQuote)
  }

  /** What the scan state after `n` characters means: one finished token per splitting
      position below `n`, and the current token running from the last of them up to `n`. */
  ghost predicate ScanInvariant(str: string, chrSplit: char, chrQuote: char, n: nat, st: Scan)
    requires n <= |str|
  {
    var ps := SplitPositionsBelow(str, chrSplit, chrQuote, n);
    |st.done| == |ps| &&
    (forall k :: 0 <= k < |ps| ==> st.done[k] == TokenAt(str, chrQuote, ps, k)) &&
    st.inQuote == InQuoteAt(str, chrSplit, chrQuote, n) &&
    TokenStart(ps, |ps|) <= n &&
    st.tokenLength == n - TokenStart(ps, |ps|) &&
    st.str1 == WithoutQuotes(str[TokenStart(ps, |ps|)..n], chrQuote)
  }

  lemma ScanStepKeeps(str: string, chrSplit: char, chrQuote: char, n: nat)
    requires n < |str|
    ensures ScanInvariant(str, chrSplit, chrQuote, n, ScanTo(str, chrSplit, chrQuote, n)) ==>
      ScanInvariant(str, chrSplit, chrQuote, n + 1, ScanTo(str, chrSplit, chrQuote, n + 1))
  {
    var st := ScanTo(str, chrSplit, chrQuote, n);
    assert ScanTo(str, chrSplit, chrQuote, n + 1) == ScanStep(st, str[n], n, chrSplit, chrQuote);
    if ScanInvariant(str, chrSplit, chrQuote, n, st) {
      if str[n] == chrSplit && !st.inQuote {
        ScanSplitKeeps(str, chrSplit, chrQuote, n, st);
      } else {
        ScanCharKeeps(str, chrSplit, chrQuote, n, st);
      }
    }
  }

  lemma ScanSplitKeeps(str: string, chrSplit: char, chrQuote: char, n: nat, st: Scan)
    requires n < |str| && ScanInvariant(str, chrSplit, chrQuote, n, st)
    requires str[n] == chrSplit && !st.inQuote
    ensures ScanInvariant(str, chrSplit, chrQuote, n + 1, ScanStep(st, str[n], n, chrSplit, chrQuote))
  {
    var ps := SplitPositionsBelow(str, chrSplit, chrQuote, n);
    var ps' := SplitPositionsBelow(str, chrSplit, chrQuote, n + 1);
    var next := ScanStep(st, str[n], n, chrSplit, chrQuote);
    assert SplitsAt(str, chrSplit, chrQuote, n);
    assert ps' == ps + [n];
    assert next.inQuote == InQuoteAt(str, chrSplit, chrQuote, n + 1);
    assert str[n + 1..n + 1] == [];
    SplitDoneTokens(str, chrQuote, ps, n, st.done, next.done);
  }

  /** Closing the current token at splitting position `n` appends that token and keeps the
      ones before it. */
  lemma SplitDoneTokens(str: string, chrQuote: char, ps: seq<nat>, n: nat, done: seq<TokenValue>, next: seq<TokenValue>)
    requires n < |str| && WellSpaced(str, ps) && (ps == [] || ps[|ps| - 1] < n) && TokenStart(ps, |ps|) <= n
    requires |done| == |ps| && forall k :: 0 <= k < |ps| ==> done[k] == TokenAt(str, chrQuote, ps, k)
    requires next == done + [TokenValue(WithoutQuotes(str[TokenStart(ps, |ps|)..n], chrQuote), n - TokenStart(ps, |ps|), TokenStart(ps, |ps|))]
    ensures WellSpaced(str, ps + [n])
    ensures forall k :: 0 <= k < |ps| + 1 ==> next[k] == TokenAt(str, chrQuote, ps + [n], k)
  {
    var ps' := ps + [n];
    assert forall k :: 0 <= k < |ps| ==> ps'[k] == ps[k];
    assert WellSpaced(str, ps');
    forall k | 0 <= k < |ps'|
      ensures next[k] == TokenAt(str, chrQuote, ps', k)
    {
      if k < |ps| {
        assert TokenStart(ps', k) == TokenStart(ps, k) && TokenEnd(str, ps', k) == TokenEnd(str, ps, k);
        assert next[k] == done[k];
      } else {
        assert TokenStart(ps', k) == TokenStart(ps, |ps|) && TokenEnd(str, ps', k) == n;
      }
    }
  }

  lemma ScanCharKeeps(str: string, chrSplit: char, chrQuote: char, n: nat, st: Scan)
    requires n < |str| && ScanInvariant(str, chrSplit, chrQuote, n, st)
    requires !(str[n] == chrSplit && !st.inQuote)
    ensures ScanInvariant(str, chrSplit, chrQuote, n + 1, ScanStep(st, str[n], n, chrSplit, chrQuote))
  {
    var ps := SplitPositionsBelow(str, chrSplit, chrQuote, n);
    var start := TokenStart(ps, |ps|);
    var next := ScanStep(st, str[n], n, chrSplit, chrQuote);
    assert SplitPositionsBelow(str, chrSplit, chrQuote, n + 1) == ps;
    assert next.inQuote == InQuoteAt(str, chrSplit, chrQuote, n + 1);
    WithoutQuotesExtend(str, start, n, chrQuote);
  }

  /** Dropping quotes from a stretch that grows by one character. */
  lemma WithoutQuotesExtend(str: string, start: nat, n: nat, chrQuote: char)
    requires start <= n < |str|
    ensures WithoutQuotes(str[start..n + 1], chrQuote) ==
      WithoutQuotes(str[start..n], chrQuote) + (if str[n] == chrQuote then [] else [str[n]])
  {
    assert str[start..n + 1][..n - start] == str[start..n];
  }

  lemma {:induction false} ScanToState(str: string, chrSplit: char, chrQuote: char, n: nat)
    requires n <= |str|
    ensures ScanInvariant(str, chrSplit, chrQuote, n, ScanTo(str, chrSplit, chrQuote, n))
  {
    if n > 0 {
      var m := n - 1;
      ScanToState(str, chrSplit, chrQuote, m);
      ScanStepKeeps(str, chrSplit, chrQuote, m);
      assert m + 1 == n;
    }
  }

  /** The character-by-character scan yields exactly the tokens read off the splitting
      positions. */
  lemma ScanYieldsTokens(str: string, chrSplit: char, chrQuote: char)
    ensures var st := ScanTo(str, chrSplit, chrQuote, |str|);
      st.done + [TokenValue(st.str1, st.tokenLength, |str| - st.tokenLength)] == Tokens(str, chrSplit, chrQuote)
  {
    ScanToState(str, chrSplit, chrQuote, |str|);
  }

  /** `Util.split`: cuts `str` at each delimiter outside quotes. The tokens are exactly
      `Tokens(str, …)`, built as fresh `LineToken` objects. */
  method Split(str: string, chrSplit: char, chrQuote: char) returns (tokens: seq<LineToken>)
    ensures |tokens| == |Tokens(str, chrSplit, chrQuote)|
    ensures forall k :: 0 <= k < |tokens| ==> fresh(tokens[k]) && tokens[k].View() == Tokens(str, chrSplit, chrQuote)[k]
  {
    tokens := [];
    var str1: string := [];
    var inQuote := false;
    var colIdx := 0;
    var tokenLength := 0;
    while colIdx < |str|
      invariant 0 <= colIdx <= |str|
      invariant ScanTo(str, chrSplit, chrQuote, colIdx) == Scan(ScanTo(str, chrSplit, chrQuote, colIdx).done, str1, tokenLength, inQuote)
      invariant |tokens| == |ScanTo(str, chrSplit, chrQuote, colIdx).done|
      invariant forall k :: 0 <= k < |tokens| ==> fresh(tokens[k])
      invariant forall k :: 0 <= k < |tokens| ==> tokens[k].View() == ScanTo(str, chrSplit, chrQuote, colIdx).done[k]
    {
      if str[colIdx] == chrSplit && !inQuote {
        var t := new LineToken(str1, tokenLength, colIdx);
        tokens := tokens + [t];
        str1 := [];
        tokenLength := 0;
      } else if str[colIdx] == chrQuote {
        tokenLength := tokenLength + 1;
        inQuote := !inQuote;
      } else {
        tokenLength := tokenLength + 1;
        str1 := str1 + [str[colIdx]];
      }
      colIdx := colIdx + 1;
    }
    var t := new LineToken(str1, tokenLength, colIdx);
    tokens := tokens + [t];
    ScanYieldsTokens(str, chrSplit, chrQuote);
  }

  /** Exactly one more token than there are delimiters outside quotes. */
  lemma TokenCount(str: string, chrSplit: char, chrQuote: char)
    ensures |Tokens(str, chrSplit, chrQuote)| ==
      |set i | 0 <= i < |str| && SplitsAt(str, chrSplit, chrQuote, i)| + 1
  {
    var ps := SplitPositions(str, chrSplit, chrQuote);
    var s := set i | 0 <= i < |str| && SplitsAt(str, chrSplit, chrQuote, i);
    DistinctCard(ps);
    assert s == set k | 0 <= k < |ps| :: ps[k];
  }

  lemma DistinctCard(ps: seq<nat>)
    requires forall k, l :: 0 <= k < l < |ps| ==> ps[k] < ps[l]
    ensures |set k | 0 <= k < |ps| :: ps[k]| == |ps|
  {
    if ps != [] {
      var init := ps[..|ps| - 1];
      DistinctCard(init);
      assert (set k | 0 <= k < |ps| :: ps[k]) == (set k | 0 <= k < |init| :: init[k]) + {ps[|ps| - 1]};
    }
  }

  /** The empty line gives one empty token at column 0. */
  lemma EmptyLineTokens(chrSplit: char, chrQuote: char)
    ensures Tokens("", chrSplit, chrQuote) == [TokenValue("", 0, 0)]
  {
  }

  function SumLengths(toks: seq<TokenValue>): int {
    if toks == [] then 0 else SumLengths(toks[..|toks| - 1]) + toks[|toks| - 1].fullTokenLength
  }

  /** The raw lengths of all tokens plus the splitting delimiters make up the whole line. */
  lemma LengthAccounting(str: string, chrSplit: char, chrQuote: char)
    ensures SumLengths(Tokens(str, chrSplit, chrQuote)) + |SplitPositions(str, chrSplit, chrQuote)| == |str|
  {
    var ps := SplitPositions(str, chrSplit, chrQuote);
    var toks := Tokens(str, chrSplit, chrQuote);
    assert WellSpaced(str, ps);
    assert |toks| == |ps| + 1 &&
      forall k :: 0 <= k < |toks| ==> toks[k].fullTokenLength == TokenEnd(str, ps, k) - TokenStart(ps, k) by {
      forall k | 0 <= k < |toks| ensures toks[k].fullTokenLength == TokenEnd(str, ps, k) - TokenStart(ps, k) {
        assert toks[k] == TokenAt(str, chrQuote, ps, k);
      }
    }
    PrefixSums(str, ps, toks, |ps| + 1);
    assert toks[..|ps| + 1] == toks;
  }

  lemma {:induction false} PrefixSums(str: string, ps: seq<nat>, toks: seq<TokenValue>, j: nat)
    requires WellSpaced(str, ps) && |toks| == |ps| + 1 && 1 <= j <= |toks|
    requires forall k :: 0 <= k < |toks| ==> toks[k].fullTokenLength == TokenEnd(str, ps, k) - TokenStart(ps, k)
    ensures SumLengths(toks[..j]) == TokenEnd(str, ps, j - 1) - (j - 1)
  {
    assert toks[..j][..j - 1] == toks[..j - 1];
    if j > 1 {
      PrefixSums(str, ps, toks, j - 1);
    }
  }

  /** Quote characters are counted in a token's raw length but never kept in its text, while
      a delimiter between quotes stays in the text. */
  lemma QuotesAndInnerDelimiters(str: string, chrSplit: char, chrQuote: char, k: nat)
    requires k < |Tokens(str, chrSplit, chrQuote)|
    ensures chrQuote !in Tokens(str, chrSplit, chrQuote)[k].token
    ensures var t := Tokens(str, chrSplit, chrQuote)[k];
      t.fullTokenLength >= |t.token| &&
      t.fullTokenLength - |t.token| == CountOf(str[t.columnPosition..t.columnPosition + t.fullTokenLength], chrQuote)
  {
    var ps := SplitPositions(str, chrSplit, chrQuote);
    TokenBounds(str, ps, k);
    var b, e := TokenStart(ps, k), TokenEnd(str, ps, k);
    QuoteCount(str[b..e], chrQuote);
  }

  function CountOf(s: string, c: char): nat {
    if s == [] then 0 else CountOf(s[..|s| - 1], c) + (if s[|s| - 1] == c then 1 else 0)
  }

  lemma {:induction false} QuoteCount(s: string, chrQuote: char)
    ensures |WithoutQuotes(s, chrQuote)| + CountOf(s, chrQuote) == |s|
  {
    if s != [] {
      QuoteCount(s[..|s| - 1], chrQuote);
    }
  }

  /** A delimiter inside quotes is not a splitting position, and (when it differs from the
      quote character) it is kept in the text of the token that contains it. */
  lemma {:induction false} InnerDelimiterKept(s: string, chrQuote: char, i: nat)
    requires i < |s| && s[i] != chrQuote
    ensures s[i] in WithoutQuotes(s, chrQuote)
  {
    if i < |s| - 1 {
      InnerDelimiterKept(s[..|s| - 1], chrQuote, i);
    }
  }

  /** Each token's column is the index of its first raw character: 0 for the first token,
      one past a splitting delimiter for the others. */
  lemma ColumnPositions(str: string, chrSplit: char, chrQuote: char, k: nat)
    requires k < |Tokens(str, chrSplit, chrQuote)|
    ensures var t := Tokens(str, chrSplit, chrQuote)[k];
      (k == 0 ==> t.columnPosition == 0) &&
      (k > 0 ==> 0 < t.columnPosition <= |str| && SplitsAt(str, chrSplit, chrQuote, t.columnPosition - 1))
    ensures var t := Tokens(str, chrSplit, chrQuote)[k];
      0 <= t.columnPosition && t.columnPosition + t.fullTokenLength <= |str|
  {
    TokenBounds(str, SplitPositions(str, chrSplit, chrQuote), k);
  }

  // ---------------------------------------------------------------------------------------
  // justify
  // ---------------------------------------------------------------------------------------

  /** `getValue`: the value of the option named `key`, or null when there is none. */
  function GetValue(options: map<string, ConversionOption>, key: string): (r: Option<string>)
    ensures key !in options ==> r == None
    ensures key in options ==> r == options[key].value
  {
    if key in options then options[key].value else None
  }

  /** `isPadChar`: `c` occurs in the pad-character string. */
  predicate IsPadChar(c: char, strPadChar: string)
  {
    IndexOf(strPadChar, c) != -1
  }

  lemma IsPadCharMeans(c: char, strPadChar: string)
    ensures IsPadChar(c, strPadChar) <==> c in strPadChar
  {
  }

  /** Which sides a justify value names: null and "both" name both sides; any other value
      than left, right and both names neither. */
  function JustifySides(value: Option<string>): (sides: (bool, bool))
    ensures value.None? ==> sides == (true, true)
  {
    var v := value.GetOr("both");
    var both := EqualsIgnoreCase(v, "both");
    (EqualsIgnoreCase(v, "left") || both, EqualsIgnoreCase(v, "right") || both)
  }

  /** The pad characters: the pad-character option, or a single space. */
  function PadChars(options: map<string, ConversionOption>): string {
    GetValue(options, "pad-character").GetOr(" ")
  }

  /** `s` with its trailing pad characters removed. */
  function StripTrailing(s: string, pad: string): (r: string)
    ensures |r| <= |s| && r == s[..|r|]
    ensures r == [] || r[|r| - 1] !in pad
    ensures forall i :: |r| <= i < |s| ==> s[i] in pad
  {
    if s != [] && s[|s| - 1] in pad then StripTrailing(s[..|s| - 1], pad) else s
  }

  /** `s` with its leading pad characters removed. */
  function StripLeading(s: string, pad: string): (r: string)
    ensures |r| <= |s| && r == s[|s| - |r|..]
    ensures r == [] || r[0] !in pad
    ensures forall i :: 0 <= i < |s| - |r| ==> s[i] in pad
  {
    if s != [] && s[0] in pad then StripLeading(s[1..], pad) else s
  }

  function Repeat(c: char, n: nat): (r: string)
    ensures |r| == n && forall i :: 0 <= i < n ==> r[i] == c
  {
    if n == 0 then [] else Repeat(c, n - 1) + [c]
  }

  /** Removing padding: trailing pad characters for left, leading ones for right. */
  function Unpadded(str: string, left: bool, right: bool, pad: string): string {
    var s1 := if left then StripTrailing(str, pad) else str;
    if right then StripLeading(s1, pad) else s1
  }

  /** Adding padding: a string shorter than `length` gets the pad character after it for left
      and before it for right. */
  function Padded(str: string, left: bool, right: bool, padChar: char, length: int): string {
    if |str| < length then
      var padding := Repeat(padChar, length - |str|);
      var s1 := if left then str + padding else str;
      if right then padding + s1 else s1
    else str
  }

  /** What `justify` computes: with length 0 it removes padding, otherwise it pads with the
      first pad character. An empty pad-character string cannot supply that first character. */
  function Justified(str: string, value: Option<string>, options: map<string, ConversionOption>, length: int): Result<string> {
    var pad := PadChars(options);
    if length == 0 then Ok(Unpadded(str, JustifySides(value).0, JustifySides(value).1, pad))
    else if pad == [] then Err(IndexOutOfBoundsException)
    else Ok(Padded(str, JustifySides(value).0, JustifySides(value).1, pad[0], length))
  }

  /** `Util.justify`, with the source's index-scanning loops. */
  method Justify(str: string, value: Option<string>, options: map<string, ConversionOption>, length: int)
    returns (r: Result<string>)
    ensures r == Justified(str, value, options, length)
  {
    var v := value.GetOr("both");
    var justifyLeft := false;
    var justifyRight := false;
    if EqualsIgnoreCase(v, "left") { justifyLeft := true; }
    if EqualsIgnoreCase(v, "right") { justifyRight := true; }
    if EqualsIgnoreCase(v, "both") { justifyLeft := true; justifyRight := true; }
    assert (justifyLeft, justifyRight) == JustifySides(value);
    var strPadChar := " ";
    var arg := GetValue(options, "pad-character");
    if arg.Some? { strPadChar := arg.value; }
    assert strPadChar == PadChars(options);
    if length == 0 {
      var s := RemovePadding(str, justifyLeft, justifyRight, strPadChar);
      r := Ok(s);
    } else {
      if strPadChar == [] {
        return Err(IndexOutOfBoundsException);
      }
      var s := AddPadding(str, justifyLeft, justifyRight, strPadChar[0], length);
      r := Ok(s);
    }
  }

  method RemovePadding(str: string, justifyLeft: bool, justifyRight: bool, strPadChar: string) returns (s: string)
    ensures s == Unpadded(str, justifyLeft, justifyRight, strPadChar)
  {
    s := str;
    if justifyLeft {
      var i := LastNonPad(s, strPadChar);
      if i != |s| - 1 { s := s[..i + 1]; }
    }
    if justifyRight {
      var i := FirstNonPad(s, strPadChar);
      if i != 0 { s := s[i..]; }
    }
  }

  method AddPadding(str: string, justifyLeft: bool, justifyRight: bool, padChar: char, length: int) returns (s: string)
    ensures s == Padded(str, justifyLeft, justifyRight, padChar, length)
  {
    s := str;
    if |s| < length {
      var padding := Padding(padChar, length - |s|);
      if justifyLeft { s := s + padding; }
      if justifyRight { s := padding + s; }
    }
  }

  /** The scan from the end of `s` over its pad characters. */
  method LastNonPad(s: string, strPadChar: string) returns (i: int)
    ensures -1 <= i < |s| && s[..i + 1] == StripTrailing(s, strPadChar)
  {
    i := |s| - 1;
    while i > -1 && IsPadChar(s[i], strPadChar)
      invariant -1 <= i < |s|
      invariant StripTrailing(s, strPadChar) == StripTrailing(s[..i + 1], strPadChar)
    {
      assert s[..i + 1][..i] == s[..i];
      i := i - 1;
    }
  }

  /** The scan from the start of `s` over its pad characters. */
  method FirstNonPad(s: string, strPadChar: string) returns (i: int)
    ensures 0 <= i <= |s| && s[i..] == StripLeading(s, strPadChar)
  {
    i := 0;
    while i < |s| && IsPadChar(s[i], strPadChar)
      invariant 0 <= i <= |s|
      invariant StripLeading(s, strPadChar) == StripLeading(s[i..], strPadChar)
    {
      assert s[i..][1..] == s[i + 1..];
      i := i + 1;
    }
  }

  /** The padding string, built one pad character at a time. */
  method Padding(padChar: char, lenDiff: nat) returns (padding: string)
    ensures padding == Repeat(padChar, lenDiff)
  {
    padding := [];
    var i := 0;
    while i < lenDiff
      invariant 0 <= i <= lenDiff
      invariant padding == Repeat(padChar, i)
    {
      padding := padding + [padChar];
      i := i + 1;
    }
  }

  /** Removing padding (length 0): left removes only trailing pad characters, right only
      leading ones, both (or a null value) both ends; every character of the pad-character
      option counts as padding. */
  lemma JustifyStripping(str: string, value: Option<string>, options: map<string, ConversionOption>)
    ensures var pad, (left, right), r := PadChars(options), JustifySides(value), Justified(str, value, options, 0);
      r.Ok? &&
      (left && !right ==> r.value == StripTrailing(str, pad)) &&
      (right && !left ==> r.value == StripLeading(str, pad)) &&
      (left && right ==> r.value == StripLeading(StripTrailing(str, pad), pad)) &&
      (!left && !right ==> r.value == str)
  {
    var (left, right) := JustifySides(value);
    assert Justified(str, value, options, 0) == Ok(Unpadded(str, left, right, PadChars(options)));
  }

  /** Removing padding from both ends leaves no pad character at either end. */
  lemma JustifyStrippedEnds(str: string, value: Option<string>, options: map<string, ConversionOption>)
    requires JustifySides(value) == (true, true)
    ensures var r := Justified(str, value, options, 0);
      r.Ok? && (r.value == [] || (r.value[0] !in PadChars(options) && r.value[|r.value| - 1] !in PadChars(options)))
  {
    var pad := PadChars(options);
    var t := StripTrailing(str, pad);
    var r := StripLeading(t, pad);
    assert Justified(str, value, options, 0) == Ok(r);
    assert r != [] ==> r[|r| - 1] == t[|t| - 1];
  }

  /** Adding padding (length > 0): for left or right a shorter string is padded to exactly
      `length` with the first pad character; a long enough string, or a value naming no side,
      is left alone. */
  lemma JustifyPadding(str: string, value: Option<string>, options: map<string, ConversionOption>, length: int)
    requires length > 0 && PadChars(options) != []
    ensures var pad, (left, right), r := PadChars(options), JustifySides(value), Justified(str, value, options, length);
      r.Ok? &&
      (|str| >= length ==> r.value == str) &&
      (!left && !right ==> r.value == str) &&
      (|str| < length && left && !right ==> r.value == str + Repeat(pad[0], length - |str|) && |r.value| == length) &&
      (|str| < length && right && !left ==> r.value == Repeat(pad[0], length - |str|) + str && |r.value| == length)
  {
  }

  // ---------------------------------------------------------------------------------------
  // strip, substring, defaultValue, tryParse*
  // ---------------------------------------------------------------------------------------

  /** The character classes that strip-chars keeps. */
  datatype StripKind = NonNumeric | NonAlpha | NonAlphanumeric

  predicate Keeps(kind: StripKind, c: char) {
    match kind
    case NonNumeric => IsAsciiDigit(c)
    case NonAlpha => IsAsciiUpper(c) || IsAsciiLower(c)
    case NonAlphanumeric => IsAsciiUpper(c) || IsAsciiLower(c) || IsAsciiDigit(c)
  }

  /** `s` with every character outside the kept class removed. */
  function KeepOnly(s: string, kind: StripKind): (r: string)
    ensures |r| <= |s|
  {
    if s == [] then [] else KeepOnly(s[..|s| - 1], kind) + (if Keeps(kind, s[|s| - 1]) then [s[|s| - 1]] else [])
  }

  /** `strip`: removes the non-digits, non-letters or non-alphanumerics, as the value names
      (ignoring case); any other value leaves the string alone, a null value throws. */
  function Strip(str: string, value: Option<string>): (r: Result<string>)
    ensures value.None? <==> r.Err?
  {
    if value.None? then Err(NullPointerException)
    else if EqualsIgnoreCase(value.value, "non-numeric") then Ok(KeepOnly(str, NonNumeric))
    else if EqualsIgnoreCase(value.value, "non-alpha") then Ok(KeepOnly(str, NonAlpha))
    else if EqualsIgnoreCase(value.value, "non-alphanumeric") then Ok(KeepOnly(str, NonAlphanumeric))
    else Ok(str)
  }

  /** What strip keeps: only characters of the class. */
  lemma {:induction false} KeepOnlyInClass(s: string, kind: StripKind)
    ensures forall i :: 0 <= i < |KeepOnly(s, kind)| ==> Keeps(kind, KeepOnly(s, kind)[i])
  {
    if s != [] {
      KeepOnlyInClass(s[..|s| - 1], kind);
    }
  }

  /** ... and each of them as often as in the input. */
  lemma {:induction false} KeepOnlyCounts(s: string, kind: StripKind, c: char)
    requires Keeps(kind, c)
    ensures multiset(KeepOnly(s, kind))[c] == multiset(s)[c]
  {
    if s != [] {
      var init, last := s[..|s| - 1], s[|s| - 1];
      KeepOnlyCounts(init, kind, c);
      assert s == init + [last];
    }
  }

  /** Stripping twice is stripping once. */
  lemma KeepOnlyIdempotent(s: string, kind: StripKind)
    ensures KeepOnly(KeepOnly(s, kind), kind) == KeepOnly(s, kind)
  {
    KeepOnlyInClass(s, kind);
    KeepOnlyOfKept(KeepOnly(s, kind), kind);
  }

  lemma {:induction false} KeepOnlyOfKept(s: string, kind: StripKind)
    requires forall i :: 0 <= i < |s| ==> Keeps(kind, s[i])
    ensures KeepOnly(s, kind) == s
  {
    if s != [] {
      KeepOnlyOfKept(s[..|s| - 1], kind);
    }
  }

  /** The range a substring value "a,b" names, its pieces read in Java's order: a null value
      throws; the first piece is read and parsed before the second is indexed, so a bad first
      number is a number-format error even without a comma, and a value without a second piece
      indexes past the split array. */
  function SubstringBounds(value: Option<string>): (r: Result<(int, int)>)
    ensures value.None? ==> r == Err(NullPointerException)
    ensures value.Some? ==> var args := JavaSplit(value.value, ',');
      (r.Ok? <==> 2 <= |args| && JavaNumbers.ParseInt(args[0]).Some? && JavaNumbers.ParseInt(args[1]).Some?) &&
      (r.Ok? ==> r.value == (JavaNumbers.ParseInt(args[0]).value, JavaNumbers.ParseInt(args[1]).value)) &&
      (r == Err(ArrayIndexOutOfBoundsException) <==> |args| == 0 || (|args| == 1 && JavaNumbers.ParseInt(args[0]).Some?))
  {
    if value.None? then Err(NullPointerException)
    else
      var args := JavaSplit(value.value, ',');
      if |args| == 0 then Err(ArrayIndexOutOfBoundsException)
      else
        var a := JavaNumbers.ParseInt(args[0]);
        if a.None? then Err(NumberFormatException)
        else if |args| < 2 then Err(ArrayIndexOutOfBoundsException)
        else
          var b := JavaNumbers.ParseInt(args[1]);
          if b.None? then Err(NumberFormatException) else Ok((a.value, b.value))
  }

  /** A substring option with a start but no end, such as "1", throws
      `ArrayIndexOutOfBoundsException`. */
  lemma MissingEndIndex()
    ensures SubstringBounds(Some("1")) == Err(ArrayIndexOutOfBoundsException)
  {
    assert JavaSplit("1", ',') == ["1"];
    assert JavaNumbers.ParseInt("1") == Some(1);
  }

  /** `substring`: the value "a,b" selects `str[a..b]`; a range outside the string throws. */
  function Substring(str: string, value: Option<string>): (r: Result<string>)
    ensures SubstringBounds(value).Err? ==> r == Err(SubstringBounds(value).error)
    ensures r.Ok? ==> var (a, b) := SubstringBounds(value).value; 0 <= a <= b <= |str| && r.value == str[a..b]
  {
    var bounds :- SubstringBounds(value);
    var (a, b) := bounds;
    if 0 <= a <= b <= |str| then Ok(str[a..b]) else Err(IndexOutOfBoundsException)
  }

  /** The option written as two decimal numbers selects exactly that range. */
  lemma SubstringRange(str: string, a: int, b: int)
    requires 0 <= a <= b <= |str| && b <= JavaNumbers.INT_MAX
    ensures Substring(str, Some(JavaNumbers.ToDecimal(a) + "," + JavaNumbers.ToDecimal(b))) == Ok(str[a..b])
  {
    var x, y := JavaNumbers.ToDecimal(a), JavaNumbers.ToDecimal(b);
    JavaNumbers.ToDecimalRoundTrip(a, true, JavaNumbers.INT_MIN, JavaNumbers.INT_MAX);
    JavaNumbers.ToDecimalRoundTrip(b, true, JavaNumbers.INT_MIN, JavaNumbers.INT_MAX);
    DigitsHaveNoComma(a);
    DigitsHaveNoComma(b);
    var v := x + "," + y;
    assert IndexOf(v, ',') == |x| by {
      assert v[..|x|] == x;
    }
    assert v[|x| + 1..] == y;
    assert Pieces(v, ',') == [x, y];
  }

  lemma DigitsHaveNoComma(i: int)
    requires i >= 0
    ensures ',' !in JavaNumbers.ToDecimal(i)
  {
    var s := JavaNumbers.ToDecimal(i);
    assert forall k :: 0 <= k < |s| ==> s[k] != ',';
  }

  /** `defaultValue`: the option's value when `str` is blank (or null), otherwise `str`. */
  function DefaultValue(str: Option<string>, value: Option<string>): (r: Option<string>)
    ensures IsBlank(str) ==> r == value
    ensures !IsBlank(str) ==> r == str
  {
    if IsBlank(str) then value else str
  }

  /** `tryParseInt`: null stays null; otherwise Guava's parse, null for anything that is not a
      32-bit decimal integer. */
  function TryParseInt(value: Option<string>): (r: Option<int>)
    ensures value.None? ==> r.None?
    ensures r.Some? ==> JavaNumbers.INT_MIN <= r.value <= JavaNumbers.INT_MAX
  {
    if value.None? then None else JavaNumbers.TryParseInt(value.value)
  }

  /** A minus sign (or none) and digits read as their signed value when it fits an `int`;
      Guava's parse takes no plus sign, and any other character makes the text null. */
  lemma TryParseIntRule(s: string)
    ensures forall sign, digits :: (sign == "" || sign == "-") && |digits| >= 1 && JavaNumbers.AllDigits(digits) && s == sign + digits ==>
      var v := JavaNumbers.SignedValue(sign == "-", digits);
      TryParseInt(Some(s)) == if JavaNumbers.INT_MIN <= v <= JavaNumbers.INT_MAX then Some(v) else None
    ensures (exists k :: 1 <= k < |s| && !IsAsciiDigit(s[k])) ==> TryParseInt(Some(s)) == None
    ensures |s| >= 1 && !IsAsciiDigit(s[0]) && s[0] != '-' ==> TryParseInt(Some(s)) == None
  {
    forall sign, digits | (sign == "" || sign == "-") && |digits| >= 1 && JavaNumbers.AllDigits(digits) && s == sign + digits {
      JavaNumbers.SignedDigitsRule(sign, digits, false, JavaNumbers.INT_MIN, JavaNumbers.INT_MAX);
    }
    if (exists k :: 1 <= k < |s| && !IsAsciiDigit(s[k])) || (|s| >= 1 && !IsAsciiDigit(s[0]) && s[0] != '-') {
      JavaNumbers.NonDigitRejected(s, false, JavaNumbers.INT_MIN, JavaNumbers.INT_MAX);
    }
  }

  lemma TryParseIntOfDecimal(i: int)
    requires JavaNumbers.INT_MIN <= i <= JavaNumbers.INT_MAX
    ensures TryParseInt(Some(JavaNumbers.ToDecimal(i))) == Some(i)
  {
    JavaNumbers.ToDecimalRoundTrip(i, false, JavaNumbers.INT_MIN, JavaNumbers.INT_MAX);
  }

  /** `tryParseBoolean`: null for a blank string, otherwise whether the text is "true"
      ignoring case. */
  function TryParseBoolean(value: Option<string>): (r: Option<bool>)
    ensures r.None? <==> IsBlank(value)
    ensures r.Some? ==> (r.value <==> EqualsIgnoreCase(value.value, "true"))
  {
    if IsBlank(value) then None else Some(EqualsIgnoreCase(value.value, "true"))
  }

  /** `tryParseBoolean(value, defaultValue)`: the default for a blank string. */
  function TryParseBooleanOr(value: Option<string>, defaultValue: bool): (r: bool)
    ensures IsBlank(value) ==> r == defaultValue
    ensures !IsBlank(value) ==> (r <==> EqualsIgnoreCase(value.value, "true"))
  {
    TryParseBoolean(value).GetOr(defaultValue)
  }
}
