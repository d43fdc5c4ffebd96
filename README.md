# flatworm, modelled in Dafny

Flatworm reads flat files into Java beans and writes beans back out as flat files. A file is
made of records. A record is made of lines, and a line is made of fields. A line is either
fixed width, where each field has a start, an end or a length, or delimited, where fields are
separated by a delimiter character that may be quoted. A configuration says how lines are
recognised: by an identity on the line's length, on a field's text, or on a script's verdict.
It also says which bean property each field fills, through a named converter and conversion
options such as justify, strip-chars, substring and default-value. A segment is a repeating
group of fields. It fills a child bean or a collection, following the segment's cardinality
mode: SINGLE, LOOSE, RESTRICTED or STRICT.

The library carries three generations of one API side by side, and each is modelled as its
own variant:

- **Legacy root classes.** `Line`, `Record`, `RecordElement`, the legacy `ConversionHelper`,
  `FileFormat`, `FileCreator` and the legacy XML `ConfigurationReader`.
- **The `config` generation.** `config/Record`, `config/impl/FieldIdentity`,
  `config/impl/LengthIdentity` and `DefaultConfigurationReader`.
- **The business-object generation.** `config/*BO`, the `*Impl` identities, `converters/*`,
  `ConfigurationValidator`, the XML reader `DefaultConfigurationReaderImpl`, and the annotation
  reader `DefaultAnnotationConfigurationReaderImpl`.

Each Java class becomes one Dafny module, in the form the Java has:

- State that is changed in place becomes a class with `modifies` frames. Examples are the
  converter registries, `RecordElementBO`, `LineBO`, `RecordBO`, `FileFormat`, `FileCreator`,
  the validator's error list and the annotation reader's caches and deque.
- Loops become methods with invariants. Each is proved against a specification function, and
  the properties the library promises are proved as lemmas about those functions.
- Pure computations become functions.
- A call to a Java library becomes a model of that library: `String`, `StringUtils`, integer
  parsing and printing, and the DOM.
- Reflection, the script engines and stream I/O become parameters.

Beans are values in a heap of objects, so that a bean added to a collection and filled in
later is one object. A Java reference that may be null becomes an `Option`. A call that may
throw returns a `Result` whose error names the exception.

## Model

| member | source | states |
|---|---|---|
| LineTokens.LineToken.constructor | flatworm-core/src/main/java/com/blackbear/flatworm/config/LineToken.java:47-51 | the token and its raw length are stored as given and the column is the cursor minus the raw length, so the column is that of the token's first raw character |
| LineTokens.LineToken.GetColumnPosition | flatworm-core/src/main/java/com/blackbear/flatworm/config/LineToken.java:29-31 | the getter returns the column of the token's current value |
| LineTokens.LineToken.GetFullTokenLength | flatworm-core/src/main/java/com/blackbear/flatworm/config/LineToken.java:33-34 | the getter returns the raw length the constructor was given; there is no setter for it |
| LineTokens.LineToken.GetToken | flatworm-core/src/main/java/com/blackbear/flatworm/config/LineToken.java:36-37 | the getter returns the constructor's text unchanged; there is no setter for it |
| LineTokens.LineToken.SetColumnPosition | flatworm-core/src/main/java/com/blackbear/flatworm/config/LineToken.java:29-31 | the setter changes the column and nothing else of the token |
| Util.SplitPositionsBelow | flatworm-core/src/main/java/com/blackbear/flatworm/Util.java:69-80 | the positions where the loop closes a token are listed in increasing order, and every delimiter position outside quotes below the bound is among them |
| Util.WithoutQuotes | flatworm-core/src/main/java/com/blackbear/flatworm/Util.java:74-79 | raw token text loses every quote character and never grows |
| Util.TokenAt | flatworm-core/src/main/java/com/blackbear/flatworm/Util.java:71-83 | token k starts at 0 or one past the k-th splitting delimiter, and its raw length reaches the next splitting delimiter or the end of the line |
| Util.ScanStepKeeps | flatworm-core/src/main/java/com/blackbear/flatworm/Util.java:69-80 | one pass of the split loop keeps its meaning: the finished tokens are those before the last splitting delimiter, and the current text and raw length run from there to the cursor |
| Util.ScanSplitKeeps | flatworm-core/src/main/java/com/blackbear/flatworm/Util.java:70-73 | a delimiter outside quotes closes the current token as the next token of the line and starts an empty one |
| Util.SplitDoneTokens | flatworm-core/src/main/java/com/blackbear/flatworm/Util.java:71 | closing the current token at a splitting delimiter appends that token and keeps the earlier ones |
| Util.ScanCharKeeps | flatworm-core/src/main/java/com/blackbear/flatworm/Util.java:74-80 | a quote character flips the quote state and counts in the raw length only; any other character is both counted and kept |
| Util.WithoutQuotesExtend | flatworm-core/src/main/java/com/blackbear/flatworm/Util.java:74-80 | the text of a raw stretch grows by its new character unless that character is a quote |
| Util.ScanToState | flatworm-core/src/main/java/com/blackbear/flatworm/Util.java:69-81 | after any number of characters the loop state is the one its meaning describes |
| Util.ScanYieldsTokens | flatworm-core/src/main/java/com/blackbear/flatworm/Util.java:69-84 | the character loop followed by the final token gives exactly the tokens read off the splitting positions |
| Util.Split | flatworm-core/src/main/java/com/blackbear/flatworm/Util.java:62-85 | split returns one fresh LineToken per token of the line, in order, each with the text, raw length and column of that token |
| Util.TokenCount | flatworm-core/src/main/java/com/blackbear/flatworm/Util.java:62-85 | there is exactly one more token than there are delimiter characters outside quotes |
| Util.DistinctCard | flatworm-core/src/main/java/com/blackbear/flatworm/Util.java:69-80 | increasing splitting positions are all distinct, so they are as many as the delimiters they stand for |
| Util.EmptyLineTokens | flatworm-core/src/main/java/com/blackbear/flatworm/Util.java:62-85 | the empty line gives a single empty token at column 0 and raw length 0 |
| Util.LengthAccounting | flatworm-core/src/main/java/com/blackbear/flatworm/Util.java:67-84 | the raw lengths of all tokens plus the number of splitting delimiters add up to the length of the line |
| Util.PrefixSums | flatworm-core/src/main/java/com/blackbear/flatworm/Util.java:67-84 | the raw lengths of the first j tokens add up to where token j-1 ends less the j-1 delimiters before it |
| Util.QuotesAndInnerDelimiters | flatworm-core/src/main/java/com/blackbear/flatworm/Util.java:70-80 | a token's text holds no quote character, and its raw length exceeds its text length by exactly the quotes in its raw stretch |
| Util.QuoteCount | flatworm-core/src/main/java/com/blackbear/flatworm/Util.java:74-79 | a raw stretch is as long as its text plus its quote characters |
| Util.InnerDelimiterKept | flatworm-core/src/main/java/com/blackbear/flatworm/Util.java:77-80 | any non-quote character of a raw stretch, a delimiter inside quotes included, is kept in the token text |
| Util.ColumnPositions | flatworm-core/src/main/java/com/blackbear/flatworm/Util.java:71-83 | the first token is at column 0, each later one is one past a splitting delimiter, and every raw stretch lies inside the line |
| Util.GetValue | flatworm-core/src/main/java/com/blackbear/flatworm/Util.java:264-271 | the value of the option with that key, or null when there is no such option |
| Util.IsPadCharMeans | flatworm-core/src/main/java/com/blackbear/flatworm/Util.java:199-201 | a character is padding exactly when it occurs in the pad-character string |
| Util.JustifySides | flatworm-core/src/main/java/com/blackbear/flatworm/Util.java:130-145 | a null justify value means both sides |
| Util.StripTrailing | flatworm-core/src/main/java/com/blackbear/flatworm/Util.java:156-163 | the result is a prefix of the input, what was cut off is all padding, and the result does not end in padding |
| Util.StripLeading | flatworm-core/src/main/java/com/blackbear/flatworm/Util.java:166-173 | the result is a suffix of the input, what was cut off is all padding, and the result does not start with padding |
| Util.Repeat | flatworm-core/src/main/java/com/blackbear/flatworm/Util.java:182-184 | the padding has exactly the asked length and only the pad character |
| Util.Justify | flatworm-core/src/main/java/com/blackbear/flatworm/Util.java:127-197 | justify computes exactly the specification of justify; an empty pad-character option with a non-zero length is the exception that substring(0, 1) throws |
| Util.RemovePadding | flatworm-core/src/main/java/com/blackbear/flatworm/Util.java:154-173 | the length-0 branch removes trailing padding for left and then leading padding for right |
| Util.AddPadding | flatworm-core/src/main/java/com/blackbear/flatworm/Util.java:174-194 | a shorter string gets the padding after it for left and before it for right; a long enough one is kept |
| Util.LastNonPad | flatworm-core/src/main/java/com/blackbear/flatworm/Util.java:157-162 | the backward scan stops at the last non-pad character, so keeping up to it strips the trailing padding |
| Util.FirstNonPad | flatworm-core/src/main/java/com/blackbear/flatworm/Util.java:167-172 | the forward scan stops at the first non-pad character, so dropping what comes before it strips the leading padding |
| Util.Padding | flatworm-core/src/main/java/com/blackbear/flatworm/Util.java:180-184 | the padding loop builds lenDiff copies of the pad character |
| Util.JustifyStripping | flatworm-core/src/main/java/com/blackbear/flatworm/Util.java:130-173 | with length 0, left removes only trailing padding, right only leading, both or null both ends, and any other value changes nothing |
| Util.JustifyStrippedEnds | flatworm-core/src/main/java/com/blackbear/flatworm/Util.java:154-173 | stripping both sides leaves no pad character at either end |
| Util.JustifyPadding | flatworm-core/src/main/java/com/blackbear/flatworm/Util.java:134-193 | with length > 0, left or right pads a shorter string to exactly the length with the first pad character, a long enough string is kept, and a value naming no side changes nothing |
| Util.KeepOnly | flatworm-core/src/main/java/com/blackbear/flatworm/Util.java:215-223 | removing a character class never lengthens the string |
| Util.Strip | flatworm-core/src/main/java/com/blackbear/flatworm/Util.java:213-226 | strip fails exactly when the value is null (the source dereferences it) |
| Util.KeepOnlyInClass | flatworm-core/src/main/java/com/blackbear/flatworm/Util.java:215-223 | after strip-chars only characters of the kept class remain |
| Util.KeepOnlyCounts | flatworm-core/src/main/java/com/blackbear/flatworm/Util.java:215-223 | every character of the kept class remains as often as in the input |
| Util.KeepOnlyIdempotent | flatworm-core/src/main/java/com/blackbear/flatworm/Util.java:215-223 | stripping twice is the same as stripping once |
| Util.KeepOnlyOfKept | flatworm-core/src/main/java/com/blackbear/flatworm/Util.java:215-223 | a string already made of kept characters is not changed |
| Util.SubstringBounds | flatworm-core/src/main/java/com/blackbear/flatworm/Util.java:236-242 | a null value fails with the null-pointer exception; otherwise the bounds are the two parsed pieces exactly when there are two valid numbers, and the failure is `ArrayIndexOutOfBoundsException` exactly when the split has no piece, or one piece that parses |
| Util.Substring | flatworm-core/src/main/java/com/blackbear/flatworm/Util.java:236-242 | an unparsable value fails as its bounds do, and a result is the slice between the two parsed bounds, which lie inside the string |
| Util.SubstringRange | flatworm-core/src/main/java/com/blackbear/flatworm/Util.java:236-242 | the value "a,b" written in decimal selects exactly the characters from a up to b |
| Util.DefaultValue | flatworm-core/src/main/java/com/blackbear/flatworm/Util.java:253-255 | the default is returned exactly when the string is blank or null, otherwise the string |
| Util.TryParseInt | flatworm-core/src/main/java/com/blackbear/flatworm/Util.java:279-285 | null stays null, and a parsed value is a 32-bit integer |
| Util.TryParseIntOfDecimal | flatworm-core/src/main/java/com/blackbear/flatworm/Util.java:279-285 | any 32-bit integer written in decimal parses back to itself |
| Util.TryParseBoolean | flatworm-core/src/main/java/com/blackbear/flatworm/Util.java:294-300 | the result is null exactly for a blank or null string, and otherwise true exactly when the text is "true" ignoring case |
| Util.TryParseBooleanOr | flatworm-core/src/main/java/com/blackbear/flatworm/Util.java:310-316 | a blank string gives the default, and any other string gives true exactly when it is "true" ignoring case |
| Util.TryParseIntRule | flatworm-core/src/main/java/com/blackbear/flatworm/Util.java:279-285 | an optional minus and decimal digits give the signed value when it fits in 32 bits and null otherwise; a non-digit after the first character, or a first character that is neither a digit nor a minus, gives null |
| JavaNumbers.SignedDigitsRule | flatworm-core/src/main/java/com/blackbear/flatworm/Util.java:279-285 | a sign the parser accepts followed by decimal digits reads as the signed value of the digits when it is within the bounds and fails otherwise |
| JavaNumbers.NonDigitRejected | flatworm-core/src/main/java/com/blackbear/flatworm/Util.java:279-285 | a text with a character after the first that is not a digit, or with a first character that is neither a digit nor an accepted sign, fails to parse |
| JavaNumbers.LeadingZero | flatworm-core/src/main/java/com/blackbear/flatworm/converters/CoreConverters.java:257-269 | a leading zero does not change the value of a digit string |
| Util.MissingEndIndex | flatworm-core/src/main/java/com/blackbear/flatworm/Util.java:237-241 | the substring option "1", a start without an end, throws `ArrayIndexOutOfBoundsException` |
| Transform.JustifyNullable | flatworm-core/src/main/java/com/blackbear/flatworm/converters/ConversionHelper.java:168-169 | on a text justify agrees with Util.justify; on a null text it fails unless the length is 0 and the value names no side |
| Transform.StripNullable | flatworm-core/src/main/java/com/blackbear/flatworm/converters/ConversionHelper.java:170-171 | a null value fails; on a text it gives the stripped text; a null text passes through exactly when the value names no class |
| Transform.SubstringNullable | flatworm-core/src/main/java/com/blackbear/flatworm/converters/ConversionHelper.java:172-173 | a null text always fails; on a text it succeeds exactly when Util.substring does |
| Transform.Truncate | flatworm-core/src/main/java/com/blackbear/flatworm/converters/ConversionHelper.java:178-180 | a length of 0 or less cuts nothing; a positive length fails on null and otherwise keeps a prefix no longer than the length, the whole text when it already fits |
| Transform.TruncationBound | flatworm-core/src/main/java/com/blackbear/flatworm/converters/ConversionHelper.java:178-180 | with a positive length a result of transformString is never longer than the length |
| Transform.NoTruncation | flatworm-core/src/main/java/com/blackbear/flatworm/converters/ConversionHelper.java:178 | with a length of 0 or less the text is what the options made of it, uncut |
| Transform.IgnoredOptions | flatworm-core/src/main/java/com/blackbear/flatworm/converters/ConversionHelper.java:164-176 | options whose name is none of justify, strip-chars, substring and default-value leave the text unchanged, in any order |
| Transform.LeftJustifiedField | flatworm-core/src/main/java/com/blackbear/flatworm/converters/ConversionHelper.java:164-182 | a lone left-justify option pads a shorter text with spaces to exactly the field length |
| Transform.ApplyOptionsAppend | flatworm-core/src/main/java/com/blackbear/flatworm/converters/ConversionHelper.java:165-176 | visiting the options of one order and then another is the second visit started from the first's result, unless the first threw |
| Transform.VisitKey | flatworm-core/src/main/java/com/blackbear/flatworm/converters/ConversionHelper.java:165-176 | visiting one more key applies that option to the text so far |
| Transform.ErrorStops | flatworm-core/src/main/java/com/blackbear/flatworm/converters/ConversionHelper.java:165-176 | once an option throws, the later options are not applied and the exception is the result |
| Transform.RunOptions | flatworm-core/src/main/java/com/blackbear/flatworm/converters/ConversionHelper.java:159-183 | the loop visits every key of the options map once, in some order, and its result is the pipeline applied in that order and then cut to the length |
| ConversionHelpers.ConversionHelper.constructor | flatworm-core/src/main/java/com/blackbear/flatworm/converters/ConversionHelper.java:190-192 | a new helper has no converters, so every converter is trivially under its own name |
| ConversionHelpers.ConversionHelper.AddConverter | flatworm-core/src/main/java/com/blackbear/flatworm/converters/ConversionHelper.java:190-192 | after adding, the name looks up this converter, every other name looks up what it did before, and the registry stays keyed by name |
| ConversionHelpers.ConversionHelper.GetConverter | flatworm-core/src/main/java/com/blackbear/flatworm/converters/ConversionHelper.java:207-209 | the lookup is null exactly for an unregistered name and otherwise the registered converter |
| ConversionHelpers.ConversionHelper.GetConverters | flatworm-core/src/main/java/com/blackbear/flatworm/converters/ConversionHelper.java:198-200 | the collection holds exactly the registered converters |
| ConversionHelpers.ConversionHelper.TransformString | flatworm-core/src/main/java/com/blackbear/flatworm/converters/ConversionHelper.java:159-183 | transformString visits every option once in the map's order and then cuts to the length, as the pipeline specification says |
| ConversionHelpers.ConversionHelper.Convert | flatworm-core/src/main/java/com/blackbear/flatworm/converters/ConversionHelper.java:65-84 | an unregistered converter name raises the parser exception; otherwise the text transformed with length 0 is handed to the converter method, and a failure of the transform or of the converter method becomes the parser exception |
| ConversionHelpers.ConvertOutcome | flatworm-core/src/main/java/com/blackbear/flatworm/converters/ConversionHelper.java:78-82 | the result succeeds exactly when the transform and the converter method both succeed, and is then the method's value; either failure becomes the parser exception |
| ConversionHelpers.ConvertDoesNotCut | flatworm-core/src/main/java/com/blackbear/flatworm/converters/ConversionHelper.java:74 | conversion transforms with length 0, so the converter method is handed the same outcome as with the uncut pipeline |
| LegacyConversion.Converter.constructor | flatworm-core/src/main/java/com/blackbear/flatworm/ConversionHelper.java:179-183 | the copy has the same name, class, method and return type as the converter it is built from |
| LegacyConversion.ConversionHelper.constructor | flatworm-core/src/main/java/com/blackbear/flatworm/ConversionHelper.java:49-54 | a new helper has no converters |
| LegacyConversion.ConversionHelper.AddConverter | flatworm-core/src/main/java/com/blackbear/flatworm/ConversionHelper.java:171-173 | the converter is stored under its name and replaces an earlier one with that name |
| LegacyConversion.ConversionHelper.GetConverter | flatworm-core/src/main/java/com/blackbear/flatworm/ConversionHelper.java:175-187 | an unknown name gives null; otherwise the result is a fresh object with the registered converter's fields and is none of the registered objects, so changing it leaves the registry alone |
| LegacyConversion.ConversionHelper.TransformString | flatworm-core/src/main/java/com/blackbear/flatworm/ConversionHelper.java:138-162 | the legacy transformString visits every option once in the map's order and then cuts a longer text to the length |
| LegacyConversion.ConversionHelper.Convert | flatworm-core/src/main/java/com/blackbear/flatworm/ConversionHelper.java:73-101 | an unregistered type raises the conversion exception; otherwise the text transformed with length 0 is handed to the converter method, and each failure is mapped as the legacy catch clauses do |
| LegacyConversion.LegacyOutcome | flatworm-core/src/main/java/com/blackbear/flatworm/ConversionHelper.java:87-99 | the result succeeds exactly when the transform and the converter method both succeed, and is then the method's value; a number-format failure of the transform and any failure of the method become the conversion exception, and other transform failures pass through unchanged |
| FieldIdentities.Folded | flatworm-core/src/main/java/com/blackbear/flatworm/config/impl/FieldIdentityImpl.java:69-71 | with ignoreCase a string is compared lower-cased, otherwise as given |
| FieldIdentities.FieldIdentityImpl.constructor | flatworm-core/src/main/java/com/blackbear/flatworm/config/impl/FieldIdentityImpl.java:57-65 | a new identity has no positions, no matching strings and the given ignoreCase flag |
| FieldIdentities.FieldIdentityImpl.AddMatchingString | flatworm-core/src/main/java/com/blackbear/flatworm/config/impl/FieldIdentityImpl.java:67-74 | the string is added lower-cased when ignoring case and as given otherwise, nothing else changes, and the string then matches as a token text |
| FieldIdentities.FieldIdentityImpl.MatchesIdentityLine | flatworm-core/src/main/java/com/blackbear/flatworm/config/impl/FieldIdentityImpl.java:89-104 | the search loop with its early exit answers exactly the line-match rule: false for null or a line shorter than the field's end, otherwise whether some matching string region-matches |
| FieldIdentities.FieldIdentityImpl.Write | flatworm-core/src/main/java/com/blackbear/flatworm/config/impl/FieldIdentityImpl.java:115-120 | the output is the matching strings, each once, joined by the line's delimiter (none when null) in the set's iteration order |
| JavaText.JoinedSnoc | flatworm-core/src/main/java/com/blackbear/flatworm/config/impl/FieldIdentityImpl.java:119 | joining one more string appends the separator and that string |
| FieldIdentities.ShortLinesNeverMatch | flatworm-core/src/main/java/com/blackbear/flatworm/config/impl/FieldIdentityImpl.java:90-94 | a null line never matches, nor does a line shorter than startPosition + fieldLength |
| FieldIdentities.LineMatchRule | flatworm-core/src/main/java/com/blackbear/flatworm/config/impl/FieldIdentityImpl.java:95-101 | a line holding the whole field matches exactly when some matching string has the field's text as its first fieldLength characters, ignoring case when the identity does |
| FieldIdentities.EndOverflowIsHarmless | flatworm-core/src/main/java/com/blackbear/flatworm/config/impl/FieldIdentityImpl.java:93 | the int sum that ends the field may wrap, yet the verdict is the one the unbounded sum gives |
| FieldIdentities.TokenMatchesByText | flatworm-core/src/main/java/com/blackbear/flatworm/config/impl/FieldIdentityImpl.java:128-150 | a token matches exactly when it starts at startPosition, has the raw length fieldLength when that is set, and its case-folded text is one of the matching strings |
| FieldIdentities.NullStartNeverMatches | flatworm-core/src/main/java/com/blackbear/flatworm/config/impl/FieldIdentityImpl.java:130-134 | without a start position no token matches |
| FieldIdentities.StringMatchIgnoresCase | flatworm-core/src/main/java/com/blackbear/flatworm/config/impl/FieldIdentityImpl.java:152-159 | an identity that ignores case does not tell apart strings that differ only in case |
| FieldIdentities.SingleFieldExample | flatworm-core/src/test/java/com/blackbear/flatworm/config/impl/FieldIdentityTest.java:35-54 | "DVD" at 0..3 picks out the DVD line and not the VHS line |
| FieldIdentities.MultiFieldStored | flatworm-core/src/test/java/com/blackbear/flatworm/config/impl/FieldIdentityTest.java:57-65 | with ignoreCase the strings "DVD ", "vhs " and "BETA" are stored lower-cased |
| FieldIdentities.MultiFieldMatches | flatworm-core/src/test/java/com/blackbear/flatworm/config/impl/FieldIdentityTest.java:59-76 | the stored strings match the BETA, DVD and VHS lines whatever their case |
| FieldIdentities.MultiFieldRejects | flatworm-core/src/test/java/com/blackbear/flatworm/config/impl/FieldIdentityTest.java:78-81 | the CD line matches none of them |
| FieldIdentities.InvalidLineExample | flatworm-core/src/test/java/com/blackbear/flatworm/config/impl/FieldIdentityTest.java:89-100 | the empty line and the null line do not match |
| LegacyFieldIdentities.AgreesWithCurrent | flatworm-core/src/main/java/com/blackbear/flatworm/config/impl/FieldIdentity.java:73-112 | the config-generation identity gives the same verdict as FieldIdentityImpl with case folding off, for data lines and for tokens |
| LegacyFieldIdentities.TokenConditions | flatworm-core/src/main/java/com/blackbear/flatworm/config/impl/FieldIdentity.java:97-112 | without a start position no token matches; with one, a token matches exactly when it has that column, the set length if any, and exactly one of the matching strings as its text |
| LegacyFieldIdentities.LineMatchRule | flatworm-core/src/main/java/com/blackbear/flatworm/config/impl/FieldIdentity.java:78-86 | a line holding the whole field matches exactly when some matching string starts, case-sensitively, with the field's text |
| LegacyFieldIdentities.ShortLinesNeverMatch | flatworm-core/src/main/java/com/blackbear/flatworm/config/impl/FieldIdentity.java:75-77 | a line shorter than startPosition + fieldLength never matches |
| LegacyFieldIdentities.FieldIdentity.constructor | flatworm-core/src/main/java/com/blackbear/flatworm/config/impl/FieldIdentity.java:53-55 | a new identity has no positions and no matching strings |
| LegacyFieldIdentities.FieldIdentity.AddMatchingString | flatworm-core/src/main/java/com/blackbear/flatworm/config/impl/FieldIdentity.java:57-59 | the string is added as given and nothing else changes |
| LegacyFieldIdentities.FieldIdentity.DoesMatch | flatworm-core/src/main/java/com/blackbear/flatworm/config/impl/FieldIdentity.java:74-87 | the search loop with its early exit answers exactly the case-sensitive line-match rule |
| LegacyFieldIdentities.FieldIdentity.Write | flatworm-core/src/main/java/com/blackbear/flatworm/config/impl/FieldIdentity.java:90-95 | every matching string is written once followed by the delimiter (none when null), in the set's iteration order |
| LegacyFieldIdentities.EachFollowedBy | flatworm-core/src/main/java/com/blackbear/flatworm/config/impl/FieldIdentity.java:92-94 | the output length is the strings' lengths plus one delimiter per string |
| LegacyFieldIdentities.EachFollowedBySnoc | flatworm-core/src/main/java/com/blackbear/flatworm/config/impl/FieldIdentity.java:92-94 | writing one more string appends it and a delimiter |
| LengthIdentities.MatchesRecordLine | flatworm-core/src/main/java/com/blackbear/flatworm/config/impl/LengthIdentityImpl.java:56-92 | the record overload matches a line exactly when minLength <= its length <= maxLength |
| LengthIdentities.MatchesLineLine | flatworm-core/src/main/java/com/blackbear/flatworm/config/impl/LengthIdentityImpl.java:78-92 | the line overload matches a data line exactly when minLength <= its length <= maxLength |
| LengthIdentities.Write | flatworm-core/src/main/java/com/blackbear/flatworm/config/impl/LengthIdentityImpl.java:61-64 | a length identity writes nothing |
| LengthIdentities.OverloadsAgree | flatworm-core/src/main/java/com/blackbear/flatworm/config/impl/LengthIdentityImpl.java:56-81 | the record and line overloads give the same verdict on the same data line |
| LengthIdentities.EmptyRangeMatchesNothing | flatworm-core/src/main/java/com/blackbear/flatworm/config/impl/LengthIdentityImpl.java:90-92 | with minLength above maxLength no line matches through either overload |
| LegacyLengthIdentities.MatchRule | flatworm-core/src/main/java/com/blackbear/flatworm/config/impl/LengthIdentity.java:54-57 | a line matches exactly when minLength <= its length <= maxLength |
| LegacyLengthIdentities.FullRangeMatchesAll | flatworm-core/src/test/java/com/blackbear/flatworm/config/impl/LengthIdentityTest.java:35-42 | the range 0..Integer.MAX_VALUE matches every line |
| LegacyLengthIdentities.ExactBounds | flatworm-core/src/test/java/com/blackbear/flatworm/config/impl/LengthIdentityTest.java:44-53 | min = max = the line's length matches, and min = max = one more does not |
| LegacyLengthIdentities.InvertedRange | flatworm-core/src/test/java/com/blackbear/flatworm/config/impl/LengthIdentityTest.java:61-70 | the range 10..0 matches nothing |
| Identities.MatchesIdentity | flatworm-core/src/main/java/com/blackbear/flatworm/config/Identity.java:43 | a field identity answers by its line rule, a length identity by its range and fails only on a null line, which it dereferences, and a script identity by its script's verdict |
| Identities.MatchesTokenRule | flatworm-core/src/main/java/com/blackbear/flatworm/config/LineTokenIdentity.java:25-32 | only a field identity is a line-token identity, so only it can claim a token, and then exactly by its token rule |
| LegacyRecordElements.PositionGetters | flatworm-core/src/main/java/com/blackbear/flatworm/RecordElement.java:69-89 | getFieldStart and getFieldEnd fail with the unset-field exception exactly when their position is unset, and otherwise return it |
| LegacyRecordElements.LengthRule | flatworm-core/src/main/java/com/blackbear/flatworm/RecordElement.java:91-100 | an explicit length wins; without one the length is defined exactly when start and end both are, and then start plus length is the end; otherwise the unset-field exception |
| LegacyRecordElements.RecordElement.constructor | flatworm-core/src/main/java/com/blackbear/flatworm/RecordElement.java:46-55 | a new element has nothing set, field type '\0' and no options |
| LegacyRecordElements.RecordElement.GetFieldStart | flatworm-core/src/main/java/com/blackbear/flatworm/RecordElement.java:69-74 | the getter behaves as the position-getter rule says |
| LegacyRecordElements.RecordElement.GetFieldEnd | flatworm-core/src/main/java/com/blackbear/flatworm/RecordElement.java:80-85 | the getter behaves as the position-getter rule says |
| LegacyRecordElements.RecordElement.GetFieldLength | flatworm-core/src/main/java/com/blackbear/flatworm/RecordElement.java:91-100 | the getter behaves as the length rule says |
| LegacyRecordElements.RecordElement.SetFieldStart | flatworm-core/src/main/java/com/blackbear/flatworm/RecordElement.java:76-78 | the start is set and nothing else changes |
| LegacyRecordElements.RecordElement.SetFieldEnd | flatworm-core/src/main/java/com/blackbear/flatworm/RecordElement.java:87-89 | the end is set and nothing else changes |
| LegacyRecordElements.RecordElement.SetFieldLength | flatworm-core/src/main/java/com/blackbear/flatworm/RecordElement.java:102-104 | the length is set and nothing else changes |
| LegacyRecordElements.RecordElement.SetBeanRef | flatworm-core/src/main/java/com/blackbear/flatworm/RecordElement.java:130-132 | the bean reference is set and nothing else changes |
| LegacyRecordElements.RecordElement.SetType | flatworm-core/src/main/java/com/blackbear/flatworm/RecordElement.java:110-112 | the converter type is set and nothing else changes |
| LegacyRecordElements.RecordElement.AddConversionOption | flatworm-core/src/main/java/com/blackbear/flatworm/RecordElement.java:122-124 | the option is stored under its name, replacing one of that name, and the others are kept |
| LegacyRecordElements.DerivedThenExplicit | flatworm-core/src/main/java/com/blackbear/flatworm/RecordElement.java:91-104 | an element given only a start and an end reports end - start, and once a length is set it reports that length whatever its ends |
| LineElements.WithOrder | flatworm-core/src/main/java/com/blackbear/flatworm/config/LineBO.java:97-104 | giving an element an order sets exactly that order and keeps its kind |
| LineElements.SegmentMatchRule | flatworm-core/src/main/java/com/blackbear/flatworm/config/SegmentElementBO.java:35-43 | a segment without a field identity matches no token; one with an identity matches exactly the tokens whose case-folded text is one of its matching strings |
| LineElements.SegmentMatchesTextOnly | flatworm-core/src/main/java/com/blackbear/flatworm/config/SegmentElementBO.java:38-41 | the verdict depends on the token text alone, not on its column or raw length |
| LineElements.SegmentMatchesIgnoreCase | flatworm-core/src/main/java/com/blackbear/flatworm/config/SegmentElementBO.java:40 | with a case-ignoring identity, token texts equal up to case get the same verdict, as FieldIdentityImpl's string match gives |
| LineElements.RecordElementBO.constructor | flatworm-core/src/main/java/com/blackbear/flatworm/config/RecordElementBO.java:67-70 | a new element has no conversion options, ignoreField false and nothing else set |
| LineElements.RecordElementBO.IsFieldStartSet | flatworm-core/src/main/java/com/blackbear/flatworm/config/RecordElementBO.java:72-74 | true exactly when fieldStart is set |
| LineElements.RecordElementBO.IsFieldEndSet | flatworm-core/src/main/java/com/blackbear/flatworm/config/RecordElementBO.java:76-78 | true exactly when fieldEnd is set |
| LineElements.RecordElementBO.IsFieldLengthSet | flatworm-core/src/main/java/com/blackbear/flatworm/config/RecordElementBO.java:80-82 | true exactly when fieldLength is set |
| LineElements.RecordElementBO.SetFieldStart | flatworm-core/src/main/java/com/blackbear/flatworm/config/RecordElementBO.java:34-36 | the setter changes fieldStart only |
| LineElements.RecordElementBO.SetFieldEnd | flatworm-core/src/main/java/com/blackbear/flatworm/config/RecordElementBO.java:30-32 | the setter changes fieldEnd only |
| LineElements.RecordElementBO.SetFieldLength | flatworm-core/src/main/java/com/blackbear/flatworm/config/RecordElementBO.java:38-40 | the setter changes fieldLength only |
| LineElements.RecordElementBO.SetCardinality | flatworm-core/src/main/java/com/blackbear/flatworm/config/RecordElementBO.java:42-44 | the setter changes the cardinality only |
| LineElements.RecordElementBO.SetConverterName | flatworm-core/src/main/java/com/blackbear/flatworm/config/RecordElementBO.java:46-48 | the setter changes the converter name only |
| LineElements.RecordElementBO.SetIgnoreField | flatworm-core/src/main/java/com/blackbear/flatworm/config/RecordElementBO.java:88-95 | null stores false, any other value is stored as given, and nothing else changes |
| LineElements.RecordElementBO.AddConversionOption | flatworm-core/src/main/java/com/blackbear/flatworm/config/RecordElementBO.java:84-86 | the option is stored under its name, replacing one of that name, and every other option is kept |
| ParseUtils.SetProperty | flatworm-core/src/main/java/com/blackbear/flatworm/ParseUtils.java:72-78 | the property is set, and only on the target bean, exactly when the target and the name are non-null and the class declares the property; otherwise a parser exception |
| ParseUtils.InvokeAddMethod | flatworm-core/src/main/java/com/blackbear/flatworm/ParseUtils.java:154-163 | a null target or a null value is a null pointer error, which the handler's message raises again; otherwise the add method, assumed present, is called with the value, and only the target changes |
| ParseUtils.AddToNamedCollection | flatworm-core/src/main/java/com/blackbear/flatworm/ParseUtils.java:179-212 | a null target, blank name or null value changes nothing; otherwise an undeclared or non-collection property is a parser exception, and a collection gets the value appended with nothing else changed |
| ParseUtils.MapBean | flatworm-core/src/main/java/com/blackbear/flatworm/PropertyUtilsMappingStrategy.java:38-53 | the write succeeds exactly when the bean is non-null and declares the property, else a parser exception; without the append option it is a plain property write; with it a non-null current value is kept in front of the new one |
| ParseUtils.AppendAccumulates | flatworm-core/src/main/java/com/blackbear/flatworm/PropertyUtilsMappingStrategy.java:41-47 | under the append option two writes leave the original value, then the first and then the second new value, in order |
| ParseUtils.MayAdd | flatworm-core/src/main/java/com/blackbear/flatworm/ParseUtils.java:116 | one more value may be added exactly when the current size is below the maximum or the maximum is negative |
| ParseUtils.AddObjectToProperty | flatworm-core/src/main/java/com/blackbear/flatworm/ParseUtils.java:55-62 | SINGLE sets the property and every other mode adds to the collection |
| ParseUtils.SingleRefusesCollections | flatworm-core/src/main/java/com/blackbear/flatworm/ParseUtils.java:139-143 | adding to a collection in SINGLE mode always fails |
| ParseUtils.WithinCapacity | flatworm-core/src/main/java/com/blackbear/flatworm/ParseUtils.java:94-138 | while the capacity check passes, STRICT and RESTRICTED add exactly as LOOSE does |
| ParseUtils.OverCapacity | flatworm-core/src/main/java/com/blackbear/flatworm/ParseUtils.java:116-128 | past the maximum STRICT raises a parser exception and RESTRICTED leaves every bean as it was |
| ParseUtils.LooseAdds | flatworm-core/src/main/java/com/blackbear/flatworm/ParseUtils.java:131-138 | LOOSE always adds through the add method when one is named, else appends to the named collection, and with neither named changes nothing |
| ParseUtils.ResolveCardinality | flatworm-core/src/main/java/com/blackbear/flatworm/ParseUtils.java:221-230 | LOOSE exactly for a collection or array type, SINGLE otherwise, a null type included |
| Beans.NewBeanInstance | flatworm-core/src/main/java/com/blackbear/flatworm/ParseUtils.java:39-45 | a null bean is a null-pointer failure, a class that cannot be built is a parser exception, and otherwise one fresh object of the bean's class, as its constructor builds it, is added at the end of the heap |
| ParseUtils.AddValueToCollection | flatworm-core/src/main/java/com/blackbear/flatworm/ParseUtils.java:94-138 | the capacity check and add; stated by WithinCapacity |
| LineParsing.Lookup | flatworm-core/src/main/java/com/blackbear/flatworm/config/LineBO.java:198-224 | the bean found is null exactly for a null or unknown name, and otherwise is an object of the heap |
| LineParsing.Size | flatworm-core/src/main/java/com/blackbear/flatworm/config/LineBO.java:150-184 | every element tree has a positive size; it is the measure the mutually recursive parse decreases |
| LineParsing.SplitBeanRef | flatworm-core/src/main/java/com/blackbear/flatworm/config/LineBO.java:194-197 | a bean reference without a dot is an index failure; otherwise the bean name, a dot and a dot-free property rebuild the reference |
| LineParsing.SplitBeanRefJoin | flatworm-core/src/main/java/com/blackbear/flatworm/config/LineBO.java:194-197 | a bean name joined by a dot to a dot-free property splits back into exactly those two parts |
| LineParsing.MapField | flatworm-core/src/main/java/com/blackbear/flatworm/config/LineBO.java:193-211 | a mapped field changes no bean binding and adds no object; a null bean reference is a null-pointer failure |
| LineParsing.FieldBounds | flatworm-core/src/main/java/com/blackbear/flatworm/config/LineBO.java:154-165 | the field starts at its start if set, else at the cursor; it ends at start plus length (as a 32-bit sum) if the length is set, else at its end if set, else at the cursor; the cursor moves to the end only when the length or the end is set |
| LineParsing.CaptureSegmentBean | flatworm-core/src/main/java/com/blackbear/flatworm/config/LineBO.java:218-232 | capturing a segment's bean keeps every bean binding and leaves a well-formed heap |
| LineParsing.ParseFixed | flatworm-core/src/main/java/com/blackbear/flatworm/config/LineBO.java:150-184 | the fixed-width walk keeps every bean binding and leaves a well-formed heap |
| LineParsing.FixedStep | flatworm-core/src/main/java/com/blackbear/flatworm/config/LineBO.java:151-181 | one fixed-width element keeps every bean binding and leaves a well-formed heap |
| LineParsing.DelimiterChar | flatworm-core/src/main/java/com/blackbear/flatworm/config/LineBO.java:242-264 | a two-character delimiter starting with a backslash names a tab, newline, return, form feed or backslash, and any other second character leaves the backslash; any other delimiter splits on its first character |
| LineParsing.Kept | flatworm-core/src/main/java/com/blackbear/flatworm/config/LineBO.java:277-284 | removing claimed tokens never lengthens the token list |
| LineParsing.DoParse | flatworm-core/src/main/java/com/blackbear/flatworm/config/LineBO.java:286-300 | the delimited walk only moves the token cursor forward, never past the last token, and leaves a well-formed heap |
| LineParsing.DelimitedStep | flatworm-core/src/main/java/com/blackbear/flatworm/config/LineBO.java:287-307 | one delimited element only moves the token cursor forward, never past the last token |
| LineParsing.MaxInstances | flatworm-core/src/main/java/com/blackbear/flatworm/config/LineBO.java:311-314 | a maximum of zero or less means Integer.MAX_VALUE; any other maximum is kept |
| LineParsing.SegmentLoop | flatworm-core/src/main/java/com/blackbear/flatworm/config/LineBO.java:323-352 | the segment's loop only moves the token cursor forward, never past the last token |
| LineParsing.NewSegmentInstance | flatworm-core/src/main/java/com/blackbear/flatworm/config/LineBO.java:329-349 | creating and attaching a segment instance leaves a well-formed bean state |
| LineParsing.ParseLine | flatworm-core/src/main/java/com/blackbear/flatworm/config/LineBO.java:117-140 | a parsed line leaves a well-formed bean state |
| LineParsing.LineBO.constructor | flatworm-core/src/main/java/com/blackbear/flatworm/config/LineBO.java:75-76 | a new line has no elements, no delimiter, no identity, the NUL quote character, the unset index -1 and no parent record definition |
| LineParsing.LineBO.SetQuoteChar | flatworm-core/src/main/java/com/blackbear/flatworm/config/LineBO.java:83-87 | a null string changes nothing, an empty one is an index failure that changes nothing, and otherwise the quote character becomes the string's first character and nothing else changes |
| LineParsing.LineBO.IsDelimitedLine | flatworm-core/src/main/java/com/blackbear/flatworm/config/LineBO.java:93-95 | a line is delimited exactly when its delimiter is not blank |
| LineParsing.LineBO.AddLineElement | flatworm-core/src/main/java/com/blackbear/flatworm/config/LineBO.java:97-104 | the element is appended, numbered one past the current element count when it has no order and kept as it is otherwise; nothing else in the line changes |
| LineParsing.LineBO.ParseInput | flatworm-core/src/main/java/com/blackbear/flatworm/config/LineBO.java:117-140 | the result is exactly the line parse with the corrected run-out (an element with no token left is skipped): a null or empty delimited line leaves the beans as they were, a delimited line is split, cleaned and parsed token by token, a fixed line is walked from column 0; the configuration is unchanged |
| LineParsing.LineBO.ParseFixedElements | flatworm-core/src/main/java/com/blackbear/flatworm/config/LineBO.java:150-184 | the loop ends with exactly the fixed-width walk's beans and cursor, or its first error |
| LineParsing.LineBO.FixedElement | flatworm-core/src/main/java/com/blackbear/flatworm/config/LineBO.java:151-181 | a record element past the line's end is a parser exception, a null line a null-pointer failure, one without a bean reference only moves the cursor, and a segment is walked then captured; the result is exactly one fixed step |
| LineParsing.LineBO.ParseInputDelimited | flatworm-core/src/main/java/com/blackbear/flatworm/config/LineBO.java:240-269 | the tokens are exactly the split line with the tokens of the identity passed in removed (the record's for sequential lines, the line's own for identity lines), and the beans and cursor are exactly the corrected delimited walk's from the first token |
| LineParsing.LineBO.CleanupLineTokens | flatworm-core/src/main/java/com/blackbear/flatworm/config/LineBO.java:277-284 | the token list becomes exactly the tokens the identity passed in (the line's own for identity lines) does not claim, in their order, and nothing else changes |
| LineParsing.LineBO.DoParseDelimitedInput | flatworm-core/src/main/java/com/blackbear/flatworm/config/LineBO.java:286-300 | the loop ends with exactly the corrected delimited walk's beans and token cursor, or its first error, with tokens and configuration unchanged |
| LineParsing.LineBO.DelimitedElement | flatworm-core/src/main/java/com/blackbear/flatworm/config/LineBO.java:287-307 | a record element maps the current token unless ignored and moves past it, and with no token left is skipped (the corrected run-out); a segment runs its repetition; the result is exactly one delimited step |
| LineParsing.LineBO.ParseDelimitedSegmentElement | flatworm-core/src/main/java/com/blackbear/flatworm/config/LineBO.java:309-359 | a null minimum or maximum count is a null-pointer failure; otherwise the loop consumes the run of identifier tokens and ends in exactly the corrected segment loop's state |
| LineParsing.LineBO.NewInstance | flatworm-core/src/main/java/com/blackbear/flatworm/config/LineBO.java:329-349 | the new instance becomes the segment's bean and is attached to its parent in exactly the way the segment's mode and count say, the token cursor unchanged |
| LineParsing.TokenValues | flatworm-core/src/main/java/com/blackbear/flatworm/config/LineBO.java:265 | the token values are the split's tokens, one for one and in order |
| LineParsing.ParseFixedStops | flatworm-core/src/main/java/com/blackbear/flatworm/config/LineBO.java:150-184 | an element that fails stops the fixed-width walk: the whole walk fails with that error |
| LineParsing.DoParseStops | flatworm-core/src/main/java/com/blackbear/flatworm/config/LineBO.java:286-300 | an element that fails stops the delimited walk: the whole walk fails with that error |
| LineParsing.EmptyDelimitedLine | flatworm-core/src/main/java/com/blackbear/flatworm/config/LineBO.java:126-131 | a null or empty delimited line is not parsed: the beans come back exactly as they were |
| LineParsing.KeptMembers | flatworm-core/src/main/java/com/blackbear/flatworm/config/LineBO.java:277-284 | a token survives the cleanup exactly when it was in the line and the identity passed in (the line's own for identity lines) does not claim it |
| LineParsing.NothingClaimed | flatworm-core/src/main/java/com/blackbear/flatworm/config/LineBO.java:277-284 | an identity passed in without tokens (none at all, or a length or script identity) keeps the token list whole and in order |
| LineParsing.RecordTakesOneToken | flatworm-core/src/main/java/com/blackbear/flatworm/config/LineBO.java:287-307 | a record element with a token left consumes exactly that one token; an ignored element leaves the beans as they were, and one that is not ignored succeeds exactly when its field maps |
| LineParsing.IgnoredRecordsConsume | flatworm-core/src/main/java/com/blackbear/flatworm/config/LineBO.java:286-300 | a run of ignored record elements consumes one token each; skipped run-outs stop it at the last token, while as written a run past the last token is an index failure |
| LineParsing.RunOutExample | flatworm-core/src/main/java/com/blackbear/flatworm/config/LineBO.java:289-295 | one token and two ignored fields: as written the parse fails with an index failure, while skipping the run-out parses the line and consumes the one token |
| LineParsing.RunOutRule | flatworm-core/src/main/java/com/blackbear/flatworm/config/LineBO.java:289-295 | a record element that finds no token always fails as written, and with the run-out skipped always succeeds without moving or touching anything |
| LineParsing.AsWrittenAgrees | flatworm-core/src/main/java/com/blackbear/flatworm/config/LineBO.java:286-300 | whenever the delimited walk as written does not end in IndexOutOfBoundsException, the corrected walk has the same outcome, beans and cursor or the same failure |
| LineParsing.AsWrittenStepAgrees | flatworm-core/src/main/java/com/blackbear/flatworm/config/LineBO.java:287-307 | the same for one element: the two run-out handlings differ only where the written one throws IndexOutOfBoundsException |
| LineParsing.AsWrittenLoopAgrees | flatworm-core/src/main/java/com/blackbear/flatworm/config/LineBO.java:323-352 | the same for the segment repetition loop |
| LineParsing.AsWrittenLineAgrees | flatworm-core/src/main/java/com/blackbear/flatworm/config/LineBO.java:117-140 | for a whole line: where the written parse does not end in IndexOutOfBoundsException, the corrected parse has the same outcome |
| LineParsing.IdentifierRun | flatworm-core/src/main/java/com/blackbear/flatworm/config/LineBO.java:325 | the run ends at the first token that is not the segment's identifier, every token before it is, and it never passes the last token |
| LineParsing.SegmentWithoutBean | flatworm-core/src/main/java/com/blackbear/flatworm/config/LineBO.java:325-327 | a segment without a bean reference consumes exactly its run of identifier tokens and changes no bean |
| LineParsing.SegmentAbsent | flatworm-core/src/main/java/com/blackbear/flatworm/config/LineBO.java:320-325 | a segment whose identifier is not the next token consumes nothing and changes no bean |
| LineParsing.InstancePastMaximum | flatworm-core/src/main/java/com/blackbear/flatworm/config/LineBO.java:334-340 | past the maximum, STRICT is a parser exception, RESTRICTED creates the instance and makes it the segment's bean without attaching it, and every other collection mode attaches it as if there were no maximum |
| LineParsing.InstanceWithinMaximum | flatworm-core/src/main/java/com/blackbear/flatworm/config/LineBO.java:334-348 | within the maximum every collection mode adds the new instance to the parent's collection, and SINGLE sets it as the parent's property whatever the count |
| LineParsing.LengthFieldsEndToEnd | flatworm-core/src/main/java/com/blackbear/flatworm/config/LineBO.java:154-175 | fixed fields given only by their lengths lie end to end: the cursor ends the sum of the lengths past its start, and with no field naming a bean the beans come back untouched |
| LineParsing.FieldPastLineEnd | flatworm-core/src/main/java/com/blackbear/flatworm/config/LineBO.java:166-168 | a fixed-width field that ends past the end of the line is a parser exception |
| LegacyLines.LSize | flatworm-core/src/main/java/com/blackbear/flatworm/Line.java:232-310 | every legacy element tree has a positive size; it is the measure the mutually recursive parse decreases |
| LegacyLines.SplitAtFirstDot | flatworm-core/src/main/java/com/blackbear/flatworm/Line.java:183-186 | a bean reference without a dot is an index failure; otherwise a dot-free bean name, a dot and the property rebuild the reference |
| LegacyLines.SplitsDiffer | flatworm-core/src/main/java/com/blackbear/flatworm/Line.java:184-186 | the two generations split "a.b.c" differently: property "b.c" of bean "a" here, property "c" of bean "a.b" in the newer line |
| LegacyLines.SingleDotAgrees | flatworm-core/src/main/java/com/blackbear/flatworm/Line.java:184-186 | a bean reference with a single dot is split alike by both generations |
| LegacyLines.MapField | flatworm-core/src/main/java/com/blackbear/flatworm/Line.java:176-191 | a mapped field changes no bean binding and adds no object, and the mapping throws `ArrayIndexOutOfBoundsException` exactly when the conversion does |
| LegacyLines.ParseFixed | flatworm-core/src/main/java/com/blackbear/flatworm/Line.java:108-165 | the fixed-width loop keeps every bean binding and leaves a well-formed heap |
| LegacyLines.FixedStep | flatworm-core/src/main/java/com/blackbear/flatworm/Line.java:110-134 | one fixed-width element keeps every bean binding and leaves a well-formed heap |
| LegacyLines.FieldTexts | flatworm-core/src/main/java/com/blackbear/flatworm/Line.java:227 | there is one field text per token of the split |
| LegacyLines.DoParse | flatworm-core/src/main/java/com/blackbear/flatworm/Line.java:232-251 | the delimited walk only moves the field cursor forward, never past the last field |
| LegacyLines.DelimitedStep | flatworm-core/src/main/java/com/blackbear/flatworm/Line.java:237-261 | one delimited element only moves the field cursor forward, never past the last field; a field whose mapping throws `ArrayIndexOutOfBoundsException` is caught and skipped in place |
| LegacyLines.SegmentLoop | flatworm-core/src/main/java/com/blackbear/flatworm/Line.java:283-303 | the corrected segment loop only moves the field cursor forward, never past the last field |
| LegacyLines.NewInstance | flatworm-core/src/main/java/com/blackbear/flatworm/Line.java:285-300 | creating and attaching a segment instance leaves a well-formed bean state |
| LegacyLines.AsWrittenNeverFinishes | flatworm-core/src/main/java/com/blackbear/flatworm/Line.java:283-303 | as written, a segment without a bean reference whose identifier is the current field never leaves its loop, however many iterations are allowed |
| LegacyLines.AsWrittenSegmentAtEnd | flatworm-core/src/main/java/com/blackbear/flatworm/Line.java:277 | as written, a segment reached after the last field fails with `ArrayIndexOutOfBoundsException` from its minimum-count check |
| LegacyLines.SegmentWithoutBean | flatworm-core/src/main/java/com/blackbear/flatworm/Line.java:283-303 | in the corrected loop, a segment without a bean reference consumes exactly its run of identifier fields and changes no bean |
| LegacyLines.IdRun | flatworm-core/src/main/java/com/blackbear/flatworm/Line.java:283-284 | the run ends at the first field that is not the segment's identifier, every field before it is one, and it never passes the last field |
| LegacyLines.SegmentAtEnd | flatworm-core/src/main/java/com/blackbear/flatworm/Line.java:277-283 | in the corrected loop, a segment reached after the last field consumes nothing and changes no bean |
| LegacyLines.ParseLegacyLine | flatworm-core/src/main/java/com/blackbear/flatworm/Line.java:93-166 | a parsed line leaves a well-formed bean state |
| LegacyLines.EmptyDelimitedFallsThrough | flatworm-core/src/main/java/com/blackbear/flatworm/Line.java:100-108 | an empty or null text on a delimited line is parsed exactly as a fixed-width line would be |
| LegacyLines.FieldsConsume | flatworm-core/src/main/java/com/blackbear/flatworm/Line.java:235-246 | field elements take one field each while fields are left unless a conversion throws `ArrayIndexOutOfBoundsException`; running out of fields never fails the parse, and fields without bean references leave the beans as they were |
| LegacyLines.InstancePastMaximum | flatworm-core/src/main/java/com/blackbear/flatworm/Line.java:291-296 | past the maximum, STRICT is an invalid-record exception, RESTRICTED creates the instance without attaching it, and any other mode attaches it as if there were no maximum |
| LegacyLines.Line.constructor | flatworm-core/src/main/java/com/blackbear/flatworm/Line.java:41-51 | a new line has no elements, no delimiter and the NUL quote character |
| LegacyLines.Line.SetQuoteChar | flatworm-core/src/main/java/com/blackbear/flatworm/Line.java:56-60 | a null string changes nothing, an empty one is an index failure, and otherwise the quote character becomes the string's first character; the elements and delimiter are kept |
| LegacyLines.Line.IsDelimited | flatworm-core/src/main/java/com/blackbear/flatworm/Line.java:62-64 | a line is delimited exactly when its delimiter is non-null, even an empty one |
| LegacyLines.Line.SetDelimiter | flatworm-core/src/main/java/com/blackbear/flatworm/Line.java:66-68 | the delimiter becomes the value given and nothing else changes |
| LegacyLines.Line.AddElement | flatworm-core/src/main/java/com/blackbear/flatworm/Line.java:78-80 | the element is appended and nothing else changes |
| LegacyLines.Line.ParseInput | flatworm-core/src/main/java/com/blackbear/flatworm/Line.java:93-166 | the result is exactly the line parse with the corrected segment loop: a non-empty text on a delimited line is split and parsed by fields (an empty delimiter is an index failure), and any other line goes through the fixed-width loop from column 0; the configuration is kept |
| LegacyLines.Line.ParseFixedElements | flatworm-core/src/main/java/com/blackbear/flatworm/Line.java:108-165 | the loop ends with exactly the fixed-width walk's beans and cursor, or its first error |
| LegacyLines.Line.FixedElement | flatworm-core/src/main/java/com/blackbear/flatworm/Line.java:110-134 | a field past the line's end is a line-length exception, a null line a null-pointer failure, one without a bean reference only moves the cursor, and segments are passed over; the result is exactly one fixed step |
| LegacyLines.Line.ParseInputDelimited | flatworm-core/src/main/java/com/blackbear/flatworm/Line.java:200-230 | the fields are exactly the texts of the line split on the decoded delimiter, and the beans and cursor are exactly the delimited walk's from the first field |
| LegacyLines.Line.DoParseDelimitedInput | flatworm-core/src/main/java/com/blackbear/flatworm/Line.java:232-251 | the loop ends with exactly the delimited walk's beans and field cursor, or its first error, with the fields and configuration unchanged |
| LegacyLines.Line.DelimitedElement | flatworm-core/src/main/java/com/blackbear/flatworm/Line.java:237-261 | a field element past the last field is skipped; otherwise it maps the current field when it has a bean reference and moves past it, except that a mapping that throws `ArrayIndexOutOfBoundsException` is caught and leaves the field current; a segment repeats; the result is exactly one delimited step |
| LegacyLines.Line.ParseDelimitedSegmentElement | flatworm-core/src/main/java/com/blackbear/flatworm/Line.java:263-310 | the corrected loop consumes the segment's run of identifier fields and ends in exactly the segment loop's state |
| LegacyLines.Line.SegmentPass | flatworm-core/src/main/java/com/blackbear/flatworm/Line.java:284-302 | one repetition moves past at least the identifier field and agrees with the segment loop: the loop's outcome from before the pass is its outcome from after, or the pass's error |
| LegacyLines.ParseFixedSnoc | flatworm-core/src/main/java/com/blackbear/flatworm/Line.java:109 | one more element of the fixed-width loop is exactly one more fixed step |
| LegacyLines.ParseFixedStops | flatworm-core/src/main/java/com/blackbear/flatworm/Line.java:108-165 | an element that fails stops the fixed-width loop with that error |
| LegacyLines.DoParseStops | flatworm-core/src/main/java/com/blackbear/flatworm/Line.java:232-251 | an element that fails stops the delimited walk with that error |
| LegacyLines.BeanSegmentShift | flatworm-core/src/main/java/com/blackbear/flatworm/Line.java:283-303 | for a bean segment whose one field is a bean field: as written, the identifier field itself is mapped into the bean and the loop stops with one field used, or never stops when that conversion throws `ArrayIndexOutOfBoundsException`; the corrected loop maps the field after it and uses two, or skips it and uses one |
| LegacyLines.AsWrittenSegment | flatworm-core/src/main/java/com/blackbear/flatworm/Line.java:263-310 | the segment pass as written; its behaviour is stated by BeanSegmentShift, AsWrittenNeverFinishes and AsWrittenSegmentAtEnd |
| LegacyLines.AsWrittenLoop | flatworm-core/src/main/java/com/blackbear/flatworm/Line.java:283-303 | the segment loop as written, with a fuel bound; its behaviour is stated by BeanSegmentShift, AsWrittenNeverFinishes and AsWrittenStuck |
| LegacyLines.AsWrittenStuck | flatworm-core/src/main/java/com/blackbear/flatworm/Line.java:240-249 | as written, a bean segment without a parent whose elements all skip their fields in place never leaves its loop, however many iterations are allowed |
| LegacyLines.SkippedFieldKeepsCursor | flatworm-core/src/main/java/com/blackbear/flatworm/Line.java:240-249 | a field whose conversion throws `ArrayIndexOutOfBoundsException` leaves beans and cursor unchanged, so the next field element reads the same text |
| Records.Configs | flatworm-core/src/main/java/com/blackbear/flatworm/config/RecordDefinitionBO.java:41-45 | the configurations of a list of lines are one per line, in list order |
| Records.RoutedToOneList | flatworm-core/src/main/java/com/blackbear/flatworm/config/RecordDefinitionBO.java:75-96 | adding a line grows exactly one of the two lists by that line at its end: the identity lines when the line has an identity, the sequential lines otherwise; the other list is unchanged |
| Records.IndexRule | flatworm-core/src/main/java/com/blackbear/flatworm/config/RecordDefinitionBO.java:79-81 | a sequential line with the unset index -1 is numbered one past the current line count, and an explicit index is kept; no sequential line is left unset |
| Records.MatchScanRule | flatworm-core/src/main/java/com/blackbear/flatworm/config/RecordDefinitionBO.java:106-117 | a definition matches a line exactly when none of its sequential lines has an identity, or some line's identity matches it; the walk fails only for a null line checked against a length identity |
| Records.RecordDefinitionBO.constructor | flatworm-core/src/main/java/com/blackbear/flatworm/config/RecordDefinitionBO.java:51-55 | a new definition has no beans, no sequential lines and no identity lines |
| Records.RecordDefinitionBO.AddBean | flatworm-core/src/main/java/com/blackbear/flatworm/config/RecordDefinitionBO.java:62-65 | the bean is stored under its name, replacing a bean of that name, its parent becomes this definition, and the lines are unchanged |
| Records.RecordDefinitionBO.AddLine | flatworm-core/src/main/java/com/blackbear/flatworm/config/RecordDefinitionBO.java:75-87 | a line without an identity is numbered (when unset) and appended to the sequential lines, and one with an identity is appended to the identity lines unnumbered; the line's parent becomes this definition |
| Records.RecordDefinitionBO.AddLineWithIdentity | flatworm-core/src/main/java/com/blackbear/flatworm/config/RecordDefinitionBO.java:89-96 | the same routing as adding a line, from the other side: identity lines appended unnumbered, any other line numbered and appended to the sequential lines |
| Records.RecordDefinitionBO.MatchesLine | flatworm-core/src/main/java/com/blackbear/flatworm/config/RecordDefinitionBO.java:106-117 | the loop returns exactly the walk over the sequential lines in order, each identity overwriting the verdict and the first match ending it |
| Records.Instantiated | flatworm-core/src/main/java/com/blackbear/flatworm/config/RecordBO.java:132-135 | instantiating the beans leaves a well-formed bean state |
| Records.InstantiatedAppend | flatworm-core/src/main/java/com/blackbear/flatworm/config/RecordBO.java:132-135 | visiting one more bean fails when an earlier one failed or its class is unknown, and otherwise puts a fresh object of its class at the next heap position under its name |
| Records.InstantiatedFails | flatworm-core/src/main/java/com/blackbear/flatworm/config/RecordBO.java:132-135 | instantiation succeeds exactly when every visited bean's class can be instantiated |
| Records.InstantiatedBeans | flatworm-core/src/main/java/com/blackbear/flatworm/config/RecordBO.java:127-135 | with beans keyed by their names and each visited once, the i-th bean visited is a fresh object of its class at heap position i, exactly the visited names are bound, and nothing else is in the heap |
| Records.InstantiatedStops | flatworm-core/src/main/java/com/blackbear/flatworm/config/RecordBO.java:132-135 | once a bean fails to instantiate, visiting further beans keeps that failure |
| Records.InstantiateBeans | flatworm-core/src/main/java/com/blackbear/flatworm/config/RecordBO.java:132-135 | the loop visits every bean of the definition exactly once, in some order, and its result is exactly the instantiation in that order |
| Records.AttachKeepsObjects | flatworm-core/src/main/java/com/blackbear/flatworm/config/RecordBO.java:203 | attaching a bean to its parent adds no object and changes no object's class |
| Records.AddBeanToBean | flatworm-core/src/main/java/com/blackbear/flatworm/config/RecordBO.java:197-208 | a line that is not a property line changes nothing; a property line without a cardinality is a null-pointer failure, and one whose bean reference names no bean fails; otherwise the bean is attached to its parent and a fresh object of the same class is put under the bean reference, at the end of the heap |
| Records.Sequential | flatworm-core/src/main/java/com/blackbear/flatworm/config/RecordBO.java:142-151 | the sequential phase, its lines parsed with the corrected run-out, leaves a well-formed bean state and a cursor within the input |
| Records.SequentialReads | flatworm-core/src/main/java/com/blackbear/flatworm/config/RecordBO.java:142-151 | the sequential phase reads exactly one line after each line but the last (fewer only at the end of the input) and marks its last line parsed; with no sequential lines it changes nothing |
| Records.FirstMatch | flatworm-core/src/main/java/com/blackbear/flatworm/config/RecordBO.java:157-167 | the line found, when one is found, is one of the identity lines |
| Records.FirstMatchRule | flatworm-core/src/main/java/com/blackbear/flatworm/config/RecordBO.java:157-167 | the line found is the first identity line whose identity matches, every earlier one saying no; no line is found exactly when every identity says no |
| Records.NullNeverMatches | flatworm-core/src/main/java/com/blackbear/flatworm/config/RecordBO.java:156-167 | at the end of the input the null line matches no identity line |
| Records.IdentityStep | flatworm-core/src/main/java/com/blackbear/flatworm/config/RecordBO.java:157-180 | one identity step, its line parsed with the corrected run-out, leaves a well-formed bean state, and at the end of the input it changes nothing and matches nothing |
| Records.Identified | flatworm-core/src/main/java/com/blackbear/flatworm/config/RecordBO.java:153-183 | the identity phase leaves a well-formed bean state and only moves the reader forward |
| Records.IdentifiedStops | flatworm-core/src/main/java/com/blackbear/flatworm/config/RecordBO.java:168-182 | the identity phase stops either after its last line was parsed by the first matching line, an end line, or at a line no identity line matches, marked unparsed |
| Records.IdentifiedLastLine | flatworm-core/src/main/java/com/blackbear/flatworm/config/RecordBO.java:156 | the last line the identity phase read is the input line just before the reader's cursor, or null when the input is used up |
| Records.IdentityStepMatched | flatworm-core/src/main/java/com/blackbear/flatworm/config/RecordBO.java:168-180 | a successful identity step reports a match exactly when some identity line matched, and then whether the first such line is an end line |
| Records.LinePhases | flatworm-core/src/main/java/com/blackbear/flatworm/config/RecordBO.java:137-183 | the two line phases leave a well-formed bean state and only move the reader forward |
| Records.RecordParse | flatworm-core/src/main/java/com/blackbear/flatworm/config/RecordBO.java:125-183 | the whole parse leaves a well-formed bean state and only moves the reader forward |
| Records.ParseRecordResult | flatworm-core/src/main/java/com/blackbear/flatworm/config/RecordBO.java:185-188 | every failure of the parse comes back as a parser exception, and the parse succeeds exactly when its steps do |
| Records.RecordBO.constructor | flatworm-core/src/main/java/com/blackbear/flatworm/config/RecordBO.java:97-98 | a new record has the given definition and no name, identity, cardinality or last line, and has not parsed a line |
| Records.RecordBO.MatchesLine | flatworm-core/src/main/java/com/blackbear/flatworm/config/RecordBO.java:108-114 | a record without an identity claims every line; otherwise its identity decides |
| Records.RecordBO.SequentialPass | flatworm-core/src/main/java/com/blackbear/flatworm/config/RecordBO.java:143-150 | one pass parses the last line read, attaches its bean, marks it parsed and reads a further line unless it is the last; it agrees step for step with the sequential phase, whose lines parse with the corrected run-out |
| Records.RecordBO.ParseSequentialLines | flatworm-core/src/main/java/com/blackbear/flatworm/config/RecordBO.java:137-151 | the loop ends with exactly the corrected-run-out sequential phase's beans, last line, parsed flag and reader cursor, or its first error, and no line's configuration changes |
| Records.RecordBO.ParseIdentityLine | flatworm-core/src/main/java/com/blackbear/flatworm/config/RecordBO.java:157-180 | one pass after its read is exactly the identity step with the corrected run-out: the first matching identity line parses the line and its bean is attached |
| Records.RecordBO.IdentityPass | flatworm-core/src/main/java/com/blackbear/flatworm/config/RecordBO.java:156-181 | one pass reads a line and agrees with the identity phase, whose lines parse with the corrected run-out: either it goes on, having moved the reader, or the phase ends in exactly the state reached |
| Records.RecordBO.ParseIdentityLines | flatworm-core/src/main/java/com/blackbear/flatworm/config/RecordBO.java:153-183 | the do-while loop ends with exactly the corrected-run-out identity phase's beans, last line, parsed flag and reader cursor, or its first error |
| Records.RecordBO.ParseLines | flatworm-core/src/main/java/com/blackbear/flatworm/config/RecordBO.java:137-183 | the line phases end in exactly the state of the corrected-run-out sequential phase followed, when there are identity lines, by the identity phase |
| Records.RecordBO.ParseRecord | flatworm-core/src/main/java/com/blackbear/flatworm/config/RecordBO.java:125-189 | the beans are instantiated in the bean map's order and the lines parsed from the first line; the result is exactly that parse with the corrected run-out, and any failure is a parser exception |
| Records.MatchScan | flatworm-core/src/main/java/com/blackbear/flatworm/config/RecordDefinitionBO.java:106-117 | the scan over the sequential lines; stated by MatchScanRule |
| Input.LineReader.ReadLine | flatworm-core/src/main/java/com/blackbear/flatworm/config/RecordBO.java:149 | the next line and an advanced cursor, or null at the end of the input with the cursor unchanged |
| ConfigRecords.MatchesLineRule | flatworm-core/src/main/java/com/blackbear/flatworm/config/Record.java:79-85 | a record without an identity takes every line, even a null one; a null line fails, as a null-pointer failure, exactly under a field or length identity; otherwise a length identity takes exactly the lines within its bounds, a field identity applies its field rule, and a script identity gives its script's verdict |
| ConfigRecords.MatchesIdentifierRule | flatworm-core/src/main/java/com/blackbear/flatworm/config/Record.java:95-101 | only a record with a field identity claims a token, and then exactly by that identity's token rule; a field identity without a start position claims none |
| ConfigRecords.LinesParse | flatworm-core/src/main/java/com/blackbear/flatworm/config/Record.java:123-131 | with the legacy line parser standing in for `config.Line`, the line loop leaves a well-formed bean state and only moves the reader forward |
| ConfigRecords.LinesReads | flatworm-core/src/main/java/com/blackbear/flatworm/config/Record.java:125-131 | the line loop reads exactly one line after each line but the last, fewer only when the input runs out |
| ConfigRecords.RecordParse | flatworm-core/src/main/java/com/blackbear/flatworm/config/Record.java:112-137 | with the legacy line parser standing in for `config.Line`, the whole parse leaves a well-formed bean state and only moves the reader forward |
| ConfigRecords.ParsedRecord | flatworm-core/src/main/java/com/blackbear/flatworm/config/Record.java:114-131 | a parse that succeeds created one fresh bean per definition bean before reading one line fewer than there are lines; a bean whose class cannot be instantiated fails the whole parse |
| ConfigRecords.ShapesOf | flatworm-core/src/main/java/com/blackbear/flatworm/config/Record.java:123 | what the parse reads of the record's lines is one shape per line, taken from that line |
| ConfigRecords.ParseLines | flatworm-core/src/main/java/com/blackbear/flatworm/config/Record.java:123-131 | the loop ends with exactly the line loop's beans and reader cursor, or its first error (lines parsed by the legacy stand-in for `config.Line`) |
| ConfigRecords.Record.constructor | flatworm-core/src/main/java/com/blackbear/flatworm/config/Record.java:66-67 | a new record has no name, no identity, no beans and no lines |
| ConfigRecords.Record.ParseRecord | flatworm-core/src/main/java/com/blackbear/flatworm/config/Record.java:112-137 | the beans are instantiated in the bean map's order and the lines parsed from the first line, by the legacy stand-in for `config.Line`; the result is exactly that parse, any failure is a parser exception, and no line changes |
| LegacyRecords.MatchesRule | flatworm-core/src/main/java/com/blackbear/flatworm/Record.java:92-140 | a flag other than F, L and S (the default NUL included) takes every line; L takes exactly the lines within the length bounds; F rejects a line shorter than start plus length and otherwise takes it exactly when some match string region-matches the field; under F and L exactly a null line fails; S with a blank script takes every line |
| LegacyRecords.FieldFlagAgrees | flatworm-core/src/main/java/com/blackbear/flatworm/Record.java:99-116 | the F flag recognises a line exactly as the newer field identity with the same start, length and match strings does |
| LegacyRecords.SetOfMembers | flatworm-core/src/main/java/com/blackbear/flatworm/Record.java:105 | the set of match strings has exactly the strings of the list |
| LegacyRecords.RecordParse | flatworm-core/src/main/java/com/blackbear/flatworm/Record.java:157-194 | the whole legacy parse leaves a well-formed bean state and only moves the reader forward |
| LegacyRecords.SameAsConfigRecord | flatworm-core/src/main/java/com/blackbear/flatworm/Record.java:157-194 | given the same line parser, the legacy and the newer record loops read the same lines and build the same beans, succeeding together; they differ only in the failure reported, a conversion exception when a bean cannot be created |
| LegacyRecords.Record.constructor | flatworm-core/src/main/java/com/blackbear/flatworm/Record.java:66-77 | a new record has zero lengths and start, no script, no match strings and the NUL flag |
| LegacyRecords.Record.AddFieldIdentMatchString | flatworm-core/src/main/java/com/blackbear/flatworm/Record.java:79-81 | the match string is appended to the match list and nothing else changes |
| LegacyRecords.Record.MatchesLine | flatworm-core/src/main/java/com/blackbear/flatworm/Record.java:92-140 | the switch and its search loop with early exit return exactly the flag's rule |
| LegacyRecords.Record.ParseRecord | flatworm-core/src/main/java/com/blackbear/flatworm/Record.java:157-194 | the beans are instantiated in the bean map's order, a bean that cannot be created is a conversion exception, and the lines are parsed from the first line with their own failures passed through; no line changes |
| ConfigRecords.DoesMatch | flatworm-core/src/main/java/com/blackbear/flatworm/config/impl/FieldIdentity.java:74-87 | the identity's doesMatch on a line; stated by MatchesLineRule |
| ConfigRecords.MatchesLine | flatworm-core/src/main/java/com/blackbear/flatworm/config/Record.java:79-85 | matchesLine of a record; stated by MatchesLineRule |
| ConfigRecords.MatchesIdentifier | flatworm-core/src/main/java/com/blackbear/flatworm/config/Record.java:95-101 | matchesIdentifier of a record; stated by MatchesIdentifierRule |
| LegacyRecords.Matches | flatworm-core/src/main/java/com/blackbear/flatworm/Record.java:92-140 | the legacy matchesLine; stated by MatchesRule |
| FileFormats.FirstMatching | flatworm-core/src/main/java/com/blackbear/flatworm/FileFormat.java:86-95 | the record found, when one is, is at or after the search's start |
| FileFormats.FirstMatchingRule | flatworm-core/src/main/java/com/blackbear/flatworm/FileFormat.java:86-95 | the record found takes the line while every record before it declines it; none is found exactly when every record declines it; a failure is that of the first record that does not decline |
| FileFormats.DefaultRecordMapsAll | flatworm-core/src/main/java/com/blackbear/flatworm/FileFormat.java:86-108 | once a record with the default flag NUL is among those tried, every line finds a record |
| FileFormats.LinesOfHas | flatworm-core/src/main/java/com/blackbear/flatworm/FileFormat.java:144 | every line of every record is among the lines the format's parse may change |
| FileFormats.FileFormat.constructor | flatworm-core/src/main/java/com/blackbear/flatworm/FileFormat.java:63-71 | a new format has no records, line number 0, an empty current line, no encoding, unmapped records not ignored, and a fresh empty converter registry |
| FileFormats.FileFormat.GetRecord | flatworm-core/src/main/java/com/blackbear/flatworm/FileFormat.java:82-84 | the record found is the one stored under the name, and none exactly for an unknown name |
| FileFormats.FileFormat.AddRecord | flatworm-core/src/main/java/com/blackbear/flatworm/FileFormat.java:77-80 | the record is stored under its name, replacing any of that name, and appended to the matching order; looking it up by name then finds it, and every stored record stays in the matching order |
| FileFormats.FileFormat.Settings | flatworm-core/src/main/java/com/blackbear/flatworm/FileFormat.java:88 | the recognition settings are one per record, in matching order |
| FileFormats.FileFormat.DefaultRecordTakesEveryLine | flatworm-core/src/main/java/com/blackbear/flatworm/FileFormat.java:102-108 | when the format has a default record, every line finds a record |
| FileFormats.FileFormat.AddConverter | flatworm-core/src/main/java/com/blackbear/flatworm/FileFormat.java:115-117 | the converter is registered under its name with the format's conversion helper |
| FileFormats.FileFormat.FindMatchingRecord | flatworm-core/src/main/java/com/blackbear/flatworm/FileFormat.java:86-95 | the loop returns exactly the first record in matching order that takes the line, none when none does, or the first failure |
| FileFormats.FileFormat.ParseMatching | flatworm-core/src/main/java/com/blackbear/flatworm/FileFormat.java:141-152 | the first record that takes the line parses it, with the root record's parse and its failures passed through, together with the lines after it, and the result names that record; a line no record takes gives no record when unmapped records are ignored and a parser exception otherwise |
| FileFormats.FileFormat.NextRecord | flatworm-core/src/main/java/com/blackbear/flatworm/FileFormat.java:135-155 | one line is read and counted (a 32-bit count); at the end of the input there is no record and nothing more is read, and otherwise the line is matched and parsed as in ParseMatching, by the root record's parse |
| CoreConverters.ClassOf | flatworm-core/src/main/java/com/blackbear/flatworm/converters/CoreConverters.java:93-95 | an object of a class the model does not know reports its own class name |
| CoreConverters.ObjToString | flatworm-core/src/main/java/com/blackbear/flatworm/converters/CoreConverters.java:93-95 | a string prints as itself |
| CoreConverters.ConvertChar | flatworm-core/src/main/java/com/blackbear/flatworm/converters/CoreConverters.java:79-82 | the text comes back character for character |
| CoreConverters.ConvertCharToString | flatworm-core/src/main/java/com/blackbear/flatworm/converters/CoreConverters.java:93-95 | a null object is exactly the null-pointer failure, and a string comes back as itself |
| CoreConverters.ConvertInteger | flatworm-core/src/main/java/com/blackbear/flatworm/converters/CoreConverters.java:257-269 | the empty text is 0; any other text fails, as a conversion exception, exactly when it is not a decimal int, and otherwise is the int the text denotes |
| CoreConverters.ConvertIntegerToString | flatworm-core/src/main/java/com/blackbear/flatworm/converters/CoreConverters.java:271-277 | exactly a null object gives null, a non-Integer fails its cast, and an Integer gives a non-empty text |
| CoreConverters.ConvertLong | flatworm-core/src/main/java/com/blackbear/flatworm/converters/CoreConverters.java:292-304 | the empty text is 0; any other text fails, as a conversion exception, exactly when it is not a decimal long, and otherwise is the long the text denotes |
| CoreConverters.ConvertLongToString | flatworm-core/src/main/java/com/blackbear/flatworm/converters/CoreConverters.java:306-312 | exactly a null object gives null, a non-Long fails its cast, and a Long gives a non-empty text |
| CoreConverters.DateFormat | flatworm-core/src/main/java/com/blackbear/flatworm/converters/CoreConverters.java:122-152 | the date pattern is the field's format option when it has a value, and yyyy-MM-dd otherwise |
| CoreConverters.ConvertDate | flatworm-core/src/main/java/com/blackbear/flatworm/converters/CoreConverters.java:119-135 | the empty text is null; otherwise the text is read in the field's pattern, and text the pattern rejects is a conversion exception |
| CoreConverters.ConvertDateToString | flatworm-core/src/main/java/com/blackbear/flatworm/converters/CoreConverters.java:146-155 | exactly a null object gives null, a non-Date fails its cast, and a date is formatted in the field's pattern |
| CoreConverters.IntegerRoundTrip | flatworm-core/src/main/java/com/blackbear/flatworm/converters/CoreConverters.java:257-277 | an int written out reads back as the same int |
| CoreConverters.LongRoundTrip | flatworm-core/src/main/java/com/blackbear/flatworm/converters/CoreConverters.java:292-312 | a long written out reads back as the same long |
| CoreConverters.CharRoundTrip | flatworm-core/src/main/java/com/blackbear/flatworm/converters/CoreConverters.java:79-95 | a string written out reads back unchanged |
| CoreConverters.NonNumericRejected | flatworm-core/src/main/java/com/blackbear/flatworm/converters/CoreConverters.java:257-304 | text that is not a number is rejected by both the int and the long converter |
| ConverterCache.ApplyToType | flatworm-core/src/main/java/com/blackbear/flatworm/converters/ConverterFunctionCache.java:74-81 | the text converter of String gives the text, and those of Integer and Long give exactly their core conversion's value or failure |
| ConverterCache.ApplyFromType | flatworm-core/src/main/java/com/blackbear/flatworm/converters/ConverterFunctionCache.java:90-97 | the String converter prints a string as itself, and those of Integer and Long give exactly their core conversion's text or failure |
| ConverterCache.ConverterFunctionCache.constructor | flatworm-core/src/main/java/com/blackbear/flatworm/converters/ConverterFunctionCache.java:48-64 | the static initializer registers exactly the seven built-in classes, String, Double, BigDecimal, Float, Long, Integer and Date, in both directions |
| ConverterCache.ConverterFunctionCache.RegisterToType | flatworm-core/src/main/java/com/blackbear/flatworm/converters/ConverterFunctionCache.java:105-107 | the function is registered under the class name, replacing any earlier one, and nothing else changes |
| ConverterCache.ConverterFunctionCache.RemoveToType | flatworm-core/src/main/java/com/blackbear/flatworm/converters/ConverterFunctionCache.java:114-116 | the function that was registered for the class, or null, comes back, and the class is no longer registered |
| ConverterCache.ConverterFunctionCache.RegisterFromType | flatworm-core/src/main/java/com/blackbear/flatworm/converters/ConverterFunctionCache.java:124-126 | the function is registered under the class name, replacing any earlier one, and nothing else changes |
| ConverterCache.ConverterFunctionCache.RemoveFromType | flatworm-core/src/main/java/com/blackbear/flatworm/converters/ConverterFunctionCache.java:133-135 | the function that was registered for the class, or null, comes back, and the class is no longer registered |
| ConverterCache.ConverterFunctionCache.FindToTypeConverter | flatworm-core/src/main/java/com/blackbear/flatworm/converters/ConverterFunctionCache.java:146-155 | the function found is the one under the exact class name when registered, otherwise one under a loadable supertype, and null only when there is none |
| ConverterCache.ConverterFunctionCache.FindFromTypeConverter | flatworm-core/src/main/java/com/blackbear/flatworm/converters/ConverterFunctionCache.java:166-174 | the same lookup rule in the object-to-text direction |
| ConverterCache.ConverterFunctionCache.ConvertFromString | flatworm-core/src/main/java/com/blackbear/flatworm/converters/ConverterFunctionCache.java:74-81 | with no function found for the class the result is null; otherwise it is what the function found makes of the text |
| ConverterCache.ConverterFunctionCache.ConvertToString | flatworm-core/src/main/java/com/blackbear/flatworm/converters/ConverterFunctionCache.java:90-97 | the function is looked up by the value's runtime class; with none found the result is null, otherwise it is what that function makes of the value |
| ConverterCache.FindKey | flatworm-core/src/main/java/com/blackbear/flatworm/converters/ConverterFunctionCache.java:183-198 | the exact class name when it is a key; otherwise some key that loads and is a supertype of the class, and none only when no key is |
| ConverterCache.RegisteredIsFound | flatworm-core/src/main/java/com/blackbear/flatworm/converters/ConverterFunctionCache.java:105-155 | after a function is registered for a class, the lookup for that class finds exactly that function, whatever else is registered |
| ConverterCache.UnregisteredIsNull | flatworm-core/src/main/java/com/blackbear/flatworm/converters/ConverterFunctionCache.java:183-198 | with no registration for the class or any loadable supertype, nothing is found |
| ConverterCache.SupertypeFallback | flatworm-core/src/main/java/com/blackbear/flatworm/converters/ConverterFunctionCache.java:189-196 | a class with no converter of its own is served by one registered for a loadable supertype |
| ConverterCache.RemoveTwice | flatworm-core/src/main/java/com/blackbear/flatworm/converters/ConverterFunctionCache.java:105-116 | removing a class's function twice gives it back the first time and null the second |
| ConverterCache.BuiltInsExact | flatworm-core/src/main/java/com/blackbear/flatworm/converters/ConverterFunctionCache.java:48-64 | each built-in class is converted by the function registered for that class itself |
| CoreConverters.SignedTextValue | flatworm-core/src/main/java/com/blackbear/flatworm/converters/CoreConverters.java:257-304 | a sign and decimal digits convert to their signed value when it fits the int or long range and to the conversion exception otherwise |
| CoreConverters.LeadingZerosExample | flatworm-core/src/main/java/com/blackbear/flatworm/converters/CoreConverters.java:257-269 | the text "007" converts to the int 7 |
| CoreConverters.PlusSignExample | flatworm-core/src/main/java/com/blackbear/flatworm/converters/CoreConverters.java:257-269 | the text "+5" converts to the int 5 |
| CoreConverters.NegativeLongExample | flatworm-core/src/main/java/com/blackbear/flatworm/converters/CoreConverters.java:292-304 | the text "-12" converts to the long -12 |
| FileCreators.VisitOrder | flatworm-core/src/main/java/com/blackbear/flatworm/FileCreator.java:235-236 | the options visited by `transformString` are keys of the field's options map, in the map's own iteration order whenever that order lists keys of the map |
| FileCreators.WrittenLength | flatworm-core/src/main/java/com/blackbear/flatworm/FileCreator.java:202-206 | the length `write` checks is present exactly when the element's length is set, and equals it (the source's `int` compared with null read as "unset") |
| FileCreators.PropertyText | flatworm-core/src/main/java/com/blackbear/flatworm/FileCreator.java:213-246 | a bean reference without a dot ends in the conversion-failure configuration exception, and every failure (missing or null bean, getter, converter) is that exception |
| FileCreators.FieldValue | flatworm-core/src/main/java/com/blackbear/flatworm/FileCreator.java:202-237 | an element without a field length throws the length-unknown configuration exception before anything else, and a value is only produced for an element with a length |
| FileCreators.ElementText | flatworm-core/src/main/java/com/blackbear/flatworm/FileCreator.java:238-246 | a field's failure is the element's failure; a field followed by another element adds its value (null printed as "null") and the delimiter; the last field adds its non-null value alone |
| FileCreators.ElementsStep | flatworm-core/src/main/java/com/blackbear/flatworm/FileCreator.java:195-248 | after elements written without failure, a segment element adds nothing, a field adds its text, and a failing field records its exception and adds nothing |
| FileCreators.LinesStep | flatworm-core/src/main/java/com/blackbear/flatworm/FileCreator.java:176-254 | after lines written without failure, the next line adds its text and its failure |
| FileCreators.ElementsFailureSticks | flatworm-core/src/main/java/com/blackbear/flatworm/FileCreator.java:243-246 | once an element fails, writing more elements of the line changes nothing |
| FileCreators.LinesFailureSticks | flatworm-core/src/main/java/com/blackbear/flatworm/FileCreator.java:243-246 | once a line fails, writing more lines of the record changes nothing |
| FileCreators.JoinedStep | flatworm-core/src/main/java/com/blackbear/flatworm/FileCreator.java:238-241 | the first n-1 values joined with the delimiter after them, followed by the n-th value, are the first n values joined |
| FileCreators.JoinedPrefix | flatworm-core/src/main/java/com/blackbear/flatworm/FileCreator.java:238-241 | elements that each write their value and, unless last, the delimiter write the values joined by the delimiter, with one more delimiter while the line goes on |
| FileCreators.FieldValues | flatworm-core/src/main/java/com/blackbear/flatworm/FileCreator.java:210-237 | a line of non-null fields has one written value per element |
| FileCreators.DelimitedLine | flatworm-core/src/main/java/com/blackbear/flatworm/FileCreator.java:194-248 | a line of non-null fields is written as its values joined by the delimiter: a delimiter between each two and none after the last |
| FileCreators.FieldFitsLength | flatworm-core/src/main/java/com/blackbear/flatworm/FileCreator.java:235-236 | a value written for a field with a positive length is never longer than that length |
| FileCreators.IdentifiersOnFirstLine | flatworm-core/src/main/java/com/blackbear/flatworm/FileCreator.java:184-253 | the identifier strings, each followed by the line's delimiter, head the record's first line, and every later line is written as if it were not first |
| FileCreators.SeparatorAfterLine | flatworm-core/src/main/java/com/blackbear/flatworm/FileCreator.java:250-251 | a line written without failure is its identifiers (first line only), its elements and then the record separator, or nothing more when there is no separator |
| FileCreators.FileCreator.constructor | flatworm-core/src/main/java/com/blackbear/flatworm/FileCreator.java:70-92 | a new writer holds the loaded file format, no beans, no record separator and nothing written |
| FileCreators.FileCreator.SetBean | flatworm-core/src/main/java/com/blackbear/flatworm/FileCreator.java:138-140 | the bean under the name is replaced and the other beans stay |
| FileCreators.FileCreator.SetRecordSeparator | flatworm-core/src/main/java/com/blackbear/flatworm/FileCreator.java:147-149 | the record separator becomes the given one, possibly null |
| FileCreators.FileCreator.WriteIdents | flatworm-core/src/main/java/com/blackbear/flatworm/FileCreator.java:187-191 | appends each identifier string followed by the delimiter, in order |
| FileCreators.FileCreator.WriteElements | flatworm-core/src/main/java/com/blackbear/flatworm/FileCreator.java:194-248 | appends the line's element texts in order up to the first failure, and returns that failure |
| FileCreators.FileCreator.WriteLine | flatworm-core/src/main/java/com/blackbear/flatworm/FileCreator.java:177-253 | appends one line as the line specification gives it (identifiers when first, elements, separator after a line without failure) and returns its failure |
| FileCreators.FileCreator.WriteLines | flatworm-core/src/main/java/com/blackbear/flatworm/FileCreator.java:175-254 | appends the record's lines in order up to the first failing line, which is returned; what was written before it stays |
| FileCreators.FileCreator.Write | flatworm-core/src/main/java/com/blackbear/flatworm/FileCreator.java:168-256 | an unknown record name throws a null-pointer exception with nothing written; otherwise the record's lines are written as specified and the first failure is thrown |
| ConfigValidation.ErrorList.constructor | flatworm-core/src/main/java/com/blackbear/flatworm/config/ConfigurationValidator.java:45 | a new message list is empty |
| ConfigValidation.ErrorList.Add | flatworm-core/src/main/java/com/blackbear/flatworm/config/ConfigurationValidator.java:63 | adding a message appends it at the end and keeps every earlier one |
| ConfigValidation.ErrorList.Messages | flatworm-core/src/main/java/com/blackbear/flatworm/config/ConfigurationValidator.java:44-53 | the list's strings are the wording of each message, in order |
| ConfigValidation.OptionParts | flatworm-core/src/main/java/com/blackbear/flatworm/config/ConfigurationValidator.java:333-335 | one group of messages per visited option key |
| ConfigValidation.ElementParts | flatworm-core/src/main/java/com/blackbear/flatworm/config/ConfigurationValidator.java:259-263 | one group of messages per line element, empty for a segment element |
| ConfigValidation.SegmentParts | flatworm-core/src/main/java/com/blackbear/flatworm/config/ConfigurationValidator.java:265-269 | one group of messages per line element, empty for a record element |
| ConfigValidation.BeanParts | flatworm-core/src/main/java/com/blackbear/flatworm/config/ConfigurationValidator.java:207 | one group of messages per visited bean key |
| ConfigValidation.LineParts | flatworm-core/src/main/java/com/blackbear/flatworm/config/ConfigurationValidator.java:214 | one group of messages per sequential line |
| ConfigValidation.ConverterParts | flatworm-core/src/main/java/com/blackbear/flatworm/config/ConfigurationValidator.java:47-48 | one group of messages per visited converter key |
| ConfigValidation.RecordParts | flatworm-core/src/main/java/com/blackbear/flatworm/config/ConfigurationValidator.java:50 | one group of messages per record |
| ConfigValidation.LengthIdentityRule | flatworm-core/src/main/java/com/blackbear/flatworm/config/ConfigurationValidator.java:142-151 | a length identity reports a missing minimum exactly when it has none, likewise the maximum, and is silent exactly when both bounds are set |
| ConfigValidation.FieldIdentityRule | flatworm-core/src/main/java/com/blackbear/flatworm/config/ConfigurationValidator.java:159-172 | a field identity reports a missing start, a missing length and no match strings each exactly when that holds, and is silent exactly when none holds |
| ConfigValidation.ScriptletRule | flatworm-core/src/main/java/com/blackbear/flatworm/config/ConfigurationValidator.java:190-194 | a script identity is silent exactly when it has a script or a script file, and otherwise reports the one missing-script message |
| ConfigValidation.IdentityRule | flatworm-core/src/main/java/com/blackbear/flatworm/config/ConfigurationValidator.java:125-134 | no identity gives no message; each kind is checked by its own rule; a silent identity has every setting its matching needs |
| ConfigValidation.CardinalityRule | flatworm-core/src/main/java/com/blackbear/flatworm/config/ConfigurationValidator.java:294-309 | no cardinality reports the mode message only; otherwise the mode, bean reference and property-or-add-method messages each appear exactly when that part is missing |
| ConfigValidation.SegmentRule | flatworm-core/src/main/java/com/blackbear/flatworm/config/ConfigurationValidator.java:278-287 | a segment reports a missing field identity exactly when it has none, and is silent exactly when its identity and cardinality are; it never gives a record-element message |
| ConfigValidation.SegmentMarker | flatworm-core/src/main/java/com/blackbear/flatworm/config/ConfigurationValidator.java:279-284 | the missing-identity message of a segment appears exactly when it has no field identity |
| ConfigValidation.SegmentClean | flatworm-core/src/main/java/com/blackbear/flatworm/config/ConfigurationValidator.java:278-287 | a segment is silent exactly when it has a field identity and both it and the cardinality are silent |
| ConfigValidation.SegmentProblemKinds | flatworm-core/src/main/java/com/blackbear/flatworm/config/ConfigurationValidator.java:278-287 | a segment's messages are segment or identity messages and never record-element ones |
| ConfigValidation.OptionRule | flatworm-core/src/main/java/com/blackbear/flatworm/config/ConfigurationValidator.java:345-352 | a conversion option reports a blank name and a blank value each exactly when that holds, and nothing else |
| ConfigValidation.ElementHeadRule | flatworm-core/src/main/java/com/blackbear/flatworm/config/ConfigurationValidator.java:319-331 | a record element reports a missing bean reference exactly when its cardinality has none, and, only on a line without a delimiter, neither or both of end and length |
| ConfigValidation.LineHeadRule | flatworm-core/src/main/java/com/blackbear/flatworm/config/ConfigurationValidator.java:245-257 | a line with an identity reports an index other than -1; a line without one reports a record-end flag set to true; a silent head leaves the identity silent |
| ConfigValidation.BeanRule | flatworm-core/src/main/java/com/blackbear/flatworm/config/ConfigurationValidator.java:224-235 | a bean reports a blank name and a blank class each exactly when that holds |
| ConfigValidation.ConverterRule | flatworm-core/src/main/java/com/blackbear/flatworm/config/ConfigurationValidator.java:76-117 | a converter is silent exactly when it has a name, a class and a return type that load, and a method the class has; a method is never reported missing on a class that did not load |
| ConfigValidation.FlattenAll | flatworm-core/src/main/java/com/blackbear/flatworm/config/ConfigurationValidator.java:44-53 | a property every group's messages have holds of all messages |
| ConfigValidation.OptionKinds | flatworm-core/src/main/java/com/blackbear/flatworm/config/ConfigurationValidator.java:333-335 | the options pass gives only option messages |
| ConfigValidation.ElementKinds | flatworm-core/src/main/java/com/blackbear/flatworm/config/ConfigurationValidator.java:259-263 | the record-element pass gives only record-element messages |
| ConfigValidation.SegmentKinds | flatworm-core/src/main/java/com/blackbear/flatworm/config/ConfigurationValidator.java:265-269 | the segment pass gives only segment or identity messages |
| ConfigValidation.LineKinds | flatworm-core/src/main/java/com/blackbear/flatworm/config/ConfigurationValidator.java:243-270 | a line's messages all come from the line rules |
| ConfigValidation.BeansPartRule | flatworm-core/src/main/java/com/blackbear/flatworm/config/ConfigurationValidator.java:203-208 | the beans pass reports missing beans exactly when the bean map is empty, and otherwise only bean messages |
| ConfigValidation.LinesPartRule | flatworm-core/src/main/java/com/blackbear/flatworm/config/ConfigurationValidator.java:210-215 | the lines pass reports missing lines exactly when both line lists are empty, and otherwise only line messages |
| ConfigValidation.DefinitionKinds | flatworm-core/src/main/java/com/blackbear/flatworm/config/ConfigurationValidator.java:202-216 | a definition's messages are all definition messages |
| ConfigValidation.DefinitionMarkers | flatworm-core/src/main/java/com/blackbear/flatworm/config/ConfigurationValidator.java:202-216 | a definition reports missing beans exactly when it has no bean, and missing lines exactly when it has no line of either kind |
| ConfigValidation.BeansMarker | flatworm-core/src/main/java/com/blackbear/flatworm/config/ConfigurationValidator.java:203-205 | a definition reports missing beans exactly when it has no bean |
| ConfigValidation.LinesMarker | flatworm-core/src/main/java/com/blackbear/flatworm/config/ConfigurationValidator.java:210-212 | a definition reports missing lines exactly when it has no line of either kind |
| ConfigValidation.RecordNameRule | flatworm-core/src/main/java/com/blackbear/flatworm/config/ConfigurationValidator.java:61-68 | a record reports a missing name exactly when its name is blank |
| ConfigValidation.NameNotInDefinition | flatworm-core/src/main/java/com/blackbear/flatworm/config/ConfigurationValidator.java:202-216 | a definition never reports the record-name message |
| ConfigValidation.RecordElementsBeforeSegments | flatworm-core/src/main/java/com/blackbear/flatworm/config/ConfigurationValidator.java:259-269 | within a line's messages every record-element message comes before every segment message |
| ConfigValidation.RecordNotConverter | flatworm-core/src/main/java/com/blackbear/flatworm/config/ConfigurationValidator.java:61-117 | no record message is a converter message |
| ConfigValidation.RecordKinds | flatworm-core/src/main/java/com/blackbear/flatworm/config/ConfigurationValidator.java:61-68 | a record's messages are all record messages |
| ConfigValidation.ConverterPartsKinds | flatworm-core/src/main/java/com/blackbear/flatworm/config/ConfigurationValidator.java:47-48 | the converter pass gives only converter messages |
| ConfigValidation.RecordPartsKinds | flatworm-core/src/main/java/com/blackbear/flatworm/config/ConfigurationValidator.java:50 | the record pass gives no converter message |
| ConfigValidation.ConvertersFirst | flatworm-core/src/main/java/com/blackbear/flatworm/config/ConfigurationValidator.java:44-53 | in a file format's report every converter message comes before every other message |
| ConfigValidation.OptionsClean | flatworm-core/src/main/java/com/blackbear/flatworm/config/ConfigurationValidator.java:333-335 | with every option visited, the options pass is silent exactly when every option has a name and a value, whatever the visiting order |
| ConfigValidation.CleanLineConfigured | flatworm-core/src/main/java/com/blackbear/flatworm/config/ConfigurationValidator.java:245-247 | a silent line's identity has every setting its matching needs |
| ConfigValidation.CleanBeans | flatworm-core/src/main/java/com/blackbear/flatworm/config/ConfigurationValidator.java:203-235 | silent beans are at least one, each with a name and a class |
| ConfigValidation.CleanLines | flatworm-core/src/main/java/com/blackbear/flatworm/config/ConfigurationValidator.java:210-251 | silent lines are at least one of either kind, and each sequential line's identity is fully configured |
| ConfigValidation.CleanRecord | flatworm-core/src/main/java/com/blackbear/flatworm/config/ConfigurationValidator.java:61-68 | a silent record has a name, at least one bean each with a name and a class, a configured identity, configured line identities and at least one line |
| ConfigValidation.CleanFileFormat | flatworm-core/src/main/java/com/blackbear/flatworm/config/ConfigurationValidator.java:44-53 | a silent file format has only converters whose class and return type load and whose class has the method, and only silent records |
| ConfigValidation.CleanElementPositioned | flatworm-core/src/main/java/com/blackbear/flatworm/config/ConfigurationValidator.java:318-331 | a checked, silent record element has a bean reference and, on a line without a delimiter, exactly one of an end and a length |
| ConfigValidation.OptionPartsSnoc | flatworm-core/src/main/java/com/blackbear/flatworm/config/ConfigurationValidator.java:333-335 | visiting one more option appends that option's messages |
| ConfigValidation.BeanPartsSnoc | flatworm-core/src/main/java/com/blackbear/flatworm/config/ConfigurationValidator.java:207 | visiting one more bean appends that bean's messages |
| ConfigValidation.ConverterPartsSnoc | flatworm-core/src/main/java/com/blackbear/flatworm/config/ConfigurationValidator.java:47-48 | visiting one more converter appends that converter's messages |
| ConfigValidation.ElementPartsSnoc | flatworm-core/src/main/java/com/blackbear/flatworm/config/ConfigurationValidator.java:259-263 | one more line element appends its record-element messages, or nothing for a segment |
| ConfigValidation.SegmentPartsSnoc | flatworm-core/src/main/java/com/blackbear/flatworm/config/ConfigurationValidator.java:265-269 | one more line element appends its segment messages, or nothing for a record element |
| ConfigValidation.LinePartsSnoc | flatworm-core/src/main/java/com/blackbear/flatworm/config/ConfigurationValidator.java:214 | one more line appends that line's messages |
| ConfigValidation.RecordPartsSnoc | flatworm-core/src/main/java/com/blackbear/flatworm/config/ConfigurationValidator.java:50 | one more record appends that record's messages |
| ConfigValidation.BeanFieldsOf | flatworm-core/src/main/java/com/blackbear/flatworm/config/ConfigurationValidator.java:224-235 | the bean fields the checks read have the same keys as the bean map, with each bean's name and class |
| ConfigValidation.ValidateLengthIdentity | flatworm-core/src/main/java/com/blackbear/flatworm/config/ConfigurationValidator.java:142-151 | appends the length-identity messages |
| ConfigValidation.ValidateFieldIdentity | flatworm-core/src/main/java/com/blackbear/flatworm/config/ConfigurationValidator.java:159-172 | appends the field-identity messages |
| ConfigValidation.ValidateScriptlet | flatworm-core/src/main/java/com/blackbear/flatworm/config/ConfigurationValidator.java:180-194 | appends the script-identity message when both script and script file are blank |
| ConfigValidation.ValidateIdentity | flatworm-core/src/main/java/com/blackbear/flatworm/config/ConfigurationValidator.java:125-134 | appends the messages of the identity's own kind, or nothing for no identity |
| ConfigValidation.ValidateCardinality | flatworm-core/src/main/java/com/blackbear/flatworm/config/ConfigurationValidator.java:294-309 | appends the cardinality messages |
| ConfigValidation.ValidateSegmentElement | flatworm-core/src/main/java/com/blackbear/flatworm/config/ConfigurationValidator.java:278-287 | appends the segment's identity messages (or the missing-identity one), then its cardinality messages |
| ConfigValidation.ValidateConversionOption | flatworm-core/src/main/java/com/blackbear/flatworm/config/ConfigurationValidator.java:345-352 | appends the option messages |
| ConfigValidation.ValidateElementHead | flatworm-core/src/main/java/com/blackbear/flatworm/config/ConfigurationValidator.java:319-331 | appends the element's bean-reference and position messages |
| ConfigValidation.ValidateRecordElement | flatworm-core/src/main/java/com/blackbear/flatworm/config/ConfigurationValidator.java:318-337 | appends nothing for an ignored element, otherwise its head messages and then every option's messages, over the whole options map in the order visited |
| ConfigValidation.ValidateLineHead | flatworm-core/src/main/java/com/blackbear/flatworm/config/ConfigurationValidator.java:245-257 | appends the line's identity and index messages, or its record-end message |
| ConfigValidation.ValidateRecordElements | flatworm-core/src/main/java/com/blackbear/flatworm/config/ConfigurationValidator.java:259-263 | appends the messages of every record element of the line, in order |
| ConfigValidation.ValidateSegmentElements | flatworm-core/src/main/java/com/blackbear/flatworm/config/ConfigurationValidator.java:265-269 | appends the messages of every segment element of the line, in order |
| ConfigValidation.ValidateLine | flatworm-core/src/main/java/com/blackbear/flatworm/config/ConfigurationValidator.java:243-270 | appends the line's head messages, then its record-element pass, then its segment pass |
| ConfigValidation.ValidateBean | flatworm-core/src/main/java/com/blackbear/flatworm/config/ConfigurationValidator.java:224-235 | appends the bean messages |
| ConfigValidation.ValidateBeans | flatworm-core/src/main/java/com/blackbear/flatworm/config/ConfigurationValidator.java:203-208 | appends the missing-beans message for an empty map, otherwise every bean's messages over the whole map |
| ConfigValidation.ValidateLines | flatworm-core/src/main/java/com/blackbear/flatworm/config/ConfigurationValidator.java:210-215 | appends the missing-lines message when both line lists are empty, otherwise every sequential line's messages |
| ConfigValidation.ValidateRecordDefinition | flatworm-core/src/main/java/com/blackbear/flatworm/config/ConfigurationValidator.java:202-216 | appends the bean messages, then the line messages |
| ConfigValidation.ValidateRecord | flatworm-core/src/main/java/com/blackbear/flatworm/config/ConfigurationValidator.java:61-68 | appends the messages of the record as read on entry |
| ConfigValidation.CheckRecord | flatworm-core/src/main/java/com/blackbear/flatworm/config/ConfigurationValidator.java:61-68 | appends the name message, then the identity messages, then the definition messages |
| ConfigValidation.ValidateConverter | flatworm-core/src/main/java/com/blackbear/flatworm/config/ConfigurationValidator.java:76-117 | appends the converter messages, with the class name and converter name in the order the source formats them |
| ConfigValidation.ValidateFileFormat | flatworm-core/src/main/java/com/blackbear/flatworm/config/ConfigurationValidator.java:44-53 | returns a new list holding every converter's messages, then every record's |
| ConfigValidation.Report | flatworm-core/src/main/java/com/blackbear/flatworm/config/ConfigurationValidator.java:45-52 | a new list receives the converter pass and then the record pass |
| ConfigValidation.ReadShapes | flatworm-core/src/main/java/com/blackbear/flatworm/config/ConfigurationValidator.java:50 | reads each record's checked parts, one per record, in order |
| ConfigValidation.ValidateConverters | flatworm-core/src/main/java/com/blackbear/flatworm/config/ConfigurationValidator.java:47-48 | appends every converter's messages over the whole converter map in the order visited |
| ConfigValidation.CheckRecords | flatworm-core/src/main/java/com/blackbear/flatworm/config/ConfigurationValidator.java:50 | appends every record's messages, in order |
| Dom.FirstWhere | flatworm-core/src/main/java/com/blackbear/flatworm/config/impl/DefaultConfigurationReaderImpl.java:176-189 | a child found is one of the children and matches |
| Dom.LastWhere | flatworm-core/src/main/java/com/blackbear/flatworm/config/impl/DefaultConfigurationReaderImpl.java:217-229 | a child found is one of the children and matches |
| Dom.FirstNamed | flatworm-core/src/main/java/com/blackbear/flatworm/config/impl/DefaultConfigurationReaderImpl.java:176-189 | the element found by name is one of the children |
| Dom.FirstWhereRule | flatworm-core/src/main/java/com/blackbear/flatworm/config/impl/DefaultConfigurationReaderImpl.java:176-189 | nothing is found exactly when no child matches; otherwise the child found matches and no child before it does |
| Dom.LastWhereRule | flatworm-core/src/main/java/com/blackbear/flatworm/config/impl/DefaultConfigurationReaderImpl.java:217-229 | nothing is found exactly when no child matches; otherwise the child found matches and no child after it does |
| Dom.AllWhereAppend | flatworm-core/src/main/java/com/blackbear/flatworm/config/impl/DefaultConfigurationReaderImpl.java:198-209 | the matches of two runs of children are the matches of each, in document order |
| Dom.AllWhereMember | flatworm-core/src/main/java/com/blackbear/flatworm/config/impl/DefaultConfigurationReaderImpl.java:198-209 | a node is among the matches exactly when it is a child that matches |
| Dom.TextChildrenDisagree | flatworm-core/src/main/java/com/blackbear/flatworm/config/impl/DefaultConfigurationReaderImpl.java:217-229 | with two different text children the legacy reader reads the first and the newer readers read the last |
| Dom.CDataIsTrimmed | flatworm-core/src/main/java/com/blackbear/flatworm/config/impl/DefaultConfigurationReaderImpl.java:217-254 | the CDATA helper trims its data and the text helper does not |
| Dom.CollectedLength | flatworm-core/src/main/java/com/blackbear/flatworm/config/impl/DefaultConfigurationReaderImpl.java:155-167 | one object is collected per child whose outcome is an object |
| Dom.CollectedAt | flatworm-core/src/main/java/com/blackbear/flatworm/config/impl/DefaultConfigurationReaderImpl.java:155-167 | the j-th object collected is what the j-th object-giving child gave |
| Dom.KeptRises | flatworm-core/src/main/java/com/blackbear/flatworm/config/impl/DefaultConfigurationReaderImpl.java:155-167 | the positions of the object-giving children lie among the children and rise |
| Dom.KeptComplete | flatworm-core/src/main/java/com/blackbear/flatworm/config/impl/DefaultConfigurationReaderImpl.java:155-167 | every child that gives an object has its position kept |
| Dom.CollectedKeepsOrder | flatworm-core/src/main/java/com/blackbear/flatworm/config/impl/DefaultConfigurationReaderImpl.java:155-167 | the objects collected are those the children gave, in document order, none left out and null outcomes dropped |
| Dom.ChildElementNamed | flatworm-core/src/main/java/com/blackbear/flatworm/config/impl/DefaultConfigurationReaderImpl.java:176-189 | returns the first element child of the name, or null |
| Dom.ChildElementsOfType | flatworm-core/src/main/java/com/blackbear/flatworm/config/impl/DefaultConfigurationReaderImpl.java:198-209 | returns every element child of the name, in order |
| Dom.FirstChildText | flatworm-core/src/main/java/com/blackbear/flatworm/ConfigurationReader.java:157-167 | returns the value of the first text child, or null |
| Dom.LastChildText | flatworm-core/src/main/java/com/blackbear/flatworm/config/impl/DefaultConfigurationReaderImpl.java:217-229 | returns the value of the last text child, or null |
| Dom.ChildCData | flatworm-core/src/main/java/com/blackbear/flatworm/config/impl/DefaultConfigurationReaderImpl.java:238-254 | returns the trimmed data of the first CDATA child, or null |
| ConfigReaderImpl.GetChildNodes | flatworm-core/src/main/java/com/blackbear/flatworm/config/impl/DefaultConfigurationReaderImpl.java:155-167 | the loop gives what the walk over the children gives: the first failure, or the objects of the children in order with nulls dropped |
| ConfigReaderImpl.LoadConfigurationFile | flatworm-core/src/main/java/com/blackbear/flatworm/config/impl/DefaultConfigurationReaderImpl.java:115-145 | the loop stops at the first top-level file-format element and gives what loading the document gives, the double-dip check included |
| ConfigReaderImpl.ReadConversionOptions | flatworm-core/src/main/java/com/blackbear/flatworm/config/impl/DefaultConfigurationReaderImpl.java:724-732 | the element's options become the old ones with every conversion-option child added in order, and nothing else of the element changes |
| ConfigReaderImpl.SetPositions | flatworm-core/src/main/java/com/blackbear/flatworm/config/impl/DefaultConfigurationReaderImpl.java:671-689 | start, end and length are each set from their attribute only when it is present, parsed leniently, and are otherwise left as they were |
| ConfigReaderImpl.BuildRecordElement | flatworm-core/src/main/java/com/blackbear/flatworm/config/impl/DefaultConfigurationReaderImpl.java:668-716 | a fresh record element is built whose state is the record element read from the node |
| ConfigReaderImpl.TraverseNullRule | flatworm-core/src/main/java/com/blackbear/flatworm/config/impl/DefaultConfigurationReaderImpl.java:297-350 | traverse gives null exactly for a node that is not an element or is an element of a name it does not know |
| ConfigReaderImpl.OutcomesLength | flatworm-core/src/main/java/com/blackbear/flatworm/config/impl/DefaultConfigurationReaderImpl.java:155-167 | one traversal outcome per remaining child |
| ConfigReaderImpl.OutcomesAt | flatworm-core/src/main/java/com/blackbear/flatworm/config/impl/DefaultConfigurationReaderImpl.java:155-167 | the k-th outcome is the traversal of the matching child |
| ConfigReaderImpl.ChildNodesCollected | flatworm-core/src/main/java/com/blackbear/flatworm/config/impl/DefaultConfigurationReaderImpl.java:155-167 | the walk over the children collects the objects of their traversal outcomes |
| ConfigReaderImpl.ChildNodesStep | flatworm-core/src/main/java/com/blackbear/flatworm/config/impl/DefaultConfigurationReaderImpl.java:155-167 | one step of the walk: a failing child ends it with its exception, and otherwise its object, if any, comes before the rest |
| ConfigReaderImpl.ChildNodesSucceed | flatworm-core/src/main/java/com/blackbear/flatworm/config/impl/DefaultConfigurationReaderImpl.java:155-167 | the walk succeeds exactly when every child traverses without an exception |
| ConfigReaderImpl.ChildNodesFirstFailure | flatworm-core/src/main/java/com/blackbear/flatworm/config/impl/DefaultConfigurationReaderImpl.java:155-167 | a failing walk fails with the exception of the first child that fails, every child before it having traversed |
| ConfigReaderImpl.IdentityPrecedence | flatworm-core/src/main/java/com/blackbear/flatworm/config/impl/DefaultConfigurationReaderImpl.java:403-418 | the record identity is of the first kind, in the order length, field, script, found under record-ident; with no record-ident or none of the kinds there is none; a length identity never fails |
| ConfigReaderImpl.PreferredKinds | flatworm-core/src/main/java/com/blackbear/flatworm/config/impl/DefaultConfigurationReaderImpl.java:408-417 | the preferred identity kind is length if present, else field, else script, else none |
| ConfigReaderImpl.ScriptletPrecedence | flatworm-core/src/main/java/com/blackbear/flatworm/config/impl/DefaultConfigurationReaderImpl.java:508-529 | the script is the last text child when not blank, else the first CDATA child when not blank, else the named script file's contents; a blank engine or method name takes its default |
| ConfigReaderImpl.CardinalityModeRule | flatworm-core/src/main/java/com/blackbear/flatworm/config/impl/DefaultConfigurationReaderImpl.java:632-659 | the cardinality mode ignores case, is never AUTO_RESOLVE, and is LOOSE when absent or blank |
| ConfigReaderImpl.CardinalityModeExamples | flatworm-core/src/main/java/com/blackbear/flatworm/config/impl/DefaultConfigurationReaderImpl.java:645-654 | "strict" reads as STRICT, while "restrict" matches none of the prefixes tested and stays LOOSE |
| ConfigReaderImpl.BeanRefSplit | flatworm-core/src/main/java/com/blackbear/flatworm/config/impl/DefaultConfigurationReaderImpl.java:694-699 | a dotted bean reference splits at its last dot into a bean and a dot-free property that rejoin to the reference; a reference without a dot is kept whole |
| ConfigReaderImpl.BeanRefExample | flatworm-core/src/main/java/com/blackbear/flatworm/config/impl/DefaultConfigurationReaderImpl.java:694-699 | "a.b.c" becomes bean "a.b" and property "c" |
| ConfigReaderImpl.RecordElementBeanRef | flatworm-core/src/main/java/com/blackbear/flatworm/config/impl/DefaultConfigurationReaderImpl.java:690-700 | a record element with a beanref attribute has a SINGLE cardinality whose reference is the attribute split at its last dot; without one it has no cardinality |
| ConfigReaderImpl.LastOptionIndex | flatworm-core/src/main/java/com/blackbear/flatworm/config/impl/DefaultConfigurationReaderImpl.java:724-732 | the index found lies within the conversion-option children, or is -1 |
| ConfigReaderImpl.OptionsLastWins | flatworm-core/src/main/java/com/blackbear/flatworm/config/impl/DefaultConfigurationReaderImpl.java:724-732 | a key holds the option of the last child of that name; a key no child names keeps what it held before |
| ConfigReaderImpl.MatchStringsRule | flatworm-core/src/main/java/com/blackbear/flatworm/config/impl/DefaultConfigurationReaderImpl.java:452-465 | reading the match strings fails with a null pointer error exactly when the identity ignores case and some match-string child has no text |
| ConfigReaderImpl.MatchStringsValues | flatworm-core/src/main/java/com/blackbear/flatworm/config/impl/DefaultConfigurationReaderImpl.java:461-462 | otherwise the matching strings are exactly the case-folded texts of the match-string children that have text; a child without text is dropped, where the source adds null |
| ConfigReaderImpl.LoadFailsAsConfiguration | flatworm-core/src/main/java/com/blackbear/flatworm/config/impl/DefaultConfigurationReaderImpl.java:141-143 | every failure of loading is a configuration exception |
| ConfigReaderImpl.LoadRejectsInvalid | flatworm-core/src/main/java/com/blackbear/flatworm/config/impl/DefaultConfigurationReaderImpl.java:303-311 | a file format that does not validate is refused with one message that contains every validation error |
| ConfigReaderImpl.LoadRejectsDoubleDip | flatworm-core/src/main/java/com/blackbear/flatworm/config/impl/DefaultConfigurationReaderImpl.java:134-140 | a valid file format with a default record and ignore-unmapped-records set is refused |
| ConfigReaderImpl.LoadAccepts | flatworm-core/src/main/java/com/blackbear/flatworm/config/impl/DefaultConfigurationReaderImpl.java:115-145 | a document without a top-level file-format loads as null; what loads is the first file-format element read, valid, and not both defaulted and ignoring unmapped records |
| ConfigReaderImpl.TraversedElementsUnordered | flatworm-core/src/main/java/com/blackbear/flatworm/config/impl/DefaultConfigurationReaderImpl.java:668-716 | the line elements the reader makes carry no order of their own |
| ConfigReaderImpl.LineElementsNumbered | flatworm-core/src/main/java/com/blackbear/flatworm/config/impl/DefaultConfigurationReaderImpl.java:592-596 | elements without an order are numbered 1, 2, ... as the line adds them |
| ConfigReaderImpl.ChildElementsUnordered | flatworm-core/src/main/java/com/blackbear/flatworm/config/impl/DefaultConfigurationReaderImpl.java:155-167 | no element collected from the children carries an order |
| ConfigReaderImpl.ReadLineNumbersElements | flatworm-core/src/main/java/com/blackbear/flatworm/config/impl/DefaultConfigurationReaderImpl.java:578-599 | the elements of a line read from the configuration are numbered 1, 2, ... in document order |
| ConfigReaderImpl.Traverse | flatworm-core/src/main/java/com/blackbear/flatworm/config/impl/DefaultConfigurationReaderImpl.java:297-350 | the dispatch on the element name; stated by TraverseNullRule and TraversedElementsUnordered |
| ConfigReaderImpl.ReadRecord | flatworm-core/src/main/java/com/blackbear/flatworm/config/impl/DefaultConfigurationReaderImpl.java:403-431 | the record branch; its identity is stated by IdentityPrecedence |
| ConfigReaderImpl.ReadLine | flatworm-core/src/main/java/com/blackbear/flatworm/config/impl/DefaultConfigurationReaderImpl.java:578-599 | the line branch; stated by ReadLineNumbersElements |
| ConfigReaderImpl.ReadSegmentElement | flatworm-core/src/main/java/com/blackbear/flatworm/config/impl/DefaultConfigurationReaderImpl.java:608-631 | the segment branch; its cardinality mode is stated by CardinalityModeRule |
| LegacyConfigReader.Unboxed | flatworm-core/src/main/java/com/blackbear/flatworm/ConfigurationReader.java:248-253 | an Integer passed to an int setter throws a null-pointer exception exactly when it is null, and otherwise passes its value |
| LegacyConfigReader.ReadRecordIdent | flatworm-core/src/main/java/com/blackbear/flatworm/ConfigurationReader.java:242-267 | the record's identity settings become those the record-ident child gives (length before field before script), or the read fails with that exception; name, beans and lines stay |
| LegacyConfigReader.ApplyLengthIdent | flatworm-core/src/main/java/com/blackbear/flatworm/ConfigurationReader.java:247-250 | sets both length bounds and the flag 'L', failing on a bound that is missing or not a number |
| LegacyConfigReader.ApplyFieldIdent | flatworm-core/src/main/java/com/blackbear/flatworm/ConfigurationReader.java:251-257 | sets start, length and the flag 'F' and appends the match-string texts, failing on a start or length that is missing or not a number |
| LegacyConfigReader.MatchTexts | flatworm-core/src/main/java/com/blackbear/flatworm/ConfigurationReader.java:256-257 | collects the first text of each match-string child, in order; the model drops a child without text, where the source adds null |
| LegacyConfigReader.ApplyScriptIdent | flatworm-core/src/main/java/com/blackbear/flatworm/ConfigurationReader.java:258-266 | sets the script from the first CDATA child and the flag 'S', failing with a parser exception when an engine rejects a non-blank script |
| LegacyConfigReader.ValidateSegmentConfiguration | flatworm-core/src/main/java/com/blackbear/flatworm/ConfigurationReader.java:399-416 | succeeds exactly when no setting is missing, and otherwise throws one exception holding each missing setting's message in order |
| LegacyConfigReader.BuildRecordElement | flatworm-core/src/main/java/com/blackbear/flatworm/ConfigurationReader.java:357-394 | refuses an element with neither or both of end and length, and otherwise builds a fresh record element holding what the node gives |
| LegacyConfigReader.SetPositions | flatworm-core/src/main/java/com/blackbear/flatworm/ConfigurationReader.java:371-379 | start, end and length are each set only when their attribute is present, and a present one that is not a number throws |
| LegacyConfigReader.AddConversionOptions | flatworm-core/src/main/java/com/blackbear/flatworm/ConfigurationReader.java:386-392 | the element's options become the old ones with every conversion-option child added in order, and nothing else changes |
| LegacyConfigReader.GetChildNodes | flatworm-core/src/main/java/com/blackbear/flatworm/ConfigurationReader.java:117-130 | the loop gives what the walk over the children gives: the first failure, or the objects in order with nulls dropped |
| LegacyConfigReader.LoadConfigurationFile | flatworm-core/src/main/java/com/blackbear/flatworm/ConfigurationReader.java:84-115 | the loop stops at the first top-level file-format element and gives what loading the document gives, the double-dip check included |
| LegacyConfigReader.TextsOfRule | flatworm-core/src/main/java/com/blackbear/flatworm/ConfigurationReader.java:256-257 | at most one match text per match-string child, each the first text of some child (children without text dropped, as in the model) |
| LegacyConfigReader.TextsOfAll | flatworm-core/src/main/java/com/blackbear/flatworm/ConfigurationReader.java:256-257 | when every match-string child has text, the match texts are exactly their first texts in document order |
| LegacyConfigReader.LengthIdentRecognises | flatworm-core/src/main/java/com/blackbear/flatworm/ConfigurationReader.java:247-250 | with a length-ident present, reading succeeds exactly when both bounds are numbers, and the record then recognises exactly the lines whose length lies between them |
| LegacyConfigReader.FieldIdentRecognises | flatworm-core/src/main/java/com/blackbear/flatworm/ConfigurationReader.java:251-257 | with a field-ident and no length-ident, the record takes the field's start and length and the match texts, and a long enough line is recognised exactly when a match string is at the field's place |
| LegacyConfigReader.ScriptIdentRule | flatworm-core/src/main/java/com/blackbear/flatworm/ConfigurationReader.java:258-266 | with only a script-ident, the read fails with a parser exception exactly when an engine rejects a non-blank CDATA script, and a blank script matches every line |
| LegacyConfigReader.DefaultRecordRule | flatworm-core/src/main/java/com/blackbear/flatworm/ConfigurationReader.java:240-267 | a record is a default record, taking every line, exactly when it has no record-ident or that holds none of the three kinds |
| LegacyConfigReader.SegmentModeRule | flatworm-core/src/main/java/com/blackbear/flatworm/ConfigurationReader.java:330-337 | the legacy segment mode is LOOSE when blank, is never AUTO_RESOLVE or SINGLE, and ignores case |
| LegacyConfigReader.SegmentModeExamples | flatworm-core/src/main/java/com/blackbear/flatworm/ConfigurationReader.java:330-337 | "restrict" is RESTRICTED here but LOOSE for the newer reader, and "STRICT" is STRICT |
| LegacyConfigReader.RestrictModeExample | flatworm-core/src/main/java/com/blackbear/flatworm/ConfigurationReader.java:334-335 | "restrict" reads as RESTRICTED |
| LegacyConfigReader.StrictModeExample | flatworm-core/src/main/java/com/blackbear/flatworm/ConfigurationReader.java:332-333 | "STRICT" reads as STRICT |
| LegacyConfigReader.SegmentValidationRule | flatworm-core/src/main/java/com/blackbear/flatworm/ConfigurationReader.java:399-416 | a segment passes exactly when it has a parent bean reference, a bean reference, a collection property or add method, and a match string; each missing setting's message is in the exception |
| LegacyConfigReader.ReadSegmentValidatesFirst | flatworm-core/src/main/java/com/blackbear/flatworm/ConfigurationReader.java:321-354 | an invalid segment is refused with its messages whatever its children; a segment read has what validation demands and a mode the legacy reader can give |
| LegacyConfigReader.EndLengthRule | flatworm-core/src/main/java/com/blackbear/flatworm/ConfigurationReader.java:357-379 | neither end nor length, and both, are refused each with its own message; an element read has an end exactly when end is given and a length exactly when length is |
| LegacyConfigReader.ElementOptionsLastWins | flatworm-core/src/main/java/com/blackbear/flatworm/ConfigurationReader.java:386-392 | an option of a record element is the last conversion-option child of its name, and only named keys are present |
| LegacyConfigReader.FormatOfOrder | flatworm-core/src/main/java/com/blackbear/flatworm/ConfigurationReader.java:213-224 | adding the children's objects keeps the encoding and the flag and appends converters and records in document order |
| LegacyConfigReader.FormatOfKeys | flatworm-core/src/main/java/com/blackbear/flatworm/ConfigurationReader.java:218-224 | a name is among the format's records exactly when it was there before or some record added has it |
| LegacyConfigReader.FormatOfLastWins | flatworm-core/src/main/java/com/blackbear/flatworm/ConfigurationReader.java:218-224 | the record kept under a name is the last added under it, or the earlier one when none was added |
| LegacyConfigReader.ShadowedDefault | flatworm-core/src/main/java/com/blackbear/flatworm/ConfigurationReader.java:104-110 | a default record followed by an identified record of the same name is no longer seen by the default-record check, yet stays in the matching order |
| LegacyConfigReader.LoadFailsAsParser | flatworm-core/src/main/java/com/blackbear/flatworm/ConfigurationReader.java:111-113 | every failure of loading leaves as a parser exception |
| LegacyConfigReader.LoadRejectsDoubleDip | flatworm-core/src/main/java/com/blackbear/flatworm/ConfigurationReader.java:104-110 | a file format with a default record and ignore-unmapped-records set is refused |
| LegacyConfigReader.LoadAccepts | flatworm-core/src/main/java/com/blackbear/flatworm/ConfigurationReader.java:84-115 | a document without a top-level file-format loads as null; what loads is the first file-format read and not both defaulted and ignoring unmapped records |
| LegacyConfigReader.ChildNodesStep | flatworm-core/src/main/java/com/blackbear/flatworm/ConfigurationReader.java:117-130 | one step of the walk: a failing child ends it, and otherwise its object, if any, comes before the rest |
| LegacyConfigReader.OutcomesAt | flatworm-core/src/main/java/com/blackbear/flatworm/ConfigurationReader.java:117-130 | one traversal outcome per remaining child, the k-th being the matching child's |
| LegacyConfigReader.ChildNodesCollected | flatworm-core/src/main/java/com/blackbear/flatworm/ConfigurationReader.java:117-130 | the walk over the children collects the objects of their traversal outcomes |
| LegacyConfigReader.ElementsOfRule | flatworm-core/src/main/java/com/blackbear/flatworm/ConfigurationReader.java:311-315 | the elements of a line or segment are exactly the element objects among its children's objects |
| LegacyConfigReader.Traverse | flatworm-core/src/main/java/com/blackbear/flatworm/ConfigurationReader.java:200-397 | the legacy dispatch on the element name; its child walk is stated by ChildNodesCollected and OutcomesAt |
| LegacyConfigReader.ReadSegment | flatworm-core/src/main/java/com/blackbear/flatworm/ConfigurationReader.java:321-354 | the segment branch; stated by ReadSegmentValidatesFirst |
| LegacyConfigReader.SegmentHeader | flatworm-core/src/main/java/com/blackbear/flatworm/ConfigurationReader.java:322-345 | the segment set up before validation; its mode is stated by SegmentModeRule |
| LegacyConfigReader.SegmentErrors | flatworm-core/src/main/java/com/blackbear/flatworm/ConfigurationReader.java:399-416 | the validation messages; stated by SegmentValidationRule |
| ConfigReader.SegmentElement.constructor | flatworm-core/src/main/java/com/blackbear/flatworm/config/SegmentElement.java:28-39 | a new segment has no bean reference, parent bean reference, add method or collection property, and a null cardinality mode |
| ConfigReader.ReadCardinalityMode | flatworm-core/src/main/java/com/blackbear/flatworm/config/impl/DefaultConfigurationReader.java:584-596 | the segment's mode becomes LOOSE for a blank or missing setting, STRICT or RESTRICTED for a setting whose lower case starts with strict or restrict, and is otherwise left as it was |
| ConfigReader.ReadRecordHead | flatworm-core/src/main/java/com/blackbear/flatworm/config/impl/DefaultConfigurationReader.java:401-416 | the record's name is the name attribute; the read fails exactly when the identity read fails, with that error; the identity is set only when the record-ident child yields one |
| ConfigReader.ReadFieldIdentity | flatworm-core/src/main/java/com/blackbear/flatworm/config/impl/DefaultConfigurationReader.java:445-455 | a new field identity whose start and length are those of the field-start and field-length attributes, and whose matching strings are the texts of the match-string children that have text (the model drops a child without text, where the source adds null) |
| ConfigReader.RecordElement.constructor | flatworm-core/src/main/java/com/blackbear/flatworm/config/impl/DefaultConfigurationReader.java:606 | a new record element has no positions, bean reference, converter name or ignore flag and no conversion options |
| ConfigReader.RecordElement.AddConversionOption | flatworm-core/src/main/java/com/blackbear/flatworm/config/impl/DefaultConfigurationReader.java:651 | the option is stored under its name, replacing an earlier one of that name, and every other option stays |
| ConfigReader.ReadRecordElement | flatworm-core/src/main/java/com/blackbear/flatworm/config/impl/DefaultConfigurationReader.java:605-637 | a new record element carrying exactly the settings its attributes and conversion-option children give |
| ConfigReader.ReadConversionOptions | flatworm-core/src/main/java/com/blackbear/flatworm/config/impl/DefaultConfigurationReader.java:645-653 | the element's options become the old ones with each conversion-option child added in document order |
| ConfigReader.LoadConfigurationFile | flatworm-core/src/main/java/com/blackbear/flatworm/config/impl/DefaultConfigurationReader.java:113-143 | the loop over the document's children gives the same result as the reference definition: the first top-level file-format element traversed, failures wrapped, and the double dip refused |
| ConfigReader.ModeRule | flatworm-core/src/main/java/com/blackbear/flatworm/config/impl/DefaultConfigurationReader.java:584-596 | a blank or missing mode is LOOSE; upper- or lower-casing the setting does not change the result; a known setting gives the legacy reader's mode and an unknown one keeps the segment's mode |
| ConfigReader.ModeExamples | flatworm-core/src/main/java/com/blackbear/flatworm/config/impl/DefaultConfigurationReader.java:587-595 | "loose" leaves a new segment's mode null although the legacy reader reads it as LOOSE, and "Restrict" is RESTRICTED |
| ConfigReader.IdentityPrecedence | flatworm-core/src/main/java/com/blackbear/flatworm/config/impl/DefaultConfigurationReader.java:404-416 | without record-ident, or with none of the three kinds under it, there is no identity; otherwise the identity is of the first of length, field and script among its children, and only a script identity can fail |
| ConfigReader.IdentityRecognises | flatworm-core/src/main/java/com/blackbear/flatworm/config/impl/DefaultConfigurationReader.java:404-455 | a length identity with both bounds recognises exactly the lines whose length lies between them; a field identity with both positions recognises a line as the legacy field identity does |
| ConfigReader.MatchingStringsRule | flatworm-core/src/main/java/com/blackbear/flatworm/config/impl/DefaultConfigurationReader.java:451-452 | a string is a matching string exactly when it is the text of one of the match-string children (a child without text adds nothing in the model, null in the source) |
| ConfigReader.ScriptIdentityRule | flatworm-core/src/main/java/com/blackbear/flatworm/config/impl/DefaultConfigurationReader.java:464-477 | the read fails exactly when the engine is missing, the script is null or the engine rejects it; a blank text child gives way to the CDATA, and without CDATA it leaves a null script; a missing engine or method name takes its default |
| ConfigReader.BeanRefVerbatim | flatworm-core/src/main/java/com/blackbear/flatworm/config/impl/DefaultConfigurationReader.java:625-627 | the bean reference is kept as written; "a.b.c" stays whole here while the business-object reader takes bean "a.b" from it |
| ConfigReader.ElementRule | flatworm-core/src/main/java/com/blackbear/flatworm/config/impl/DefaultConfigurationReader.java:616-653 | a position is set only when its attribute is present, the ignore flag exactly when its attribute is not blank, and an option is present exactly when a conversion-option child has its name, with the value of the last such child |
| ConfigReader.LoadFailsAsConfiguration | flatworm-core/src/main/java/com/blackbear/flatworm/config/impl/DefaultConfigurationReader.java:132-141 | every failure of loading is a configuration exception, and a file format with a default record that also ignores unmapped records is refused with the double-dip message |
| ConfigReader.LoadAccepts | flatworm-core/src/main/java/com/blackbear/flatworm/config/impl/DefaultConfigurationReader.java:124-142 | without a top-level file-format element nothing loads; whatever loads is what traversing the first such element gave, and it is not both defaulted and ignoring unmapped records |
| AnnotationReader.TargetOf | flatworm-core/src/main/java/com/blackbear/flatworm/config/impl/DefaultAnnotationConfigurationReaderImpl.java:427-428 | an element goes to the segment on top of the deque when the deque is not empty, otherwise to the line of its id, and to nothing when there is no such line |
| AnnotationReader.IsValidRetryList | flatworm-core/src/main/java/com/blackbear/flatworm/config/impl/DefaultAnnotationConfigurationReaderImpl.java:201-216 | the loop with its flag and early exit answers true exactly when the new list is non-empty and either differs in size from the last one or holds a class the last one lacks |
| AnnotationReader.RetryShrinks | flatworm-core/src/main/java/com/blackbear/flatworm/config/impl/DefaultAnnotationConfigurationReaderImpl.java:201-216 | the first pass retries any non-empty list; the same list is never retried twice in a row; a retried list drawn from its pass's classes is shorter than them |
| AnnotationReader.ReprocessedRule | flatworm-core/src/main/java/com/blackbear/flatworm/config/impl/DefaultAnnotationConfigurationReaderImpl.java:143-172 | the retry list holds exactly the classes whose load threw a configuration error or whose linked record was not cached, and is no longer than the classes |
| AnnotationReader.FoldsRule | flatworm-core/src/main/java/com/blackbear/flatworm/config/impl/DefaultAnnotationConfigurationReaderImpl.java:373-375 | a string is stored as a matching string exactly when one of the annotation's match identities folds to it |
| AnnotationReader.FieldIdentityMatches | flatworm-core/src/main/java/com/blackbear/flatworm/config/impl/DefaultAnnotationConfigurationReaderImpl.java:368-377 | the identity takes the annotation's start and length, matches every one of its match identities, and matches a token exactly when it folds to the fold of one of them |
| AnnotationReader.LoadFieldIdentity | flatworm-core/src/main/java/com/blackbear/flatworm/config/impl/DefaultAnnotationConfigurationReaderImpl.java:368-377 | a new field identity whose positions are the annotation's and whose matching strings are its match identities, each added in turn |
| AnnotationReader.IdentityPrecedence | flatworm-core/src/main/java/com/blackbear/flatworm/config/impl/DefaultAnnotationConfigurationReaderImpl.java:331-347 | an identity is loaded exactly when one kind is applied (and a script one loads); it is of the first applied kind in the order length, field, script; it is configured; only a script can fail, with a configuration error; with none applied there is none |
| AnnotationReader.ScriptIdentityRule | flatworm-core/src/main/java/com/blackbear/flatworm/config/impl/DefaultAnnotationConfigurationReaderImpl.java:385-391 | a script identity fails exactly when its engine is missing or cannot evaluate the script, a missing engine with the not-found message; otherwise blank engine and function names take their defaults and the identity accepts what the scriptlet accepts |
| AnnotationReader.OptionsKeys | flatworm-core/src/main/java/com/blackbear/flatworm/config/impl/DefaultAnnotationConfigurationReaderImpl.java:455-459 | an option name is present exactly when some conversion option of the annotation has it |
| AnnotationReader.OptionsLastWins | flatworm-core/src/main/java/com/blackbear/flatworm/config/impl/DefaultAnnotationConfigurationReaderImpl.java:455-459 | a present option is the last conversion option of that name |
| AnnotationReader.ElementRule | flatworm-core/src/main/java/com/blackbear/flatworm/config/impl/DefaultAnnotationConfigurationReaderImpl.java:440-453 | length, start and end are set exactly when the annotation's value is not -1, and then to it; the bean reference is class.field; order and converter name come from the annotation and the field is not ignored |
| AnnotationReader.BeanRefSplits | flatworm-core/src/main/java/com/blackbear/flatworm/config/impl/DefaultAnnotationConfigurationReaderImpl.java:440 | for a field name without a dot, splitting the bean reference at its last dot gives back the class as bean and the field as property |
| AnnotationReader.BeanRegisteredOnce | flatworm-core/src/main/java/com/blackbear/flatworm/config/impl/DefaultAnnotationConfigurationReaderImpl.java:432-438 | after registering, the class's bean is there; registering again changes nothing; every other bean is kept and only the class's key is added |
| AnnotationReader.BuildRecordElement | flatworm-core/src/main/java/com/blackbear/flatworm/config/impl/DefaultAnnotationConfigurationReaderImpl.java:424-459 | a new record element carrying exactly the settings the annotation gives, its options added in turn |
| AnnotationReader.SegmentCardinalityRule | flatworm-core/src/main/java/com/blackbear/flatworm/config/impl/DefaultAnnotationConfigurationReaderImpl.java:502-514 | the owning class is the parent bean, the field the property and the field's class the bean; a collection or array field takes the annotation's mode and counts, any other field is SINGLE with the default counts |
| AnnotationReader.ConvertersOf | flatworm-core/src/main/java/com/blackbear/flatworm/config/impl/DefaultAnnotationConfigurationReaderImpl.java:274-298 | one converter per annotation, in order, each with the annotation's name, class, method and return type |
| AnnotationReader.LinesCachedKeys | flatworm-core/src/main/java/com/blackbear/flatworm/config/impl/DefaultAnnotationConfigurationReaderImpl.java:317 | an id is cached exactly when it was cached before or some loaded line has it |
| AnnotationReader.LinesCachedKept | flatworm-core/src/main/java/com/blackbear/flatworm/config/impl/DefaultAnnotationConfigurationReaderImpl.java:317 | an id that no loaded line has keeps its earlier entry |
| AnnotationReader.LinesCachedLast | flatworm-core/src/main/java/com/blackbear/flatworm/config/impl/DefaultAnnotationConfigurationReaderImpl.java:317 | an id some loaded line has is cached for the last line with that id |
| AnnotationReader.LinesCachedBounded | flatworm-core/src/main/java/com/blackbear/flatworm/config/impl/DefaultAnnotationConfigurationReaderImpl.java:317 | every line cache entry stays a position of the line table |
| AnnotationReader.Positions | flatworm-core/src/main/java/com/blackbear/flatworm/config/impl/DefaultAnnotationConfigurationReaderImpl.java:316 | the table positions of n new entries are consecutive from the first free one |
| AnnotationReader.Reader.constructor | flatworm-core/src/main/java/com/blackbear/flatworm/config/impl/DefaultAnnotationConfigurationReaderImpl.java:84-91 | empty record and line caches and deque, validation on, not on a first pass, and an empty file format |
| AnnotationReader.Reader.LoadRecordIdentity | flatworm-core/src/main/java/com/blackbear/flatworm/config/impl/DefaultAnnotationConfigurationReaderImpl.java:331-347 | the file format takes the record's encoding, and the identity returned is the one the precedence rule gives |
| AnnotationReader.Reader.LoadConverters | flatworm-core/src/main/java/com/blackbear/flatworm/config/impl/DefaultAnnotationConfigurationReaderImpl.java:274-284 | the file format's converters become the old ones followed by one per converter annotation, in order |
| AnnotationReader.Reader.LoadLines | flatworm-core/src/main/java/com/blackbear/flatworm/config/impl/DefaultAnnotationConfigurationReaderImpl.java:308-321 | one line per annotation is created, numbered by its record one past its line count, added to the record, and put in the line cache under its id; other entries stay |
| AnnotationReader.Reader.BuildRecord | flatworm-core/src/main/java/com/blackbear/flatworm/config/impl/DefaultAnnotationConfigurationReaderImpl.java:248-260 | a new record with the annotation's name, the given identity, no beans and the new lines; converters and line cache as loaded |
| AnnotationReader.Reader.LoadRecord | flatworm-core/src/main/java/com/blackbear/flatworm/config/impl/DefaultAnnotationConfigurationReaderImpl.java:242-264 | the encoding is set; a failing identity fails the load with its error and touches no record, line or converter; otherwise the record is built with that identity |
| AnnotationReader.Reader.LoadRecordElement | flatworm-core/src/main/java/com/blackbear/flatworm/config/impl/DefaultAnnotationConfigurationReaderImpl.java:423-471 | the element is built from the annotation, the class's bean is registered with the record unless present, and the element goes to the collection the deque and line cache select, or nowhere |
| AnnotationReader.Reader.PlaceElement | flatworm-core/src/main/java/com/blackbear/flatworm/config/impl/DefaultAnnotationConfigurationReaderImpl.java:432-463 | the class's bean is registered with the record and the element is put into the selected collection and nowhere else |
| AnnotationReader.Reader.RegisterBean | flatworm-core/src/main/java/com/blackbear/flatworm/config/impl/DefaultAnnotationConfigurationReaderImpl.java:432-438 | the record's beans become the old ones with the class's bean added when it was missing; other records stay |
| AnnotationReader.Reader.AddElement | flatworm-core/src/main/java/com/blackbear/flatworm/config/impl/DefaultAnnotationConfigurationReaderImpl.java:461-463 | the element is appended to the selected line, numbered when it has no order, or to the selected segment; without a target nothing changes |
| AnnotationReader.Reader.AttachSegment | flatworm-core/src/main/java/com/blackbear/flatworm/config/impl/DefaultAnnotationConfigurationReaderImpl.java:485-490 | a new empty segment is appended to the selected line or segment, and nothing else changes |
| AnnotationReader.Reader.OpenSegment | flatworm-core/src/main/java/com/blackbear/flatworm/config/impl/DefaultAnnotationConfigurationReaderImpl.java:496-517 | the segment gets the annotation's field identity, order and cardinality; after a clean nested load the deque is as it was, and after a failing one the segment is still on it |
| AnnotationReader.Reader.FillSegment | flatworm-core/src/main/java/com/blackbear/flatworm/config/impl/DefaultAnnotationConfigurationReaderImpl.java:492-524 | a field of unknown class leaves the segment as attached; a field class without Record or RecordLink is rejected with its message and changes nothing; otherwise the segment is opened |
| AnnotationReader.Reader.LoadSegment | flatworm-core/src/main/java/com/blackbear/flatworm/config/impl/DefaultAnnotationConfigurationReaderImpl.java:484-527 | with no collection selected the load fails with a null pointer exception and changes nothing; otherwise the new segment is added to that collection before it is filled |
| AnnotationReader.Reader.LoadField | flatworm-core/src/main/java/com/blackbear/flatworm/config/impl/DefaultAnnotationConfigurationReaderImpl.java:402-411 | a record element field loads without error and registers the class's bean; a field with neither annotation changes nothing; only a segment field can fail |
| AnnotationReader.Reader.ProcessFieldAnnotations | flatworm-core/src/main/java/com/blackbear/flatworm/config/impl/DefaultAnnotationConfigurationReaderImpl.java:402-411 | every field is processed in turn until a segment fails; once the class has a record element field its bean is registered |
| AnnotationReader.Reader.LoadRecordClass | flatworm-core/src/main/java/com/blackbear/flatworm/config/impl/DefaultAnnotationConfigurationReaderImpl.java:148-167 | a failing identity fails with its error and adds no record; otherwise a record with the annotation's name and identity is created, cached and added to the file format, and the class is never queued for retry |
| AnnotationReader.Reader.LoadClass | flatworm-core/src/main/java/com/blackbear/flatworm/config/impl/DefaultAnnotationConfigurationReaderImpl.java:143-171 | a class is queued for retry exactly when it is a record link whose record is not cached; a class with neither annotation changes nothing; a record class loads as LoadRecordClass states |
| AnnotationReader.Reader.PassOnce | flatworm-core/src/main/java/com/blackbear/flatworm/config/impl/DefaultAnnotationConfigurationReaderImpl.java:140-172 | the retry list is the one the outcomes of the classes give; every failure kept is a configuration error; any other exception ends the pass with that error |
| AnnotationReader.Reader.LoadPass | flatworm-core/src/main/java/com/blackbear/flatworm/config/impl/DefaultAnnotationConfigurationReaderImpl.java:138-192 | a pass that throws fails with its error; an empty retry list succeeds; a retry list that may not be retried fails with the unresolvable-classes error; the number of passes is at most two more than the classes |
| AnnotationReader.Reader.LoadClasses | flatworm-core/src/main/java/com/blackbear/flatworm/config/impl/DefaultAnnotationConfigurationReaderImpl.java:102-127 | the first-pass flag ends set, and the call performs the cleanup exactly when it succeeded, was the first to set the flag and validation is on |

## Findings

| source | as written | input that shows it | evidently intended | confidence | as-written member | corrected member |
|---|---|---|---|---|---|---|
| flatworm-core/src/main/java/com/blackbear/flatworm/config/LineBO.java:289-295 | a record element that finds no token left calls `lineTokens.get`, which throws `IndexOutOfBoundsException`; the `catch` is for `ArrayIndexOutOfBoundsException`, so the parse fails instead of logging | a delimited line with one token, configured with two ignored record elements | the element is skipped and the run-out logged, and the parse goes on; the `LineBO` class methods and `RecordBO` are modelled with this corrected handling | not executed | LineParsing.RunOutExample | LineParsing.DoParse |
| flatworm-core/src/main/java/com/blackbear/flatworm/Line.java:283-303 | the segment loop never moves the field cursor past the identifier field; with no bean reference it does nothing at all, so it never ends, and with a bean reference the identifier field itself is parsed as the segment's first element | a segment without a bean reference whose identifier is the current field; or a bean segment with one bean field, on the fields `id, next` | each identifier field is consumed before the segment's elements are parsed, as `LineBO` does | not executed | LegacyLines.AsWrittenNeverFinishes | LegacyLines.SegmentLoop |
| flatworm-core/src/main/java/com/blackbear/flatworm/Line.java:277 | the minimum-count check reads `delimitedFields[currentField]` before anything checks that a field is left; the `ArrayIndexOutOfBoundsException` escapes, because the segment call is outside the `catch` | a delimited line whose fields are all consumed before a segment is reached | a segment reached after the last field consumes nothing | not executed | LegacyLines.AsWrittenSegmentAtEnd | LegacyLines.SegmentAtEnd |

## Left out

- I/O. `BufferedReader` input is a sequence of lines with a cursor, and reading past the end gives null. Output is a string. Opening and closing files, streams and paths, the stream and path overloads of the configuration loaders, `FileParser` with its callbacks, and `FTPFileParser` are not modelled, because they are plumbing around the modelled logic.
- XML parsing by `DocumentBuilder` is a library call. The DOM is an abstract tree of element, text and CDATA nodes with attributes.
- Reflection is replaced by parameters: bean property access, `newInstance`, `Class.forName`, method lookup, `Util.getActualFieldType` and classpath scanning. Class tables, environments and class paths stand in for them. A converter's result is an abstract converted value, because converter classes are user code.
- Script engines (Nashorn) are a set of engine names, an evaluation verdict and, for each scriptlet, the set of lines it accepts. An engine that may be absent is modelled, and so is a script the engine rejects. `LineBO`'s before- and after-scriptlets around `parseInput` are not modelled.
- Floating point and dates. The decimal, double, `BigDecimal` and float converters are not modelled, because they rest on `DecimalFormat` and floating point. `convertDate` models only its empty and null cases; `SimpleDateFormat` parsing and formatting are parameters, and a date is a number of milliseconds.
- `Util.strip` uses a regular expression in the source. It is modelled directly as a filter on characters.
- Case mapping (`toLowerCase`, `toUpperCase`, `equalsIgnoreCase`) covers the ASCII letters only, with no Unicode case folding.
- `%n` (`String.format("%n")`) is taken to be `"\n"`. The platform line separator is not modelled.
- HashMap and HashSet iteration order is unspecified, so each loop over a map picks its keys in an unspecified order. Where the result depends on that order, the methods return the order they took as a ghost value, and the contracts are stated for that order.
- Logging is not modelled.
- The `parentLine` and parent-definition back-references that `addLineElement`, `addLine` and `addBean` set are implied by containment in the model. They are not stored pointers.
- `FileFormat.nextRecord(String)` and `nextRecord(List)`, the overloads that take lines already read, are not modelled. `nextRecord` over the reader is.
- FileFormats.FileFormat.ParseMatching, FileFormats.FileFormat.NextRecord: `FileFormat` imports `config.Record`, whose `parseRecord` rethrows every failure as `FlatwormParserException`, but it also calls `matchesLine(String, FileFormat)` and `getIdentTypeFlag`, which only the root `Record` declares. The model keeps the root `Record` throughout, so a parse failure is passed through as the root record's parse reports it (`LegacyRecords.RecordParse`), not wrapped as a parser exception. The conversion is the parameter `convert`, not a function of the format's `convHelper` and the converters added to it.
- `FileCreator` loading its configuration file is a `FileFormat` parameter. Its `setProperty` write-back of converted values into beans is not modelled, because it is reflective.
- The trim-value and enforce-field-length attributes are not modelled, because `RecordElementBO` in this version has no such properties.
- `BeanBO.java` is not part of this model. Beans of a record definition are a name and a class name.
- `config.Line`, `config.Bean` and `config.RecordElement`, which `DefaultConfigurationReader` builds while traversing a `file-format` element, are not part of this model. The traversal is a parameter of `ConfigReader.LoadConfigurationFile`, and the setters the reader calls are modelled on small classes of its own.
- The reflective checks of `ConfigurationValidator.validateConverter` (does the class load, does the method exist) are parameters.
- The annotation reader's recursion through `loadSegment` into `loadConfiguration` runs on a fuel bound. When the fuel runs out it ends in `StackOverflowError`, which stands for the Java stack running out.
- AnnotationReader.Reader.LoadClasses: reports whether the outermost call would sort the line elements and validate the file format (the `cleanup` result), but performs neither step. The source also discards the validator's result, so that step has no effect.
- Identities.MatchesIdentity, FieldIdentities.FieldIdentityImpl.MatchesIdentityLine, LegacyFieldIdentities.FieldIdentity.DoesMatch, ConfigRecords.MatchesLineRule: require the start and length (or minimum and maximum) of the identity to be set. The source unboxes these `Integer`s and throws `NullPointerException` when they are null; the model excludes that case instead of representing it. The validator rules that reject such identities are proved separately.
- Records.RecordBO.ParseRecord: requires that no script identity of an identity line accepts the null line at the end of the input. The model leaves out every such case, including those that end. With such a script, the source ends in two cases: the line that accepts null is a record-end line, or, for a fixed-width line, parsing null or attaching its beans throws. In every other case the loop never ends, because `readLine` keeps returning null.
- LineParsing.LineBO.ParseInput, LineParsing.LineBO.ParseInputDelimited, LineParsing.LineBO.DoParseDelimitedInput, LineParsing.LineBO.DelimitedElement, LineParsing.LineBO.ParseDelimitedSegmentElement: use the corrected run-out (`Skipped`) from the first finding, not the as-written `Throws`. LineParsing.AsWrittenLineAgrees proves the two agree whenever the as-written parse does not end in `IndexOutOfBoundsException`. Where it does end that way, these members log and go on, and the source fails.
- Records.Sequential, Records.IdentityStep, Records.RecordBO.SequentialPass, Records.RecordBO.ParseSequentialLines, Records.RecordBO.ParseIdentityLine, Records.RecordBO.IdentityPass, Records.RecordBO.ParseIdentityLines, Records.RecordBO.ParseLines, Records.RecordBO.ParseRecord: parse lines with the corrected run-out. Where the source's line parse throws `IndexOutOfBoundsException` and `parseRecord` wraps it in a `FlatwormParserException`, these members go on with the element skipped.
- ConfigRecords.LinesParse, ConfigRecords.ParseLines, ConfigRecords.RecordParse, ConfigRecords.Record.ParseRecord: `config.Line` is not part of this model. These members parse each line with `LegacyLines.ParseLegacyLine`, the legacy `Line`, as a stand-in for `config.Line.parseInput`. What they state about the line parse holds for that stand-in only.
- LegacyRecords.SameAsConfigRecord: because the config record parses its lines with the legacy line parser, this lemma says only that the two record loops (reading, identity matching, run-out of the input) agree given the same line parse. It says nothing about `config.Line` itself.
- Identities.MatchesIdentity: also stands for the `matchesIdentity(LineBO, FileFormat, String)` overload that `RecordBO` calls. `FieldIdentityImpl` inherits that overload from `AbstractLineTokenIdentity`, which is not part of this model. It is taken to match the same way as the record overload.
- ConfigReaderImpl.MatchStrings, ConfigReaderImpl.MatchStringsRule, ConfigReaderImpl.MatchStringsValues, ConfigReader.ReadFieldIdentity, ConfigReader.MatchingStringsRule, LegacyConfigReader.MatchTexts, LegacyConfigReader.TextsOfRule, LegacyConfigReader.ApplyFieldIdent: a `match-string` child without text is dropped from the match list. The source adds null to the list, and the identity's match dereferences it later. Either the match fails with `NullPointerException` once it reaches that entry, or, for a case-insensitive `DefaultConfigurationReaderImpl` identity, the read fails with it at once. Matching against a null entry is not modelled; the validator still counts those children.
- ConfigReaderImpl.LoadRejectsInvalid, ConfigReaderImpl.LoadAccepts: the validation the loader runs is the parameter `Env.validate`. It is not tied to `ConfigValidation.FileFormatProblems`: these lemmas hold for any validator. The rules of `ConfigurationValidator` are proved separately in `ConfigValidation`.
- JavaText, Util.TryParseInt, CoreConverters.ConvertInteger: a Java `String` is a sequence of UTF-16 code units, and the model's `string` is a sequence of Unicode scalar values. Lengths, substrings and the length identities are stated over scalars, so they differ from Java's for characters outside the Basic Multilingual Plane. `IsWhitespace` covers ASCII whitespace only, where `Character.isWhitespace` also accepts Unicode space separators. `ParseSigned` accepts ASCII digits only, where `Integer.valueOf` also accepts other Unicode decimal digits.
- FileCreators.WrittenLength, FileCreators.FieldValue: the source's `getFieldLength() == null` at `FileCreator.java:202` compares an `int` with null, so that line does not compile as written. The model reads it as "the length is unset" and fails with the configuration exception `LENGTH_UNKNOWN`. The other reading, in which `getFieldLength` itself throws `FlatwormUnsetFieldValueException` for an unset length, is not modelled.
- LegacyConfigReader.SegmentHeader, LegacyConfigReader.SegmentErrors, LegacyConfigReader.ReadSegment: the legacy reader calls `setCollectionPropertyName` on the legacy `SegmentElement`, which has no such setter, so those lines do not compile as written. The model stores `collection-property-name` as the segment's name, which is the property the legacy record adds to. The other reading, a property kept apart from the name, is not modelled.
- ParseUtils.InvokeAddMethod: every add method is assumed present on the target's class for the value's class. In the source, `getMethod` throws `NoSuchMethodException` when it is not, and the handler turns that into `FlatwormParserException`; that path is not modelled.
- Identities.MatchesIdentity, ConfigRecords.DoesMatch, ConfigRecords.MatchesLine, ConfigRecords.MatchesLineRule, Records.MatchScan, Records.MatchScanRule: a script identity's verdict is membership of the line in the set of lines its script accepts, so it never fails. In the source, a script that throws or returns something other than a boolean gives `FlatwormParserException` (`ScriptIdentityImpl.matchesIdentity` and `ScriptIdentity.doesMatch`); that failure is not modelled. The legacy record's script verdict (`LegacyRecords.Matches`) can fail.
- LineParsing.LineBO.ParseInput, LineParsing.LineBO.ParseInputDelimited, LineParsing.LineBO.CleanupLineTokens, LineParsing.KeptMembers, LineParsing.NothingClaimed: `RecordBO` calls a four-argument `parseInput` that `LineBO` does not declare, and `LineBO.cleanupLineTokens` calls a `matchesIdentifier` that `RecordBO` does not have (the one that exists is on `config.Record`). The model reads the fourth argument as the identity whose tokens are removed: sequential lines pass the record's identity, identity lines their own line identity.
- LegacyLines.FieldTexts, LegacyLines.Line.ParseInputDelimited: `Line.parseInputDelimited` assigns the `List<LineToken>` that `Util.split` returns to a `String[]`, which does not compile. The model reads it as the list of the tokens' texts.
- LegacyLines.DoParse, LegacyLines.DelimitedStep, LegacyLines.ParseLegacyLine, LegacyLines.Line.ParseInput, LegacyLines.Line.ParseInputDelimited, LegacyLines.Line.DoParseDelimitedInput, LegacyLines.Line.DelimitedElement, LegacyLines.Line.ParseDelimitedSegmentElement, LegacyLines.Line.SegmentPass, ConfigRecords.LinesParse, ConfigRecords.ParseLines, ConfigRecords.RecordParse, ConfigRecords.Record.ParseRecord, LegacyRecords.RecordParse, LegacyRecords.Record.ParseRecord, FileFormats.FileFormat.ParseMatching, FileFormats.FileFormat.NextRecord: these use the corrected segment loop, which consumes each identifier field before the segment's elements are parsed. For a bean segment the source instead hands the identifier field itself to the segment's first element and never consumes it; `LegacyLines.BeanSegmentShift` shows the difference on one input. The root `Record` parses each of its lines with the root `Line` itself (`LegacyLines.ParseLegacyLine`), so its parse inherits the same correction. In the source, a bean segment whose one field is skipped by the `ArrayIndexOutOfBoundsException` catch never leaves its loop (`LegacyLines.AsWrittenStuck`).
- ConverterCache.ConverterFunctionCache.constructor: stands for the class's static initializer, so the registrations belong to one object here, where the source shares them class-wide through static maps.
