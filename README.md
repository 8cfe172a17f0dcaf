# MapFile STYLE, SCALEBAR and LEGEND clauses in Dafny

This project models three clause classes of the MapFile PHP library. The
library reads and writes MapServer mapfiles.

- `Style` (style.php) holds a STYLE clause: angle, colours, scale
  denominators, opacity, outline, size, width, symbol name and a dash
  pattern.
- `Scalebar` (scalebar.php) holds a SCALEBAR clause: status, units,
  colours, intervals and a LABEL sub-clause.
- `Legend` (legend.php) holds a LEGEND clause: status and a LABEL
  sub-clause.

Each class has a constructor that optionally reads an array of lines, a
`write()` that renders the clause as text, and a private `read()` that
walks the lines with a small state machine. Style and Scalebar also have
colour setters that reject components outside 0..255.
Each class is modelled in the same four parts:

- a `class` with the PHP properties as mutable fields;
- a `read()` method whose `while` loop is proved against a pure scanner
  (`ScanStyle`, `ScanScalebar`, `ScanLegend`) through the loop invariant
  "scanning all lines equals scanning the remaining lines from the
  current state";
- a pure writer (`WriteStyle`, `WriteScalebar`, `WriteLegend`);
- lemmas that relate the writer, the reader and the setters.

Modules:

- `Wrappers`: `Option`, `Result`, and `Outcome` (the result of a method
  that can throw).
- `Text`: PHP's `trim`, `strtoupper` on ASCII, `explode`/`implode` on a
  space, `intval` of digit strings, and integer rendering.
- `Codec`: the STATUS and UNITS lookup arrays and `convertStatus` /
  `convertUnits`. That covers the numeric path, the `array_search` path
  with its falsy key 0, and the thrown exception, which becomes a
  `Failure`.
- `Syntax`: the anchored, case-insensitive line patterns. Each is a
  keyword test plus a matcher for the argument (`[0-9.]+`, `[0-9]+`,
  `"(.+)"`, `(.+)`, three colour components). It also holds RGB values
  and the 0..255 range test.
- `LabelClause`: the LABEL sub-clause as the SCALEBAR and LEGEND readers
  see it, namely a default label or the block of trimmed lines it was
  built from.
- `Style`, `Scalebar`, `Legend`: the three classes.

Lines are sequences of strings. One element is one line of text, which
stands for the `PHP_EOL` separators.

## Model

| member | source | states |
|---|---|---|
| Text.TrimIndented | style.php:162 | trim() of an indented unpadded line gives back the line's content |
| Text.SplitJoin | style.php:146 | explode(' ') undoes implode(' ') when no piece contains a space, so written pattern values read back one by one |
| Text.ParseNatToString | style.php:183 | intval() of the decimal rendering of a natural number is that number |
| LabelClause.TrimAll | scalebar.php:150 | the buffered LABEL block holds every line trimmed, in order and with the same length |
| Codec.TablesWellFormed | scalebar.php:170-200 | the STATUS and UNITS arrays have distinct codes and distinct upper-case word tokens |
| Codec.Lookup | scalebar.php:175-176 | an integer key is found exactly when some entry has that code, and the entry's token is returned |
| Codec.KeyOfText | scalebar.php:175-176 | a string key hits an entry exactly when it is the decimal spelling of that entry's code |
| Codec.Search | scalebar.php:178-179 | array_search finds a key exactly when some entry's token equals the string, and returns that entry's code |
| Codec.EncodeCode | scalebar.php:169-184 | converting a code succeeds exactly for a code in the table and yields its token; otherwise it fails naming the attribute and the code |
| Codec.ReadToken | scalebar.php:178-182 | reading a token gives its code, except that the token of code 0 (OFF, INCHES) fails because array_search's key 0 is falsy |
| Codec.ReadNumeral | scalebar.php:175-176 | reading the decimal spelling of a code returns the token, whose intval is 0 |
| Codec.ReadUnknown | scalebar.php:181-183 | a string that is neither a token nor a code spelling fails with the upper-cased text |
| Codec.EncodeThenRead | scalebar.php:169-184 | reading back a written token gives the code again for every code except 0, which fails |
| Codec.EncodeInjective | scalebar.php:170-173 | two codes with the same written token are the same code |
| Codec.UnitsCodes | scalebar.php:190-211 | a UNITS code converts exactly when it is 0-6 or 8 |
| Codec.StatusCodes | legend.php:93-108 | STATUS 1 writes ON, 0 writes OFF, and any other value fails |
| Syntax.CheckedRgb | style.php:78-84 | a colour is accepted exactly when all three components lie in 0..255; otherwise the error names the attribute and the components |
| Syntax.DecimalArg | style.php:174-175 | the matched argument of a decimal attribute is `[0-9.]+` text |
| Syntax.TextArg | scalebar.php:158-159 | the matched argument of `KEYWORD (.+)` is non-empty single-line text |
| Syntax.QuotedArg | style.php:190-191 | the matched symbol name is non-empty single-line text |
| Syntax.ColorArg | style.php:176-177 | a matched colour has non-negative components (the reader does not cap them at 255) |
| Syntax.RgbTextReads | style.php:135 | a colour written as three space-separated numbers matches the colour pattern and reads back as the same colour |
| Syntax.DecimalReads | style.php:174-175 | decimal text written after a keyword reads back unchanged |
| Syntax.NatReads | style.php:182-183 | a natural number written after a keyword reads back as the same number |
| Syntax.QuotedReads | style.php:190-191 | a quoted one-line name written after SYMBOL reads back as the name |
| Syntax.WordTextReads | scalebar.php:158-159 | a word written after a keyword is matched as that keyword's argument |
| Style.Style.constructor | style.php:65-69 | a Style built without lines has every property null and an empty pattern |
| Style.Style.FromClause | style.php:65-69 | `new Style($lines)` is a fresh object whose properties are those the reader computes from the lines |
| Style.Style.Read | style.php:158-196 | the loop leaves the properties the scanner computes from the lines and the old properties |
| Style.Style.Assign | style.php:174-194 | the attribute branches change exactly the properties the first matching branch sets |
| Style.Style.SetColor | style.php:78-84 | succeeds exactly for components in 0..255 and then getColor returns them; otherwise it fails with the STYLE COLOR error and leaves the colour unchanged |
| Style.Style.SetOutlineColor | style.php:92-98 | as SetColor, for the outline colour and the STYLE OUTLINECOLOR error |
| Style.Style.UnsetColor | style.php:118-120 | the colour becomes the empty array, and write() then emits no COLOR line |
| Style.Style.UnsetOutlineColor | style.php:124-126 | the outline colour becomes the empty array, and write() then emits no OUTLINECOLOR line |
| Style.Style.GetColor | style.php:104-106 | the result is the empty array exactly when the colour is null; an assigned colour (set or read from a COLOR line) gives its r, g and b components; after unsetColor no component is defined |
| Style.Style.GetOutlineColor | style.php:111-113 | as GetColor, for the outline colour: empty exactly when null, the three components when assigned, none after unsetOutlineColor |
| Style.WriteStyle | style.php:132-151 | the written clause opens with the STYLE line and closes with END # STYLE |
| Style.WriteOrder | style.php:134-143 | the attribute lines carry, in order, exactly the keywords of the set attributes: ANGLE, COLOR, MAXSCALEDENOM, MINSCALEDENOM, OPACITY, OUTLINECOLOR, OUTLINEWIDTH, SIZE, WIDTH, SYMBOL, for every value of the properties (a negative OPACITY keeps its slot) |
| Style.LeadingKeys | style.php:134-138 | the first five attribute lines carry the keywords of the set attributes among ANGLE to OPACITY, for any values |
| Style.TrailingKeys | style.php:139-143 | the remaining attribute lines carry the keywords of the set attributes among OUTLINECOLOR to SYMBOL, for any values |
| Style.ValueKeys | style.php:134 | a decimal attribute contributes its keyword exactly when it is set, whatever its text |
| Style.ColorKeys | style.php:135 | a colour contributes its keyword exactly when it is a three-element array with a non-negative sum |
| Syntax.KeywordOfLine | style.php:162 | whatever its value, a written `KW value` line trims to a line whose keyword is KW |
| Style.OpacityKeys | style.php:138 | OPACITY contributes its keyword exactly when it is set, negative or not |
| Style.SymbolKeys | style.php:143 | SYMBOL contributes its keyword exactly when the name is not empty() |
| Style.WriteThenRead | style.php:132-196 | reading a written clause gives back the properties, except that an unwritten colour or an empty symbol name reads back as null |
| Style.WriteReadWrite | style.php:132-196 | writing what was read from a written clause reproduces the same text |
| Style.AttributesRead | style.php:134-143 | the written attribute lines read back into the written properties |
| Style.LeadingAttributesRead | style.php:134-138 | the ANGLE to OPACITY lines read back into those properties |
| Style.TrailingAttributesRead | style.php:139-143 | the OUTLINECOLOR to SYMBOL lines read back into those properties |
| Style.AssignDecimal | style.php:174-193 | a line whose keyword is a decimal attribute's and whose argument is decimal sets that property and nothing else |
| Style.AssignColor | style.php:176-177 | a matched COLOR or OUTLINECOLOR line sets that colour |
| Style.AssignOpacity | style.php:182-183 | a matched OPACITY line sets the opacity |
| Style.AssignSymbol | style.php:190-191 | a matched SYMBOL line sets the symbol name |
| Style.DecimalStep | style.php:174-193 | a written decimal attribute line reads back into its property; an absent one changes nothing |
| Style.ColorStep | style.php:176-177 | a written colour line reads back into its colour |
| Style.OpacityStep | style.php:182-183 | a written OPACITY line reads back into the opacity |
| Style.SymbolStep | style.php:190-191 | a written SYMBOL line reads back into the name |
| Style.PatternStep | style.php:144-148 | the written PATTERN block reads back by appending its values to the pattern |
| Style.PatternOpenStep | style.php:168-169 | a PATTERN line inside the clause enters the pattern block |
| Style.PatternValuesStep | style.php:172-173 | the written line of pattern values appends exactly those values |
| Style.PatternCloseStep | style.php:170-171 | END # PATTERN leaves the pattern block |
| Style.PatternTextStep | style.php:172-173 | each other non-empty line inside PATTERN appends its space-separated pieces |
| Style.PatternAccumulates | style.php:172-173 | a run of such lines appends all their pieces in order |
| Style.EndStyleInsidePattern | style.php:166-173 | inside an unclosed PATTERN, END # STYLE does not close the clause: its words become pattern values |
| Style.HeaderStep | style.php:164-165 | the STYLE line enters the clause |
| Style.FooterStep | style.php:166-167 | the written END # STYLE line leaves the clause |
| Style.ClosingLine | style.php:166-167 | any line that trims to END # STYLE leaves the clause and keeps the properties |
| Style.Outside | style.php:161-165 | outside the clause, lines other than STYLE change nothing |
| Style.SkipsPreamble | style.php:161-165 | lines before the clause that are not STYLE do not affect the result |
| Style.SkipsTrailer | style.php:166-167 | lines after a closed clause that are not STYLE do not affect the result |
| Style.ClosedAfterWrite | style.php:149 | reading a written clause ends outside the clause |
| Style.WrittenClauseEnds | style.php:149 | text appended after a written clause, without a STYLE line, does not change what is read |
| Style.UnknownKeyword | style.php:174-194 | inside the clause a line with an unknown keyword changes nothing |
| Style.IgnoredDecimal | style.php:174-175 | a decimal attribute line whose argument does not match is ignored |
| Style.MalformedDecimalIgnored | style.php:174-175 | a decimal attribute with non-decimal text (a sign, say) is ignored |
| Style.IgnoredOpacity | style.php:182-183 | an OPACITY line whose argument does not match is ignored |
| Style.MalformedOpacityIgnored | style.php:182-183 | OPACITY with anything but digits is ignored |
| Style.ParsedColorUnchecked | style.php:176-177 | a colour line is accepted for any non-negative components, with no 0..255 limit |
| Scalebar.WithLabel | scalebar.php:82-84 | after construction a label is always present; a read label is kept, otherwise it is the default label |
| Scalebar.Scalebar.constructor | scalebar.php:77-85 | `new Scalebar()` has status OFF, units METERS, black colours, 4 intervals and a default label |
| Scalebar.Scalebar.Blank | scalebar.php:37-70 | the property initialisers, before the constructor body runs |
| Scalebar.Scalebar.FromClause | scalebar.php:77-85 | `new Scalebar($lines)` succeeds exactly when reading succeeds, and then holds the read properties; otherwise it raises the read error |
| Scalebar.Scalebar.Read | scalebar.php:140-162 | the loop passes exactly when the scanner succeeds, leaving its properties, and otherwise stops with the scanner's error |
| Scalebar.Scalebar.Assign | scalebar.php:150-160 | the attribute branches update exactly what the first matching branch sets, or fail without change when STATUS or UNITS does not convert |
| Scalebar.Scalebar.SetColor | scalebar.php:94-100 | succeeds exactly for components in 0..255 and stores them; otherwise it fails with the SCALEBAR COLOR error and leaves the colour unchanged |
| Scalebar.Scalebar.SetOutlineColor | scalebar.php:108-114 | as SetColor, for the outline colour and the SCALEBAR OUTLINECOLOR error |
| Scalebar.UnitsLines | scalebar.php:124 | null units write no UNITS line; a set unit succeeds exactly for the codes 0-6 and 8, writing one `    UNITS <token>` line with that code's table token, and any other code fails with the UNITS error naming it |
| Scalebar.WriteScalebar | scalebar.php:121-132 | a written clause opens with SCALEBAR and closes with END # SCALEBAR |
| Scalebar.WriteOutcome | scalebar.php:121-132 | write() succeeds exactly when the status is 0 or 1 and the units are null or a known code; otherwise it fails on the status first, then on the units |
| Scalebar.WriteLayout | scalebar.php:121-132 | a successful write() is the header, then one four-space indented `KW value` line per emitted attribute, whose keywords are, in order, STATUS always, UNITS exactly when not null, COLOR and OUTLINECOLOR exactly when written, INTERVALS exactly when not 0, each carrying its token, colour text or number; then the label's lines at depth 2, then the footer |
| Scalebar.WriteThenRead | scalebar.php:121-162 | with status ON, non-INCHES units, non-negative colours and intervals, and a well-formed label block, reading the written clause gives back the properties; null units read back as METERS, 0 intervals as 4, and the label as the parsed block |
| Scalebar.StatusOffFails | scalebar.php:121-162 | a clause written with status OFF cannot be read back: the read fails on STATUS OFF |
| Scalebar.InchesFails | scalebar.php:121-162 | a clause written with units INCHES cannot be read back: the read fails on UNITS INCHES |
| Scalebar.StatusOffRejected | scalebar.php:150-151 | the line STATUS OFF fails the read |
| Scalebar.InchesToken | scalebar.php:192 | INCHES is the token written for code 0 |
| Scalebar.InchesRejected | scalebar.php:158-159 | the line UNITS INCHES fails the read |
| Scalebar.NumericStatusIsOff | scalebar.php:175-176 | STATUS 0 or STATUS 1 sets the status to 0, because the token's intval is 0 |
| Scalebar.StatusWordRead | scalebar.php:150-151 | a status token in any letter case sets its code, except OFF, which fails |
| Scalebar.UnitsWordRead | scalebar.php:158-159 | a units token in any letter case sets its code, except INCHES, which fails |
| Scalebar.AssignStatus | scalebar.php:150-151 | a STATUS line stores the converted, upper-cased argument, or fails |
| Scalebar.AssignUnits | scalebar.php:158-159 | a UNITS line stores the converted, upper-cased argument, or fails |
| Scalebar.AssignIntervals | scalebar.php:152-153 | an INTERVALS line sets the intervals |
| Scalebar.AssignColor | scalebar.php:154-155 | a COLOR line sets the colour |
| Scalebar.AssignOutlineColor | scalebar.php:156-157 | an OUTLINECOLOR line sets the outline colour |
| Scalebar.AttributeStep | scalebar.php:150-160 | a written attribute line inside the clause is read by the attribute branches |
| Scalebar.StatusStep | scalebar.php:150-151 | a written STATUS line reads back through convertStatus |
| Scalebar.StatusOn | scalebar.php:150-151 | the line STATUS ON sets the status to ON |
| Scalebar.UnitsStep | scalebar.php:124 | written UNITS lines (other than INCHES) read back into the units; absent ones change nothing |
| Scalebar.UnitsToken | scalebar.php:190-211 | the token written for a units code other than INCHES reads back as that code |
| Scalebar.UnitsTokenStep | scalebar.php:158-159 | a written UNITS line reads back through convertUnits |
| Scalebar.ColorStep | scalebar.php:125 | a written COLOR line reads back into the colour |
| Scalebar.OutlineColorStep | scalebar.php:126 | a written OUTLINECOLOR line reads back into the outline colour |
| Scalebar.IntervalsStep | scalebar.php:127 | a written INTERVALS line reads back into the intervals; 0 writes nothing |
| Scalebar.NegativeIntervalsIgnored | scalebar.php:152-153 | negative intervals are written as an `INTERVALS -n` line, which the reader's `[0-9]+` does not match, so the value is lost |
| Scalebar.AttributesRead | scalebar.php:123-127 | the written attribute lines read back from the defaults into the properties |
| Scalebar.OptionalRead | scalebar.php:124-127 | the lines after STATUS read back into units, colours and intervals |
| Scalebar.LabelOpens | scalebar.php:150 | a LABEL line starts a buffer holding it |
| Scalebar.BufferStep | scalebar.php:150 | inside LABEL every other line is buffered trimmed |
| Scalebar.Buffering | scalebar.php:150 | a run of such lines is buffered trimmed, in order |
| Scalebar.LabelCloses | scalebar.php:150 | END [# LABEL] turns the buffer plus that line into the label |
| Scalebar.LabelBlockRead | scalebar.php:150 | a whole LABEL block becomes the label, built from its trimmed lines |
| Scalebar.SecondLabelReplaces | scalebar.php:150 | a second LABEL block replaces the first |
| Scalebar.UnterminatedLabel | scalebar.php:150 | a LABEL block without an END keeps buffering and sets no label |
| Scalebar.RestBuffered | scalebar.php:150 | the lines after LABEL are buffered after it |
| Scalebar.TruncatedLabelGetsDefault | scalebar.php:82-84 | a clause cut off inside LABEL gets the default label |
| Scalebar.HeaderStep | scalebar.php:146-147 | the SCALEBAR line enters the clause |
| Scalebar.FooterStep | scalebar.php:148-149 | the written END # SCALEBAR line leaves the clause |
| Scalebar.ClosingLine | scalebar.php:148-149 | any line that trims to END # SCALEBAR leaves the clause and keeps the properties |
| Scalebar.ClauseRead | scalebar.php:140-162 | a clause of attribute lines, a label block and the footer reads into the attributes' properties plus the label |
| Scalebar.AttributesFail | scalebar.php:182 | a failed conversion in the attribute lines fails the whole read with that error |
| Scalebar.ScanFailsAt | scalebar.php:143-161 | the read stops at the first line whose conversion throws |
| Scalebar.ScanAppend | scalebar.php:143 | reading two runs of lines is reading the first, then the second from where it stopped, unless the first failed |
| Scalebar.ReadOfScan | scalebar.php:82-84 | a read that already set a label returns the scanned properties unchanged |
| Scalebar.Outside | scalebar.php:143-147 | outside the clause, lines other than SCALEBAR change nothing |
| Scalebar.SkipsPreamble | scalebar.php:143-147 | lines before the clause that are not SCALEBAR do not affect the result |
| Scalebar.SkipsTrailer | scalebar.php:148-149 | lines after a closed clause that are not SCALEBAR do not affect the result |
| Legend.WithLabel | legend.php:47-49 | after construction a label is always present; a read label is kept, otherwise it is the default label |
| Legend.Legend.constructor | legend.php:42-50 | `new Legend()` has status OFF and a default label |
| Legend.Legend.Blank | legend.php:30-35 | the property initialisers, before the constructor body runs |
| Legend.Legend.FromClause | legend.php:42-50 | `new Legend($lines)` succeeds exactly when reading succeeds, and then holds the read properties; otherwise it raises the read error |
| Legend.Legend.Read | legend.php:72-86 | the loop passes exactly when the scanner succeeds, leaving its properties, and otherwise stops with the scanner's error |
| Legend.WriteLegend | legend.php:57-64 | a written clause opens with LEGEND and closes with END # LEGEND |
| Legend.WriteOutcome | legend.php:57-64 | write() succeeds exactly when the status is 0 or 1, with three lines plus the label's; otherwise it fails on the status |
| Legend.WriteThenRead | legend.php:57-86 | with status ON and a well-formed label block, reading the written clause gives back the status and the label as the parsed block |
| Legend.StatusOffFails | legend.php:57-86 | a clause written with status OFF cannot be read back: the read fails on STATUS OFF |
| Legend.StatusOffRejected | legend.php:82-83 | the line STATUS OFF fails the read |
| Legend.StatusOn | legend.php:82-83 | the line STATUS ON sets the status to ON |
| Legend.NumericStatusIsOff | legend.php:99-100 | STATUS 0 or STATUS 1 sets the status to 0, because the token's intval is 0 |
| Legend.StatusWordRead | legend.php:82-83 | a status token in any letter case sets its code, except OFF, which fails |
| Legend.AssignStatus | legend.php:82-83 | a STATUS line stores the converted, upper-cased argument, or fails |
| Legend.StatusStep | legend.php:82-83 | a written STATUS line reads back through convertStatus |
| Legend.LabelOpens | legend.php:82 | a LABEL line starts a buffer holding it |
| Legend.BufferStep | legend.php:82 | inside LABEL every other line is buffered trimmed |
| Legend.Buffering | legend.php:82 | a run of such lines is buffered trimmed, in order |
| Legend.LabelCloses | legend.php:82 | END [# LABEL] turns the buffer plus that line into the label |
| Legend.LabelBlockRead | legend.php:82 | a whole LABEL block becomes the label, built from its trimmed lines |
| Legend.SecondLabelReplaces | legend.php:82 | a second LABEL block replaces the first |
| Legend.UnterminatedLabel | legend.php:82 | a LABEL block without an END keeps buffering and sets no label |
| Legend.RestBuffered | legend.php:82 | the lines after LABEL are buffered after it |
| Legend.TruncatedLabelGetsDefault | legend.php:47-49 | a clause cut off inside LABEL gets the default label |
| Legend.HeaderStep | legend.php:78-79 | the LEGEND line enters the clause |
| Legend.FooterStep | legend.php:80-81 | the written END # LEGEND line leaves the clause |
| Legend.ClosingLine | legend.php:80-81 | any line that trims to END # LEGEND leaves the clause and keeps the status |
| Legend.ClauseRead | legend.php:72-86 | a clause followed by a label block and the footer reads into its status plus the label |
| Legend.ScanFailsAt | legend.php:75-85 | the read stops at the first line whose conversion throws |
| Legend.ScanAppend | legend.php:75 | reading two runs of lines is reading the first, then the second from where it stopped, unless the first failed |
| Legend.Outside | legend.php:75-79 | outside the clause, lines other than LEGEND change nothing |
| Legend.SkipsPreamble | legend.php:75-79 | lines before the clause that are not LEGEND do not affect the result |
| Legend.SkipsTrailer | legend.php:80-81 | lines after a closed clause that are not LEGEND do not affect the result |

## Left out

- The Label class is not part of this model. A label is either the default label or the block of trimmed lines it was built from. `Label::write($indent)` is a function parameter (`LabelWriter`) of the writers.
- floatval() is not modelled. The float properties of Style hold the `[0-9.]+` text they were read from and are written back verbatim. PHP would normalise them (`1.50` becomes `1.5`, `1.2.3` becomes `1.2`).
- Integers are unbounded, so intval() never saturates at PHP_INT_MAX.
- Exceptions become `Failure` values. Each carries the attribute name and the offending text rather than the formatted message string.
- PHP_EOL is not written out. A clause is a sequence of lines.
- Whole-file splitting into clauses, map rendering, and symbol or font lookup happen outside these classes and are not modelled.
- The PHP property `label` is the field `theLabel`, because `label` is reserved in Dafny.
- Each anchored, case-insensitive regular expression is modelled as a keyword test followed by an argument matcher. The equivalence of the two forms is stated in the matchers' doc comments, not proved against a regular-expression semantics.
- Scalebar.WriteScalebar: requires a label, which the constructor always installs; a Scalebar whose `label` was set to null by hand is not modelled.
- Legend.WriteLegend: requires a label, for the same reason.
- Style.Style.GetColor: after unsetColor PHP emits undefined-index notices and returns nulls; the model returns absent components and leaves out the notices.
- Style.Style.GetOutlineColor: same as GetColor.
- Style.WriteThenRead: stated only for properties the reader's patterns accept back: decimal text for the floats, non-negative integers, a one-line symbol name, and decimal pattern values. The rest is covered by the ignored-line lemmas.
- Scalebar.WriteThenRead: stated for status ON, units other than INCHES, non-negative intervals and non-negative colour components. Status OFF and units INCHES cannot be read back, which Scalebar.StatusOffFails and Scalebar.InchesFails prove. Negative intervals (the property is public) are written but ignored on reading, which Scalebar.NegativeIntervalsIgnored proves. Negative colour components cannot arise: the colours are private, the setters reject them and the reader's `[0-9]+` never yields them.
- Legend.WriteThenRead: stated for status ON. Status OFF cannot be read back, which Legend.StatusOffFails proves.
- Style colour setters and writers take PHP integers as given. Non-integer arguments, which PHP would compare loosely, are not modelled.
