# agg-kicad core, modelled in Dafny

agg-kicad is a collection of Python scripts around KiCad libraries. They
generate footprints and schematic symbols, check libraries against house
rules, panelise boards, assign 3D models and convert BOMs and IBIS pin lists.
This project models the deterministic core of those scripts and proves
properties of the model. There is one Dafny module per script, plus two
shared helper modules:

- `Py` (py.dfy): the Python behaviour the scripts rely on. This covers
  exceptions as an `Outcome` value (`Ok` or `Raise(exc)`), `str.split`,
  `strip`, `lower`, `startswith`, `int()`, `str()` of integers and
  `Decimal()` of text.
- `Sexp` (sexp.py): the S-expression core. The node type is
  `Str | Int | Dec | Flt | List`. `sexp_parse` is a character loop over an
  explicit stack of open lists, written both as a method and as a
  specification function. `sexp_generate` is a recursive function with an
  explicit depth. The round trip between them is proved, together with its
  three exceptions: tuples turn into lists, numbers turn into their text,
  and `""` reads back as `"~"`.
- The two older parsers (`ModDraw`, used by `FpCheck` too) and the older
  serialiser (`IcMod`). The model proves where each agrees with sexp.py and
  where it diverges.
- Checkers. `CheckMod` and `FpCheck` check parsed footprints.
  `LibText`, `CheckLib`, `LibCheck` and `Libcheck2` check legacy symbol
  library text. Every message a rule adds is stated, and a checker passes
  exactly when its list of messages is empty.
- Generators:
  - `KicadMod`, `IcMod` and `BuildModIc` build footprint trees. The
    model proves pad numbering, the skip-pin specifier language and BGA pad
    naming.
  - `BuildLibIc` and `IcLib` build symbol text. Every pin lands on the
    100-mil grid. For `BuildLibIc` the model also proves three facts about
    the text: checkdefs finds exactly one DEF, every field passes
    check_lib.py's field rules, and check_lib.py's pin rules flag a pin
    exactly under the conditions `BuildLibIc.PinChecked` names. It does not
    prove that the whole library passes checklib.
  - `BuildLibSwitch` and `BuildLibConnector` build symbol trees. Pin
    numbering is proved to be a permutation of 1..N.
- Transformers:
  - `Panelise` replicates board items by exact Decimal offsets.
  - `Set3d` is the line-rewriting pass that adds or replaces 3D models.
  - `Ibis2yaml` reads the `[Pin]` section of an IBIS component description
    (ANSI/EIA-656).
  - `Xml2bom` groups BOM components and detects inconsistent order codes.

Each parser, generator and checker is a pure function. A loop that the
script runs becomes a Dafny method, proved equal to the specification
function. The functions are deterministic by construction.

## Model

| member | source | states |
|---|---|---|
| Sexp.DecimalText | scripts/sexp.py:49-50 | str() of a Decimal is non-empty and made of number characters only |
| Sexp.DecimalDigits | scripts/sexp.py:49-50 | the unsigned part of str(Decimal) is non-empty and made of number characters only |
| Sexp.Fixed4 | scripts/sexp.py:51-52 | "{:.4f}" of a float is non-empty and made of number characters only |
| Sexp.Generate | scripts/sexp.py:40-56 | sexp_generate: a newline, two spaces per depth, then the rendered children joined by single spaces in one pair of parentheses. This is a definition; Sexp.GenerateNorm, RoundTrip and GenerateParseGenerate state its properties |
| Sexp.Flush | scripts/sexp.py:23-25 | the pending token, if any, goes to the innermost open list; the stack keeps its depth |
| Sexp.Close | scripts/sexp.py:26-28 | ")" closes the innermost list into its parent, and raises IndexError exactly when only the root is open |
| Sexp.Step | scripts/sexp.py:20-36 | one loop iteration keeps at least the root list open |
| Sexp.Run | scripts/sexp.py:19-36 | the character loop keeps at least the root list open; the first exception ends it |
| Sexp.Parse | scripts/sexp.py:12-37 | the imperative stack loop returns exactly what the functional parser gives, IndexError included |
| Sexp.ParseChar | scripts/sexp.py:20-36 | one pass of the loop body on one character gives exactly the parser step: the same stack, token and quote flag, or IndexError when `)` closes the root, and the token is never empty |
| Sexp.ParseText | scripts/sexp.py:12-37 | the parser's result `r[0][0]`: the root list's first element, whether a closed list or a top-level atom, IndexError when the root is empty, or the loop's exception. This is a definition; Sexp.Parse, UnbalancedRaises and RoundTrip state its properties |
| Sexp.RaiseStays | scripts/sexp.py:19-37 | once the loop has raised, the rest of the input does not matter |
| Sexp.RunConcat | scripts/sexp.py:19-36 | parsing a + b is parsing a, then b from the state a left |
| Sexp.RunPrefix | scripts/sexp.py:19-36 | one more character of the input is one more loop step |
| Sexp.ParseGivesStrAtoms | scripts/sexp.py:21-36 | every parsed atom is a non-empty str without '"': quotes are never kept and no atom becomes a number |
| Sexp.OpenDoesNotFlush | scripts/sexp.py:20-21 | "(" does not flush a pending token: `(x a(b))` reads as ["x", ["ab"]] |
| Sexp.EmptyQuotedIsTilde | scripts/sexp.py:29-32 | an empty quoted string reads as "~" |
| Sexp.UnbalancedRaises | scripts/sexp.py:26-28 | the input `)` and the input `(a b` both raise IndexError |
| Sexp.RunRaisesIndexError | scripts/sexp.py:19-36 | the only exception the loop can raise is IndexError |
| Sexp.StrayCloseRaises | scripts/sexp.py:26-28 | a `)` read outside quotes while only the root container is open raises IndexError, whatever comes before or after it |
| Sexp.RootEmptyWhileOpen | scripts/sexp.py:16-36 | while the list opened by the first character stays open, nothing reaches the root container |
| Sexp.UnclosedRaises | scripts/sexp.py:37 | input whose first list is never closed raises IndexError |
| Sexp.StepRootGrows | scripts/sexp.py:20-36 | one loop step only ever appends to the root container |
| Sexp.RunRootGrows | scripts/sexp.py:19-36 | what the root container holds is a prefix of what it holds after any further input |
| Sexp.FirstNodeStays | scripts/sexp.py:37 | once the root has a first element, more input that does not raise leaves the result alone. A list left open after it, as in `(a)(b`, is not reported |
| Sexp.PlainRun | scripts/sexp.py:33-36 | outside quotes, text with no structural character extends the token |
| Sexp.QuotedRun | scripts/sexp.py:29-36 | inside quotes every character but '"' extends the token |
| Sexp.BlankRun | scripts/sexp.py:22-25 | with no token pending, spaces and newlines outside quotes change nothing |
| Sexp.AtomRun | scripts/sexp.py:45-52 | an atom's emitted text, read back, leaves exactly its str value pending |
| Sexp.ListRun | scripts/sexp.py:53-56 | an emitted list, read back, appends its normal form to the innermost open list |
| Sexp.ClosingRun | scripts/sexp.py:55-56 | the emitted parts of a list and its ")" close the list into its parent |
| Sexp.RoundTrip | scripts/sexp.py:12-56 | parsing the emitted text of a tree gives the tree with every atom as the str of its text, when str atoms are non-empty and have no '"' or newline |
| Sexp.DecimalTextIsWord | scripts/sexp.py:42-50 | a positional Decimal prints as a word the single_word pattern accepts, so it is emitted bare |
| Sexp.NumberTextIsWord | scripts/sexp.py:42-52 | every number atom prints as a bare word |
| Sexp.GenerateNorm | scripts/sexp.py:40-56 | emitting the parsed tree gives the same text as emitting the original |
| Sexp.GenerateParseGenerate | scripts/sexp.py:12-56 | emit after parse after emit equals emit, on trees that round-trip and whose Decimals print positionally |
| Sexp.ScientificDecimalNotStable | scripts/sexp.py:45-50 | a Decimal printed as "1E-7" is emitted bare, but quoted once read back as a str |
| Sexp.ScientificText | scripts/sexp.py:45-50 | str(Decimal) of 1 at exponent -7 is `1E-7`, which does not match the single-word pattern |
| Sexp.ScientificNorm | scripts/sexp.py:45-50 | read back as a str, `1E-7` is emitted between double quotes |
| KicadMod.Pad | scripts/kicad_mod.py:44-64 | the first seven children are "pad", number, type, shape, at, size, layers; a drill child exactly when a drill or offset is given; mask and paste margins exactly when given |
| KicadMod.FpLine | scripts/kicad_mod.py:9-14 | fp_line: the tag, then start and end points, layer and width, in that order (a definition; KicadMod.ArcAndCircleExtendLine relates it to fp_arc and fp_circle) |
| KicadMod.FpArc | scripts/kicad_mod.py:17-23 | fp_arc: fp_line's items with the angle entry inserted after the end point (a definition; KicadMod.ArcAndCircleExtendLine states it) |
| KicadMod.FpCircle | scripts/kicad_mod.py:26-31 | fp_circle: fp_line's items with the first point tagged `center` (a definition; KicadMod.ArcAndCircleExtendLine states it) |
| KicadMod.FpText | scripts/kicad_mod.py:34-41 | fp_text: type, text, an `at` entry holding every position item, the layer, and the font size and thickness under `effects` (a definition; KicadMod.FpTextAt states it) |
| KicadMod.DrillLayout | scripts/kicad_mod.py:50-59 | the drill child holds the drill (a number appended, a list spliced) and then the offset, last |
| KicadMod.ArcAndCircleExtendLine | scripts/kicad_mod.py:9-31 | fp_arc is fp_line with an angle after the end point; fp_circle is fp_line with "center" in place of "start" |
| KicadMod.DrawSquare | scripts/kicad_mod.py:67-78 | the corners of the width × height rectangle centred on centre, and four lines, each starting where the previous ended, the last closing on the first |
| KicadMod.FpTextAt | scripts/kicad_mod.py:34-41 | the position child is "at" followed by every entry of the position, so two- and three-element positions both survive; layer and effects follow |
| PyTree.Index | scripts/check_mod.py:21 | `n[i]` raises exactly when n is neither a long enough list nor a long enough str; a list gives its element, a str a one-character str |
| PyTree.Elements | scripts/check_mod.py:21 | iterating a list gives its elements, a str its characters; a number raises TypeError |
| PyTree.Matching | scripts/check_mod.py:24 | the filter keeps only elements of the list whose head is the tag |
| PyTree.Pick | scripts/check_mod.py:24 | the pick is an element of x headed by the tag |
| PyTree.MatchingFirst | scripts/check_mod.py:24 | when every element can be tested, the first element kept is the first element headed by the tag |
| PyTree.PickFirst | scripts/check_mod.py:24 | the pick of a list is its first element headed by the tag |
| PyTree.DecimalNode | scripts/check_mod.py:39-41 | Decimal(atom) succeeds on a str exactly when it is a decimal literal, with that literal's value, and raises InvalidOperation otherwise; a list raises ValueError |
| ModDraw.SexpParse | scripts/moddraw.py:39-60 | the stack loop returns exactly what the functional parser gives, in the strain that drops empty tokens |
| ModDraw.SameRun | scripts/moddraw.py:39-60 | on input with no two adjacent double quotes, this parser and sexp.py's step through the same states |
| ModDraw.SameTree | scripts/moddraw.py:39-60 | on input with no two adjacent double quotes, this parser and sexp.py's give the same tree |
| ModDraw.EmptyQuotedVanishes | scripts/moddraw.py:50-57 | `(a "")` reads as ["a"] here and as ["a", "~"] in sexp.py |
| CheckMod.SweepRaiseStays | scripts/check_mod.py:21-30 | once a lookup inside a check raises, the rest of the loop does not matter |
| CheckMod.Walk | scripts/check_mod.py:58-72 | the for loop of a check appends each child's messages to the caller's list, or passes the first exception on |
| CheckMod.Apply | scripts/check_mod.py:56-74 | a check is its loop over the children, then checkctyd's closing "No courtyard found" test |
| CheckMod.RunChecks | scripts/check_mod.py:83-87 | the checks run one after the other on one list |
| CheckMod.CheckModule | scripts/check_mod.py:77-98 | checkmod's list holds the checks' messages, and it passes exactly when the list is empty; an exception is passed on |
| CheckMod.CheckText | scripts/check_mod.py:80-87 | checkmod on file text: a parse exception is passed on, otherwise the checks run on the parsed module |
| CheckMod.ChainEmpty | scripts/check_mod.py:83-89 | checkmod passes exactly when each check runs and adds nothing |
| CheckMod.ChainOrder | scripts/check_mod.py:83-87 | when every check runs, the list is the checks' messages in order |
| CheckMod.OneInAnySpelling | scripts/check_mod.py:39 | "1", "1.0", "1.00" and so on all have value 1, as the Decimal comparison treats them |
| CheckMod.DecimalSilk | scripts/check_mod.py:85 | the limit "0.15" has value 0.15 |
| CheckMod.DecimalFab | scripts/check_mod.py:86 | the limit "0.01" has value 0.01 |
| CheckMod.RefValOf | scripts/check_mod.py:22-30 | checkrefval's messages for one text: F.Fab when the layer is another, REF** for a reference, the module-name prefix for a value |
| CheckMod.RefValErrors | scripts/check_mod.py:22-30 | checkrefval's body for one fp_text: the layer, reference and value messages, or the exception of a lookup (a definition; CheckMod.RefValOf states it, and RefValOnFpText states its result on an fp_text built by KicadMod.FpText) |
| CheckMod.FpTextLayer | scripts/check_mod.py:24 | on an fp_text built by kicad_mod.py the layer lookup finds its own layer child |
| CheckMod.FpTextEffects | scripts/check_mod.py:35-38 | on an fp_text built by kicad_mod.py the effects, font, size and thickness lookups find its own children |
| CheckMod.RefValOnFpText | scripts/check_mod.py:20-30 | on an fp_text built by kicad_mod.py: a layer message iff the layer is not F.Fab, a REF** message iff a reference's text differs, a name message iff a value's text is not a prefix of the module name; other types add nothing |
| CheckMod.FontVisit | scripts/check_mod.py:34-42 | checkfont on an fp_text whose four lookups succeed adds the font-value messages |
| CheckMod.FontErrors | scripts/check_mod.py:35-42 | checkfont's body for one fp_text: the four lookups, then the size and thickness messages (a definition; CheckMod.FontValuesOf states the comparisons, and FontOnFpText states its result on an fp_text built by KicadMod.FpText) |
| CheckMod.FontValuesOf | scripts/check_mod.py:39-42 | the size message appears iff either dimension differs in value from 1, the thickness message iff it differs from 0.15 |
| CheckMod.FontOnFpText | scripts/check_mod.py:33-42 | on an fp_text built by kicad_mod.py: a size message iff either dimension differs from 1, a thickness message iff it differs from 0.15 |
| CheckMod.FpLineEnds | scripts/check_mod.py:61-62 | on an fp_line built by kicad_mod.py the start and end lookups find its own children |
| CheckMod.FpLineStyle | scripts/check_mod.py:59-60 | on an fp_line built by kicad_mod.py the layer and width lookups find its own children |
| CheckMod.LinesVisit | scripts/check_mod.py:47-53 | checklines on a drawing whose two lookups succeed adds the message iff it is on a checked layer with another width |
| CheckMod.LineErrors | scripts/check_mod.py:48-53 | checklines' body for one line: the two lookups, then the width message on a checked layer (a definition; CheckMod.LinesOnFpLine states its result on an fp_line built by KicadMod.FpLine) |
| CheckMod.LinesOnFpLine | scripts/check_mod.py:45-53 | on an fp_line built by kicad_mod.py: a message iff it is on one of the layers and its width differs in value from the limit |
| CheckMod.OffGridOf | scripts/check_mod.py:68-71 | the grid test fails iff one of the four coordinates is not a multiple of 0.05 |
| CheckMod.CourtyardVisit | scripts/check_mod.py:58-72 | checkctyd on an fp_line whose four lookups succeed gives the courtyard value tests |
| CheckMod.CourtyardErrors | scripts/check_mod.py:59-72 | checkctyd's body for one fp_line: the four lookups, then on a courtyard layer the width and grid messages and the found flag (a definition; CheckMod.CourtyardStep states the found flag and the messages of one visit, and OffGridOf states its grid test) |
| CheckMod.CourtyardOnFpLine | scripts/check_mod.py:56-72 | on an fp_line built by kicad_mod.py: off the courtyard layers nothing; on them it counts, with a width message iff the width is not 0.01 and a grid message iff a coordinate is off the 0.05 grid |
| CheckMod.SweepParts | scripts/check_mod.py:58-72 | when every step runs, a courtyard is found iff some child's step found one, and every message comes from some child |
| CheckMod.CourtyardStep | scripts/check_mod.py:63-72 | one checkctyd step counts the child iff it is a courtyard line, and reports only the width and grid messages |
| CheckMod.CourtyardMissing | scripts/check_mod.py:73-74 | "No courtyard found" is reported iff no child is an fp_line on a courtyard layer |
| FpCheck.CheckModule | scripts/fpcheck.py:93-112 | checkmod's list holds the four checks' messages, and it passes exactly when the list is empty; an exception is passed on |
| FpCheck.CheckText | scripts/fpcheck.py:96-102 | checkmod on file text read with fpcheck.py's own parser, which drops empty tokens |
| FpCheck.SweepQuiet | scripts/fpcheck.py:41-46 | a loop passed by one step is passed by another that passes every child the first passes |
| FpCheck.RefValStricter | scripts/fpcheck.py:40-46 | check_mod.py's reference/value step passes a child only if fpcheck.py's does |
| FpCheck.LinesMessageOnly | scripts/fpcheck.py:61-69 | the silk width test and check_mod.py's width test differ only in their message |
| FpCheck.CheckQuiet | scripts/fpcheck.py:99-102 | a rule passes a module whenever a rule stricter on every child does |
| FpCheck.ModPassImpliesFpPass | scripts/fpcheck.py:93-104 | every footprint check_mod.py passes, fpcheck.py passes too |
| LibText.FindAll | scripts/check_lib.py:48 | findall gives no more matches than there are lines |
| LibText.FindAllMembers | scripts/check_lib.py:48 | a match is found iff some line yields it |
| LibText.ClassPrefix | scripts/check_lib.py:23-25 | a `[...]*` group matches the longest prefix of characters in its class, up to a limit |
| LibText.DefOf | scripts/check_lib.py:22 | a line matches the DEF pattern iff it splits on spaces into at least four pieces, the first "DEF" |
| LibText.PinOf | scripts/check_lib.py:23-26 | a matched pin line has coordinates of digits and '-' and a length of digits |
| LibText.FieldOf | scripts/check_lib.py:27-41 | a matched field line has coordinates of digits and '-' and a size of digits |
| LibText.FillOf | scripts/check_lib.py:42 | a box or polyline line matches iff it starts "S " or "P " and ends with a space and one of N, f, F; the fill is that last character |
| LibText.FindAllConcat | scripts/check_lib.py:48 | findall over two runs of lines finds the first run's matches, then the second's |
| LibText.FindAllNone | scripts/check_lib.py:48 | findall finds nothing in lines none of which matches |
| LibText.NoDefUnlessD | scripts/check_lib.py:22 | a line that does not start with D holds no DEF |
| LibText.LibName | scripts/check_lib.py:57 | the library name holds no '/' and no '.' |
| LibText.CheckDefs | scripts/check_lib.py:45-62 | checkdefs appends the count and name messages and returns the first definition's name and designator; with no definition it raises IndexError |
| LibText.ScanPins | scripts/check_lib.py:68-81 | the pin loop appends each pin's messages to the caller's list and collects the numeric pins, or passes the first exception on |
| LibText.Range | scripts/check_lib.py:84 | `set(range(lo, hi + 1))` holds exactly lo..hi |
| LibText.Present | scripts/check_lib.py:85 | `set(nums)` holds exactly the numbers |
| LibText.Gaps | scripts/check_lib.py:84-86 | the missing numbers are those between the least and the greatest that do not occur; none iff set(nums) equals the range |
| CheckLib.Duplicates | scripts/check_lib.py:89 | the duplicated set holds exactly the numbers found at two positions |
| CheckLib.CheckPins | scripts/check_lib.py:65-91 | the pin loop and the numbering tests append exactly the pin messages of the found pins |
| CheckLib.PinRules | scripts/check_lib.py:69-78 | each pin rule on the pin's fields: off the 100 mil grid, a length other than 100 or 150 for IC or U, a text size other than 50 |
| CheckLib.CountTwo | scripts/check_lib.py:89 | `nums.count(x) > 1` iff two positions hold x |
| CheckLib.NoGaps | scripts/check_lib.py:84-86 | no gap iff every number between the least and the greatest occurs |
| CheckLib.NoDuplicates | scripts/check_lib.py:89-91 | no duplicate iff all positions hold different numbers |
| CheckLib.NumberingPasses | scripts/check_lib.py:83-91 | no numbering message iff the numeric pins are min..max, each exactly once |
| CheckLib.NumberMessages | scripts/check_lib.py:83-91 | the only numbering messages are the missing and duplicated ones, carrying exactly the gaps and exactly the repeated numbers |
| CheckLib.CheckBoxes | scripts/check_lib.py:94-98 | the box message is given iff the designator is IC and no box or polyline has fill "f" |
| CheckLib.CheckRows | scripts/check_lib.py:112-123 | the inner loop of checkfields appends the messages of each row of one field kind |
| CheckLib.Unquote | scripts/check_lib.py:131 | `s[1:-1]` drops the first and last characters, or gives "" for a shorter text |
| CheckLib.CheckGroups | scripts/check_lib.py:111-123 | the outer loop of checkfields appends the messages of each field kind in turn |
| CheckLib.CheckFields | scripts/check_lib.py:101-140 | checkfields appends the field messages, then the reference-above-name and footprint tests |
| CheckLib.FieldRules | scripts/check_lib.py:113-123 | reference and name must show unless the text marks them invisible, other fields must be hidden, and every field must be horizontal with size "50" |
| CheckLib.FootprintRule | scripts/check_lib.py:131-140 | the no-library message is given iff the footprint is non-empty, not under `agg:` and has no colon |
| CheckLib.CheckLibrary | scripts/check_lib.py:143-175 | checklib passes iff no check adds a message; an exception is passed on |
| CheckLib.ReferenceAbove | scripts/check_lib.py:125-129 | the reference must be strictly above the name |
| LibCheck.CheckPins | scripts/libcheck.py:55-77 | the pin loop and the gap test append exactly libcheck.py's pin messages |
| LibCheck.LengthRule | scripts/libcheck.py:62-65 | a designator IC or U needs pins exactly 100 long, so 150 is refused here and admitted by check_lib.py |
| LibCheck.GapsOnly | scripts/libcheck.py:73-77 | libcheck.py's numbering messages are check_lib.py's without the duplicate message |
| LibCheck.RepeatUnreported | scripts/libcheck.py:57-77 | pins 1, 1, 2 pass here but get a duplicate message from check_lib.py |
| LibCheck.CheckFields | scripts/libcheck.py:87-105 | checkfields appends the reference and name messages, then the reference-above-name test |
| LibCheck.FieldKinds | scripts/libcheck.py:91 | the field kinds checked are the reference and the name, in that order |
| LibCheck.CheckLibrary | scripts/libcheck.py:108-139 | checklib passes iff no check adds a message; an exception is passed on |
| Libcheck2.SplitLinesFromClean | scripts/libcheck2.py:18 | no line splitlines gives holds a line break, and the text after the last break is a line only when non-empty |
| Libcheck2.SplitLinesClean | scripts/libcheck2.py:18 | no line holds a break, and the empty text has no lines |
| Libcheck2.SplitTerminated | scripts/libcheck2.py:18 | break-free lines each followed by a newline split back into themselves, the first joined to the partial line |
| Libcheck2.SplitLinesTerminated | scripts/libcheck2.py:18 | writing break-free lines one per line and splitting the text gives the lines back |
| Libcheck2.CutRuns | scripts/libcheck2.py:34-39 | the accumulation loop loses and reorders no line: the runs then the buffer are the lines, each run closes at its only ENDDEF, the buffer holds none and there is one run per ENDDEF |
| Libcheck2.ParseLib | scripts/libcheck2.py:13-42 | parse_lib's loop gives exactly the symbols of the specification function: one per run handed to parse_sym, or the IndexError of a missing first or second line |
| Libcheck2.ParseLibOf | scripts/libcheck2.py:13-42 | parse_lib: IndexError with no lines, no symbols under a wrong header, IndexError for a lone header, otherwise one symbol per run of lines (a definition; Libcheck2.ParseLib computes it and ParseLibCounts states it) |
| Libcheck2.ParseLibCounts | scripts/libcheck2.py:13-51 | parse_lib raises IndexError iff the text has no lines or only a correct header, gives no symbols for a wrong header, and otherwise one None per ENDDEF line after the header |
| Libcheck2.ParseWritten | scripts/libcheck2.py:13-42 | a library written as a header, an encoding line and the symbols' lines yields one symbol per ENDDEF line among them |
| IcMod.LegacyBareIff | scripts/icmod.py:179 | icmod.py's bare-word pattern accepts exactly sexp.py's bare words plus "", "-" and those two followed by a newline |
| IcMod.LegacyGenerate | scripts/icmod.py:177-193 | icmod.py's own sexp_generate, where a Decimal atom makes the join raise TypeError (a definition; IcMod.LegacyGenerateAgrees and LegacyDivergence compare it with Sexp.Generate) |
| IcMod.LegacyGenerateAgrees | scripts/icmod.py:177-193 | icmod.py's sexp_generate fails, with TypeError, exactly on trees holding a Decimal; on other trees without "", "-" it writes the same text as sexp.py's generate |
| IcMod.LegacyJoinAgrees | scripts/icmod.py:181-193 | the same agreement for the parts joined inside one list |
| IcMod.LegacyPartAgrees | scripts/icmod.py:182-192 | the same agreement for one node |
| IcMod.LegacyDivergence | scripts/icmod.py:182-189 | "" and "-" are written bare here and quoted by sexp.py, and a Decimal cannot be written at all |
| IcMod.PadIsPlainKicadPad | scripts/icmod.py:231-235 | icmod.py's pad is kicad_mod.py's pad with every option left out |
| IcMod.PinCentres | scripts/icmod.py:252-275 | the loop appending to the left and bottom rows and inserting at the front of the right and top rows gives exactly the four rows of the specification function |
| IcMod.CentresMirror | scripts/icmod.py:258-275 | every row holds pins // rows centres; the right row mirrors the left in x and reverses it, the bottom row is the left rotated, the top the bottom mirrored and reversed, and neighbouring left centres are one pin pitch apart |
| IcMod.CentresCentred | scripts/icmod.py:259-267 | the first and last centres of the left row are symmetric about the origin |
| IcMod.AppendRow | scripts/icmod.py:402-404 | one row loop appends exactly the row's pads, numbered on from num, and advances num by the row's length |
| IcMod.Pads | scripts/icmod.py:393-416 | every pad is numbered consecutively from 1 in the order left, bottom, right, top (left and right only for two rows), and sits at its centre; the left and right rows use pad_shape, the other two its transpose |
| IcMod.RowPadShape | scripts/icmod.py:402-404 | the k-th pad of a row has number first + k and sits at the k-th centre |
| IcMod.RowPadsNumbered | scripts/icmod.py:401-416 | the concatenated rows hold one pad per centre, the k-th numbered k + 1 and placed at the k-th centre in row order |
| IcMod.MainChecks | scripts/icmod.py:441-444 | main's assertions pass iff rows is 2 or 4 and rows divides pins, and fail with AssertionError otherwise |
| IcMod.PadCountIsPins | scripts/icmod.py:393-416 | once main's assertions pass, a footprint has exactly `pins` pads |
| BuildModIc.FirstDigit | scripts/build_mod_ic.py:128 | the position of the first digit, or the length when there is none |
| BuildModIc.SkipMatch | scripts/build_mod_ic.py:128-131 | a match gives a number group of digits with at most one inner dash, and a letter group of capitals with at most one inner dash when it takes part |
| BuildModIc.NumberRange | scripts/build_mod_ic.py:134 | `range(a, b + 1)` has b - a + 1 entries, none when b < a |
| BuildModIc.ListIndex | scripts/build_mod_ic.py:139-140 | list.index finds x iff x is in the list, at its first position; otherwise the ValueError case |
| BuildModIc.Letters | scripts/build_mod_ic.py:137-143 | a letter group without a dash stands for itself |
| BuildModIc.Prefixed | scripts/build_mod_ic.py:144-146 | one letter followed by each number, in order |
| BuildModIc.ExpandOne | scripts/build_mod_ic.py:124-146 | a specifier without '-' passes through as it is; only a specifier with '-' can raise, with ValueError or TypeError |
| BuildModIc.ExpandSkips | scripts/build_mod_ic.py:110-147 | the loop over the specifiers gives exactly the specification function's expansion, exception included |
| BuildModIc.ExpandAll | scripts/build_mod_ic.py:110-147 | expand_skips over a whole list: the pins each specifier names, in order, or the first failing specifier's exception (a definition; BuildModIc.ExpandSkips computes it and RaiseStays states the stop) |
| BuildModIc.AppendCross | scripts/build_mod_ic.py:144-146 | the two nested loops append exactly the letter-major cross product |
| BuildModIc.RaiseStays | scripts/build_mod_ic.py:123-147 | once a prefix of the specifiers raises, the whole expansion raises the same |
| BuildModIc.ExpandPlain | scripts/build_mod_ic.py:123-127 | specifiers without '-' pass through as their text, in order |
| BuildModIc.CrossAt | scripts/build_mod_ic.py:144-146 | the cross product holds \|lets\| * \|nums\| entries, lets[i] + nums[j] at position i * \|nums\| + j |
| BuildModIc.CrossOne | scripts/build_mod_ic.py:144-146 | with one number, it is appended to every letter in turn |
| BuildModIc.SkipMatchSplit | scripts/build_mod_ic.py:128-131 | text made of a letter part and a number part ending in a digit splits into those two groups, the letter group absent when empty |
| BuildModIc.NumberRangeInclusive | scripts/build_mod_ic.py:132-134 | `<a>-<b>` stands for a, a+1, ..., b, nothing when b < a |
| BuildModIc.NumbersOfRange | scripts/build_mod_ic.py:132-136 | the number group `<a>-<b>` and the numbers it stands for |
| BuildModIc.SingleLetterRange | scripts/build_mod_ic.py:142-146 | one letter run in front of a number range gives the letter followed by each number |
| BuildModIc.LettersInclusive | scripts/build_mod_ic.py:137-141 | `X-Y` is the inclusive slice of letters between the first positions of X and Y; a missing letter raises ValueError |
| BuildModIc.LetterRangeExpands | scripts/build_mod_ic.py:137-146 | a letter range in front of a number group gives each letter followed by each number |
| BuildModIc.LetterRangeInclusive | scripts/build_mod_ic.py:137-146 | `X-Y<n>` names each letter of the slice followed by n |
| BuildModIc.NoLetterPartRaises | scripts/build_mod_ic.py:131-137 | a range without a letter part raises TypeError, since the missing group is None |
| BuildModIc.MalformedRaises | scripts/build_mod_ic.py:128-130 | a malformed range such as "A-" or "A1-2x" raises ValueError |
| BuildModIc.DefaultLettersOmit | scripts/build_mod_ic.py:157 | the default row letters are 20 capitals in increasing order, without I, O, Q, S, X and Z |
| BuildModIc.Chars | scripts/build_mod_ic.py:159 | `list(letters)`: each character as a one-character string |
| BuildModIc.BgaLettersLayout | scripts/build_mod_ic.py:159 | the single letters come first, then the pair (i, j) at n + i * n + j |
| BuildModIc.BgaPairAt | scripts/build_mod_ic.py:159 | the pair of letters i and j sits at position n + i * n + j |
| BuildModIc.GridCentred | scripts/build_mod_ic.py:172-173 | mirrored columns have opposite x, so the grid is centred on the origin |
| BuildModIc.RowOmitsSkipped | scripts/build_mod_ic.py:166-174 | no pad of a row has a skipped id |
| BuildModIc.GridOmitsSkipped | scripts/build_mod_ic.py:165-174 | no pad of the grid has a skipped id |
| BuildModIc.BgaPinCentres | scripts/build_mod_ic.py:150-175 | the row-major nested loops give exactly the specification function's cells |
| BuildModIc.BgaPinCentresOf | scripts/build_mod_ic.py:150-175 | bga_pin_centres: the skip list expanded over the doubled letter list, then the grid rows, or the first exception (a definition; BuildModIc.BgaPinCentres computes it, and GridOmitsSkipped, GridComplete and GridCentred state the grid rows it returns) |
| BuildModIc.AppendGridRow | scripts/build_mod_ic.py:166-174 | the column loop appends exactly one row's cells |
| BuildModIc.GridComplete | scripts/build_mod_ic.py:165-174 | every cell whose id is not skipped is present, with its coordinates |
| BuildModIc.RowComplete | scripts/build_mod_ic.py:166-174 | every cell of one row whose id is not skipped is present |
| BuildModIc.SideRows | scripts/build_mod_ic.py:96-100 | the first loop builds the left row downwards and the right row by inserting at the front |
| BuildModIc.EndRows | scripts/build_mod_ic.py:101-105 | the second loop builds the bottom row forwards and the top row by inserting at the front |
| BuildModIc.PinCentres | scripts/build_mod_ic.py:72-107 | pin_centres gives exactly the four rows of the specification function |
| BuildModIc.CentresMirror | scripts/build_mod_ic.py:80-107 | left and right hold pins_first_row centres (else pins // rows), bottom and top the rest halved; right is left reversed with x negated, top is bottom reversed with y negated |
| BuildModIc.UniformIsIcMod | scripts/build_mod_ic.py:85-107 | without pins_first_row the rows are icmod.py's |
| BuildModIc.Kept | scripts/build_mod_ic.py:502-507 | the kept offsets are increasing and are exactly those whose 1-based position is not in skip (a str entry never matches) |
| BuildModIc.KeptConcat | scripts/build_mod_ic.py:519-534 | the positions kept over two rows are the first row's followed by the second's, counted on |
| BuildModIc.KeptAll | scripts/build_mod_ic.py:502-507 | with nothing skipped every position is kept |
| BuildModIc.PadRow | scripts/build_mod_ic.py:500-508 | pad_row emits a pad only for an unskipped position, advancing idx once per centre and num once per pad |
| BuildModIc.PadAt | scripts/build_mod_ic.py:502-507 | one pass of pad_row's loop: the pad for the centre and the next number, or nothing when the position is skipped, keeping the row's pads equal to the pads of the kept centres so far |
| BuildModIc.RowPadsNumbered | scripts/build_mod_ic.py:500-508 | the pads of a row are numbered consecutively from num and sit at the kept centres |
| BuildModIc.NumberedConcat | scripts/build_mod_ic.py:519-534 | two rows numbered one after the other make one numbered row |
| BuildModIc.Pads | scripts/build_mod_ic.py:511-535 | pads are numbered 1, 2, ... over the kept positions in the order left, bottom, right, top, each at its centre |
| BuildModIc.RowsPads | scripts/build_mod_ic.py:518-534 | the pads of all rows number the kept positions 1, 2, ... in the order left, bottom, right, top (bottom and top only for four rows), each pad at its centre |
| BuildModIc.AppendRow | scripts/build_mod_ic.py:522-534 | one pad_row call after earlier rows: num and idx run on, and the pads so far number the kept positions of all rows read so far |
| BuildModIc.PadOrderOf | scripts/build_mod_ic.py:518-534 | the visiting order is the left, bottom, right and top rows for four rows, and the left and right rows otherwise |
| BuildModIc.NumberedThenExposed | scripts/build_mod_ic.py:519-535 | appending the exposed pads after the row pads keeps the row pads' numbers and centres and puts the exposed pads last |
| BuildModIc.NoSkipAllPads | scripts/build_mod_ic.py:511-535 | with nothing skipped, pads 1..n sit at the n centres in order |
| BuildModIc.Dispatch | scripts/build_mod_ic.py:608-619 | rows with pins is a dual or quad package after the two assertions; rows with cols a BGA; anything else raises ValueError |
| BuildModIc.QuadPadCount | scripts/build_mod_ic.py:610-615 | a package that passes main's checks has one pad centre per pin without pins_first_row |
| BuildModIc.WithoutTedit | scripts/build_mod_ic.py:629-630 | the kept elements are elements of the input and none is a list headed "tedit" |
| BuildModIc.DropTeditFilters | scripts/build_mod_ic.py:629-630 | the filter over indexable nodes succeeds with the tedit-free elements |
| BuildModIc.WithoutTeditConcat | scripts/build_mod_ic.py:629-630 | the filter distributes over concatenation |
| BuildModIc.UnchangedIff | scripts/build_mod_ic.py:626-632 | for generated footprints the comparison holds exactly when the trees agree once atoms are read back as text and tedit children are dropped |
| BuildModIc.TeditIgnored | scripts/build_mod_ic.py:626-632 | two footprints that differ only in their tedit child count as unchanged |
| BuildModIc.TeditDropped | scripts/build_mod_ic.py:629-630 | a tedit child vanishes from the filtered tree |
| BuildLibIc.PinTypeCodes | scripts/build_lib_ic.py:38-52 | every electrical type maps to a one-letter code, and od and os share the codes of oc and oe |
| BuildLibIc.MaxOver | scripts/build_lib_ic.py:57-58 | max over the items succeeds iff there is an item and each is measured, and is then at least every item; no item raises ValueError |
| BuildLibIc.LongestDefined | scripts/build_lib_ic.py:57-58 | the nested maxima exist only when every side and every group has a pin |
| BuildLibIc.NumbersMeasured | scripts/build_lib_ic.py:79-80 | once the names can be measured, the numbers can be too |
| BuildLibIc.NameWidth | scripts/build_lib_ic.py:59-60 | the width is a multiple of 200 between 100 * (longest name + 1) and 100 more |
| BuildLibIc.OddHeight | scripts/build_lib_ic.py:71-76 | the height is an odd multiple of 100, at least 100 * rows and at most 100 more |
| BuildLibIc.PinLength | scripts/build_lib_ic.py:81 | the pin length is at least 100 and at least 50 per number character, and is one of the two: whichever is more |
| BuildLibIc.Widened | scripts/build_lib_ic.py:83-84 | the width grows by exactly 100 when the length is not a multiple of 100, and is kept otherwise; after widening, half the width plus the pin length is a multiple of 100 |
| BuildLibIc.Dimensions | scripts/build_lib_ic.py:59-86 | the rows are the larger side's pins plus group gaps; the length is PinLength's and the height meets OddHeight's bounds. The width is NameWidth plus 100 exactly when the length is not a multiple of 100, and it is a multiple of 200 iff the length is a multiple of 100 |
| BuildLibIc.Geometry | scripts/build_lib_ic.py:55-86 | geometry passes on the error of measuring the names first, raises RuntimeError unless there are two sides, and otherwise gives the dimensions |
| BuildLibIc.DrawGroup | scripts/build_lib_ic.py:130-133 | the inner loop appends one line per pin of the group and lowers pin_y by 100 per pin |
| BuildLibIc.DrawPins | scripts/build_lib_ic.py:125-135 | draw_pins gives exactly the specification's lines, one per pin in group order, with a gap row after each group |
| BuildLibIc.Flatten | scripts/build_lib_ic.py:129-130 | the pins of a side in group order, as many as the groups hold |
| BuildLibIc.PlacedLayout | scripts/build_lib_ic.py:127-134 | the pins keep their group order and sit on rows of the 100 grid, each strictly below the one before |
| BuildLibIc.GroupRowsPlaced | scripts/build_lib_ic.py:130-133 | the lines of a group are one line per placed pin, and every type is known |
| BuildLibIc.SideRowsPlaced | scripts/build_lib_ic.py:125-135 | the lines of a side are one line per placed pin |
| BuildLibIc.DrawWith | scripts/build_lib_ic.py:138-154 | the drawing of given dimensions: DRAW, the box, the left pins, the right pins, ENDDRAW |
| BuildLibIc.Draw | scripts/build_lib_ic.py:138-154 | draw gives exactly the specification's drawing, or geometry's exception |
| BuildLibIc.GridOrigin | scripts/build_lib_ic.py:148-149 | dimensions computed by geometry put both pin columns and the top row on the 100-mil grid |
| BuildLibIc.SideOnGrid | scripts/build_lib_ic.py:125-135 | a side whose top row is on the grid has every pin on the grid |
| BuildLibIc.DrawingOnGrid | scripts/build_lib_ic.py:138-154 | the drawing holds the box, then the left pins at x0 and the right at -x0, every one on the 100-mil grid |
| BuildLibIc.DrawOnGrid | scripts/build_lib_ic.py:138-154 | whenever draw succeeds, its dimensions are on the grid and its lines are that drawing |
| BuildLibIc.DrawnPinsOnGrid | scripts/build_lib_ic.py:138-154 | every pin row draw writes reads back, in the library checkers' terms, as a pin on the 100-mil grid |
| BuildLibIc.FrameInner | scripts/build_lib_ic.py:141-153 | the pin rows lie between the frame's first two lines and its last |
| BuildLibIc.DrawnLeftOnGrid | scripts/build_lib_ic.py:150 | the left pin rows are on the grid |
| BuildLibIc.DrawnRightOnGrid | scripts/build_lib_ic.py:151 | the right pin rows are on the grid |
| BuildLibIc.AddOrderCodes | scripts/build_lib_ic.py:118-120 | the order-code loop appends exactly one field line per code |
| BuildLibIc.FieldsWith | scripts/build_lib_ic.py:91-122 | the field lines for given dimensions |
| BuildLibIc.Fields | scripts/build_lib_ic.py:89-122 | fields gives exactly the specification's field lines, or geometry's exception |
| BuildLibIc.FieldLineParses | scripts/build_lib_ic.py:96-115 | a generated field line parses back as horizontal, size 50, left justified and vertically centred, at its own position |
| BuildLibIc.OrderCodeParses | scripts/build_lib_ic.py:119-120 | an order-code line parses back the same way, its supplier a tenth piece |
| BuildLibIc.GeneratedFieldPasses | scripts/build_lib_ic.py:96-120 | a parsed generated field passes check_lib.py's field rules |
| BuildLibIc.FieldsPass | scripts/build_lib_ic.py:89-122 | every field line carries the tag of its place, sits at its own y and passes check_lib.py's field rules |
| BuildLibIc.Library | scripts/build_lib_ic.py:157-170 | library gives exactly the specification's text, or geometry's exception |
| BuildLibIc.Documentation | scripts/build_lib_ic.py:173-181 | documentation succeeds iff a description is given, and raises KeyError otherwise |
| BuildLibIc.LibraryLines | scripts/build_lib_ic.py:157-170 | read back line by line, the library holds its header, the part comment, the DEF line, the fields, the drawing and the closing lines |
| BuildLibIc.LibraryJoined | scripts/build_lib_ic.py:170 | the library text is its rows joined by line breaks |
| BuildLibIc.LibraryOneDef | scripts/build_lib_ic.py:157-170 | a library around fields and drawing free of DEF lines passes checkdefs with exactly one definition, the part's name and designator |
| BuildLibIc.RowsDefs | scripts/build_lib_ic.py:160-169 | the library rows hold exactly one DEF |
| BuildLibIc.DefLineRead | scripts/build_lib_ic.py:163-164 | the DEF line reads back as the part's name and designator |
| BuildLibIc.FramePlain | scripts/build_lib_ic.py:141-153 | the drawing frame around plain pin rows holds no break and no DEF |
| BuildLibIc.RowPlain | scripts/build_lib_ic.py:131-132 | a line joined from break-free pieces, the first not starting with D, holds no break and no DEF |
| BuildLibIc.GeneratedLibraryOneDef | scripts/build_lib_ic.py:157-170 | a library build_lib_ic writes passes checkdefs with exactly one definition, the part's name and designator, when no printed value holds a line break and name and designator hold no space |
| BuildLibIc.DocumentationLines | scripts/build_lib_ic.py:173-181 | read back line by line, the DCM entry holds the name, the description and, exactly when one is set, the datasheet |
| BuildLibIc.IntTextChars | scripts/build_lib_ic.py:131-132 | str(i) is made of digits and a leading minus only |
| BuildLibIc.PinLineParses | scripts/build_lib_ic.py:131-132 | a generated pin line parses back to its own fields |
| BuildLibIc.PinChecked | scripts/build_lib_ic.py:131-132 | check_lib.py flags such a pin off grid exactly when a coordinate is off the 100 grid, never for its text sizes, and for its length only on an IC or U whose length is neither 100 nor 150 |
| IcLib.PinTypesOlder | scripts/iclib.py:779-791 | the table is build_lib_ic.py's without od and os, with the same codes, all letters |
| IcLib.Geometry | scripts/iclib.py:794-822 | geometry passes on the error of measuring the names, raises IndexError when fewer than two sides are listed, and otherwise gives build_lib_ic.py's arithmetic on sides 0 and 1 |
| IcLib.GeometryAgrees | scripts/iclib.py:794-822 | on two-sided parts both generators size the symbol alike; with more sides only iclib.py gives a shape |
| IcLib.GeometryOnGrid | scripts/iclib.py:807-822 | the height is an odd multiple of 100 and both pin columns and the top row sit on the 100-mil grid |
| IcLib.GroupRowsKnown | scripts/iclib.py:866-869 | a group's lines exist exactly when every type is in the table; the only exception is KeyError |
| IcLib.KnownConcat | scripts/iclib.py:865-870 | a run of pins is known exactly when both its parts are |
| IcLib.SideRowsKnown | scripts/iclib.py:861-871 | a side's lines exist exactly when every type of it is in the table |
| IcLib.GroupRowsTables | scripts/iclib.py:866-869 | two tables that agree on a group's types give it the same lines |
| IcLib.SideRowsTables | scripts/iclib.py:861-871 | two tables that agree on a side's types give it the same lines |
| IcLib.Draw | scripts/iclib.py:874-890 | draw gives exactly the specification's lines: the box, then sides 0 and 1 |
| IcLib.DrawRaisesOnlyOnUnknownTypes | scripts/iclib.py:874-890 | drawing raises exactly when a drawn side holds a type the table lacks, and then with KeyError |
| IcLib.OpenDrainRaises | scripts/iclib.py:779-791 | an od or os pin on a drawn side makes draw raise KeyError, although build_lib_ic.py draws it |
| IcLib.DrawOnGrid | scripts/iclib.py:874-890 | every pin draw places sits at a column and a row that are multiples of 100 |
| IcLib.KnownAgree | scripts/iclib.py:779-791 | on the types this table knows, build_lib_ic.py's table gives the same codes |
| IcLib.DrawAgrees | scripts/iclib.py:861-890 | on a two-sided part with no od or os pin both generators draw the same lines |
| IcLib.Fields | scripts/iclib.py:825-858 | fields gives build_lib_ic.py's fixed and order-code fields around this module's geometry |
| IcLib.OrderCodePlacement | scripts/iclib.py:853-856 | the idx-th order code becomes field F{idx+4}, 100 lower per earlier code |
| IcLib.Library | scripts/iclib.py:893-906 | library gives exactly the specification's text: header, DEF line, fields, drawing, footer |
| IcLib.LibraryAgrees | scripts/iclib.py:893-906 | on a two-sided part with no od or os pin both generators write the same library |
| IcLib.Documentation | scripts/iclib.py:909-915 | documentation succeeds iff a description is given, else KeyError |
| IcLib.DocumentationLines | scripts/iclib.py:909-915 | read back line by line, the entry holds the tab header, the name and the description only, whatever the datasheet |
| BuildLibSwitch.HalfHeightOnGrid | scripts/build_lib_switch.py:29-33 | half the height is a multiple of 100 |
| BuildLibSwitch.Heights | scripts/build_lib_switch.py:29-45 | the right-hand pin count is odd and covers every throw and spacer, half the height is on the 100-mil grid, and the reference is above the value |
| BuildLibSwitch.PolePins | scripts/build_lib_switch.py:90-114 | one pole contributes its own pin and one pin per throw |
| BuildLibSwitch.Drawings | scripts/build_lib_switch.py:79-108 | the first k poles contribute k * (m + 2) drawing items |
| BuildLibSwitch.Pins | scripts/build_lib_switch.py:90-114 | the first k poles contribute k * (m + 1) pins |
| BuildLibSwitch.Dashes | scripts/build_lib_switch.py:120-133 | the dash loop contributes 5(m+1)(n-1) items, none for one pole |
| BuildLibSwitch.Switch | scripts/build_lib_switch.py:15-137 | switch gives exactly the specification's symbol |
| BuildLibSwitch.SwitchOf | scripts/build_lib_switch.py:15-137 | switch(n, m): the header, then every drawing item, then every pin (a definition; BuildLibSwitch.Switch computes it, SwitchLayout states its layout, and NumberingPermutes and PinsOnGrid state the numbering and positions of its pins) |
| BuildLibSwitch.DrawPoles | scripts/build_lib_switch.py:70-117 | the pole loop builds exactly the drawings and pins of all n poles |
| BuildLibSwitch.AddPole | scripts/build_lib_switch.py:74-117 | one pass appends the lever, the pivot and a contact per throw to the drawing, and the pole's pin then a pin per throw |
| BuildLibSwitch.AddDashes | scripts/build_lib_switch.py:120-133 | the dash loop appends exactly the dashes |
| BuildLibSwitch.SwitchLayout | scripts/build_lib_switch.py:52-137 | nine header items, then n(m+2) drawing items and the dashes, then n(m+1) pins |
| BuildLibSwitch.PolePinAt | scripts/build_lib_switch.py:90-114 | the j-th pin of a pole is its pin at place j |
| BuildLibSwitch.PinsIndex | scripts/build_lib_switch.py:90-114 | the pins come pole by pole, each pole's pin before its throws |
| BuildLibSwitch.PoleNumbers | scripts/build_lib_switch.py:74-103 | pole p uses exactly p(m+1)+1 .. (p+1)(m+1): the pole the second, throw 0 the first and throw t > 0 the (t+2)-th |
| BuildLibSwitch.NumberingPermutes | scripts/build_lib_switch.py:74-103 | the pin numbering is a permutation of 1 .. n(m+1) |
| BuildLibSwitch.NumberSlot | scripts/build_lib_switch.py:74-103 | the k-th pin's number is in range and leads back to place k |
| BuildLibSwitch.SlotNumber | scripts/build_lib_switch.py:74-103 | every number in range is carried by some pin |
| BuildLibSwitch.SlotPole | scripts/build_lib_switch.py:71-97 | place k belongs to pole k / (m + 1), which is below n |
| BuildLibSwitch.PinNumbers | scripts/build_lib_switch.py:90-114 | the k-th pin of the symbol carries its number as text, so the pins carry 1 .. n(m+1) once each |
| BuildLibSwitch.PinNumbersDistinct | scripts/build_lib_switch.py:90-114 | distinct pins carry distinct number texts |
| BuildLibSwitch.PinsOnGrid | scripts/build_lib_switch.py:70-117 | every pin sits on the 100-mil grid; poles are m + 1 rows apart and each pole is level with the middle of its throws |
| BuildLibSwitch.RowsDown | scripts/build_lib_switch.py:100 | whole rows down from a point on the grid stay on the grid |
| BuildLibSwitch.PoleOffset | scripts/build_lib_switch.py:75-77 | the pole's drop below the pole top is m / 2 whole rows |
| BuildLibSwitch.Library | scripts/build_lib_switch.py:140-148 | main's loops build exactly the specification's library |
| BuildLibSwitch.AddRow | scripts/build_lib_switch.py:146-148 | one pass of the outer loop appends switch(n, 1), switch(n, 2) and switch(n, 3) |
| BuildLibSwitch.AddSymbol | scripts/build_lib_switch.py:146-148 | one pass of the inner loop appends switch(n, m) |
| BuildLibSwitch.NamesDistinct | scripts/build_lib_switch.py:21-51 | the nine symbols have nine different names |
| BuildLibSwitch.LibrarySymbol | scripts/build_lib_switch.py:141-148 | the library is the three header items and nine symbols, switch(n, m) in place 3 + 3(n - 1) + (m - 1) |
| BuildLibSwitch.RowsSymbol | scripts/build_lib_switch.py:146-148 | after k passes of the outer loop, switch(n, m) sits at 3(n - 1) + (m - 1) for every n up to k |
| BuildLibSwitch.SwitchHead | scripts/build_lib_switch.py:51-53 | each symbol is named after its pole and throw counts |
| BuildLibConnector.Pad2Value | scripts/build_lib_connector.py:15 | `{n:02}` is digits that read back as n, exactly two below 100 |
| BuildLibConnector.NamesDistinct | scripts/build_lib_connector.py:15-53 | one-row and two-row names never clash, and each names one count |
| BuildLibConnector.OneRow | scripts/build_lib_connector.py:14-50 | onerow gives exactly the specification's symbol |
| BuildLibConnector.OneRowOf | scripts/build_lib_connector.py:14-50 | onerow(n): the header, one box per pin and then one pin per row (a definition; BuildLibConnector.OneRow computes it, and OneRowCounts and OneRowPin state its properties) |
| BuildLibConnector.TwoRow | scripts/build_lib_connector.py:52-96 | tworow gives exactly the specification's symbol |
| BuildLibConnector.TwoRowOf | scripts/build_lib_connector.py:52-96 | tworow(n): the header, the boxes, and the left and right pin of each row (a definition; BuildLibConnector.TwoRow computes it, TwoRowCounts and TwoRowPins state its parts, and TwoRowNumbering states the numbering of its pins) |
| BuildLibConnector.AddRow | scripts/build_lib_connector.py:72-93 | one pass appends the right then the left box, and the right then the left pin |
| BuildLibConnector.HeadersShared | scripts/build_lib_connector.py:16-31 | both symbols share the header layout: name, flags, the four properties and the body |
| BuildLibConnector.OneRowCounts | scripts/build_lib_connector.py:14-50 | onerow: ten header items, n boxes, then n pins |
| BuildLibConnector.OneRowPin | scripts/build_lib_connector.py:34-47 | pin i is named and numbered i + 1 and sits at x = 2.54, y = -2.54 i |
| BuildLibConnector.TwoRowCounts | scripts/build_lib_connector.py:52-96 | tworow: ten header items, 2n boxes, then 2n pins |
| BuildLibConnector.TwoRowPins | scripts/build_lib_connector.py:72-93 | row i holds pin 2i + 2 at x = 2.54 and then pin 2i + 1 at x = -5.08, both at y = -2.54 i |
| BuildLibConnector.TwoPinAt | scripts/build_lib_connector.py:84-93 | the j-th pin of tworow sits after its header and boxes |
| BuildLibConnector.TwoRowNumbering | scripts/build_lib_connector.py:84-93 | two-row numbering is a permutation of 1 .. 2n |
| BuildLibConnector.NumberTextsDistinct | scripts/build_lib_connector.py:44-45 | distinct numbers are written distinctly |
| BuildLibConnector.Placement | scripts/build_lib_connector.py:22-28 | the one-row value is centred on the pins, the two-row value one row below the last, and the body reaches 1.27 beyond the first and last rows |
| BuildLibConnector.Library | scripts/build_lib_connector.py:98-106 | main's loop builds exactly the specification's library |
| BuildLibConnector.AddPair | scripts/build_lib_connector.py:105-106 | one pass appends onerow then tworow of the idx-th count |
| BuildLibConnector.PinCountsRise | scripts/build_lib_connector.py:104 | the 28 counts rise strictly: 1 .. 25, then 32, 36, 40 |
| BuildLibConnector.LibraryLayout | scripts/build_lib_connector.py:98-106 | after the three header items come onerow(c) and tworow(c) for each count c in turn |
| BuildLibConnector.LibraryAt | scripts/build_lib_connector.py:98-106 | the library's item 3 + j is the j-th symbol |
| BuildLibConnector.LibraryNamesDistinct | scripts/build_lib_connector.py:104-106 | no two symbols of the library share a name |
| Panelise.RescaleValue | scripts/panelise.py:30-31 | rescaling a Decimal to a finer exponent keeps its value |
| Panelise.AddValue | scripts/panelise.py:30-31 | the Decimal sum's value is the sum of the values, at the finer of the two scales |
| Panelise.TimesValue | scripts/panelise.py:21-22 | `x * xp` has the value x times the pitch, at the pitch's scale |
| Panelise.MagnitudeValue | scripts/panelise.py:30-31 | the unsigned mantissa and exponent are accepted exactly when Python's Decimal accepts them, with the same value |
| Panelise.ParseDecimalValue | scripts/panelise.py:30-31 | a text parses exactly when Python's Decimal reads it as a finite number (sign, digits with a point, exponent), and the parsed Decimal has exactly the value Decimal gives it |
| Panelise.ParseDecimal | scripts/panelise.py:30-31 | Decimal(text): sign, digits with an optional point, and an optional exponent, read into a coefficient and a scale (a definition; Panelise.ParseDecimalValue states it agrees with Python's Decimal) |
| Panelise.ToDecimal | scripts/panelise.py:30-31 | Decimal(atom): a str by ParseDecimal or InvalidOperation, an int or Decimal as itself, a list ValueError (a definition; Panelise.ShiftMoves and PointMoves use it) |
| Panelise.TraverseIndex | scripts/panelise.py:28-31 | element k of a successful traversal is f of element k |
| Panelise.TraverseStops | scripts/panelise.py:28-31 | an exception at element k, after good elements, is the loop's exception |
| Panelise.TraverseAt | scripts/panelise.py:28-31 | while the loop rewrites the copy in place, the elements from idx on are still the original's |
| Panelise.ShiftOne | scripts/panelise.py:29-31 | simple's loop body for one child gives the specification's shifted child |
| Panelise.Shifted | scripts/panelise.py:26-32 | simple's copy of one node: every `at`, `start` and `end` child shifted, the first exception ending the loop (a definition; Panelise.ShiftMoves and ShiftKeeps state what happens to each child) |
| Panelise.Simple | scripts/panelise.py:26-32 | simple appends the shifted copy of n to out, or raises exactly the exception of shifting it |
| Panelise.ShiftOutline | scripts/panelise.py:48-49 | zone's inner loop gives the shifted points of an outline in order |
| Panelise.ZoneOne | scripts/panelise.py:46-49 | zone's loop body for one child gives the specification's rebuilt outline |
| Panelise.Zoned | scripts/panelise.py:43-50 | zone's copy of one node: every polygon outline rebuilt from shifted points, the first exception ending the loop (a definition; Panelise.ZoneMoves states what happens to each outline) |
| Panelise.Zone | scripts/panelise.py:43-50 | zone appends the shifted copy of n to out, or raises exactly the exception of shifting it |
| Panelise.ShiftMoves | scripts/panelise.py:29-31 | an at, start or end child's elements 1 and 2 read back as the old values plus the offsets; its tag, length and other elements are kept |
| Panelise.ShiftKeeps | scripts/panelise.py:29 | every other child is copied as it is |
| Panelise.PointMoves | scripts/panelise.py:48-49 | a point of an outline reads back shifted by the offsets, with its tag kept |
| Panelise.ZoneMoves | scripts/panelise.py:46-49 | a polygon's element 1 becomes "pts" followed by one shifted point per original point after the first item |
| Panelise.CopyAgree | scripts/panelise.py:26-50 | whether a copy raises, and what, is the same at every offset |
| Panelise.ConcatIndex | scripts/panelise.py:19-23 | with every part w long, part p's element j sits at p * w + j |
| Panelise.GridCell | scripts/panelise.py:18-23 | the grid holds xr * yr copies, x-major: copy (i, j) at i * yr + j, offset by (i * xp, j * yp) |
| Panelise.GridFails | scripts/panelise.py:18-23 | the grid raises exactly when it is not empty and a copy raises |
| Panelise.GridPositions | scripts/panelise.py:18-31 | copy (i, j) moves each positioned child's coordinates by exactly (i * xp, j * yp) |
| Panelise.CopyInto | scripts/panelise.py:23-40 | simple or zone, as the node's kind says, appends the copy |
| Panelise.AddRow | scripts/panelise.py:20-23 | one pass of the outer loop appends copies (i, 0) .. (i, yr - 1) |
| Panelise.Replicate | scripts/panelise.py:18-40 | simples and zones append exactly the grid of copies, or raise the grid's exception |
| Panelise.EmitInto | scripts/panelise.py:66-71 | main's loop body appends what one node gives: itself when kept, its grid when replicated, nothing otherwise |
| Panelise.EmitAll | scripts/panelise.py:65-71 | main's loop appends what each node gives, in input order |
| Panelise.Panelise | scripts/panelise.py:53-74 | main gives exactly the specification's panel text: the header with the given stamp and the emitted items |
| Panelise.PanelText | scripts/panelise.py:53-74 | main's output for a board text: the header, then the kept nodes and the replicated ones, rendered by sexp_generate (a definition; Panelise.Panelise computes it, and KeptInPlace and ReplicatedInPlace state where each board node lands in the emitted nodes) |
| Panelise.GatherConcat | scripts/panelise.py:65-71 | the items for a + b are a's followed by b's |
| Panelise.GatherPrefix | scripts/panelise.py:65-71 | the items for a prefix of the input begin the items for all of it |
| Panelise.GatherExtend | scripts/panelise.py:65-71 | inputs whose loops agree so far agree after any further nodes |
| Panelise.EmitsConcat | scripts/panelise.py:65-71 | the panel for a + b holds a's items and then b's |
| Panelise.KeptInPlace | scripts/panelise.py:66-67 | a page, layers, setup, net or net_class node is copied once, unchanged, after the items of the nodes before it |
| Panelise.DroppedVanish | scripts/panelise.py:65-71 | a node of any other kind leaves no trace in the panel |
| Panelise.ReplicatedInPlace | scripts/panelise.py:68-71 | replicated nodes contribute their grids of copies, in input order |
| Set3d.Run | scripts/set3d.py:52-72 | the pass over the lines keeps the board's length; the first exception ends it |
| Set3d.Step | scripts/set3d.py:53-72 | one pass of the loop body: the `(module`, `(fp_text reference`, `(model` and closing-line tests in that order on one line (a definition; Set3d.StepChange states what one step changes, and HandledClears, AddedNeedsRef and NoReferenceRaises state what follows over the loop) |
| Set3d.ModelRule | scripts/set3d.py:58-66 | the `(model` test: a known part's model line is rewritten when it names another file, and the reference is then forgotten; with no reference, TypeError (a definition; Set3d.ModelLineStep states it) |
| Set3d.CloseRule | scripts/set3d.py:67-72 | the closing-line test: a known part whose reference is still set gets a model block in place of its exact `  )` line (a definition; Set3d.CloseLineStep and AddedNeedsRef state it) |
| Set3d.RewriteLine | scripts/set3d.py:53-72 | the loop body on the loop's variables gives exactly one step of the pass |
| Set3d.ModelLineStep | scripts/set3d.py:58-66 | the "(model" test gives exactly the model rule: replace a differing known model, then clear the reference |
| Set3d.CloseLineStep | scripts/set3d.py:67-72 | the closing-line test gives exactly the close rule, in the chosen variant |
| Set3d.ProcessPcb | scripts/set3d.py:43-78 | process_pcb rewrites the lines in place into the pass's lines and returns `changed`, or raises the pass's exception |
| Set3d.RunStops | scripts/set3d.py:52-72 | an exception at line k ends the pass with it |
| Set3d.RunPrefix | scripts/set3d.py:52-72 | the pass over a longer board extends the pass over its prefix |
| Set3d.RunAt | scripts/set3d.py:52-72 | line k of the result is the step on line k from the state the earlier lines leave |
| Set3d.ResistorsPrintable | scripts/set3d.py:12-16 | each resistor model path is printable |
| Set3d.CapacitorsPrintable | scripts/set3d.py:17-22 | each capacitor model path is printable |
| Set3d.InductorsPrintable | scripts/set3d.py:23-26 | each inductor model path is printable |
| Set3d.DiodesPrintable | scripts/set3d.py:27-30 | each diode model path is printable |
| Set3d.KnownModelsAreWords | scripts/set3d.py:11-31 | every model path of the table is a single word |
| Set3d.SplitModelLine | scripts/set3d.py:60-64 | the rewritten model line reads back as "(model" and the new path, so a second pass leaves it alone |
| Set3d.StepChange | scripts/set3d.py:53-72 | a step edits its line exactly when it turns `changed` on, changed stays on once set, and every edit is a model replacement or an added model block |
| Set3d.RunEdits | scripts/set3d.py:52-72 | the pass keeps the board's length, and every line it changes is one of the two kinds of edit |
| Set3d.ChangedIffEdited | scripts/set3d.py:74-78 | the file is written exactly when some line was replaced |
| Set3d.RefOrigin | scripts/set3d.py:54-57 | a reference set after line k2 but not after line k1 was read from a "(fp_text reference" line between them |
| Set3d.NoReferenceRaises | scripts/set3d.py:58-59 | a "(model" line met before any reference line ends the pass with TypeError, since `ref[0]` indexes None |
| Set3d.CloseOnlyLast | scripts/set3d.py:53-67 | the closing line passes the first three tests untouched |
| Set3d.HandledClears | scripts/set3d.py:58-66 | a handled model line clears the reference |
| Set3d.AddedNeedsRef | scripts/set3d.py:67-72 | a model block is added only while a reference is set |
| Set3d.ModelThenAdd | scripts/set3d.py:58-72 | a footprint whose model line was handled is not given a second model: a later model block belongs to a later reference line |
| Set3d.CorrectedAddsOnce | scripts/set3d.py:67-72 | with the reference cleared after an addition, two added model blocks always have a reference line between them |
| Set3d.RunSnoc | scripts/set3d.py:52-72 | the pass over one more line is one more step |
| Set3d.ModuleText | scripts/set3d.py:53-55 | a footprint's opening line splits into "(module" and its package and matches no other test |
| Set3d.ModuleRule | scripts/set3d.py:53-55 | the `(module` test: clear the reference and take the second word as the package; IndexError with fewer than two words (a definition; Set3d.ModuleLineStep states its effect) |
| Set3d.ReferenceRule | scripts/set3d.py:56-57 | the `(fp_text reference` test: take the third word as the reference; IndexError with fewer than three words (a definition; Set3d.ReferenceLineStep states its effect) |
| Set3d.ModuleLineStep | scripts/set3d.py:53-55 | the opening line clears the reference and sets the package |
| Set3d.ReferenceText | scripts/set3d.py:56-57 | a reference line splits into "(fp_text", "reference" and the reference and matches no other test |
| Set3d.ReferenceLineStep | scripts/set3d.py:56-57 | the reference line sets the reference |
| Set3d.ZoneLineStep | scripts/set3d.py:53-72 | a zone's opening line leaves the state and the line alone |
| Set3d.BoardHead | scripts/set3d.py:52-57 | after a footprint's opening and reference lines the state holds both |
| Set3d.BoardClose | scripts/set3d.py:67-72 | the footprint's closing line gets the model block |
| Set3d.BoardRun | scripts/set3d.py:52-72 | on a footprint followed by a zone, the zone's closing line gets a model block as written and stays as it is when corrected |
| Set3d.AsWrittenAddsTwice | scripts/set3d.py:67-72 | as written, R1 in an 0402 package followed by a zone gets two model blocks with no reference line between them |
| Ibis2yaml.PinOf | scripts/ibis2yaml.py:31-34 | the pin is a number exactly when the field is all digits, and otherwise the field's own text |
| Ibis2yaml.KindOf | scripts/ibis2yaml.py:37-42 | pwrin iff the name has a power prefix, in iff it has an input prefix and no power prefix, bidi otherwise |
| Ibis2yaml.Parse | scripts/ibis2yaml.py:15-44 | the two loops, sharing the position in the file, give exactly the specification's rows or its exception |
| Ibis2yaml.ParseSpec | scripts/ibis2yaml.py:15-44 | parse: every row of every `[Pin]` section, in file order (a definition; Ibis2yaml.Parse computes it, and ParseFailsIffEmptyLine and RowsWellFormed state its properties) |
| Ibis2yaml.ReadSection | scripts/ibis2yaml.py:23-43 | the inner loop reads the rows of one section up to and including the line that starts with "[", or to the end; its rows extend the scan so far, and an exception is the whole parse's |
| Ibis2yaml.ScanStops | scripts/ibis2yaml.py:17-43 | an exception at line k ends the parse with it |
| Ibis2yaml.OutsideStep | scripts/ibis2yaml.py:17-21 | a line read outside a section: a comment is skipped and a `[Pin]` header opens a section (a definition; KeyIsPin and ScanNext state its effect) |
| Ibis2yaml.SectionStep | scripts/ibis2yaml.py:23-43 | a line read inside a section: `[` ends it, a line of fewer than two fields adds nothing, any other adds its row (a definition; ScanNext and RowsWellFormed state its effect) |
| Ibis2yaml.Step | scripts/ibis2yaml.py:17-43 | one line in either mode, IndexError on an empty line (a definition; ScanNext and ParseFailsIffEmptyLine state its effect) |
| Ibis2yaml.Scan | scripts/ibis2yaml.py:17-43 | the lines read in order from the start of the file, the first exception ending the read (a definition; ScanNext, ScanStops and ScanResumes state its properties) |
| Ibis2yaml.ScanNext | scripts/ibis2yaml.py:17-43 | reading one more line extends the scan by that line's step |
| Ibis2yaml.ParseFailsIffEmptyLine | scripts/ibis2yaml.py:18-24 | parse fails exactly when the file has an empty line, and then with IndexError |
| Ibis2yaml.RowsWellFormed | scripts/ibis2yaml.py:27-43 | every row has a non-empty name without spaces, the pin type KindOf gives that name, and a label pin that is non-empty, not all digits and without spaces |
| Ibis2yaml.ScanResumes | scripts/ibis2yaml.py:17-44 | after lines that leave the scan outside a section, the rest is parsed as a file of its own and its rows follow |
| Ibis2yaml.LaterSections | scripts/ibis2yaml.py:17-44 | rows of a later part of the file follow those of the first |
| Ibis2yaml.KeyIsPin | scripts/ibis2yaml.py:20-21 | only "[Pin]" alone or followed by a space opens a section |
| Ibis2yaml.HeaderEndsSection | scripts/ibis2yaml.py:21-25 | a header directly followed by another header opens no section, since the inner loop consumes the second |
| Xml2bom.FieldMap | scripts/xml2bom.py:53-59 | the fields dict is empty iff there are no fields, and a later field of the same name wins |
| Xml2bom.FieldMapStep | scripts/xml2bom.py:59 | one more field sets its name to its number |
| Xml2bom.Ignored | scripts/xml2bom.py:39-44 | with only an include list, a ref outside it is ignored; with only an exclude list, a ref in it; an ignored ref is outside the include list or in the exclude list |
| Xml2bom.Differing | scripts/xml2bom.py:65-66 | the parts that disagree with the first on value or footprint, in order; none iff all agree |
| Xml2bom.IncOf | scripts/xml2bom.py:65-72 | the inconsistent entry of a group is empty iff every member agrees with the first, and otherwise the first followed by every disagreeing member |
| Xml2bom.IncSnoc | scripts/xml2bom.py:63-73 | a part that joins a group joins its inconsistent entry exactly when it disagrees with the first member, the entry being seeded with that member |
| Xml2bom.PutLookup | scripts/xml2bom.py:61-64 | updating one group changes no other |
| Xml2bom.PutConsistent | scripts/xml2bom.py:61-73 | regrouping at one key keeps the inconsistent groups in step when their entry at that key is brought up to date |
| Xml2bom.NoteInconsistent | scripts/xml2bom.py:67-72 | the part joins the inconsistent entry of its group, made with the group's first member if new |
| Xml2bom.File | scripts/xml2bom.py:61-73 | the part is appended to its group, made if new, and no other group changes; the inconsistent entries stay in step with the groups |
| Xml2bom.Repeat | scripts/xml2bom.py:73 | k copies of p |
| Xml2bom.MissingCode | scripts/xml2bom.py:76-77 | the reported parts have no fields |
| Xml2bom.MissingFootprint | scripts/xml2bom.py:78-79 | the reported parts have an absent or empty footprint |
| Xml2bom.FieldStep | scripts/xml2bom.py:56-73 | filing one more field adds the part once more to exactly that field's group |
| Xml2bom.CompStep | scripts/xml2bom.py:47-79 | reading one more component extends every group and both missing lists by that component's contribution |
| Xml2bom.FileFields | scripts/xml2bom.py:56-73 | a component's part joins each field's group once per occurrence of the field, the inconsistent entries stay in step, and the fields dict comes out last-wins |
| Xml2bom.Collect | scripts/xml2bom.py:47-79 | every group holds exactly the kept components having that field, in document order; the inconsistent entries are those groups' inconsistent entries; the two missing lists are exactly the kept parts without fields and without footprint |
| Xml2bom.MemberOrigin | scripts/xml2bom.py:47-73 | every member of a group is the part of a kept component that has that field |
| Xml2bom.CountPositive | scripts/xml2bom.py:56-73 | a field is counted iff it occurs |
| Xml2bom.MemberComplete | scripts/xml2bom.py:47-73 | every kept component that has the field is in the group |
| Xml2bom.MembersPrefix | scripts/xml2bom.py:47-73 | later components never reorder a group: the group of a prefix is a prefix of the group |
| Xml2bom.MissingCodeComplete | scripts/xml2bom.py:76-77 | every kept component without fields is reported |
| Xml2bom.MissingFootprintComplete | scripts/xml2bom.py:78-79 | every kept component with an absent or empty footprint is reported |
| Xml2bom.Multiplier | scripts/xml2bom.py:33-36 | the multiplier is never 0: -x when given and non-zero, else 1 |
| Xml2bom.VendorOf | scripts/xml2bom.py:127-140 | the Farnell, RS or DigiKey formatter is chosen iff the lower-cased field name is farnell, rs or digikey, the plain line otherwise |
| Xml2bom.Refs | scripts/xml2bom.py:109 | the refs of a group, in order |
| Xml2bom.FarnellNote | scripts/xml2bom.py:103-104 | the note is the whole "<qty>x <values> <footprints>" text when shorter than 30 characters, else its first 30 |
| Xml2bom.SplitCell | scripts/xml2bom.py:104 | splitting at the first comma gives the first cell back |
| Xml2bom.IntTextNoComma | scripts/xml2bom.py:104 | a number's text holds no comma |
| Xml2bom.BomLineCells | scripts/xml2bom.py:98-147 | every BOM line carries the order code and the group size times the multiplier as its own cells, the first two, quantity first only for DigiKey |
| Xml2bom.BomLine | scripts/xml2bom.py:98-147 | the line each vendor's formatter, and the generic one, adds for one group (a definition; Xml2bom.BomLineCells states its cells) |
| Xml2bom.Tail | scripts/xml2bom.py:200 | `s[-n:]` is the last n characters, or all of a shorter s |
| Xml2bom.OutputName | scripts/xml2bom.py:199-201 | the file name ends in ".bom" in some case, is the output name itself iff that already does, and otherwise has ".bom" appended |
| Xml2bom.BomSuffixAdded | scripts/xml2bom.py:201 | appending ".bom" gives the suffix |
| Xml2bom.OutputNameIdempotent | scripts/xml2bom.py:199-201 | naming a file twice changes nothing |
| Xml2bom.OutputFile | scripts/xml2bom.py:198-201 | a file is written iff the output name is given and non-empty, and its name begins with the output name and ends in ".bom" |

## Left out

- Input and output are not modelled. This covers every `main` and `__main__` block, opening, reading and writing files, `os.walk`, `glob` and `fnmatch`, argparse, printing and exit codes. File contents therefore arrive as strings or line sequences.
- Whether a file exists is passed in as a parameter. This covers the existence half of each verify comparison, the DCM test at scripts/check_lib.py:147-149 and the `agg:` footprint test at scripts/check_lib.py:132-137.
- Sources of non-determinism are parameters or are left out: `time.time()` tedit stamps, the `datetime` stamps in panelise.py and xml2bom.py, and `git describe` subprocesses.
- Scripts outside the core are not part of this model:
  - rendering and report scripts: draw_mod.py, the drawing half of moddraw.py, stickerbom.py, report_mod.py;
  - float-geometry footprint generators: build_mod_chip.py, build_mod_jsteh.py, build_mod_jstpa.py, build_mod_picoblade.py, build_mod_sil_dil.py, build_mod_tfml_sfml.py, chipmod.py, jstpamod.py;
  - build_lib_power.py, which is constant symbol literals;
  - compile_lib.py, compile_pro.py, compile_sym_lib_table.py and genproject.py, which are filesystem walks around templates.
- Floating-point geometry in icmod.py and build_mod_ic.py is not modelled. This covers fab, silk, refs, courtyard snapping, `inner_apertures` and the exposed-pad pads that `pads` appends last.
- Float coordinates elsewhere are exact reals (`Flt`). `{:.4f}` is round-half-even of the exact value, and IEEE double rounding is not modelled.
- Decimal values are exact, held as a coefficient and a scale. The `InvalidOperation` that text which is not a number raises is modelled. The default context's 28-digit precision, which would round a longer sum, is not. Neither is signed zero: a `-0` result prints as `0`.
- ParseDecimalValue: Python's Decimal also reads `NaN`, `sNaN`, `Infinity` and `Inf` in any case, surrounding whitespace, and `_` between digits. ParseDecimal and Py.DecimalOf refuse these texts with InvalidOperation.
- ParseDecimal: a positive exponent such as `1E+1` is held as exponent 0 with a scaled coefficient. Its sum with a pitch of exponent 0 or below, as every `Panelise.Decimal` pitch has, is the same Decimal that Python computes. A pitch with a positive exponent cannot be held.
- ToDecimal: a float atom raises TypeError, whereas Python's `Decimal(float)` is the float's exact binary value. The parser never produces a float atom, so this case does not arise on a parsed board.
- ToDecimal and PyTree.DecimalNode: a list is refused with ValueError, as Python refuses every list that the parser builds. A list of three ints forming a valid (sign, digits, exponent) tuple would be accepted by Python, but the parser never builds one.
- Regular expressions are explicit character predicates, matched line by line. A `[^ ]*` group that would span a newline is not modelled.
- Py.IsSpace is Python's full whitespace set, so `strip` and `split` behave as in Python. `lower` and the digit and letter tests are ASCII only. Python's Unicode case mapping and Unicode digits are not modelled.
- The build_mod_*, check_mod.py and panelise.py scripts import `parse` and `generate` from sexp.py, which defines neither. So do the `sexp.generate` calls at scripts/build_lib_switch.py:150 and scripts/build_lib_connector.py:108. All of them are modelled as `sexp_parse` and `sexp_generate`.
- ibis2yaml.py: the YAML dump of the rows is not modelled.
- xml2bom.py: ElementTree parsing is not modelled. Components are records, and refs, field names and field texts are strings, never None.
- xml2bom.py: dicts are maps, so the order of groups and the report text that depends on it are not modelled. The report and the assembly BOM layout are left out.
- Xml2bom.BomLineCells: the `set()`-joined value and footprint lists are parameters, because their order is unspecified. The TypeError that a None value raises in a join is not modelled.
- Xml2bom.Collect: a part holds its component's final fields map. In the source it holds the same dict object, which the loop keeps filling.
- Set3d.ProcessPcb: the board is an array of lines rewritten in place. The printed progress messages are left out.
- Panelise.Panelise: the host timestamp is a parameter.
- UnbalancedRaises: this lemma is two concrete inputs. The general statements are Sexp.StrayCloseRaises for a stray `)` and Sexp.UnclosedRaises for a first list that is never closed. A list left open after the root's first element is not an error in the source, as Sexp.FirstNodeStays states.
- CheckLib.Text: the "Missing pins" and "Duplicated pins" messages (scripts/check_lib.py:87 and :91) are given only up to their fixed prefix. The numbers they list come from a Python set, whose iteration order the language leaves open. The numbers themselves are stated by CheckLib.NumberMessages.
- Sexp.RoundTrip: stated for trees whose str atoms are non-empty and hold no `"` or newline, the case in which the source's own round trip holds.

## Findings

| source | as written | input that shows it | evidently intended | confidence | as-written member | corrected member |
|---|---|---|---|---|---|---|
| scripts/set3d.py:67-72 | after a model block is added at a footprint's closing line, `ref` stays set, so every later exact `"  )\n"` line before the next `(module` also gets a model block | the board lines `(module agg:0402`, `(fp_text reference R1`, `  )`, `(zone`, `  )`: the zone's closing line is replaced by a second model block | clear `ref` after adding the block, as line 66 does after a handled model line, so each footprint gets one model | not executed | Set3d.AsWrittenAddsTwice | Set3d.CorrectedAddsOnce |
