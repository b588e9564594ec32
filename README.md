# GenerateLines: the pi digit engine, the line generators and the argument classifier

GenerateLines writes a file of fixed-width lines. The lines come from one of five
generators:

- `ascii`, `digits` and `upper` cycle through a palette.
- `char` repeats one character.
- `pi` maps the successive decimal digits of pi onto the printable ASCII palette.

The digits of pi come from a streaming spigot (`piSpigot`) in the style of Rabinowitz and
Wagon. This project models that engine, the generators, and the way
`getArgsOrPrompt` classifies the command-line arguments. It proves what each of
them promises.

The project has seven modules:

- **`Spigot`** (spigot.dfy) is the engine as values.
  - `State` holds the five fields of a `piSpigot`.
  - `Sweep` is the descending sweep, with Go's truncating `/` and `%` written out as `Quot` and `Rem`.
  - `Settle` is the predigit/nines carry protocol, and `Round` is one pass of the outer loop.
  - `Suppress` drops leading zeros before the first digit.
  - `Next` is one `NextDigit` call; `Take` is `n` successive calls.
  - The module also holds the invariant the engine keeps (`Inv`: table bounds, a held-back predigit that is never 9 or 10, queued digits that are all non-negative, and a queue that holds digits only once the engine has started) and the lemmas about the stream.
- **`SpigotEngine`** (spigot_engine.dfy) is `piSpigot` as a class.
  - The table is an `array<int>` rewritten in place; the queue is a `seq<int>` field.
  - `NextDigit` runs the source's loops: the descending sweep, the `switch q`, the append loops and the drain.
  - Each method is proved against the value model: `NextDigit` leaves the engine in the state `Spigot.Next` computes and returns the digit it computes.
- **`SpigotDigits`** (pi_digits.dfy) runs the engine by proof at small capacities.
  - Capacity 16 (a 54-entry table) yields 3, 1, 4, 1, 5, 9, 2, 6, 5, 3, 5, 8, 9, 7, 9, 3 over seventeen rounds. Three of those rounds defer a nine.
  - Capacity 1 yields 3; capacity 0 yields 2.
  - Each table is a lookup function, and each round is pinned by following the sweep's carries six positions at a time.
- **`Generators`** (generators.dfy) holds the printable ASCII palette and the three generators.
  - `CycleGen` is a class whose `pos` field advances by one per character.
  - `SingleCharLine` repeats a character.
  - `PiGen` is a class that owns a `PiSpigot`.
  - `NewGenerator` builds the generator for each mode.
- **`Args`** (args.dfy) models `getArgsOrPrompt`:
  - the required line count and file name, taken from the arguments or from the lines typed at the prompts;
  - the optional overwrite answer, width, mode and mode argument, each recognised by what it looks like;
  - the mode aliases and the char-mode check;
  - the token parsers `parsePositiveInt` (over `strconv.Atoi`), `looksLikeYesNo` and `parseYesNo`.
- **`Text`** (text.dfy) holds the parts of Go's `strings` and `unicode` the core relies on: `TrimSpace`, `EqualFold` against a lower-case ASCII word, and `ToLower`.
- **`Wrappers`** (wrappers.dfy) holds `Option` and `Result`.

`NextDigit`'s outer loop runs until a round leaves a digit to return, with no bound.
Why it always stops is a fact about pi, not about the code. The model gives the
loop a ghost `fuel`, which bounds the number of extra rounds. A call is allowed whenever
some bound suffices, and `Spigot.RoundsFuelIrrelevant` shows that the result
does not depend on which bound is used.

Two behaviours of the code, read off the source:

- The width reset in `getArgsOrPrompt` (`width <= 0` falls back to 80) cannot fire. `parsePositiveInt` only ever returns positive numbers, and the default is 80. `Args.ParseArgsValid` proves that every accepted width is at least 1.
- `newPiSpigot(0)` builds a one-entry table whose first digit is 2 (`SpigotDigits.Cap0Digits`). The only caller, `newGenerator`, raises the capacity to at least 1 first.

## Model

| member | source | states |
|---|---|---|
| Spigot.Quot | generatelines.go:499-505 | Go's truncating `/` by a positive divisor; non-negative on a non-negative dividend |
| Spigot.Rem | generatelines.go:499-505 | Go's `%` by a positive divisor: in [0, d) for a non-negative dividend, in (-d, 0] for a negative one |
| Spigot.QuotRem | generatelines.go:501-502 | Go's division identity `(x / d) * d + x % d == x` |
| Spigot.QuotRemNonneg | generatelines.go:501-505 | on non-negative operands the truncating operators agree with the mathematical ones |
| Spigot.Repeat | generatelines.go:512-514 | the append loops add `n` copies of one value, in order |
| Spigot.TableSize | generatelines.go:480 | the table has `digits*10/3 + 1` entries: at least one, and the least size with `3*size > 10*digits` |
| Spigot.Fresh | generatelines.go:479-486 | `newPiSpigot` builds a state that keeps the invariant, with a table of `TableSize(digits)` entries, no queue, no pending nines, not started |
| Spigot.Inv | generatelines.go:488-537 | between calls: the table bounds, a non-negative held-back predigit that is never 9 or 10, non-negative queued digits, and a non-empty queue only once started |
| Spigot.Sweep | generatelines.go:497-503 | the descending sweep keeps the table's length and leaves the entries above the sweep untouched |
| Spigot.SweepBounds | generatelines.go:498-503 | on a non-negative table each swept entry i lies in [0, 2i+1) and the carry stays non-negative |
| Spigot.Carry | generatelines.go:504-505 | q is the sweep's final carry divided by 10: 10q <= carry < 10q + 10 for a non-negative carry |
| Spigot.SweptTable | generatelines.go:504 | folding the carry into entry 0 keeps the table's length |
| Spigot.RoundKeepsTableBounded | generatelines.go:497-505 | a round never resizes the table: entry 0 is a decimal digit, entry i >= 1 is below 2i+1, and the value q is non-negative |
| Spigot.Settle | generatelines.go:507-524 | q = 9 defers one more nine and decides nothing; q = 10 decides predigit+1 and turns the nines to zeros; any other q decides the predigit and the nines and holds q; a predigit other than 9 and 10 stays so |
| Spigot.Round | generatelines.go:496-524 | a round keeps the table's length |
| Spigot.RoundQueueGrowth | generatelines.go:507-524 | a round only appends to the queue: nothing when q = 9, otherwise predigit plus one digit per pending nine, and the nines counter resets |
| Spigot.SettleDigitsInRange | generatelines.go:488 | given q <= 10 and a predigit in 0..8, every decided digit is in 0..9 and the new predigit is in 0..8 |
| Spigot.LeadingZeros | generatelines.go:526-530 | the number of zeros at the front of the queue: all zero before it, non-zero at it |
| Spigot.SkipLeadingZeros | generatelines.go:526-530 | the queue from its first non-zero entry on |
| Spigot.ZerosSkipped | generatelines.go:526-530 | the filter leaves a suffix of the queue that does not start with zero, everything dropped being zero |
| Spigot.Suppress | generatelines.go:526-530 | only the queue changes; once started nothing changes; before the start the queue left is empty or starts with a non-zero digit |
| Spigot.SkipOneZero | generatelines.go:527-529 | dropping one leading zero does not change what the filter leaves |
| Spigot.Rounds | generatelines.go:496-536 | the slow path keeps the table's length |
| Spigot.Next | generatelines.go:489-537 | one call keeps the table's length |
| Spigot.Take | generatelines.go:489-537 | `n` calls return `n` digits and keep the table's length |
| Spigot.Pop | generatelines.go:531-533 | returning the head leaves the rest of the queue and marks the engine started |
| Spigot.PopKeepsInv | generatelines.go:531-534 | popping a non-zero head, or any head once started, keeps the invariant and delivers a non-negative digit |
| Spigot.RoundThenSuppress | generatelines.go:497-530 | a round and the zero filter keep the table and predigit bounds and a non-negative queue; before the first digit the head of the queue is non-zero |
| Spigot.RoundsKeepInv | generatelines.go:496-536 | the slow path keeps the invariant, marks the engine started and returns a non-negative digit that is non-zero when the engine had not started |
| Spigot.NextKeepsInv | generatelines.go:489-537 | every call keeps the invariant, leaves the engine started, and the first digit ever returned is not zero |
| Spigot.StartedReturnsInOrder | generatelines.go:526-535 | once started, a round's decided digits are returned head first, zeros included, and the rest stay queued in order |
| Spigot.RoundsFuelIrrelevant | generatelines.go:496 | any bound on the rounds larger than one that suffices gives the same digit and state |
| Spigot.RoundsFuelMono | generatelines.go:496 | one more round of allowance changes nothing once the search succeeds |
| Spigot.RoundsEmits | generatelines.go:526-535 | a round that leaves a digit in the queue ends the call with that digit |
| Spigot.RoundsContinue | generatelines.go:496-536 | a round that leaves nothing makes the call go on from the state it left |
| Spigot.RoundsNeedsFuel | generatelines.go:496-536 | a successful search past a silent round had allowance left for it |
| Spigot.TakeAdd | generatelines.go:489-537 | m calls and then n more are m + n calls: the digits concatenate and the final state is the same |
| Spigot.TakePrefix | generatelines.go:489-537 | if n calls complete, so do the first m <= n |
| Spigot.TakeNext | generatelines.go:489-537 | within a run of calls that completes, every call completes |
| Spigot.TakeOneMore | generatelines.go:489-537 | the (n+1)-th call continues from the state the first n left |
| Spigot.TakeKeepsInv | generatelines.go:489-537 | n calls keep the invariant and return non-negative digits, the first non-zero if the engine had not started |
| Spigot.TraceJoin | generatelines.go:498-503 | two adjacent stretches of a sweep's carry trace make one |
| Spigot.SweepByTrace | generatelines.go:498-503 | a table and carry sequence that satisfy the sweep's recurrence position by position are the sweep's result |
| Spigot.SameTrace | generatelines.go:498-503 | the recurrence below position k does not depend on the entries from k up |
| Spigot.SweepFacts | generatelines.go:504-505 | a round's table and base-10 value read off the sweep's result |
| Spigot.SettleHold | generatelines.go:517-523 | with no nines pending, a q other than 9 and 10 decides the predigit alone and is held |
| Spigot.SettleRelease | generatelines.go:517-523 | with one nine pending, a q other than 9 and 10 decides the predigit and that nine and is held |
| SpigotEngine.PiSpigot.constructor | generatelines.go:479-486 | `newPiSpigot(digits)`: `digits*10/3+1` twos, empty queue, no nines, predigit 0, not started; the invariant holds |
| SpigotEngine.PiSpigot.NextDigit | generatelines.go:489-537 | moves the engine to the state `Spigot.Next` computes and returns its digit, keeps the invariant and the table's identity, returns a non-negative digit, non-zero as the first one; on a non-empty queue pops the head and changes nothing else |
| SpigotEngine.PiSpigot.RunRounds | generatelines.go:496-536 | the unbounded loop: the rounds until a digit is found, as `Spigot.Rounds` |
| SpigotEngine.PiSpigot.RunRound | generatelines.go:497-535 | one pass of the outer loop is `Spigot.Round` then the drain |
| SpigotEngine.PiSpigot.RunSweep | generatelines.go:497-505 | the in-place descending sweep and carry fold leave `Spigot.SweptTable` and return `Spigot.Carry` |
| SpigotEngine.PiSpigot.SettleCarry | generatelines.go:507-524 | the `switch q` appends what `Spigot.Settle` decides and sets the predigit and nines it computes |
| SpigotEngine.PiSpigot.AppendCopies | generatelines.go:512-521 | the append loop adds `n` copies of the value and changes nothing else |
| SpigotEngine.PiSpigot.Drain | generatelines.go:526-535 | the drain drops leading zeros before the first digit and pops the first surviving digit, or leaves the filtered empty queue |
| SpigotDigits.Cap0Digits | generatelines.go:479-537 | a capacity-0 engine (one-entry table) first returns 2 |
| SpigotDigits.Cap1Digits | generatelines.go:479-537 | a capacity-1 engine first returns 3 |
| SpigotDigits.Cap16Digits | generatelines_test.go:130-141 | `newPiSpigot(16)` returns 3, 1, 4, 1, 5, 9, 2, 6, 5, 3, 5, 8, 9, 7, 9, 3 on its first sixteen calls |
| SpigotDigits.Cap16FirstTen | generatelines.go:479-537 | the first ten calls at capacity 16 return 3, 1, 4, 1, 5, 9, 2, 6, 5, 3 |
| SpigotDigits.FreshTwos | generatelines.go:479-486 | a fresh engine's table is `digits*10/3+1` twos |
| Generators.PrintableAscii | generatelines.go:461-467 | the printable ASCII palette has 95 characters |
| Generators.BuildAsciiSequence | generatelines.go:461-467 | `buildAsciiSequence` returns 95 characters, character k having code 32+k |
| Generators.Cycle | generatelines.go:428-435 | n characters from position `start`: character i is palette entry (start+i) mod the palette's length |
| Generators.CycleSplit | generatelines.go:428-435 | consecutive lines continue one stream: m then n characters are the first m + n |
| Generators.CyclePeriod | generatelines.go:431 | the stream repeats with the palette's length as period |
| Generators.CycleRealign | generatelines.go:431 | only the position modulo the palette's length matters |
| Generators.CycleAligned | generatelines.go:428-435 | a palette-long line starting on a multiple of the palette's length is the palette |
| Generators.CycleWhole | generatelines.go:428-435 | the first palette-long line is the palette |
| Generators.CycleGen.constructor | generatelines.go:387-393 | a cycling generator starts at position 0 on its palette |
| Generators.CycleGen.NextLine | generatelines.go:428-435 | the line is the `width` characters of the stream from `pos`, and `pos` advances by exactly `width` |
| Generators.SingleCharLine | generatelines.go:442-444 | `width` copies of the character |
| Generators.SingleCharIsCycle | generatelines.go:442-444 | a single-character line is a cycling line over the one-character palette |
| Generators.Glyphs | generatelines.go:455 | digit i of the line shows as palette entry d_i mod the palette's length |
| Generators.AsciiGlyphCodes | generatelines.go:455-467 | on the printable palette digit d shows as the character with code 32 + d |
| Generators.GlyphsSnoc | generatelines.go:454-456 | one more digit adds its glyph at the end of the line |
| Generators.PiGen.constructor | generatelines.go:410-414 | the pi generator owns a fresh spigot in the state `newPiSpigot(digits)` builds |
| Generators.PiGen.NextLine | generatelines.go:452-458 | one `NextDigit` per column: the line is the glyphs of the next `width` digits of the stream, and the spigot moves on past exactly those |
| Generators.PiGen.NextGlyph | generatelines.go:455 | one column: the next digit of the stream and its palette character |
| Generators.NewGenerator | generatelines.go:384-419 | ascii, digits and upper give a cycling generator at position 0 on their palettes; char gives the first character of the trimmed argument or fails on a blank one; pi gives a fresh spigot sized for max(totalChars, 1); any other mode fails |
| Generators.PiFirstLine | generatelines_test.go:143-169 | the first pi line of width ten is the palette entries of 3, 1, 4, 1, 5, 9, 2, 6, 5, 3, that is "#!$!%)\"&%#" |
| Text.LeadingSpaces | generatelines.go:248 | the white space at the front of a string |
| Text.TrailingSpaces | generatelines.go:248 | the white space at the end of a string |
| Text.TrimSpace | generatelines.go:248 | the trimmed text starts and ends with non-space and is empty exactly when the text is all white space |
| Text.TrimSpaceOfTrimmed | generatelines.go:248 | a text without white space at its ends is its own trim |
| Text.TrimSpaceIdempotent | generatelines.go:299 | trimming twice is trimming once |
| Text.TrimSpacePadded | generatelines.go:323 | white space added at either end is trimmed away again |
| Text.IsSpace | generatelines.go:248 | the runes `unicode.IsSpace` reports: the ASCII spaces tab to carriage return and space, U+0085, U+00A0, and the other runes with the Unicode White_Space property |
| Text.EqualFold | generatelines.go:315-319 | rune-by-rune equality with a lower-case ASCII word under simple case folding, the Kelvin sign and the long s included |
| Text.Lower | generatelines.go:273 | 'A'..'Z' become 'a'..'z' (code plus 32), U+0130 and the Kelvin sign become 'i' and 'k', and every other rune is kept |
| Text.LowerAnyCase | generatelines.go:273 | a word typed in any mix of ASCII cases lower-cases to its lower-case spelling |
| Text.ToLower | generatelines.go:273 | lower-casing is rune by rune and keeps the length |
| Args.Atoi | generatelines.go:323 | `strconv.Atoi` accepts only a sign or a digit first and only values in Go's 64-bit `int` range |
| Args.ParsePositiveInt | generatelines.go:322-331 | an accepted number is a positive 64-bit `int` |
| Args.Decimal | generatelines.go:322-331 | the decimal spelling of n: non-empty digits, no leading zero, value n |
| Args.ParsePositiveIntDecimal | generatelines.go:322-331 | every positive `int` is read back from its decimal text, padded with white space and with or without '+' |
| Args.ParsePositiveIntAccepts | generatelines.go:322-331 | exactly the trimmed texts of an optional '+' and ASCII digits whose value is a positive `int` are accepted, with that value |
| Args.YesNoAgree | generatelines.go:315-319 | `parseYesNo` implies `looksLikeYesNo`, which holds exactly for the yes answers and the no answers |
| Args.UpperYIsAnswer | generatelines.go:315-319 | "Y" is an overwrite answer |
| Args.YesNoIsNotNumber | generatelines.go:259-270 | no token is both an overwrite answer and a width |
| Args.LooksLikeYesNo | generatelines.go:315-319 | the trimmed token equals y, yes, n or no under case folding |
| Args.ParseYesNo | generatelines.go:366-369 | the trimmed token equals y or yes under case folding |
| Args.NormalizeMode | generatelines.go:282-296 | exactly the nine words "", ascii, digit, digits, upper, uppercase, char, character and pi are accepted; "" and ascii give ascii, digit and digits give digits, upper and uppercase give upper, char and character give char, pi gives pi |
| Args.ModeAnyCase | generatelines.go:273-296 | a canonical mode name typed in any mix of ASCII cases ("PI") selects that mode |
| Args.UnknownModeRejected | generatelines.go:259-298 | a mode token outside the nine words, after any flag and width, fails the parse with that token trimmed and lower-cased |
| Args.Required | generatelines.go:222-240 | two or more arguments give the first two as they are; one argument gives it and the trimmed first typed line; none gives the first two typed lines, trimmed; reading fails exactly when the prompts need more lines than were typed |
| Args.ParseArgs | generatelines.go:200-312 | the classifier: reading fails, then an invalid line count, then a blank file name, else the classification of the optional arguments (what a success holds is in ParseArgsValid) |
| Args.Optional | generatelines.go:254-257 | the first two arguments (or all of them, when fewer) followed by the optional ones rebuild the arguments |
| Args.SplitTail | generatelines.go:254-280 | the overwrite slot holds nothing or a yes/no answer, the width slot a positive number; no optional arguments leave every slot empty |
| Args.SplitWidth | generatelines.go:264-270 | the width slot holds a positive number, and the flag found before is kept |
| Args.SplitMode | generatelines.go:272-280 | the mode slot is empty exactly when no token is left, and the flag and width found before are kept |
| Args.SplitTailSlots | generatelines.go:259-280 | for optional arguments made of an optional yes/no token, an optional positive number, a mode token and more: the flag is the yes/no token, the width its number, the mode the mode token trimmed and lower-cased, and the mode argument the next token |
| Args.FlagSlot | generatelines.go:259-262 | a yes/no token first fills the flag slot and is consumed; any other first token is left for the next slot |
| Args.WidthSlot | generatelines.go:264-270 | a positive number next fills the width slot and is consumed; any other token is left for the mode |
| Args.ModeSlot | generatelines.go:272-280 | the next token is the mode, trimmed and lower-cased, and the one after it the mode argument |
| Args.ClassifyTail | generatelines.go:282-311 | the mode switch, the char argument check and the default width; what a success holds is in ClassifyTailValid |
| Args.OverwriteFlagRecognised | generatelines.go:259-262 | the first optional argument is the overwrite flag exactly when it looks like a yes/no answer |
| Args.ClassifyTailValid | generatelines.go:282-311 | the classified configuration has a canonical mode, a trimmed non-blank char argument, the given width or 80, and default flags that tell which was used |
| Args.ParseArgsUnfold | generatelines.go:242-257 | a successful parse has a valid line count and a non-blank file name and classifies the optional arguments |
| Args.ParseArgsValid | generatelines.go:199-312 | every successful parse has a positive line count and width, a trimmed non-empty file name, a canonical mode, a trimmed non-blank char argument, an empty or yes/no overwrite flag, and honest default flags |
| Args.RequiredOnly | generatelines_test.go:171-184 | only the two required arguments: width 80 and mode ascii, both reported as defaults |
| Args.ExplicitWidthMode | generatelines_test.go:186-199 | an explicit width and mode, 80 and ascii included, are used and not reported as defaults |
| Args.FlagOnly | generatelines_test.go:201-212 | an overwrite answer alone, in any case, becomes the flag, and the defaults stay |
| Args.CharModeNeedsArg | generatelines_test.go:214-219 | the char mode without its argument is rejected |
| Args.InteractivePrompts | generatelines_test.go:221-250 | with no arguments the two typed lines, line breaks trimmed, are the line count and file name, and the defaults apply |
| Args.ClassifyDefaultMode | generatelines.go:282-284 | no mode given means ascii, default width and mode both reported |

## Left out

- `main`, `printHelp` and `helpHint`: I/O only — files, buffered writing, messages, the exit code and the operating-system check.
- `promptYesNoR` and `fileExists`: they read the terminal and the file system. `promptLineR` is modelled as the list of lines the prompts read (`Args.Required`). A read error, or end of input with nothing read, is `ReadFailed`.
- The text of the error messages: the model's error values carry the offending text, not the formatted message.
- Generators.NewGenerator: the unknown-mode error carries no text, and the char branch's second emptiness check (after the conversion to runes) is left out because the first check already covers it.
- Text.ToLower: lower-cases only runes whose lower case is ASCII (A to Z, U+0130 and the Kelvin sign). Every other rune is kept, so the text of an unknown-mode error may differ from Go's for other non-ASCII mode words. Which modes are accepted does not change.
- Text.TrimSpace: works on strings of runes. Invalid UTF-8 and the byte length of a multi-byte character are not modelled.
- Generators.SingleCharLine: works on characters. The byte length of a line that repeats a multi-byte character is not modelled.
- Go's 64-bit `int` overflow in the sweep (`10*a[i] + q*(i+1)`), in `cycleGen.pos` and in the counters: integers are unbounded in the model.
- A negative capacity or width, where Go's `make` panics: capacities and widths are `nat`.
- That the engine's output is the decimal expansion of pi for every capacity, and that q never exceeds 10: these rest on the Rabinowitz-Wagon analysis, not on the code. Spigot.SettleDigitsInRange takes q <= 10 as a hypothesis.
- Generators.PiFirstLine: uses a spigot of capacity 16, not the capacity 80 that `newGenerator("pi", "", 80)` builds. A 267-entry table is too large to run by proof, so that the larger table yields the same first ten digits is not proved.
- SpigotEngine.PiSpigot.NextDigit: the unbounded outer loop runs under a ghost bound on its rounds. Calls where no bound suffices (the engine never producing another digit) are not covered.
