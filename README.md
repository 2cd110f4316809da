# Six small Python programs, modelled in Dafny

The repository holds three toy applications, each in a command-line and a
Kivy GUI version:

- a **QR-code generator**. It resolves the output name, normalises the
  interactive answers (size, border, colours, error-correction tier), runs
  a batch loop over the lines of a file, and converts colours between RGB
  and `#rrggbb`;
- two **games**: stone/paper/scissor with a running score, and guessing a
  secret number between 1 and 100;
- a **bakery order ledger**. An order form adds up the menu lines. Each
  order is appended to a per-day JSON file, and a history view reads the
  day back, including the older records the command-line program writes.

Every program is modelled in its own module:

| module | file | models |
|---|---|---|
| `QrCommon` | `qr_common.dfy` | the tiers, the encoder's interface, the generated `qrimg_…` name |
| `QrCli` | `qr_cli.dfy` | `command-line/qrgenerator.py` |
| `QrGui` | `qr_gui.dfy` | `pygame-kivi/qrgenerator/qrgenerator.py` |
| `GameCli` | `game_cli.dfy` | `command-line/game.py` |
| `GameGui` | `game_gui.dfy` | `pygame-kivi/game.py` |
| `Ledger` | `ledger.dfy` | what both bakeries share: money printing, record values, day files, `time.asctime` |
| `BakeryCli` | `bakery_cli.dfy` | `command-line/bakery.py` |
| `BakeryGui` | `bakery_gui.dfy` | `pygame-kivi/bakeryshop/bakery.py` |
| `PyText` | `pytext.dfy` | the Python string built-ins the programs use: `strip`, slices, `upper`/`lower`, `int()`, `str()`, `split` |
| `Wrappers` | `wrappers.dfy` | `Option` and `Result` |

The world outside the programs is passed in as parameters:

- the `qrcode` encoder is a function from a job to "written" or "raised
  with a message";
- `validators.url` is a predicate;
- the console is the sequence of lines typed, and running out of lines is
  where `input()` raises `EOFError`;
- `random` results, `datetime.now()` and the `time.asctime` text are
  arguments;
- the working directory is a `Store` object whose map from file names to
  contents the save methods update.

Money is whole cents. Every bakery price is a multiple of a quarter, so the
programs' float sums are exact. `Ledger.Money2Dollars` and
`Ledger.Money2Cents` prove that the `:.2f` text reads back as the amount.
`Ledger.FloatReprFixed2` proves that `str` prints the same text except for a
trailing zero of the cents. Colour channels are bytes.

Each program takes the form of its source:

- The pure branches are functions with contracts, for example name
  resolution, the interactive defaults, the colour conversion and the game
  rules.
- The loops are methods with invariants, each proved against a recursive
  specification function:
  - the interactive payload prompt, the batch loop and the two CLI games;
  - `calculate_total`, the detail and receipt loops, `clear_form` and
    `display_orders`.
- The Kivy screens are classes whose handlers update their fields: the QR
  widget, the two game screens, `OrderItem` and the bakery application.

Three behaviours of the command-line QR generator are modelled as written:

- **Batch names.** The line at 0-based index `i` is written as
  `batch_qr_{i+1}.png`, so blank lines use up numbers. `QrCli.BatchExample`
  proves that the four lines `a`, blank, blank, `b` give `batch_qr_1.png`
  and `batch_qr_4.png`.
- **Batch failures.** The first exception ends the whole batch: later lines
  are not tried and there is no tally. `QrCli.RunBatch` states that the run
  stops at the first failing line.
- **Size checks.** Only the interactive path range-checks the size, and the
  interactive border accepts negative values.

Two behaviours of the GUI bakery are modelled as written:

- `clear_form` puts every quantity spinner on "1", while the summary labels
  go back to "0" and "$0.00". `BakeryGui.ClearedFormCountsEveryLine`
  proves what follows from this: the next "Calculate Total" counts one item
  per menu line, and the next save orders every line.
- The receipt prints a bill with `:.2f` ("$5.00"), while the history and
  the details popup print it with `str` (“$5.0”). `Ledger.WholeDollars`
  states the difference.

## Model

| member | source | states |
|---|---|---|
| PyText.Strip | command-line/qrgenerator.py:193 | `strip()` is the string between its leading and its trailing whitespace runs: the characters after the leading run, copied in order, followed only by whitespace, and a non-empty result neither starts nor ends with whitespace |
| PyText.StripEmptyIff | command-line/qrgenerator.py:193-194 | a line strips to "" exactly when it is all whitespace, so `if data:` skips exactly the blank lines |
| PyText.StripUnchanged | pygame-kivi/bakeryshop/bakery.py:51 | a string with no whitespace at either end is left as it is |
| PyText.StripIdempotent | pygame-kivi/bakeryshop/bakery.py:51 | stripping twice gives the same as stripping once |
| PyText.Slice | pygame-kivi/bakeryshop/bakery.py:51-54 | `s[i:j]` clamps both bounds to the length: the substring inside the bounds, the tail past the end, "" when the range is empty |
| PyText.Upper | command-line/qrgenerator.py:130 | `upper()` keeps the length and upper-cases each character in place |
| PyText.Lower | command-line/qrgenerator.py:88 | `lower()` keeps the length and lower-cases each character in place |
| PyText.LStripChar | pygame-kivi/qrgenerator/qrgenerator.py:185 | `lstrip('#')` removes a prefix made only of '#', keeps the rest unchanged, and the result does not start with '#' |
| PyText.DigitChar | pygame-kivi/qrgenerator/qrgenerator.py:181 | the digit printed for a value below 16 is a lower-case hexadecimal digit worth that value, and a decimal digit below 10 |
| PyText.Decimal | command-line/qrgenerator.py:195 | `str(n)` is non-empty, all decimal digits, has no leading zero, and has one to four digits for numbers below 10, 100, 1000 and 10000 |
| PyText.DecimalValue | command-line/qrgenerator.py:195 | the digits of `str(n)` denote `n` |
| PyText.DecimalInjective | command-line/qrgenerator.py:195 | different numbers print differently |
| PyText.IntToString | pygame-kivi/bakeryshop/bakery.py:421 | `str(i)` is never empty |
| PyText.Pad2 | command-line/qrgenerator.py:48 | `%02d`-style padding gives exactly two digits below 100 |
| PyText.Pad4 | command-line/qrgenerator.py:48 | `%Y` gives exactly four digits for years below 10000 |
| PyText.ParseIntBlank | command-line/qrgenerator.py:99 | `int()` of an empty or all-whitespace answer raises `ValueError` |
| PyText.NaturalRoundTrip | command-line/qrgenerator.py:99 | `int(str(n)) == n` for every natural number |
| PyText.NegativeRoundTrip | command-line/qrgenerator.py:109 | `int("-" + str(n)) == -n` for every natural number |
| PyText.IntRoundTrip | command-line/qrgenerator.py:109 | `int(str(i)) == i` for every integer, negative ones included (with no limit on the number of digits) |
| PyText.ParseInt | command-line/qrgenerator.py:99 | `int(s)` and `int(s, 16)`: definition; only the whitespace `int()` skips may surround the numeral; its behaviour is stated by ParseIntBlank, ParseIntPadded, ParseIntSeparator, IntRoundTrip, HexPairValue and HexByteValue |
| PyText.IntSpace | command-line/qrgenerator.py:99 | the whitespace `int()` skips: `isspace` characters other than the separators U+001C..U+001F |
| PyText.ParseIntPadded | command-line/qrgenerator.py:99 | a numeral surrounded by whitespace that `int()` skips reads as the numeral alone |
| PyText.ParseIntSeparator | command-line/game.py:57 | `int("\x1c5")` raises `ValueError`: a leading U+001C is not skipped |
| PyText.StripPadded | pygame-kivi/bakeryshop/bakery.py:51 | `strip()` of a middle without whitespace at its ends, padded by whitespace, gives the middle |
| PyText.HexPairValue | pygame-kivi/qrgenerator/qrgenerator.py:186 | `int(hl, 16)` of two lower-case hexadecimal digits is `h * 16 + l` |
| PyText.IndexOf | pygame-kivi/qrgenerator/qrgenerator.py:315 | the separator occurs at the index found and nowhere before it, and `None` means it occurs nowhere |
| PyText.Split | pygame-kivi/qrgenerator/qrgenerator.py:315 | `split(sep)` gives at least one part |
| PyText.SplitJoin | pygame-kivi/qrgenerator/qrgenerator.py:315 | joining the parts of a split with the same separator gives back the string |
| PyText.SplitPartsFree | pygame-kivi/qrgenerator/qrgenerator.py:315 | no part of a split, the last included, holds the separator |
| PyText.SplitWithout | pygame-kivi/qrgenerator/qrgenerator.py:315 | a string that does not contain the separator splits into itself alone |
| QrCommon.TierLookup | pygame-kivi/qrgenerator/qrgenerator.py:206-212 | `ec_map.get(key, H)`: definition; its behaviour is stated by TierLookupExact |
| QrCommon.TierLookupExact | pygame-kivi/qrgenerator/qrgenerator.py:206-212 | `ec_map.get(key, H)` selects L, M or Q exactly for the keys "L", "M" and "Q", and gives H for every other key |
| QrCommon.Timestamp | command-line/qrgenerator.py:48 | `%Y%m%d_%H%M%S` is fifteen characters: digits everywhere except '_' at position 8 |
| QrCommon.GeneratedName | command-line/qrgenerator.py:46-49 | the generated name `qrimg_{timestamp}_{num}.png` is thirty characters long |
| QrCommon.GeneratedNameFields | command-line/qrgenerator.py:49 | the generated name starts with "qrimg_" and ends with ".png", with the timestamp at 6..21, '_' at 21 and the four-digit suffix at 22..26 |
| QrCommon.GeneratedNameNoColon | pygame-kivi/qrgenerator/qrgenerator.py:257-259 | a generated name contains no colon |
| QrCommon.GeneratedNameInjective | pygame-kivi/qrgenerator/qrgenerator.py:257-259 | two generated names are equal exactly when their timestamps and their random suffixes are equal |
| QrCli.ResolveGivenName | command-line/qrgenerator.py:50-51 | a given name always ends up with a .png, .jpg or .jpeg extension and starts with the given name; it is unchanged exactly when it already had one of these extensions |
| QrCli.ResolveGivenIdempotent | command-line/qrgenerator.py:50-51 | resolving a resolved name changes nothing |
| QrCli.EmptyNameResolves | command-line/qrgenerator.py:95 | pressing Enter at the filename prompt gives "", which resolves to ".png" |
| QrCli.ResolveOutputName | command-line/qrgenerator.py:46-51 | `None` gives the generated name and a string gives the resolved given name; either way the result has an image extension |
| QrCli.GenerateQrCode | command-line/qrgenerator.py:45-71 | the encoder gets the resolved name; the call returns that name exactly when the encoder writes the image, and re-raises the encoder's message otherwise |
| QrCli.InteractiveSize | command-line/qrgenerator.py:97-105 | the size is always in [1, 40]; an integer in range is kept; any other answer gives 10 |
| QrCli.InteractiveSizeOfNumber | command-line/qrgenerator.py:97-105 | typing `str(n)` gives `n` when 1 ≤ n ≤ 40, otherwise 10 |
| QrCli.InteractiveSizeIdempotent | command-line/qrgenerator.py:97-105 | typing a normalised size back in gives that size again |
| QrCli.InteractiveBorder | command-line/qrgenerator.py:107-112 | every integer `int()` accepts is kept as the border, negative ones too; every other answer gives 4 |
| QrCli.InteractiveBorderOfNumber | command-line/qrgenerator.py:107-112 | typing `str(n)` at the border prompt gives `n` for every integer `n` (with no limit on the number of digits) |
| QrCli.InteractiveBlankDefaults | command-line/qrgenerator.py:97-112 | empty or all-whitespace answers give size 10 and border 4 |
| QrCli.OrDefault | command-line/qrgenerator.py:114-115 | `input() or default` keeps a non-empty answer and gives the default for "" |
| QrCli.InteractiveTier | command-line/qrgenerator.py:130-132 | the upper-cased answer looked up with H as the default: definition; its behaviour is stated by InteractiveTierIff |
| QrCli.InteractiveTierIff | command-line/qrgenerator.py:118-132 | the tier answer is case-insensitive: "l"/"L", "m"/"M" and "q"/"Q" select their tier, and every other answer, "" included, gives H |
| QrCli.InteractiveSettings | command-line/qrgenerator.py:97-132 | the interactive settings always have a size in [1, 40] and non-empty colours |
| QrCli.InteractiveJob | command-line/qrgenerator.py:134-143 | the interactive name is always a string, never `None`: it is resolved with its extension fixed, and the generated name is never used on this path |
| QrCli.FirstNonEmpty | command-line/qrgenerator.py:79-84 | finds the first non-empty line, with all earlier lines empty; `None` means every line is empty |
| QrCli.PromptPayload | command-line/qrgenerator.py:79-84 | the prompt repeats until a non-empty line arrives: it returns that line and consumes lines up to it; `None` means the input ran out first |
| QrCli.GenerateFromAnswers | command-line/qrgenerator.py:134-155 | the six answers build the job; the outcome is "generated" exactly when the encoder writes, and carries the encoder's message otherwise; after a success the next line answers "open it?" |
| QrCli.AfterPayload | command-line/qrgenerator.py:86-155 | a URL the validator rejects needs confirmation, and any answer other than "y" (in any case) cancels; otherwise the answers that follow are used; the session ends early only when the input runs out |
| QrCli.RunInteractive | command-line/qrgenerator.py:73-155 | the whole interactive session: it ends at the end of input when every line is empty, and otherwise continues from the first non-empty line as above |
| QrCli.BatchName | command-line/qrgenerator.py:195 | `batch_qr_{i+1}.png`: definition; its behaviour is stated by BatchNameInjective and BatchNameExamples |
| QrCli.BatchJob | command-line/qrgenerator.py:193-196 | the job for one line: its stripped text under its batch name: definition; used by BatchPlanJobAt and RunBatch |
| QrCli.BatchPlan | command-line/qrgenerator.py:192-196 | the images a batch over the first `n` lines writes when no line fails: definition; its behaviour is stated by BatchPlanLength and BatchPlanJobAt |
| QrCli.NonBlankIndices | command-line/qrgenerator.py:192-194 | the positions of the non-blank lines: definition; its behaviour is stated by NonBlankIndexSound, NonBlankIndicesIncreasing and NonBlankIndicesComplete |
| QrCli.BatchNameInjective | command-line/qrgenerator.py:195 | `batch_qr_{i+1}.png` names differ for different line indices |
| QrCli.BatchPlanLength | command-line/qrgenerator.py:192-196 | the batch writes one image per non-blank line |
| QrCli.BatchPlanJobAt | command-line/qrgenerator.py:192-196 | the k-th image written comes from the k-th non-blank line: its stripped text, named after that line's physical index |
| QrCli.NonBlankIndexSound | command-line/qrgenerator.py:192-194 | only non-blank lines produce images |
| QrCli.NonBlankIndicesIncreasing | command-line/qrgenerator.py:192-194 | images are produced in file order |
| QrCli.NonBlankIndicesComplete | command-line/qrgenerator.py:192-194 | every non-blank line produces an image |
| QrCli.BatchNamesDistinct | command-line/qrgenerator.py:192-196 | no two images of one batch share a name |
| QrCli.BatchNameExamples | command-line/qrgenerator.py:195 | the lines at indices 0 and 3 are named "batch_qr_1.png" and "batch_qr_4.png" |
| QrCli.BatchExample | command-line/qrgenerator.py:192-204 | for the four lines `a`, "", "   ", `b`, the batch writes exactly `a` as batch_qr_1.png and `b` as batch_qr_4.png: blank lines use up indices |
| QrCli.RunBatch | command-line/qrgenerator.py:186-212 | the batch writes the planned images in order. It stops at the first one the encoder rejects, which is a non-blank line: the images before that line are written and no later line is tried |
| QrCli.Dispatch | command-line/qrgenerator.py:186-231 | `main` runs batch mode exactly when `--batch` is non-empty, single mode exactly when `--batch` is not given and `--data` is non-empty, and the prompts otherwise |
| QrCli.RunMain | command-line/qrgenerator.py:175-231 | `main` after argument parsing. An unreadable batch file writes nothing. A readable one behaves as `RunBatch`. Single mode is `generate_qr_code` with the arguments unchanged, size not range-checked. Interactive mode is the session above |
| QrGui.HexByte | pygame-kivi/qrgenerator/qrgenerator.py:181 | `{v:02x}` is exactly two lower-case hexadecimal digits |
| QrGui.RgbToHex | pygame-kivi/qrgenerator/qrgenerator.py:178-181 | `rgb_to_hex` is '#' followed by two hex digits for each of red, green and blue |
| QrGui.RgbToHexDigits | pygame-kivi/qrgenerator/qrgenerator.py:181 | the six characters after '#' are lower-case hexadecimal digits |
| QrGui.RgbToHexIgnoresAlpha | pygame-kivi/qrgenerator/qrgenerator.py:180-181 | the alpha channel does not show in the string |
| QrGui.HexByteValue | pygame-kivi/qrgenerator/qrgenerator.py:186 | `int(pair, 16)` of a printed byte gives the byte back |
| QrGui.RgbToHexInjective | pygame-kivi/qrgenerator/qrgenerator.py:178-181 | two colours give the same string exactly when their red, green and blue agree |
| QrGui.HexToRgb | pygame-kivi/qrgenerator/qrgenerator.py:183-186 | `hex_to_rgb` succeeds when all three clamped pairs after `lstrip('#')` parse in base 16, and then gives their values; otherwise one of the pairs raises |
| QrGui.HexRoundTrip | pygame-kivi/qrgenerator/qrgenerator.py:178-186 | `hex_to_rgb(rgb_to_hex(c))` gives back c's channels, as bytes before the division by 255 |
| QrGui.HexTooShort | pygame-kivi/qrgenerator/qrgenerator.py:185-186 | four or fewer characters after the '#' leave the third pair empty, and `int("", 16)` raises |
| QrGui.ValidateUrl | pygame-kivi/qrgenerator/qrgenerator.py:188-193 | with `validators` installed, `validators.url` decides; without it, a URL is valid exactly when it starts with "http://" or "https://" |
| QrGui.ValidateUrlFallback | pygame-kivi/qrgenerator/qrgenerator.py:193 | without `validators`, anything starting with "https://" passes and "" fails |
| QrGui.OpenFilePath | pygame-kivi/qrgenerator/qrgenerator.py:315 | "Open File" gets `split(": ")[1]` when the message has two parts or more, and raises `IndexError` otherwise |
| QrGui.SavedSeparatorAt | pygame-kivi/qrgenerator/qrgenerator.py:294 | in "QR code saved as: " followed by a name without a colon, the first ": " is at index 16 |
| QrGui.OpenFilePathRecoversName | pygame-kivi/qrgenerator/qrgenerator.py:294-315 | the path "Open File" opens is exactly the generated name that was saved |
| QrGui.PreviewData | pygame-kivi/qrgenerator/qrgenerator.py:197-199 | the preview never encodes "": it encodes the typed text when there is some, and a fixed example URL while the box is empty |
| QrGui.Rendered | pygame-kivi/qrgenerator/qrgenerator.py:218-247 | a written preview replaces the shown image; an encoder error leaves the old one |
| QrGui.QrWidget.constructor | pygame-kivi/qrgenerator/qrgenerator.py:43-130 | the widget starts with empty text, size 10, border 4, tier "H", black on white, and no preview |
| QrGui.QrWidget.CurrentSettings | pygame-kivi/qrgenerator/qrgenerator.py:201-216 | the encoder gets the slider values, the spinner's tier with H as the fallback, and both colours as hex |
| QrGui.QrWidget.PreviewJob | pygame-kivi/qrgenerator/qrgenerator.py:195-216 | the preview renders to the in-memory buffer with non-empty data and the current settings |
| QrGui.QrWidget.UpdatePreview | pygame-kivi/qrgenerator/qrgenerator.py:195-247 | `update_preview` changes no control, only the image shown |
| QrGui.QrWidget.SetText | pygame-kivi/qrgenerator/qrgenerator.py:55-56 | typing changes only the text |
| QrGui.QrWidget.OnSizeSlider | pygame-kivi/qrgenerator/qrgenerator.py:132-138 | the size slider changes the size and its label and re-renders; the size stays in [1, 40] |
| QrGui.QrWidget.OnBorderSlider | pygame-kivi/qrgenerator/qrgenerator.py:132-138 | the border slider changes the border and its label and re-renders; the border stays in [0, 10] |
| QrGui.QrWidget.OnTierSelected | pygame-kivi/qrgenerator/qrgenerator.py:85-91 | choosing a tier changes only the spinner text and re-renders |
| QrGui.QrWidget.StoreColor | pygame-kivi/qrgenerator/qrgenerator.py:155-163 | the picked colour replaces the fill or the background colour, and its button shows the hex string |
| QrGui.QrWidget.OnColorSelected | pygame-kivi/qrgenerator/qrgenerator.py:155-166 | `on_select` stores the colour, shows its hex string and re-renders |
| QrGui.QrWidget.SaveQrCode | pygame-kivi/qrgenerator/qrgenerator.py:249-298 | with empty text: an error and no encoder call. Otherwise the text goes to the generated name with the preview's settings, and the result is the success message exactly when the encoder writes, else "Error: " and the message |
| QrGui.PreviewMatchesSave | pygame-kivi/qrgenerator/qrgenerator.py:249-276 | with text in the box, the saved job is the preview job sent to the generated file |
| GameCli.ParseChoice | command-line/game.py:18 | `dic.get` maps exactly "1", "2" and "3" to stone, paper and scissor |
| GameCli.ParseChoiceExact | command-line/game.py:17-21 | every other line, " 1" and "01" included, is refused |
| GameCli.RoundOutcome | command-line/game.py:22-41 | equal choices draw, and only they do |
| GameCli.Beats | command-line/game.py:24-41 | stone beats scissor, scissor beats paper, paper beats stone: definition; its behaviour is stated by BeatsAntisymmetric and RoundOutcomeIsRule |
| GameCli.RoundOutcomeIsRule | command-line/game.py:24-41 | the user wins exactly when their choice beats the opponent's, and loses exactly when it is beaten |
| GameCli.BeatsAntisymmetric | command-line/game.py:24-41 | of two different choices exactly one beats the other, and no choice beats itself |
| GameCli.RoundOutcomeSwap | command-line/game.py:24-41 | swapping the two choices turns a win into a loss and back |
| GameCli.Scored | command-line/game.py:16-42 | an invalid answer leaves w and l as they are; a valid one adds one to w on a win and one to l on a loss |
| GameCli.Tally | command-line/game.py:15-42 | the score after the first `n` answers: definition; its behaviour is stated by TallyMonotone, TallyBound, TallyAllDraws and StonePaperScissor |
| GameCli.TallyMonotone | command-line/game.py:15-42 | neither w nor l ever decreases |
| GameCli.TallyBound | command-line/game.py:15-42 | w + l never exceeds the number of answers |
| GameCli.TallyAllDraws | command-line/game.py:22-23 | always answering the opponent's own pick never scores |
| GameCli.StonePaperScissor | command-line/game.py:5-42 | the loop's w and l are the tally of the answers against the opponent's picks |
| GameCli.HintFor | command-line/game.py:63-70 | correct exactly on equality, "too big" exactly above the secret, "too small" exactly below |
| GameCli.ReadLine | command-line/game.py:52-60 | exactly "Q" quits, a line `int()` rejects is not a number, and any other line is its integer |
| GameCli.Readings | command-line/game.py:52-60 | one reading per line typed |
| GameCli.ReadingAt | command-line/game.py:52-60 | the reading at line `i` is what `ReadLine` makes of that line |
| GameCli.ReadGuess | command-line/game.py:52-60 | one `input()` of the loop yields the reading of the next line |
| GameCli.FirstStop | command-line/game.py:51-66 | the position of the first line that ends the game lies within the input |
| GameCli.FirstStopIsFirst | command-line/game.py:51-66 | play goes on at every line before the first stop, and that line ends the game |
| GameCli.Guesses | command-line/game.py:61-62 | `data` never has more entries than lines read |
| GameCli.GuessesMiss | command-line/game.py:63-66 | while play goes on, no guess in `data` equals the secret |
| GameCli.GuessesSkip | command-line/game.py:56-60 | a line that is not an integer adds neither an attempt nor an entry |
| GameCli.GuessEndFor | command-line/game.py:51-72 | the game ends by "Q", by a hit, or when the input runs out, at the first line that stops it, and reports how many lines were read |
| GameCli.EndAtFirstStop | command-line/game.py:53-64 | a loop stopped by "Q" or a hit at the first stopping line, or by running out of input, ends as `GuessEndFor` says |
| GameCli.GuessedEndsOnSecret | command-line/game.py:61-66 | a game won ends on a guess equal to the secret, and every earlier guess missed |
| GameCli.UnfinishedMissesAll | command-line/game.py:53-55 | a game that ends with "Q" or at the end of the input never saw the secret |
| GameCli.QuitIsNotANumber | command-line/game.py:53-57 | "Q" is not an integer, so the quit test and `int()` never both apply to one line |
| GameCli.NumberGuessing | command-line/game.py:45-72 | the loop ends as stated above; `data` holds the integer guesses in order, and `a == len(data)` |
| GameCli.SelectGame | command-line/game.py:75-83 | "number_guessing" and "stone_paper_scissor" start their games, and only they do |
| GameGui.GuessMessage | pygame-kivi/game.py:54-71 | "Please enter a valid number!" for non-integers; "Correct! Attempts: n", "Too high!" or "Too low!" by comparison with the secret |
| GameGui.GuessColor | pygame-kivi/game.py:58-70 | green exactly on a hit, red otherwise |
| GameGui.GuessMessageDistinct | pygame-kivi/game.py:59-69 | the message determines the verdict, and on a hit the attempt count |
| GameGui.NumberGuessingScreen.constructor | pygame-kivi/game.py:30-49 | the secret is drawn once, in [1, 100], with no attempts and an empty label |
| GameGui.NumberGuessingScreen.SetInput | pygame-kivi/game.py:41 | typing changes only the input box |
| GameGui.NumberGuessingScreen.CheckGuess | pygame-kivi/game.py:54-74 | an integer adds one attempt and a non-integer adds none. The label shows the message and colour above, the input is cleared, and the secret never changes, so attempts keep counting after a hit |
| GameGui.ChoiceAt | pygame-kivi/game.py:90 | `items[i]` names the choice of that index |
| GameGui.PlayVerdict | pygame-kivi/game.py:136-148 | a draw exactly when the opponent's name equals the player's |
| GameGui.ItemsDistinct | pygame-kivi/game.py:90 | the three item names differ |
| GameGui.PlayVerdictAgrees | pygame-kivi/game.py:134-148 | the screen's verdict is the command-line game's verdict for the same choices |
| GameGui.PlayMessage | pygame-kivi/game.py:137-146 | "Draw!", "You won! Opponent chose …" or "You lost! Opponent chose …" |
| GameGui.StonePaperScissorScreen.constructor | pygame-kivi/game.py:88-120 | stone chosen, no score, an empty result label in the plain colour, and the labels bound to the score |
| GameGui.StonePaperScissorScreen.Select | pygame-kivi/game.py:122-132 | sets `player_choice` and its label, and leaves the score alone |
| GameGui.StonePaperScissorScreen.SelectStone | pygame-kivi/game.py:122-124 | `player_choice` becomes 0 and the label says stone; the score, the result text and its colour are kept |
| GameGui.StonePaperScissorScreen.SelectPaper | pygame-kivi/game.py:126-128 | `player_choice` becomes 1 and the label says paper; the score, the result text and its colour are kept |
| GameGui.StonePaperScissorScreen.SelectScissor | pygame-kivi/game.py:130-132 | `player_choice` becomes 2 and the label says scissor; the score, the result text and its colour are kept |
| GameGui.StonePaperScissorScreen.PlayGame | pygame-kivi/game.py:134-150 | a draw changes no counter. One of the three listed pairs adds one win, every other pair one loss. The labels show the result, the score and the choice |
| GameGui.StonePaperScissorScreen.Score | pygame-kivi/game.py:136-156 | the counter of the outcome goes up by one, its bound label follows, the result colour is yellow, green or red, and the result text and the choice are kept |
| Ledger.Money2 | pygame-kivi/bakeryshop/bakery.py:285 | `:.2f` of an amount has two digits after the point |
| Ledger.Money2Cents | pygame-kivi/bakeryshop/bakery.py:285 | the two digits after the point are the tens and the units of the cents |
| Ledger.Money2Dollars | pygame-kivi/bakeryshop/bakery.py:285 | the digits before the point read back as the whole dollars |
| Ledger.Fixed2 | pygame-kivi/bakeryshop/bakery.py:342 | `:.2f` of any amount starts with '-' exactly for a negative amount, and is the `:.2f` text of its magnitude after that sign |
| Ledger.Fraction | command-line/bakery.py:49 | the digits `str` prints after the point: the tens of the cents, followed by their units unless the units are zero |
| Ledger.Unsigned | command-line/bakery.py:49 | `str(float)` of a non-negative amount is at least three characters and has no sign |
| Ledger.FloatRepr | command-line/bakery.py:49 | `str(float)` of an amount is at least three characters, and starts with '-' exactly for a negative amount |
| Ledger.FloatReprMoney2 | command-line/bakery.py:49 | `str` of a non-negative amount is its `:.2f` text when the cents end in a non-zero digit, and that text without its final "0" otherwise |
| Ledger.FloatReprFixed2 | command-line/bakery.py:49 | the same relation between `str` and `:.2f` for every amount, negative ones included |
| Ledger.LineRepr | pygame-kivi/bakeryshop/bakery.py:421 | `repr` of a line item's dictionary: definition, used by Str |
| Ledger.Str | pygame-kivi/bakeryshop/bakery.py:421 | `str` of a record value: definition; its behaviour on records is stated by SavedOrderShows, OlderRecordShows and the DetailsOf lemmas |
| Ledger.Money2Injective | pygame-kivi/bakeryshop/bakery.py:285 | different amounts print differently under `:.2f` |
| Ledger.ZeroAmount | pygame-kivi/bakeryshop/bakery.py:198-202 | the zero amount prints as "0", "0.00" and "$0.00" |
| Ledger.WholeDollars | pygame-kivi/bakeryshop/bakery.py:433 | a whole-dollar bill prints ".00" with `:.2f` and ".0" with `str` |
| Ledger.Get | pygame-kivi/bakeryshop/bakery.py:433 | `dict.get` gives the value of a present key and the default for a missing one |
| Ledger.DayFileName | pygame-kivi/bakeryshop/bakery.py:58 | `BakeryShop{month}{date}.json` |
| Ledger.DayFileNameInjective | pygame-kivi/bakeryshop/bakery.py:58 | for months of one length, the day file determines the month and the date |
| Ledger.Store.Write | pygame-kivi/bakeryshop/bakery.py:79-80 | writing a day file changes that file only |
| Ledger.Existing | pygame-kivi/bakeryshop/bakery.py:68-75 | a missing or undecodable file counts as no records |
| Ledger.Appended | pygame-kivi/bakeryshop/bakery.py:68-80 | the store after a read, an append and a write back: definition; its behaviour is stated by AppendedKeepsEarlier |
| Ledger.AppendedKeepsEarlier | pygame-kivi/bakeryshop/bakery.py:68-80 | a save adds exactly one record, at the end of the list, keeps the earlier records, and changes no other file |
| Ledger.DayField | pygame-kivi/bakeryshop/bakery.py:50 | the day field of `asctime` is two characters |
| Ledger.DayFieldStrip | pygame-kivi/bakeryshop/bakery.py:51 | the stripped day field is the day's number, and it holds a space exactly for days below 10 |
| Ledger.ClockField | pygame-kivi/bakeryshop/bakery.py:54 | the time of day is eight characters |
| Ledger.AscTime | pygame-kivi/bakeryshop/bakery.py:50 | `asctime` text is 24 characters: the month at 4..7, the day at 8..10, the time at 11..19 and the year at 20..24 |
| BakeryCli.ClockStamp | command-line/bakery.py:51-60 | the slices `order_process` takes from the clock text: definition; its behaviour is stated by ClockStampOfAscTime |
| BakeryCli.ClockStampOfAscTime | command-line/bakery.py:51-60 | on real `asctime` text, the slices give the time of day, the day without padding, and the month's name |
| BakeryCli.OrderRecord | command-line/bakery.py:12-18 | a record has exactly Customer_name, Customer_id, Order, Bill and Time, and no Date |
| BakeryCli.SaveEffect | command-line/bakery.py:10-29 | what `save_order_to_json` does to the files: definition; its behaviour is stated by SaveThenRead |
| BakeryCli.SaveOrderToJson | command-line/bakery.py:10-29 | a corrupt day file raises before anything is written. Otherwise the record goes at the end of the day's list, [] if the file is missing |
| BakeryCli.ReadOrdersFromJson | command-line/bakery.py:31-39 | [] for a missing file and the records of a decodable one; it raises exactly for a corrupt file |
| BakeryCli.SaveThenRead | command-line/bakery.py:10-39 | a save succeeds exactly when a read would, and the next read then gives the old records plus the new one; a failed save changes nothing |
| BakeryCli.OrderEffect | command-line/bakery.py:41-68 | what `order_process` does to the files: definition; its behaviour is stated by RejectedIff and SavedOrderAppends |
| BakeryCli.OrderProcess | command-line/bakery.py:41-68 | validates and then saves as `save_order_to_json` does, with the id drawn and the slices of the clock text |
| BakeryCli.RejectedIff | command-line/bakery.py:49-65 | an order is rejected exactly when the name or the order text is empty, because `str(bill)` is never empty; a rejected order changes no file |
| BakeryCli.SavedOrderAppends | command-line/bakery.py:63-67 | a saved order is the last record of its day, holding the name, the id, the order text, `str(bill)` and the time |
| BakeryCli.RunCommand | command-line/bakery.py:135-140 | no subcommand shows help and touches nothing; otherwise exactly the chosen subcommand runs, and only `order` writes a day file |
| BakeryGui.ClockStamp | pygame-kivi/bakeryshop/bakery.py:49-55 | `get_current_date_time` on the clock text: definition; its behaviour is stated by ClockStampOfAscTime and SameDayFile |
| BakeryGui.ClockStampOfAscTime | pygame-kivi/bakeryshop/bakery.py:49-55 | on real `asctime` text, `get_current_date_time` gives the day without padding, the month, the year and the time |
| BakeryGui.OrderItem.constructor | pygame-kivi/bakeryshop/bakery.py:95-119 | a menu line starts at quantity "0" with "$0.00" |
| BakeryGui.OrderItem.Info | pygame-kivi/bakeryshop/bakery.py:125-134 | `get_item_info` with `get_total`: definition; its behaviour is stated by BakeryShop.Lines |
| BakeryGui.OrderItem.SetQuantity | pygame-kivi/bakeryshop/bakery.py:121-123 | setting the spinner relabels the line with its new total |
| BakeryGui.ItemCount | pygame-kivi/bakeryshop/bakery.py:278-282 | the items `calculate_total` counts: definition; its behaviour is stated by DetailsAgree and NothingOrdered |
| BakeryGui.AmountDue | pygame-kivi/bakeryshop/bakery.py:278-282 | the amount `calculate_total` adds up: definition; its behaviour is stated by DetailsAgree and NothingOrdered |
| BakeryGui.Details | pygame-kivi/bakeryshop/bakery.py:312-316 | the `order_details` `save_order` collects: definition; its behaviour is stated by DetailsAreOrderedLines, DetailsAgree and NothingOrdered |
| BakeryGui.PositiveIndices | pygame-kivi/bakeryshop/bakery.py:312-316 | the positions of the lines with a positive quantity: definition, used by DetailsAreOrderedLines |
| BakeryGui.Summarize | pygame-kivi/bakeryshop/bakery.py:278-282 | the loop's totals are the item count and the amount over the lines with a positive quantity |
| BakeryGui.DetailsAgree | pygame-kivi/bakeryshop/bakery.py:278-316 | the item count is the sum of the detail quantities, and the amount due is the sum of their totals |
| BakeryGui.PositiveIndicesSorted | pygame-kivi/bakeryshop/bakery.py:312-316 | the listed positions are strictly increasing, below the line count, and each has a positive quantity |
| BakeryGui.PositiveIndicesCover | pygame-kivi/bakeryshop/bakery.py:312-316 | a position is listed exactly when its line has a positive quantity |
| BakeryGui.DetailsAtIndices | pygame-kivi/bakeryshop/bakery.py:312-316 | there are as many details as listed positions, and the k-th detail is the line at the k-th position |
| BakeryGui.DetailsAreOrderedLines | pygame-kivi/bakeryshop/bakery.py:312-316 | the k-th detail is the line at the k-th of a strictly increasing run of positions. Those positions are exactly the lines with a positive quantity, so every such line is taken once, in menu order |
| BakeryGui.NothingOrdered | pygame-kivi/bakeryshop/bakery.py:305-309 | `total_items == 0` exactly when no line has a positive quantity, which is when the details are empty; the amount is then 0 |
| BakeryGui.OrderRecord | pygame-kivi/bakeryshop/bakery.py:59-66 | the record `save_order_to_json` writes: definition; its behaviour is stated by OrderRecordFields |
| BakeryGui.OrderRecordFields | pygame-kivi/bakeryshop/bakery.py:59-66 | a saved record has exactly six fields, with the item list, the bill, and the Date as `date + " " + month` |
| BakeryGui.LineTexts | pygame-kivi/bakeryshop/bakery.py:421 | one history text per ordered item |
| BakeryGui.BillShown | pygame-kivi/bakeryshop/bakery.py:433 | the history shows Total_bill, else Bill, else "0.00" |
| BakeryGui.ItemLines | pygame-kivi/bakeryshop/bakery.py:419-426 | one line per entry when Order_items is a list, else `str` of Order, else "Unknown" |
| BakeryGui.CardOf | pygame-kivi/bakeryshop/bakery.py:399-437 | a record gets a box exactly when it has the header fields, with the item lines and the total above |
| BakeryGui.HeaderRun | pygame-kivi/bakeryshop/bakery.py:399-411 | the history gets through exactly the records before the first one that lacks a header field |
| BakeryGui.HistoryOf | pygame-kivi/bakeryshop/bakery.py:391-439 | no records gives "No orders found". Otherwise the panel is never left blank: there is one box per record in order, stopping with `KeyError` at the first record without a header field |
| BakeryGui.SavedOrderShows | pygame-kivi/bakeryshop/bakery.py:409-433 | a record this program saved shows its header, one line per item, and its bill |
| BakeryGui.OlderRecordShows | pygame-kivi/bakeryshop/bakery.py:424-433 | a command-line record shows its Order text and its Bill |
| BakeryGui.SameDayFile | pygame-kivi/bakeryshop/bakery.py:49-58 | both programs take the same date, month and time from one clock text, so they use the same day file |
| BakeryGui.AppendItemLines | pygame-kivi/bakeryshop/bakery.py:341-342 | the loop adds one bullet line per item, in order |
| BakeryGui.DetailsText | pygame-kivi/bakeryshop/bakery.py:441-457 | the details popup has text exactly when the record has the header fields |
| BakeryGui.DetailsOfSavedOrder | pygame-kivi/bakeryshop/bakery.py:441-457 | the details of a saved order repeat its receipt, without the year and with the total printed by `str` |
| BakeryGui.DetailsOfOlderRecord | pygame-kivi/bakeryshop/bakery.py:441-457 | a command-line record's details show Date "Unknown", its Order text and its Bill |
| BakeryGui.SaveOrderToJson | pygame-kivi/bakeryshop/bakery.py:57-80 | the record goes at the end of the day's list, which is [] when the file is missing or undecodable |
| BakeryGui.ReadOrdersFromJson | pygame-kivi/bakeryshop/bakery.py:82-92 | the day's records, or [] when the file is missing or undecodable |
| BakeryGui.ReadAfterSave | pygame-kivi/bakeryshop/bakery.py:57-92 | after a save, reading that day gives the old records plus the new one, and other days are unchanged |
| BakeryGui.Checkout | pygame-kivi/bakeryshop/bakery.py:318-345 | the details are saved with the id "CUST-n" and the clock's date, and the receipt lists them |
| BakeryGui.MenuLines | pygame-kivi/bakeryshop/bakery.py:184-187 | one line per menu entry, in `BAKERY_ITEMS` order |
| BakeryGui.ClearedFormCountsEveryLine | pygame-kivi/bakeryshop/bakery.py:289-295 | after `clear_form` every line counts one item, so calculating counts one per menu line and saving orders every line |
| BakeryGui.BakeryShop.Lines | pygame-kivi/bakeryshop/bakery.py:128-134 | `get_item_info` of each menu line, with total = quantity × price |
| BakeryGui.BakeryShop.constructor | pygame-kivi/bakeryshop/bakery.py:136-272 | `build` makes one line per menu entry at "0", empty inputs, labels "0" and "$0.00", and "Select Month" |
| BakeryGui.BakeryShop.EnterCustomer | pygame-kivi/bakeryshop/bakery.py:166-171 | typing changes only the name and the phone number |
| BakeryGui.BakeryShop.PickQuantity | pygame-kivi/bakeryshop/bakery.py:109-123 | picking a quantity changes that line alone |
| BakeryGui.BakeryShop.EnterDay | pygame-kivi/bakeryshop/bakery.py:232-239 | the view tab's inputs change and nothing else |
| BakeryGui.BakeryShop.CalculateTotal | pygame-kivi/bakeryshop/bakery.py:274-287 | the labels show, and the method returns, the item count and the amount of the lines with a positive quantity |
| BakeryGui.BakeryShop.ShowTotals | pygame-kivi/bakeryshop/bakery.py:284-285 | writing the summary labels changes no menu line |
| BakeryGui.BakeryShop.CollectDetails | pygame-kivi/bakeryshop/bakery.py:312-316 | the loop collects the lines with a positive quantity |
| BakeryGui.BakeryShop.ClearForm | pygame-kivi/bakeryshop/bakery.py:289-295 | the inputs are emptied, every spinner is set to "1", and the labels go back to "0" and "$0.00" |
| BakeryGui.BakeryShop.SaveOrder | pygame-kivi/bakeryshop/bakery.py:297-348 | without a name or a phone number: an error, and nothing changes. With no item counted: an error, nothing is saved, and only the labels change. Otherwise the details and the amount are saved, the receipt is shown and the form is cleared |
| BakeryGui.BakeryShop.TotalAndPlace | pygame-kivi/bakeryshop/bakery.py:305-348 | the empty-order check after the totals, then the order placed |
| BakeryGui.BakeryShop.PlaceOrder | pygame-kivi/bakeryshop/bakery.py:311-348 | the details are saved with the receipt shown and the form cleared |
| BakeryGui.BakeryShop.DisplayOrders | pygame-kivi/bakeryshop/bakery.py:391-439 | the panel becomes the history of the records, and nothing else changes |
| BakeryGui.BakeryShop.FetchOrders | pygame-kivi/bakeryshop/bakery.py:380-389 | without a date or a month: an error. Otherwise the day's records are shown |
| BakeryGui.BakeryShop.ShowOrderDetails | pygame-kivi/bakeryshop/bakery.py:441-459 | the popup comes up exactly when the record has the header fields, titled "Order Details" and holding the details text |

## Left out

- The QR symbol encoding and rendering of the `qrcode` library (ISO/IEC 18004), together with `box_size` and `fit=True`, belongs to a foreign library. It is the `Encoder` parameter, and any job may fail.
- `validators.url` is a foreign predicate and is passed in.
- Whether `validators` is installed is passed in as a flag; the import attempt is not modelled.
- Kivy is reduced to the texts and values its handlers set:
  - layouts, colours of buttons and backgrounds;
  - the `Clock.schedule_once` delays, where typing and the preview it schedules are separate calls;
  - the `ColorPicker` popup;
  - the PNG buffer and the texture conversion;
  - the screen manager, `go_back` and the main menu;
  - popups, which are modelled as their title and text.
- Logging, `webbrowser.open`, `os.system("clear")` and console output are left out; they are side effects without decisions. The answer to "open it?" is kept, not the opening itself.
- `argparse` is left out: the parsed argument record is the input. The `choices` restriction appears only as `None` in `GameCli.SelectGame`.
- `random.randint`, `random.choice`, `datetime.now()` and `time.asctime(time.localtime())` are left out: their results are arguments, whose ranges are stated in `requires`.
- Floats are not modelled; amounts are whole cents and colour channels are bytes.
- QrGui.HexToRgb: gives the integers before the division by 255.
- QrGui.QrWidget.OnSizeSlider, QrGui.QrWidget.OnBorderSlider: both take the slider's value as a whole number. The sliders themselves yield floats, which `int()` truncates.
- Ledger.FloatRepr: models `str(float)` only for whole-cent amounts below 10^15 cents. A double keeps every decimal of at most 15 significant digits, so Python's shortest repr gives exactly those cents back. Above 2^53 cents a binary float loses its cents (`str(1000000000000000.25)` is "1000000000000000.2"), and from 10^16 on Python switches to exponent notation. Negative zero, which prints as "-0.0", is not modelled.
- Ledger.Str: prints the `repr` of a line item without escaping quotes inside the item name.
- JSON is not modelled. A day file is a list of records or undecodable text. A file that decodes to something other than a list, or to records with malformed items (the `KeyError` on `item['total']`), is left out.
- pandas and FPDF output are left out: `print_orders`, `generate_pdf` and the GUI's `save_data_as_pdf`. The model keeps which orders they are handed. The `KeyError` that `generate_pdf` raises on a GUI record is not modelled.
- The printer stub `print_receipt` and the "Print Receipt" button are left out.
- PyText.ParseInt: reads ASCII digits only, where Python's `int()` also accepts other Unicode decimal digits.
- PyText.ParseInt: has no limit on the number of digits. CPython's default limit of 4300 digits for `int()` and `str()` is not modelled. So PyText.IntRoundTrip and QrCli.InteractiveBorderOfNumber hold here for numbers CPython refuses, and a border answer of more than 4300 digits is kept where CPython falls back to 4.
- PyText.Upper and PyText.Lower: change ASCII letters only.
- The spinner text of a menu line is modelled as the number it shows. Its only values are "0" to "10", plus the "1" set by `clear_form`.
- The batch file's `readlines()` is a sequence of lines. Their trailing newlines are whitespace that `strip()` removes.
- GameCli.StonePaperScissor: the game has no way out, so the model ends when the answers run out, where `input()` would raise `EOFError`.
- An interactive QR session that runs out of input ends as `EndOfInput`, which corresponds to the uncaught `EOFError`.
