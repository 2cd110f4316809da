/** The command-line QR generator: output-name resolution, the interactive
    prompts and their defaults, the batch loop and the dispatch between batch,
    single and interactive mode. The encoder, the URL validator, the clock,
    the random suffix and the console are parameters. */
module QrCli {
  import opened Wrappers
  import opened PyText
  import opened QrCommon

  // ---------------------------------------------------------------------------
  // Output names (generate_qr_code)

  /** The name ends in one of the extensions `generate_qr_code` accepts. */
  predicate HasImageExtension(name: string) {
    EndsWith(name, ".png") || EndsWith(name, ".jpg") || EndsWith(name, ".jpeg")
  }

  /** A name the caller gave: kept when it already ends in `.png`, `.jpg` or
      `.jpeg`, otherwise `.png` is appended. */
  function ResolveGivenName(name: string): (r: string)
    ensures HasImageExtension(r)
    ensures StartsWith(r, name)
    ensures HasImageExtension(name) <==> r == name
  {
    if HasImageExtension(name) then name
    else
      var r := name + ".png";
      assert r[|r| - 4..] == ".png" && r[..|name|] == name;
      r
  }

  /** Resolving a resolved name changes nothing. */
  lemma ResolveGivenIdempotent(name: string)
    ensures ResolveGivenName(ResolveGivenName(name)) == ResolveGivenName(name)
  {
  }

  /** Pressing Enter at the filename prompt gives "", which becomes ".png". */
  lemma EmptyNameResolves()
    ensures ResolveGivenName("") == ".png"
  {
    assert !EndsWith("", ".png") && !EndsWith("", ".jpg") && !EndsWith("", ".jpeg");
  }

  /** The name `generate_qr_code` saves under: a generated one when the
      caller passed `None`, otherwise the given one with its extension fixed. */
  function ResolveOutputName(outputName: Option<string>, now: DateTime, num: int): (r: string)
    requires ValidDateTime(now) && ValidSuffix(num)
    ensures HasImageExtension(r)
    ensures outputName.None? ==> r == GeneratedName(now, num)
    ensures outputName.Some? ==> r == ResolveGivenName(outputName.value)
  {
    match outputName
    case None =>
      GeneratedNameFields(now, num);
      GeneratedName(now, num)
    case Some(name) => ResolveGivenName(name)
  }

  /** `generate_qr_code`: resolve the name, hand the job to the encoder, and
      return the name, or the encoder's exception (which it re-raises). */
  function GenerateQrCode(data: string, outputName: Option<string>, settings: Settings,
                          now: DateTime, num: int, encoder: Encoder): (r: Result<string, string>)
    requires ValidDateTime(now) && ValidSuffix(num)
    ensures var job := QrJob(data, settings, ToFile(ResolveOutputName(outputName, now, num)));
      && (r.Ok? <==> encoder(job) == Written)
      && (r.Ok? ==> r.value == job.target.name && HasImageExtension(r.value))
      && (r.Err? ==> encoder(job) == Raised(r.error))
  {
    var name := ResolveOutputName(outputName, now, num);
    match encoder(QrJob(data, settings, ToFile(name)))
    case Written => Ok(name)
    case Raised(message) => Err(message)
  }

  // ---------------------------------------------------------------------------
  // Interactive answers (interactive_mode)

  /** The size prompt: an integer in [1, 40] is kept; an empty answer, one
      `int()` rejects, or one out of range becomes 10. */
  function InteractiveSize(answer: string): (size: int)
    ensures 1 <= size <= 40
    ensures ParseInt(answer, 10).Some? && 1 <= ParseInt(answer, 10).value <= 40 ==> size == ParseInt(answer, 10).value
    ensures size != 10 ==> ParseInt(answer, 10) == Some(size)
  {
    if answer == "" then 10
    else match ParseInt(answer, 10)
      case None => 10
      case Some(n) => if 1 <= n <= 40 then n else 10
  }

  /** The border prompt: any integer `int()` accepts is kept, negative ones
      too; an empty or non-integer answer becomes 4. */
  function InteractiveBorder(answer: string): (border: int)
    ensures ParseInt(answer, 10).Some? ==> border == ParseInt(answer, 10).value
    ensures ParseInt(answer, 10).None? ==> border == 4
  {
    if answer == "" then 4
    else match ParseInt(answer, 10)
      case None => 4
      case Some(n) => n
  }

  /** `input(...) or default`. */
  function OrDefault(answer: string, default: string): (r: string)
    ensures answer != "" ==> r == answer
    ensures answer == "" ==> r == default
  {
    if answer == "" then default else answer
  }

  /** The tier prompt: `ec_map.get(answer.upper(), H)`. */
  function InteractiveTier(answer: string): Tier {
    TierLookup(Upper(answer))
  }

  /** Typing a size in range and reading it back keeps it; typing one out of
      range gives 10. */
  lemma InteractiveSizeOfNumber(n: int)
    ensures InteractiveSize(IntToString(n)) == if 1 <= n <= 40 then n else 10
  {
    IntRoundTrip(n);
  }

  /** Normalising an already normalised size gives it back. */
  lemma InteractiveSizeIdempotent(answer: string)
    ensures InteractiveSize(IntToString(InteractiveSize(answer))) == InteractiveSize(answer)
  {
    InteractiveSizeOfNumber(InteractiveSize(answer));
  }

  /** Every integer typed at the border prompt is kept, negative ones included. */
  lemma InteractiveBorderOfNumber(n: int)
    ensures InteractiveBorder(IntToString(n)) == n
  {
    IntRoundTrip(n);
  }

  /** Empty or blank answers give the defaults 10 and 4. */
  lemma InteractiveBlankDefaults(answer: string)
    requires AllSpace(answer)
    ensures InteractiveSize(answer) == 10 && InteractiveBorder(answer) == 4
  {
    ParseIntBlank(answer, 10);
  }

  /** The tier answer is case-insensitive: "l"/"L", "m"/"M" and "q"/"Q" pick
      their tier; every other answer, the empty one included, gives H. */
  lemma InteractiveTierIff(answer: string)
    ensures InteractiveTier(answer) == L <==> answer == "L" || answer == "l"
    ensures InteractiveTier(answer) == M <==> answer == "M" || answer == "m"
    ensures InteractiveTier(answer) == Q <==> answer == "Q" || answer == "q"
    ensures InteractiveTier(answer) == H <==> answer !in {"L", "l", "M", "m", "Q", "q"}
  {
    var u := Upper(answer);
    if |answer| == 1 {
      assert u == [UpperChar(answer[0])];
    } else {
      assert |u| != 1;
      assert u != "L" && u != "M" && u != "Q";
    }
  }

  /** The six answers after the payload (and the optional confirmation):
      output name, size, border, fill colour, background colour and tier. */
  datatype Answers = Answers(outputName: string, size: string, border: string,
                             fill: string, back: string, tier: string)

  /** The settings `interactive_mode` builds from its answers. */
  function InteractiveSettings(a: Answers): (s: Settings)
    ensures 1 <= s.size <= 40
    ensures s.fill != "" && s.back != ""
  {
    Settings(InteractiveSize(a.size), InteractiveBorder(a.border),
             OrDefault(a.fill, "black"), OrDefault(a.back, "white"), InteractiveTier(a.tier))
  }

  /** The job `interactive_mode` hands to `generate_qr_code`. The name is
      always a string, never `None`, so the generated `qrimg_` name is never
      used on this path. */
  function InteractiveJob(data: string, a: Answers): (job: QrJob)
    ensures job.target.ToFile? && HasImageExtension(job.target.name)
    ensures job.target.name == ResolveGivenName(a.outputName)
  {
    QrJob(data, InteractiveSettings(a), ToFile(ResolveGivenName(a.outputName)))
  }

  // ---------------------------------------------------------------------------
  // The interactive session

  /** The index of the first non-empty line, if there is one. */
  function FirstNonEmpty(lines: seq<string>): (r: Option<nat>)
    ensures r.Some? ==> r.value < |lines| && lines[r.value] != ""
    ensures r.Some? ==> forall k :: 0 <= k < r.value ==> lines[k] == ""
    ensures r.None? ==> forall k :: 0 <= k < |lines| ==> lines[k] == ""
  {
    if |lines| == 0 then None
    else if lines[0] != "" then Some(0)
    else match FirstNonEmpty(lines[1..])
      case None => None
      case Some(k) => Some(k + 1)
  }

  /** The payload prompt: ask again until the answer is non-empty. Returns
      the payload and how many lines it consumed; `None` when the console
      ran out first (Python raises `EOFError` there). */
  method PromptPayload(console: seq<string>) returns (data: Option<string>, used: nat)
    ensures used <= |console|
    ensures data.None? <==> FirstNonEmpty(console).None?
    ensures data.Some? ==> used == FirstNonEmpty(console).value + 1 && data.value == console[used - 1]
  {
    used := 0;
    while used < |console|
      invariant used <= |console|
      invariant forall k :: 0 <= k < used ==> console[k] == ""
    {
      var line := console[used];
      used := used + 1;
      if line != "" {
        return Some(line), used;
      }
    }
    return None, used;
  }

  /** The warning path is taken for text that looks like a URL but that the
      validator rejects. */
  predicate NeedsConfirmation(data: string, urlValid: string -> bool) {
    (StartsWith(data, "http://") || StartsWith(data, "https://")) && !urlValid(data)
  }

  datatype SessionOutcome =
    | EndOfInput                                        // input() raised EOFError
    | Cancelled                                         // the warning was not confirmed
    | Generated(job: QrJob, openAnswer: Option<bool>)   // written; the answer to "open it?"
    | GenerateFailed(job: QrJob, message: string)       // the encoder raised; printed as "Error: ..."

  /** The last step of a session whose six answers start at line `pos`:
      the job built from them went to the encoder, and the outcome carries
      the job and the encoder's verdict; after a success the next line, if
      any, answers whether to open the image. */
  predicate GenerateSpec(console: seq<string>, pos: nat, data: string, encoder: Encoder,
                         outcome: SessionOutcome)
    requires pos + 6 <= |console|
  {
    var job := InteractiveJob(data, Answers(console[pos], console[pos + 1], console[pos + 2],
                                            console[pos + 3], console[pos + 4], console[pos + 5]));
    && (outcome.Generated? || outcome.GenerateFailed?)
    && outcome.job == job
    && (outcome.Generated? <==> encoder(job) == Written)
    && (outcome.GenerateFailed? ==> encoder(job) == Raised(outcome.message))
    && (outcome.Generated? ==>
          outcome.openAnswer == if pos + 6 < |console| then Some(Lower(console[pos + 6]) == "y") else None)
  }

  /** The six answers from line `pos` on, the encoder call and the question
      whether to open the image. */
  method GenerateFromAnswers(console: seq<string>, pos: nat, data: string, encoder: Encoder)
    returns (outcome: SessionOutcome)
    requires pos <= |console|
    ensures pos + 6 > |console| ==> outcome == EndOfInput
    ensures pos + 6 <= |console| ==> GenerateSpec(console, pos, data, encoder, outcome)
  {
    if pos + 6 > |console| {
      return EndOfInput;
    }
    var answers := Answers(console[pos], console[pos + 1], console[pos + 2],
                           console[pos + 3], console[pos + 4], console[pos + 5]);
    var job := InteractiveJob(data, answers);
    var result := encoder(job);
    if result.Raised? {
      return GenerateFailed(job, result.message);
    }
    var next := pos + 6;
    var openAnswer := if next < |console| then Some(Lower(console[next]) == "y") else None;
    return Generated(job, openAnswer);
  }

  /** What the session does once the payload was read from line `k`: a URL
      the validator rejects asks for confirmation on the next line and
      anything but "y" (in any case) cancels; otherwise the six answers that
      follow are used. The outcome is `EndOfInput` only when the console runs
      out. */
  predicate AfterPayloadSpec(console: seq<string>, k: nat, urlValid: string -> bool,
                             encoder: Encoder, outcome: SessionOutcome)
    requires k < |console|
  {
    var asked := NeedsConfirmation(console[k], urlValid);
    var refused := asked && k + 1 < |console| && Lower(console[k + 1]) != "y";
    var next := if asked then k + 2 else k + 1;
    && (outcome.Cancelled? <==> refused)
    && (outcome.EndOfInput? <==> !refused && next + 6 > |console|)
    && (!refused && next + 6 <= |console| ==> GenerateSpec(console, next, console[k], encoder, outcome))
  }

  /** The rest of `interactive_mode` once the payload was read from line `k`:
      the optional confirmation, then the answers. */
  method AfterPayload(console: seq<string>, k: nat, urlValid: string -> bool, encoder: Encoder)
    returns (outcome: SessionOutcome)
    requires k < |console|
    ensures AfterPayloadSpec(console, k, urlValid, encoder, outcome)
  {
    var payload := console[k];
    var pos := k + 1;
    if NeedsConfirmation(payload, urlValid) {
      if pos >= |console| {
        return EndOfInput;
      }
      var proceed := Lower(console[pos]);
      pos := pos + 1;
      if proceed != "y" {
        return Cancelled;
      }
    }
    outcome := GenerateFromAnswers(console, pos, payload, encoder);
  }

  /** `interactive_mode`, reading its answers from `console` in order: the
      payload prompt repeats until it gets a non-empty line. */
  method RunInteractive(console: seq<string>, urlValid: string -> bool, encoder: Encoder)
    returns (outcome: SessionOutcome)
    ensures FirstNonEmpty(console).None? ==> outcome == EndOfInput
    ensures FirstNonEmpty(console).Some? ==>
      AfterPayloadSpec(console, FirstNonEmpty(console).value, urlValid, encoder, outcome)
  {
    var data, used := PromptPayload(console);
    if data.None? {
      return EndOfInput;
    }
    outcome := AfterPayload(console, used - 1, urlValid, encoder);
  }

  // ---------------------------------------------------------------------------
  // Batch mode

  /** `f"batch_qr_{i+1}.png"` for the line at 0-based index `i`. */
  function BatchName(i: nat): string {
    "batch_qr_" + Decimal(i + 1) + ".png"
  }

  /** Different line indices give different batch names. */
  lemma BatchNameInjective(i: nat, j: nat)
    ensures BatchName(i) == BatchName(j) <==> i == j
  {
    var a, b := BatchName(i), BatchName(j);
    if a == b {
      assert |Decimal(i + 1)| == |Decimal(j + 1)|;
      assert Decimal(i + 1) == a[9..|a| - 4] == Decimal(j + 1);
      DecimalInjective(i + 1, j + 1);
    }
  }

  /** A line that yields no image: all whitespace, which is when `strip()`
      leaves nothing (`StripEmptyIff`). */
  predicate Blank(line: string) {
    AllSpace(line)
  }

  /** The job for the line at index `i`. */
  function BatchJob(line: string, i: nat, settings: Settings): QrJob {
    QrJob(Strip(line), settings, ToFile(BatchName(i)))
  }

  /** The jobs of the first `n` lines of a batch file, in file order: one
      per non-blank line, named after the line's position among all lines. */
  function BatchPlan(lines: seq<string>, n: nat, settings: Settings): seq<QrJob>
    requires n <= |lines|
  {
    if n == 0 then []
    else BatchPlan(lines, n - 1, settings)
         + (if Blank(lines[n - 1]) then [] else [BatchJob(lines[n - 1], n - 1, settings)])
  }

  /** The positions of the non-blank lines among the first `n`, in
      increasing order. */
  function NonBlankIndices(lines: seq<string>, n: nat): seq<nat>
    requires n <= |lines|
  {
    if n == 0 then []
    else NonBlankIndices(lines, n - 1) + (if Blank(lines[n - 1]) then [] else [n - 1])
  }

  /** The plan has one job per recorded index. */
  lemma {:induction false} BatchPlanLength(lines: seq<string>, n: nat, settings: Settings)
    requires n <= |lines|
    ensures |BatchPlan(lines, n, settings)| == |NonBlankIndices(lines, n)|
  {
    if n > 0 {
      BatchPlanLength(lines, n - 1, settings);
    }
  }

  /** The job at position `k` of the plan is that of the line at the `k`-th
      recorded index. */
  lemma {:induction false} BatchPlanJobAt(lines: seq<string>, n: nat, settings: Settings, k: nat)
    requires n <= |lines| && k < |NonBlankIndices(lines, n)|
    ensures NonBlankIndices(lines, n)[k] < n
    ensures k < |BatchPlan(lines, n, settings)|
    ensures var i := NonBlankIndices(lines, n)[k];
      BatchPlan(lines, n, settings)[k] == BatchJob(lines[i], i, settings)
  {
    var idx, plan := NonBlankIndices(lines, n - 1), BatchPlan(lines, n - 1, settings);
    BatchPlanLength(lines, n - 1, settings);
    if k < |idx| {
      BatchPlanJobAt(lines, n - 1, settings, k);
      assert NonBlankIndices(lines, n)[k] == idx[k];
      assert BatchPlan(lines, n, settings)[k] == plan[k];
    } else {
      assert NonBlankIndices(lines, n) == idx + [n - 1];
      assert BatchPlan(lines, n, settings) == plan + [BatchJob(lines[n - 1], n - 1, settings)];
    }
  }

  /** Every recorded index is that of a non-blank line. */
  lemma {:induction false} NonBlankIndexSound(lines: seq<string>, n: nat, k: nat)
    requires n <= |lines| && k < |NonBlankIndices(lines, n)|
    ensures NonBlankIndices(lines, n)[k] < n && !Blank(lines[NonBlankIndices(lines, n)[k]])
  {
    if k < |NonBlankIndices(lines, n - 1)| {
      NonBlankIndexSound(lines, n - 1, k);
    }
  }

  /** The recorded indices increase strictly. */
  lemma {:induction false} NonBlankIndicesIncreasing(lines: seq<string>, n: nat, k1: nat, k2: nat)
    requires n <= |lines| && k1 < k2 < |NonBlankIndices(lines, n)|
    ensures NonBlankIndices(lines, n)[k1] < NonBlankIndices(lines, n)[k2]
  {
    var idx := NonBlankIndices(lines, n - 1);
    if k2 < |idx| {
      NonBlankIndicesIncreasing(lines, n - 1, k1, k2);
    } else {
      NonBlankIndexSound(lines, n - 1, k1);
    }
  }

  /** Every non-blank line among the first `n` is recorded. */
  lemma {:induction false} NonBlankIndicesComplete(lines: seq<string>, n: nat, i: nat)
    requires n <= |lines| && i < n && !Blank(lines[i])
    ensures i in NonBlankIndices(lines, n)
  {
    var earlier := NonBlankIndices(lines, n - 1);
    if i < n - 1 {
      NonBlankIndicesComplete(lines, n - 1, i);
      assert NonBlankIndices(lines, n)[..|earlier|] == earlier;
    } else {
      assert NonBlankIndices(lines, n) == earlier + [i];
    }
  }

  /** No two images of one batch share a name. */
  lemma BatchNamesDistinct(lines: seq<string>, settings: Settings)
    ensures var plan := BatchPlan(lines, |lines|, settings);
      forall k1, k2 :: 0 <= k1 < k2 < |plan| ==> plan[k1].target != plan[k2].target
  {
    var n := |lines|;
    var plan, idx := BatchPlan(lines, n, settings), NonBlankIndices(lines, n);
    BatchPlanLength(lines, n, settings);
    forall k1, k2 | 0 <= k1 < k2 < |plan| ensures plan[k1].target != plan[k2].target {
      BatchPlanJobAt(lines, n, settings, k1);
      BatchPlanJobAt(lines, n, settings, k2);
      NonBlankIndicesIncreasing(lines, n, k1, k2);
      BatchNameInjective(idx[k1], idx[k2]);
    }
  }

  /** The names of the first and the fourth line. */
  lemma BatchNameExamples()
    ensures BatchName(0) == "batch_qr_1.png" && BatchName(3) == "batch_qr_4.png"
  {
    assert Decimal(1) == [DigitChar(1)] == "1";
    assert Decimal(4) == [DigitChar(4)] == "4";
  }

  /** The example of four lines, two of them blank: the outputs are named
      after the physical lines 1 and 4, so the blank lines use up indices. */
  lemma BatchExample(settings: Settings)
    ensures BatchPlan(["https://a.example", "", "   ", "https://b.example"], 4, settings)
      == [QrJob("https://a.example", settings, ToFile("batch_qr_1.png")),
          QrJob("https://b.example", settings, ToFile("batch_qr_4.png"))]
  {
    var lines := ["https://a.example", "", "   ", "https://b.example"];
    StripUnchanged(lines[0]);
    StripUnchanged(lines[3]);
    BatchNameExamples();
    assert !Blank(lines[0]) && Blank(lines[1]) && Blank(lines[2]) && !Blank(lines[3]);
    var first := BatchJob(lines[0], 0, settings);
    assert BatchPlan(lines, 1, settings) == [first];
    assert BatchPlan(lines, 3, settings) == [first];
    assert BatchPlan(lines, 4, settings) == [first, BatchJob(lines[3], 3, settings)];
  }

  /** Why a batch run stopped early: the file could not be read, or the
      encoder raised on the line at index `line`. */
  datatype BatchFailure = Unreadable | LineFailed(line: nat, message: string)

  /** The batch loop of `main`. It writes the jobs of `BatchPlan` in order
      and stops at the first job the encoder rejects: no later line is
      tried and the completion message is not printed. */
  method RunBatch(lines: seq<string>, settings: Settings, encoder: Encoder)
    returns (written: seq<QrJob>, failure: Option<BatchFailure>)
    ensures forall k :: 0 <= k < |written| ==> encoder(written[k]) == Written
    ensures failure.None? ==> written == BatchPlan(lines, |lines|, settings)
    ensures failure.Some? ==>
      && failure.value.LineFailed?
      && var i := failure.value.line;
      && i < |lines| && !Blank(lines[i])
      && encoder(BatchJob(lines[i], i, settings)) == Raised(failure.value.message)
      && written == BatchPlan(lines, i, settings)
  {
    written := [];
    var i := 0;
    while i < |lines|
      invariant i <= |lines|
      invariant written == BatchPlan(lines, i, settings)
      invariant forall k :: 0 <= k < |written| ==> encoder(written[k]) == Written
    {
      var data := Strip(lines[i]);
      StripEmptyIff(lines[i]);
      if data != "" {
        var job := QrJob(data, settings, ToFile(BatchName(i)));
        var result := encoder(job);
        if result.Raised? {
          failure := Some(LineFailed(i, result.message));
          return;
        }
        written := written + [job];
      }
      i := i + 1;
    }
    failure := None;
  }

  // ---------------------------------------------------------------------------
  // main

  /** The parsed command line (`argparse` itself is not modelled). */
  datatype Args = Args(data: Option<string>, output: Option<string>, size: int, border: int,
                       fill: string, background: string, errorCorrection: Tier,
                       batch: Option<string>)

  /** Python truthiness of an optional string argument. */
  predicate Given(arg: Option<string>) {
    arg.Some? && arg.value != ""
  }

  datatype Mode = BatchMode(path: string) | SingleMode(data: string) | InteractiveMode

  /** `main`'s precedence: `--batch`, then `--data`, then the prompts. */
  function Dispatch(args: Args): (m: Mode)
    ensures m.BatchMode? <==> Given(args.batch)
    ensures m.SingleMode? <==> !Given(args.batch) && Given(args.data)
    ensures m.BatchMode? ==> m.path == args.batch.value
    ensures m.SingleMode? ==> m.data == args.data.value
  {
    if Given(args.batch) then BatchMode(args.batch.value)
    else if Given(args.data) then SingleMode(args.data.value)
    else InteractiveMode
  }

  /** The settings the command line passes unchanged: size and border are
      not range-checked here. */
  function ArgSettings(args: Args): Settings {
    Settings(args.size, args.border, args.fill, args.background, args.errorCorrection)
  }

  datatype MainOutcome =
    | BatchDone(written: seq<QrJob>, failure: Option<BatchFailure>)
    | Single(result: Result<string, string>)
    | Interactive(session: SessionOutcome)

  /** `main` after argument parsing. `readLines` is `open(path).readlines()`,
      `None` when the file cannot be opened. */
  method RunMain(args: Args, readLines: string -> Option<seq<string>>, console: seq<string>,
                 urlValid: string -> bool, now: DateTime, num: int, encoder: Encoder)
    returns (outcome: MainOutcome)
    requires ValidDateTime(now) && ValidSuffix(num)
    ensures Dispatch(args).BatchMode? <==> outcome.BatchDone?
    ensures Dispatch(args).SingleMode? <==> outcome.Single?
    ensures outcome.BatchDone? && readLines(args.batch.value).None? ==>
      outcome.written == [] && outcome.failure == Some(Unreadable)
    ensures outcome.BatchDone? && readLines(args.batch.value).Some? && outcome.failure.None? ==>
      outcome.written == BatchPlan(readLines(args.batch.value).value, |readLines(args.batch.value).value|, ArgSettings(args))
    ensures outcome.BatchDone? && readLines(args.batch.value).Some? && outcome.failure.Some? ==>
      var lines := readLines(args.batch.value).value;
      && outcome.failure.value.LineFailed?
      && var i := outcome.failure.value.line;
      && i < |lines| && !Blank(lines[i])
      && encoder(BatchJob(lines[i], i, ArgSettings(args))) == Raised(outcome.failure.value.message)
      && outcome.written == BatchPlan(lines, i, ArgSettings(args))
    ensures outcome.Single? ==>
      outcome.result == GenerateQrCode(args.data.value, args.output, ArgSettings(args), now, num, encoder)
    ensures outcome.Interactive? && FirstNonEmpty(console).None? ==> outcome.session == EndOfInput
    ensures outcome.Interactive? && FirstNonEmpty(console).Some? ==>
      AfterPayloadSpec(console, FirstNonEmpty(console).value, urlValid, encoder, outcome.session)
  {
    match Dispatch(args)
    case BatchMode(path) =>
      var file := readLines(path);
      if file.None? {
        outcome := BatchDone([], Some(Unreadable));
      } else {
        var written, failure := RunBatch(file.value, ArgSettings(args), encoder);
        outcome := BatchDone(written, failure);
      }
    case SingleMode(data) =>
      outcome := Single(GenerateQrCode(data, args.output, ArgSettings(args), now, num, encoder));
    case InteractiveMode =>
      var session := RunInteractive(console, urlValid, encoder);
      outcome := Interactive(session);
  }
}
