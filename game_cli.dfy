/** The command-line games: stone/paper/scissor against a random opponent
    with a running score, and guessing a secret number between 1 and 100.
    The console lines typed, the opponent's random picks and the secret are
    parameters; a session ends at the first line that stops it or when the
    lines run out (where `input()` would raise `EOFError`). */
module GameCli {
  import opened Wrappers
  import opened PyText

  // ---------------------------------------------------------------------------
  // Stone, paper, scissor

  datatype Choice = Stone | Paper | Scissor

  /** `dic.get(userinpt)`: only the exact keys "1", "2" and "3". */
  function ParseChoice(s: string): (c: Option<Choice>)
    ensures c == Some(Stone) <==> s == "1"
    ensures c == Some(Paper) <==> s == "2"
    ensures c == Some(Scissor) <==> s == "3"
  {
    if s == "1" then Some(Stone)
    else if s == "2" then Some(Paper)
    else if s == "3" then Some(Scissor)
    else None
  }

  /** Every other line, " 1" and "01" included, is refused. */
  lemma ParseChoiceExact(s: string)
    ensures ParseChoice(s).None? <==> s != "1" && s != "2" && s != "3"
  {
  }

  /** The classic rule: stone blunts scissor, paper wraps stone, scissor
      cuts paper. */
  predicate Beats(a: Choice, b: Choice) {
    || (a == Stone && b == Scissor)
    || (a == Paper && b == Stone)
    || (a == Scissor && b == Paper)
  }

  datatype Outcome = Draw | Won | Lost

  /** The verdict of one round as the chain of comparisons decides it, the
      opponent's pick first. */
  function RoundOutcome(opponent: Choice, user: Choice): (o: Outcome)
    ensures o == Draw <==> opponent == user
  {
    if user == opponent then Draw
    else if opponent == Scissor && user == Stone then Won
    else if opponent == Scissor && user == Paper then Lost
    else if opponent == Stone && user == Paper then Won
    else if opponent == Stone && user == Scissor then Lost
    else if opponent == Paper && user == Scissor then Won
    else Lost // the one pair left: paper against stone
  }

  /** The chain of comparisons is the rule: the user wins exactly when their
      choice beats the opponent's, and loses exactly when it is beaten. */
  lemma RoundOutcomeIsRule(opponent: Choice, user: Choice)
    ensures RoundOutcome(opponent, user) == Won <==> Beats(user, opponent)
    ensures RoundOutcome(opponent, user) == Lost <==> Beats(opponent, user)
  {
  }

  /** Of two different choices exactly one beats the other, and no choice
      beats itself. */
  lemma BeatsAntisymmetric(a: Choice, b: Choice)
    ensures Beats(a, b) ==> !Beats(b, a)
    ensures a != b ==> Beats(a, b) || Beats(b, a)
    ensures !Beats(a, a)
  {
  }

  /** Swapping the two choices turns a win into a loss and back. */
  lemma RoundOutcomeSwap(a: Choice, b: Choice)
    ensures RoundOutcome(a, b) == Won <==> RoundOutcome(b, a) == Lost
  {
    RoundOutcomeIsRule(a, b);
    RoundOutcomeIsRule(b, a);
  }

  /** Wins and losses so far. */
  datatype Score = Score(wins: nat, losses: nat)

  /** The score after one answer: an invalid answer and a draw change
      nothing, a win or a loss adds one to its counter. */
  function Scored(s: Score, answer: string, opponent: Choice): (t: Score)
    ensures ParseChoice(answer).None? ==> t == s
    ensures ParseChoice(answer).Some? ==>
      var o := RoundOutcome(opponent, ParseChoice(answer).value);
      && t.wins == s.wins + (if o == Won then 1 else 0)
      && t.losses == s.losses + (if o == Lost then 1 else 0)
  {
    match ParseChoice(answer)
    case None => s
    case Some(user) =>
      match RoundOutcome(opponent, user)
      case Draw => s
      case Won => s.(wins := s.wins + 1)
      case Lost => s.(losses := s.losses + 1)
  }

  /** The score after the first `n` answers; `opponents[k]` is the pick made
      before answer `k` was read, invalid answers included. */
  function Tally(answers: seq<string>, opponents: seq<Choice>, n: nat): Score
    requires n <= |answers| <= |opponents|
  {
    if n == 0 then Score(0, 0)
    else Scored(Tally(answers, opponents, n - 1), answers[n - 1], opponents[n - 1])
  }

  /** Neither counter ever goes down. */
  lemma {:induction false} TallyMonotone(answers: seq<string>, opponents: seq<Choice>, i: nat, j: nat)
    requires i <= j <= |answers| <= |opponents|
    ensures Tally(answers, opponents, i).wins <= Tally(answers, opponents, j).wins
    ensures Tally(answers, opponents, i).losses <= Tally(answers, opponents, j).losses
    decreases j
  {
    if i < j {
      TallyMonotone(answers, opponents, i, j - 1);
    }
  }

  /** Every round adds at most one to the two counters together, so they
      never count more rounds than were played. */
  lemma {:induction false} TallyBound(answers: seq<string>, opponents: seq<Choice>, n: nat)
    requires n <= |answers| <= |opponents|
    ensures Tally(answers, opponents, n).wins + Tally(answers, opponents, n).losses <= n
  {
    if n > 0 {
      TallyBound(answers, opponents, n - 1);
    }
  }

  /** Answering the opponent's own pick every time never scores. */
  lemma {:induction false} TallyAllDraws(answers: seq<string>, opponents: seq<Choice>, n: nat)
    requires n <= |answers| <= |opponents|
    requires forall k :: 0 <= k < n ==> ParseChoice(answers[k]) == Some(opponents[k])
    ensures Tally(answers, opponents, n) == Score(0, 0)
  {
    if n > 0 {
      TallyAllDraws(answers, opponents, n - 1);
    }
  }

  /** `stone_paper_scissor`: round after round, draw a pick, read an answer,
      re-prompt on an invalid one, otherwise score the round. It returns the
      score when the answers run out. */
  method StonePaperScissor(answers: seq<string>, opponents: seq<Choice>) returns (w: nat, l: nat)
    requires |answers| <= |opponents|
    ensures Score(w, l) == Tally(answers, opponents, |answers|)
  {
    w, l := 0, 0;
    var i := 0;
    while i < |answers|
      invariant i <= |answers|
      invariant Score(w, l) == Tally(answers, opponents, i)
    {
      var op1 := opponents[i];
      var op2 := ParseChoice(answers[i]);
      if op2.Some? {
        var o := RoundOutcome(op1, op2.value);
        if o == Won {
          w := w + 1;
        } else if o == Lost {
          l := l + 1;
        }
      }
      i := i + 1;
    }
  }

  // ---------------------------------------------------------------------------
  // Number guessing

  /** What the game says about one counted guess. */
  datatype Hint = Correct | TooBig | TooSmall

  function HintFor(guess: int, secret: int): (h: Hint)
    ensures h == Correct <==> guess == secret
    ensures h == TooBig <==> guess > secret
    ensures h == TooSmall <==> guess < secret
  {
    if guess == secret then Correct
    else if guess > secret then TooBig
    else TooSmall
  }

  /** What the game makes of one typed line: the exact "Q", or what `int()`
      reads from it. */
  datatype Reading = QuitLine | NotANumber | Number(value: int)

  /** The line read as the loop reads it: first the comparison with "Q",
      then `int()`, whose `ValueError` makes `NotANumber`. */
  function ReadLine(line: string): (r: Reading)
    ensures r == QuitLine <==> line == "Q"
    ensures r == NotANumber <==> line != "Q" && ParseInt(line, 10).None?
    ensures r.Number? ==> ParseInt(line, 10) == Some(r.value)
  {
    if line == "Q" then QuitLine
    else match ParseInt(line, 10)
      case None => NotANumber
      case Some(v) => Number(v)
  }

  /** Every line read in turn. */
  function Readings(lines: seq<string>): (rs: seq<Reading>)
    ensures |rs| == |lines|
  {
    if lines == [] then [] else [ReadLine(lines[0])] + Readings(lines[1..])
  }

  /** The reading at position `i` is what the loop makes of line `i`. */
  lemma {:induction false} ReadingAt(lines: seq<string>, i: nat)
    requires i < |lines|
    ensures Readings(lines)[i] == ReadLine(lines[i])
  {
    if i > 0 {
      ReadingAt(lines[1..], i - 1);
    }
  }

  /** A reading after which the game is over: the quit line or a hit. */
  predicate Stops(r: Reading, secret: int) {
    r == QuitLine || r == Number(secret)
  }

  /** The index of the first reading from `i` on that ends the game, or the
      number of readings when none does. */
  function FirstStop(rs: seq<Reading>, secret: int, i: nat): (k: nat)
    requires i <= |rs|
    ensures i <= k <= |rs|
    decreases |rs| - i
  {
    if i == |rs| || Stops(rs[i], secret) then i
    else FirstStop(rs, secret, i + 1)
  }

  /** Play goes on after every reading before the first stop, and the stop
      reading, if there is one, ends the game. */
  lemma {:induction false} FirstStopIsFirst(rs: seq<Reading>, secret: int, i: nat, j: nat)
    requires i <= j <= |rs|
    ensures j < FirstStop(rs, secret, i) ==> !Stops(rs[j], secret)
    ensures j == FirstStop(rs, secret, i) < |rs| ==> Stops(rs[j], secret)
    decreases j - i
  {
    if i < j && !Stops(rs[i], secret) {
      FirstStopIsFirst(rs, secret, i + 1, j);
    }
  }

  /** The guesses counted among the first `n` readings: the numbers, in the
      order typed. `data` holds exactly these, and `a` counts them. */
  function Guesses(rs: seq<Reading>, n: nat): (g: seq<int>)
    requires n <= |rs|
    ensures |g| <= n
  {
    if n == 0 then []
    else if rs[n - 1].Number? then Guesses(rs, n - 1) + [rs[n - 1].value]
    else Guesses(rs, n - 1)
  }

  /** While play goes on no counted guess is the secret. */
  lemma {:induction false} GuessesMiss(rs: seq<Reading>, secret: int, n: nat)
    requires n <= FirstStop(rs, secret, 0)
    ensures forall k :: 0 <= k < |Guesses(rs, n)| ==> Guesses(rs, n)[k] != secret
  {
    if n > 0 {
      GuessesMiss(rs, secret, n - 1);
      FirstStopIsFirst(rs, secret, 0, n - 1);
    }
  }

  /** A line that is not an integer, "q" and "10.5" among them, adds no
      attempt, and neither does the quit line. */
  lemma GuessesSkip(rs: seq<Reading>, n: nat)
    requires n < |rs| && !rs[n].Number?
    ensures Guesses(rs, n + 1) == Guesses(rs, n)
  {
  }

  /** How a round of guessing ends. The `while ... else` "GAME OVER" branch
      has no counterpart: the loop is left only by `break`. */
  datatype GuessEnd = Quit | Guessed | InputEnded

  /** How the game ends for these readings, and how many lines it reads. */
  function GuessEndFor(rs: seq<Reading>, secret: int): (r: (GuessEnd, nat))
    ensures var k := FirstStop(rs, secret, 0);
      && (r.0 == InputEnded <==> k == |rs|)
      && (r.0 == Quit <==> k < |rs| && rs[k] == QuitLine)
      && (r.0 == Guessed <==> k < |rs| && rs[k] == Number(secret))
      && r.1 == if k < |rs| then k + 1 else k
  {
    var k := FirstStop(rs, secret, 0);
    FirstStopIsFirst(rs, secret, 0, k);
    if k == |rs| then (InputEnded, k)
    else if rs[k] == QuitLine then (Quit, k + 1)
    else (Guessed, k + 1)
  }

  /** A game that ends with a hit ends on a counted guess equal to the
      secret, and every earlier counted guess missed. */
  lemma GuessedEndsOnSecret(rs: seq<Reading>, secret: int)
    requires GuessEndFor(rs, secret).0 == Guessed
    ensures var g := Guesses(rs, GuessEndFor(rs, secret).1);
      && |g| > 0 && g[|g| - 1] == secret
      && forall k :: 0 <= k < |g| - 1 ==> g[k] != secret
  {
    var k := FirstStop(rs, secret, 0);
    FirstStopIsFirst(rs, secret, 0, k);
    GuessesMiss(rs, secret, k);
  }

  /** A game that ends with "Q" or at the end of the input never saw the
      secret. */
  lemma UnfinishedMissesAll(rs: seq<Reading>, secret: int)
    requires GuessEndFor(rs, secret).0 != Guessed
    ensures var g := Guesses(rs, GuessEndFor(rs, secret).1);
      forall k :: 0 <= k < |g| ==> g[k] != secret
  {
    var k := FirstStop(rs, secret, 0);
    GuessesMiss(rs, secret, k);
    if k < |rs| {
      FirstStopIsFirst(rs, secret, 0, k);
      GuessesSkip(rs, k);
    }
  }

  /** "Q" is not an integer, so the plain comparison and `int()` never both
      claim a line. */
  lemma QuitIsNotANumber()
    ensures ParseInt("Q", 10).None?
  {
    StripUnchanged("Q");
  }

  /** One `input()` of the game: the next line, read as the loop reads it. */
  method ReadGuess(lines: seq<string>, i: nat) returns (r: Reading)
    requires i < |lines|
    ensures r == Readings(lines)[i]
  {
    r := ReadLine(lines[i]);
    ReadingAt(lines, i);
  }

  /** The game ends at the first stop `i`, or when the input runs out there. */
  lemma EndAtFirstStop(rs: seq<Reading>, secret: int, i: nat)
    requires i <= |rs| && FirstStop(rs, secret, i) == FirstStop(rs, secret, 0)
    requires i == |rs| || Stops(rs[i], secret)
    ensures GuessEndFor(rs, secret)
      == if i == |rs| then (InputEnded, i)
         else if rs[i] == QuitLine then (Quit, i + 1)
         else (Guessed, i + 1)
  {
  }

  /** `number_guessing_game`: how the game ended, the number of lines read,
      the attempt counter `a` and the history `data`. */
  method NumberGuessing(secret: int, lines: seq<string>)
    returns (end: GuessEnd, used: nat, a: nat, data: seq<int>)
    requires 1 <= secret <= 100
    ensures (end, used) == GuessEndFor(Readings(lines), secret)
    ensures used <= |lines|
    ensures data == Guesses(Readings(lines), used) && a == |data|
  {
    ghost var rs := Readings(lines);
    end, a, data := InputEnded, 0, [];
    var i := 0;
    while i < |lines|
      invariant i <= |lines|
      invariant FirstStop(rs, secret, i) == FirstStop(rs, secret, 0)
      invariant data == Guesses(rs, i) && a == |data|
    {
      var r := ReadGuess(lines, i);
      if r == QuitLine {
        end := Quit;
        break;
      }
      if r.Number? {
        a, data := a + 1, data + [r.value];
        if r.value == secret {
          end := Guessed;
          break;
        }
      }
      i := i + 1;
    }
    EndAtFirstStop(rs, secret, i);
    used := if end == InputEnded then i else i + 1;
  }

  // ---------------------------------------------------------------------------
  // Command line

  datatype Game = NumberGuessingGame | StonePaperScissorGame

  /** The positional `game` argument, restricted by `choices`; `None` stands
      for argparse's usage error. */
  function SelectGame(arg: string): (g: Option<Game>)
    ensures g == Some(NumberGuessingGame) <==> arg == "number_guessing"
    ensures g == Some(StonePaperScissorGame) <==> arg == "stone_paper_scissor"
  {
    if arg == "number_guessing" then Some(NumberGuessingGame)
    else if arg == "stone_paper_scissor" then Some(StonePaperScissorGame)
    else None
  }
}
