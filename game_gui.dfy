/** The Kivy games screen by screen: the number-guessing screen with its
    secret, attempt counter and result label, and the stone/paper/scissor
    screen with the player's choice, the score and the labels bound to it.
    The secret and the opponent's pick are parameters; the screen manager's
    navigation is not modelled. */
module GameGui {
  import opened Wrappers
  import opened PyText
  import GameCli

  /** The colours the result label takes. */
  datatype LabelColor = Plain | Green | Red | Yellow

  // ---------------------------------------------------------------------------
  // Number guessing

  /** The text `check_guess` shows for what `int()` read from the input
      box, when the counter has become `attempts`. */
  function GuessMessage(parsed: Option<int>, secret: int, attempts: nat): (m: string)
    ensures parsed.None? ==> m == "Please enter a valid number!"
    ensures parsed.Some? && parsed.value == secret ==> m == "Correct! Attempts: " + Decimal(attempts)
    ensures parsed.Some? && parsed.value > secret ==> m == "Too high!"
    ensures parsed.Some? && parsed.value < secret ==> m == "Too low!"
  {
    match parsed
    case None => "Please enter a valid number!"
    case Some(guess) =>
      match GameCli.HintFor(guess, secret)
      case Correct => "Correct! Attempts: " + Decimal(attempts)
      case TooBig => "Too high!"
      case TooSmall => "Too low!"
  }

  /** The colour `check_guess` gives the result label: green only for a hit. */
  function GuessColor(parsed: Option<int>, secret: int): (c: LabelColor)
    ensures c == Green <==> parsed == Some(secret)
    ensures c != Green ==> c == Red
  {
    if parsed == Some(secret) then Green else Red
  }

  /** The message tells the cases apart: the verdict on the guess, and for a
      hit the attempt count, can be read back from it. */
  lemma GuessMessageDistinct(p: Option<int>, q: Option<int>, secret: int, m: nat, n: nat)
    requires GuessMessage(p, secret, m) == GuessMessage(q, secret, n)
    ensures p.None? <==> q.None?
    ensures p.Some? && q.Some? ==> GameCli.HintFor(p.value, secret) == GameCli.HintFor(q.value, secret)
    ensures p == Some(secret) ==> m == n
  {
    var a, b := GuessMessage(p, secret, m), GuessMessage(q, secret, n);
    var prefix := "Correct! Attempts: ";
    assert "Please enter a valid number!"[0] == 'P' && "Too high!"[0] == 'T' && "Too low!"[4] == 'l';
    assert "Too high!"[4] == 'h';
    if p == Some(secret) && q == Some(secret) {
      assert a[|prefix|..] == Decimal(m) && b[|prefix|..] == Decimal(n);
      DecimalInjective(m, n);
    }
  }

  /** `NumberGuessingGame`: the secret drawn once, when the screen is
      built, the attempt counter, the input box and the result label. */
  class NumberGuessingScreen {
    const secret: int
    var attempts: nat
    var resultText: string
    var labelText: string
    var labelColor: LabelColor
    var inputText: string

    /** The secret stays in range and the label shows `result_text`. */
    predicate Valid()
      reads this
    {
      1 <= secret <= 100 && labelText == resultText
    }

    /** The screen as built with `random.randint(1, 100)` drawn as `secret`. */
    constructor(secret: int)
      requires 1 <= secret <= 100
      ensures Valid()
      ensures this.secret == secret && attempts == 0
      ensures resultText == "" && inputText == "" && labelColor == Plain
    {
      this.secret := secret;
      attempts := 0;
      resultText := "";
      labelText := "";
      labelColor := Plain;
      inputText := "";
    }

    /** Typing into the input box. */
    method SetInput(text: string)
      requires Valid()
      modifies this
      ensures Valid()
      ensures inputText == text
      ensures attempts == old(attempts) && resultText == old(resultText) && labelColor == old(labelColor)
    {
      inputText := text;
    }

    /** `check_guess`: an integer counts as an attempt and is compared with
        the secret; anything else is refused without counting. The input box
        is cleared either way, and nothing resets the secret or the counter,
        so attempts go on counting after a hit. */
    method CheckGuess()
      requires Valid()
      modifies this
      ensures Valid()
      ensures var parsed := ParseInt(old(inputText), 10);
        && attempts == old(attempts) + (if parsed.Some? then 1 else 0)
        && resultText == GuessMessage(parsed, secret, attempts)
        && labelColor == GuessColor(parsed, secret)
      ensures inputText == ""
    {
      var parsed := ParseInt(inputText, 10);
      if parsed.Some? {
        attempts := attempts + 1;
      }
      resultText := GuessMessage(parsed, secret, attempts);
      labelColor := GuessColor(parsed, secret);
      inputText := "";
      labelText := resultText;
    }
  }

  // ---------------------------------------------------------------------------
  // Stone, paper, scissor

  /** `self.items`, indexed by `player_choice`. */
  const Items: seq<string> := ["stone", "paper", "scissor"]

  /** The choice the command-line game gives the same name. */
  function ChoiceAt(i: nat): (c: GameCli.Choice)
    requires i < 3
    ensures c == [GameCli.Stone, GameCli.Paper, GameCli.Scissor][i]
  {
    if i == 0 then GameCli.Stone else if i == 1 then GameCli.Paper else GameCli.Scissor
  }

  /** The verdict of `play_game`, comparing the two names: equal names
      draw, the three listed pairs win, every other pair loses. */
  function PlayVerdict(opponent: string, player: string): (o: GameCli.Outcome)
    ensures o == GameCli.Draw <==> opponent == player
  {
    if opponent == player then GameCli.Draw
    else if (opponent == "stone" && player == "paper")
         || (opponent == "paper" && player == "scissor")
         || (opponent == "scissor" && player == "stone") then GameCli.Won
    else GameCli.Lost
  }

  /** The three names differ, so comparing names is comparing choices. */
  lemma ItemsDistinct(i: nat, j: nat)
    requires i < 3 && j < 3
    ensures Items[i] == Items[j] <==> i == j
  {
    assert Items[0][1] == 't' && Items[1][1] == 'a' && Items[2][1] == 'c';
  }

  /** Both programs play by the same rule: the screen's verdict for two
      named choices is the command-line game's verdict for those choices. */
  lemma PlayVerdictAgrees(opponent: nat, player: nat)
    requires opponent < 3 && player < 3
    ensures PlayVerdict(Items[opponent], Items[player]) == GameCli.RoundOutcome(ChoiceAt(opponent), ChoiceAt(player))
  {
    ItemsDistinct(opponent, player);
  }

  /** The result label's text after a round against `opponent`. */
  function PlayMessage(o: GameCli.Outcome, opponent: string): (m: string)
    ensures o == GameCli.Draw ==> m == "Draw!"
    ensures o == GameCli.Won ==> m == "You won! Opponent chose " + opponent
    ensures o == GameCli.Lost ==> m == "You lost! Opponent chose " + opponent
  {
    match o
    case Draw => "Draw!"
    case Won => "You won! Opponent chose " + opponent
    case Lost => "You lost! Opponent chose " + opponent
  }

  /** `StonePaperScissor`: the player's choice and its label, the score and
      the two labels bound to it, and the result label. */
  class StonePaperScissorScreen {
    var playerChoice: nat
    var choiceLabel: string
    var resultLabel: string
    var resultColor: LabelColor
    var wins: nat
    var losses: nat
    var winsLabel: string
    var lossesLabel: string

    /** The choice indexes `Items`, its label names it, and the bound labels
        show the score. */
    predicate Valid()
      reads this
    {
      && playerChoice < 3 && choiceLabel == "Your choice: " + Items[playerChoice]
      && winsLabel == "Wins: " + Decimal(wins) && lossesLabel == "Losses: " + Decimal(losses)
    }

    /** The screen as built: stone chosen, no score, no verdict. */
    constructor()
      ensures Valid()
      ensures playerChoice == 0 && wins == 0 && losses == 0 && resultLabel == "" && resultColor == Plain
    {
      playerChoice := 0;
      choiceLabel := "Your choice: " + Items[0];
      resultLabel := "";
      resultColor := Plain;
      wins, losses := 0, 0;
      winsLabel := "Wins: " + Decimal(0);
      lossesLabel := "Losses: " + Decimal(0);
    }

    /** `select_stone`, `select_paper` and `select_scissor` with their index. */
    method Select(i: nat)
      requires Valid() && i < 3
      modifies this
      ensures Valid()
      ensures playerChoice == i && choiceLabel == "Your choice: " + Items[i]
      ensures wins == old(wins) && losses == old(losses)
      ensures resultLabel == old(resultLabel) && resultColor == old(resultColor)
    {
      playerChoice := i;
      choiceLabel := "Your choice: " + Items[playerChoice];
    }

    method SelectStone()
      requires Valid()
      modifies this
      ensures Valid() && playerChoice == 0 && choiceLabel == "Your choice: stone"
      ensures wins == old(wins) && losses == old(losses)
      ensures resultLabel == old(resultLabel) && resultColor == old(resultColor)
    {
      Select(0);
    }

    method SelectPaper()
      requires Valid()
      modifies this
      ensures Valid() && playerChoice == 1 && choiceLabel == "Your choice: paper"
      ensures wins == old(wins) && losses == old(losses)
      ensures resultLabel == old(resultLabel) && resultColor == old(resultColor)
    {
      Select(1);
    }

    method SelectScissor()
      requires Valid()
      modifies this
      ensures Valid() && playerChoice == 2 && choiceLabel == "Your choice: scissor"
      ensures wins == old(wins) && losses == old(losses)
      ensures resultLabel == old(resultLabel) && resultColor == old(resultColor)
    {
      Select(2);
    }

    /** `play_game` against `Items[pick]`, the opponent's `random.choice`:
        a draw leaves the score alone, a win or a loss adds one to its
        counter, and the labels follow. */
    method PlayGame(pick: nat)
      requires Valid() && pick < 3
      modifies this
      ensures Valid()
      ensures playerChoice == old(playerChoice)
      ensures var o := PlayVerdict(Items[pick], Items[playerChoice]);
        && wins == old(wins) + (if o == GameCli.Won then 1 else 0)
        && losses == old(losses) + (if o == GameCli.Lost then 1 else 0)
        && resultLabel == PlayMessage(o, Items[pick])
        && resultColor == (match o case Draw => Yellow case Won => Green case Lost => Red)
    {
      var opponent := Items[pick];
      var o := PlayVerdict(opponent, Items[playerChoice]);
      Score(o);
      resultLabel := PlayMessage(o, opponent);
      choiceLabel := "Your choice: " + Items[playerChoice];
    }

    /** The branches of `play_game`: the counter of the outcome and its
        bound label, and the result label's colour. */
    method Score(o: GameCli.Outcome)
      requires Valid()
      modifies this
      ensures Valid()
      ensures playerChoice == old(playerChoice) && choiceLabel == old(choiceLabel)
      ensures wins == old(wins) + (if o == GameCli.Won then 1 else 0)
      ensures losses == old(losses) + (if o == GameCli.Lost then 1 else 0)
      ensures resultColor == (match o case Draw => Yellow case Won => Green case Lost => Red)
      ensures resultLabel == old(resultLabel)
    {
      match o {
        case Draw =>
          resultColor := Yellow;
        case Won =>
          wins := wins + 1;
          winsLabel := "Wins: " + Decimal(wins);
          resultColor := Green;
        case Lost =>
          losses := losses + 1;
          lossesLabel := "Losses: " + Decimal(losses);
          resultColor := Red;
      }
    }
  }
}
