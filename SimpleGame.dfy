/**
  The prompt/alert version of the game (rock-paper-scissor.js): five rounds
  in a fixed loop, each asking for the player's choice, drawing the
  computer's, and writing the outcome to the page.

  `prompt()` and `Math.random` are I/O: a game receives the five texts the
  player typed and the five moves the computer drew. Writing to the page is
  appending to a sequence of lines.
*/
module SimpleGame {
  import opened Text
  import opened Choices
  import ConsoleGame

  /** `choices`, in list order. */
  const ChoiceList: seq<string> := ["rock", "paper", "scissors"]

  /** `rounds` in `playGame`. */
  const Rounds: nat := 5

  /** `choices.findIndex(choice => choice === s)`: the position of an exact
      match, or -1. */
  function FindIndex(s: string): (i: int)
    ensures -1 <= i < |ChoiceList|
    ensures i == -1 <==> s !in ChoiceList
    ensures i >= 0 ==> ChoiceList[i] == s
  {
    if s == ChoiceList[0] then 0
    else if s == ChoiceList[1] then 1
    else if s == ChoiceList[2] then 2
    else -1
  }

  /** `compareChoices`: works on list positions, with -1 for anything not in
      the list. Equal positions tie (two unknown texts included); a known
      first choice wins only against the one it beats and loses to anything
      else, an unknown second text included; an unknown first choice against
      a known second one matches no branch and yields `undefined`. */
  function CompareChoices(s1: string, s2: string): (r: Option<int>)
    ensures forall a, b :: s1 == Name(a) && s2 == Name(b) ==> r == Some(Outcome(a, b))
    ensures s1 !in ChoiceList && s2 !in ChoiceList ==> r == Some(0)
    ensures s1 in ChoiceList && s2 !in ChoiceList ==> r == Some(-1)
    ensures s1 !in ChoiceList && s2 in ChoiceList ==> r == None
  {
    var i1 := FindIndex(s1);
    var i2 := FindIndex(s2);
    if i1 == i2 then Some(0)
    else if i1 == 0 then Some(if i2 == 2 then 1 else -1)
    else if i1 == 1 then Some(if i2 == 0 then 1 else -1)
    else if i1 == 2 then Some(if i2 == 1 then 1 else -1)
    else None
  }

  /** `playerSelection` after `prompt()`: lower-case, trim, and accept only
      an exact member of the list. */
  function PlayerSelection(value: string): (r: Option<string>)
    ensures r.Some? <==> Trim(Lower(value)) in ChoiceList
    ensures r.Some? ==> r.value == Trim(Lower(value))
  {
    var v := Trim(Lower(value));
    if v in ChoiceList then Some(v) else None
  }

  /** `generateRoundResultMessage`. An `undefined` result is neither 0 nor
      positive, so it reads as a loss. */
  function RoundResultMessage(s1: string, s2: string): (m: string)
    ensures forall a, b :: s1 == Name(a) && s2 == Name(b) ==>
              m == ConsoleGame.ResultMessage(Outcome(a, b))
    ensures s1 !in ChoiceList && s2 in ChoiceList ==> m == "Bad luck!"
  {
    var result := CompareChoices(s1, s2);
    if result == Some(0) then "It's a tie!"
    else if result.Some? && result.value > 0 then "You win!"
    else "Bad luck!"
  }

  /** `generateOverallResultMessage`: a fixed prefix, then the message for
      the comparison of the two scores. */
  function OverallResultMessage(score1: int, score2: int): (m: string)
    ensures m == "The results are in: " + ConsoleGame.OverallResultMessage(score1, score2)
  {
    var result := "The results are in: ";
    if score1 == score2 then result + "It's a tie!"
    else if score1 > score2 then result + "You win!"
    else result + "Bad luck!"
  }

  /** The value `rockPaperScissors` returns for one round (see
      `RoundResult`). */
  function RockPaperScissors(value: string, computer: Choice): Option<int>
  {
    var playerChoice := PlayerSelection(value);
    if playerChoice.Some? then CompareChoices(playerChoice.value, Name(computer)) else None
  }

  /** A round returns `undefined` exactly when the player's text was not a
      choice, and otherwise the reference outcome of the two choices, so
      always -1, 0 or 1. */
  lemma RoundResult(value: string, computer: Choice)
    ensures var r := RockPaperScissors(value, computer);
            && (r.None? <==> PlayerSelection(value).None?)
            && (forall p :: PlayerSelection(value) == Some(Name(p)) ==> r == Some(Outcome(p, computer)))
            && (r.Some? ==> -1 <= r.value <= 1)
  {
    var v := PlayerSelection(value);
    if v.Some? {
      assert v.value == Name(Rock) || v.value == Name(Paper) || v.value == Name(Scissors);
    }
  }

  /** The lines `rockPaperScissors` writes for one round. */
  function RoundLines(value: string, computer: Choice): seq<string>
  {
    match PlayerSelection(value)
    case None => ["Error: Invalid choice"]
    case Some(playerChoice) =>
      [ "Computer chose: " + Name(computer)
      , "You chose: " + playerChoice
      , RoundResultMessage(playerChoice, Name(computer)) ]
  }

  /** The value each round of a game returns. */
  function Results(values: seq<string>, computer: seq<Choice>): (rs: seq<Option<int>>)
    requires |values| <= |computer|
    ensures |rs| == |values|
  {
    seq(|values|, k requires 0 <= k < |values| => RockPaperScissors(values[k], computer[k]))
  }

  /** Round results that score for the player. */
  function PlayerWins(results: seq<Option<int>>): nat
  {
    if results == [] then 0
    else
      var r := results[|results| - 1];
      PlayerWins(results[..|results| - 1]) + (if r.Some? && r.value > 0 then 1 else 0)
  }

  /** Round results that score for the computer. */
  function ComputerWins(results: seq<Option<int>>): nat
  {
    if results == [] then 0
    else
      var r := results[|results| - 1];
      ComputerWins(results[..|results| - 1]) + (if r.Some? && r.value < 0 then 1 else 0)
  }

  /** Everything the first `|values|` rounds write. */
  function GameLines(values: seq<string>, computer: seq<Choice>): seq<string>
    requires |values| <= |computer|
  {
    if values == [] then []
    else
      var k := |values| - 1;
      GameLines(values[..k], computer) + RoundLines(values[k], computer[k])
  }

  lemma GameLinesStep(values: seq<string>, computer: seq<Choice>, i: nat)
    requires i < |values| <= |computer|
    ensures GameLines(values[..i + 1], computer) == GameLines(values[..i], computer) + RoundLines(values[i], computer[i])
  {
    var v := values[..i + 1];
    assert v[..|v| - 1] == values[..i];
    assert v[|v| - 1] == values[i];
  }

  lemma WinsStep(results: seq<Option<int>>, i: nat)
    requires i < |results|
    ensures var r := results[i];
            && PlayerWins(results[..i + 1]) == PlayerWins(results[..i]) + (if r.Some? && r.value > 0 then 1 else 0)
            && ComputerWins(results[..i + 1]) == ComputerWins(results[..i]) + (if r.Some? && r.value < 0 then 1 else 0)
  {
    assert results[..i + 1][..i] == results[..i];
  }

  /** What one round returns and writes: text that names no choice
      returns `undefined` and writes only the error; a choice is compared
      with the computer's by the reference rule, and both choices and the
      round's message are written. */
  lemma RoundOutput(value: string, computer: Choice)
    ensures match ConsoleGame.ParseChoice(value)
      case None =>
        && RockPaperScissors(value, computer) == None
        && RoundLines(value, computer) == ["Error: Invalid choice"]
      case Some(p) =>
        && RockPaperScissors(value, computer) == Some(Outcome(p, computer))
        && RoundLines(value, computer) == [ "Computer chose: " + Name(computer)
                                          , "You chose: " + Name(p)
                                          , ConsoleGame.ResultMessage(Outcome(p, computer)) ]
  {
    SelectionAgrees(value);
    match ConsoleGame.ParseChoice(value)
    case None =>
    case Some(p) =>
      CompareAntisymmetric(p, computer);
  }

  /** One call of `rockPaperScissors` (see `RoundOutput` for what it
      returns and writes). */
  method PlayRound(value: string, computer: Choice) returns (result: Option<int>, lines: seq<string>)
    ensures result == RockPaperScissors(value, computer)
    ensures lines == RoundLines(value, computer)
  {
    result := RockPaperScissors(value, computer);
    lines := RoundLines(value, computer);
  }

  /** `playGame`: five rounds; a positive round result scores for the
      player, a negative one for the computer, and a tie or an invalid
      choice (`undefined`) for neither; then the overall message. */
  method PlayGame(values: seq<string>, computer: seq<Choice>)
    returns (playerScore: nat, computerScore: nat, page: seq<string>)
    requires |values| == Rounds && |computer| == Rounds
    ensures playerScore == PlayerWins(Results(values, computer))
    ensures computerScore == ComputerWins(Results(values, computer))
    ensures playerScore + computerScore <= Rounds
    ensures page == GameLines(values, computer) + [OverallResultMessage(playerScore, computerScore)]
  {
    ghost var results := Results(values, computer);
    playerScore, computerScore, page := 0, 0, [];
    for i := 0 to Rounds
      invariant playerScore == PlayerWins(results[..i])
      invariant computerScore == ComputerWins(results[..i])
      invariant playerScore + computerScore <= i
      invariant page == GameLines(values[..i], computer)
    {
      GameLinesStep(values, computer, i);
      WinsStep(results, i);
      var result, lines := PlayRound(values[i], computer[i]);
      page := page + lines;
      assert result == results[i];
      if result.Some? && result.value > 0 {
        playerScore := playerScore + 1;
      }
      if result.Some? && result.value < 0 {
        computerScore := computerScore + 1;
      }
    }
    assert values[..Rounds] == values;
    assert results[..Rounds] == results;
    page := page + [OverallResultMessage(playerScore, computerScore)];
  }

  /** A round is decisive when the player's text was valid and the two
      choices differ. */
  predicate Decisive(r: Option<int>)
  {
    r.Some? && r.value != 0
  }

  /** Each round scores at most one point, and the points add up to the
      number of rounds exactly when every round was decisive. */
  lemma {:induction false} ScoreBound(results: seq<Option<int>>)
    requires forall k :: 0 <= k < |results| ==> results[k].Some? ==> -1 <= results[k].value <= 1
    ensures PlayerWins(results) + ComputerWins(results) <= |results|
    ensures PlayerWins(results) + ComputerWins(results) == |results|
            <==> forall k :: 0 <= k < |results| ==> Decisive(results[k])
  {
    if results != [] {
      var k := |results| - 1;
      assert forall j :: 0 <= j < k ==> results[..k][j] == results[j];
      ScoreBound(results[..k]);
    }
  }

  /** Every round of a game returns -1, 0, 1 or `undefined`; hence the
      bound and the decisive-rounds equality hold of every game. */
  lemma GameScoreBound(values: seq<string>, computer: seq<Choice>)
    requires |values| <= |computer|
    ensures PlayerWins(Results(values, computer)) + ComputerWins(Results(values, computer)) <= |values|
    ensures PlayerWins(Results(values, computer)) + ComputerWins(Results(values, computer)) == |values|
            <==> forall k :: 0 <= k < |values| ==> Decisive(RockPaperScissors(values[k], computer[k]))
  {
    var rs := Results(values, computer);
    assert forall k :: 0 <= k < |rs| ==> rs[k] == RockPaperScissors(values[k], computer[k]);
    forall k | 0 <= k < |rs|
      ensures rs[k].Some? ==> -1 <= rs[k].value <= 1
    {
      RoundResult(values[k], computer[k]);
    }
    ScoreBound(rs);
  }

  /** The two versions agree: the prompt version's selection is the console
      version's parse, even though one trims first and the other
      lower-cases first. */
  lemma SelectionAgrees(value: string)
    ensures PlayerSelection(value) == match ConsoleGame.ParseChoice(value)
                                       case None => None
                                       case Some(c) => Some(Name(c))
  {
    var v := Trim(Lower(value));
    TrimLowerCommute(value);
    assert ConsoleGame.ParseChoice(value) == FromName(v);
    assert v in ChoiceList <==> v == Name(Rock) || v == Name(Paper) || v == Name(Scissors);
  }

  /** The two versions' round results agree on valid player input, and on
      canonical names both comparisons compute the same table. */
  lemma RoundAgrees(value: string, computer: Choice, a: Choice, b: Choice)
    ensures forall p :: ConsoleGame.ParseChoice(value) == Some(p) ==>
              RockPaperScissors(value, computer) == ConsoleGame.CompareChoices(Name(p), Name(computer))
    ensures CompareChoices(Name(a), Name(b)) == ConsoleGame.CompareChoices(Name(a), Name(b))
  {
    SelectionAgrees(value);
    ConsoleGame.CompareAntisymmetric(a, b);
    forall p | ConsoleGame.ParseChoice(value) == Some(p)
      ensures RockPaperScissors(value, computer) == ConsoleGame.CompareChoices(Name(p), Name(computer))
    {
      ConsoleGame.CompareAntisymmetric(p, computer);
    }
  }

  /** For valid choices the comparison is antisymmetric. */
  lemma CompareAntisymmetric(a: Choice, b: Choice)
    ensures CompareChoices(Name(a), Name(b)) == Some(Outcome(a, b))
    ensures CompareChoices(Name(b), Name(a)) == Some(-Outcome(a, b))
  {
    OutcomeAntisymmetric(a, b);
  }

  /** Any text compared with itself is a tie: equal texts have equal
      positions, -1 included. */
  lemma CompareReflexive(s: string)
    ensures CompareChoices(s, s) == Some(0)
  {
  }
}
