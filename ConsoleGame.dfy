/**
  The console version of the game (scripts/rock-paper-scissor.js): a match
  of five rounds against the computer, played through a simulated terminal
  in which every input prompt is answered by pressing Enter.

  The page's globals `roundsPlayed`, `playerScore` and `computerScore`
  become the fields of a `Match`; each Enter-key callback becomes a method
  that receives the text the player typed (and, for a round, the move the
  computer drew). The terminal is a sequence of lines: messages written to
  the console and prompts awaiting an answer.
*/
module ConsoleGame {
  import opened Text
  import opened Choices

  /** Number of rounds in a game. */
  const RoundsPerGame: nat := 5

  // ---------------------------------------------------------------------
  // Pure rules
  // ---------------------------------------------------------------------

  /** `parseChoice`: trim and lower-case the text, then accept it only if it
      is exactly one of the three names. */
  function ParseChoice(s: string): (r: Option<Choice>)
    ensures forall c :: r == Some(c) <==> Normalize(s) == Name(c)
  {
    FromName(Normalize(s))
  }

  /** `compareChoices`: both arguments are parsed again; equal parses tie
      (two unparseable arguments included), a valid first argument wins
      only against the one choice it beats, and an unparseable first
      argument against a valid second one falls through every branch and
      yields `undefined`. */
  function CompareChoices(s1: string, s2: string): (r: Option<int>)
    ensures forall a, b :: ParseChoice(s1) == Some(a) && ParseChoice(s2) == Some(b)
                           ==> r == Some(Outcome(a, b))
    ensures ParseChoice(s1) == None && ParseChoice(s2) == None ==> r == Some(0)
    ensures ParseChoice(s1).Some? && ParseChoice(s2) == None ==> r == Some(-1)
    ensures ParseChoice(s1) == None && ParseChoice(s2).Some? ==> r == None
  {
    CompareParsed(ParseChoice(s1), ParseChoice(s2))
  }

  /** The branch table of `compareChoices`, on the two parsed arguments. */
  function CompareParsed(c1: Option<Choice>, c2: Option<Choice>): (r: Option<int>)
    ensures forall a, b :: c1 == Some(a) && c2 == Some(b) ==> r == Some(Outcome(a, b))
    ensures c1 == None ==> r == if c2 == None then Some(0) else None
    ensures c1.Some? && c2 == None ==> r == Some(-1)
  {
    if c1 == c2 then Some(0)
    else match c1
      case Some(Rock) => Some(if c2 == Some(Scissors) then 1 else -1)
      case Some(Paper) => Some(if c2 == Some(Rock) then 1 else -1)
      case Some(Scissors) => Some(if c2 == Some(Paper) then 1 else -1)
      case None => None
  }

  /** `generateResultMessage`: congratulate on a positive result, console on
      a negative one. */
  function ResultMessage(result: int): (m: string)
    ensures m == "You win!" <==> result > 0
    ensures m == "Bad luck!" <==> result < 0
    ensures m == "It's a tie!" <==> result == 0
  {
    if result == 0 then "It's a tie!"
    else if result > 0 then "You win!"
    else "Bad luck!"
  }

  /** `generateOverallResultMessage`: the message for the score difference. */
  function OverallResultMessage(playerScore: int, computerScore: int): (m: string)
    ensures m == "You win!" <==> playerScore > computerScore
    ensures m == "Bad luck!" <==> playerScore < computerScore
    ensures m == "It's a tie!" <==> playerScore == computerScore
  {
    ResultMessage(playerScore - computerScore)
  }

  /** `parseYesOrNo`'s three ways out. */
  datatype Answer = Yes | No | Unrecognised

  /** `parseYesOrNo` on the text `readCurrentPrompt` returns. */
  function ParseYesOrNo(s: string): (a: Answer)
    ensures a == Yes <==> Normalize(s) in {"y", "yes"}
    ensures a == No <==> Normalize(s) in {"n", "no"}
  {
    var t := Normalize(s);
    if t == "y" || t == "yes" then Yes
    else if t == "n" || t == "no" then No
    else Unrecognised
  }

  // Texts the game writes

  /** The message of the prompt `playerTurn` opens for a round. */
  function RoundPrompt(round: nat): string
  {
    "Round " + NatToString(round) + ". Enter choice [rock/paper/scissors]"
  }

  const ReplayPrompt: string := "Would you like to play again? [yes/no]"
  const Welcome: string := "Let's play a game of rock paper scissors! Best of " + NatToString(RoundsPerGame) + "..."
  const UnrecognisedInput: string := "Unrecgonised Input."
  const RetryReplay: string := "Please enter either 'yes' or 'no'"
  const Farewell: string := "Thank you for playing!"

  /** The line `writeResultOfRound` writes. */
  function RoundResultLine(computerChoice: Choice, result: int): string
  {
    "Computer chose " + Name(computerChoice) + "... " + ResultMessage(result)
  }

  /** The line `writeOverallResult` writes. */
  function OverallResultLine(playerScore: int, computerScore: int): string
  {
    "The results are in... " + OverallResultMessage(playerScore, computerScore)
  }

  /** The first round's prompt, spelled out. */
  lemma RoundPromptText()
    ensures RoundPrompt(1) == "Round 1" + ". Enter choice [rock/paper/scissors]"
  {
    NatToStringExamples();
    assert "Round " + "1" == "Round 1";
  }

  /** A won and a lost round, as the terminal shows them. */
  lemma RoundResultLineText()
    ensures RoundResultLine(Rock, 1) == "Computer chose rock" + "... You win!"
    ensures RoundResultLine(Scissors, -1) == "Computer chose scissors" + "... Bad luck!"
  {
    assert "Computer chose " + "rock" == "Computer chose rock";
    assert "Computer chose " + "scissors" == "Computer chose scissors";
    assert "Computer chose rock" + "... " + "You win!" == "Computer chose rock" + "... You win!";
    assert "Computer chose scissors" + "... " + "Bad luck!" == "Computer chose scissors" + "... Bad luck!";
  }

  /** A drawn and a won game, as the terminal shows them. */
  lemma OverallResultLineText()
    ensures OverallResultLine(1, 1) == "The results are in... " + "It's a tie!"
    ensures OverallResultLine(3, 2) == "The results are in... " + "You win!"
  {
  }

  /** The greeting names the number of rounds. */
  lemma WelcomeText()
    ensures Welcome == "Let's play a game of rock paper scissors! Best of 5..."
  {
    NatToStringExamples();
  }

  // ---------------------------------------------------------------------
  // Properties of the rules
  // ---------------------------------------------------------------------

  /** Every canonical name parses to its own choice. */
  lemma ParseName(c: Choice)
    ensures ParseChoice(Name(c)) == Some(c)
  {
    assert IsNormal(Name(c));
    NormalFixed(Name(c));
  }

  /** Parsing ignores case and surrounding white space: the text
      `readCurrentPrompt` has already trimmed and lower-cased parses the
      same as the raw input, so `parsePlayerChoice`'s second normalisation
      changes nothing. */
  lemma ParseNormalized(s: string)
    ensures ParseChoice(Normalize(s)) == ParseChoice(s)
    ensures ParseChoice(Lower(s)) == ParseChoice(s)
  {
    NormalizeIdempotent(s);
    TrimLowerCommute(s);
    NormalizeIdempotent(Lower(s));
    assert Normalize(Lower(s)) == Lower(Lower(Trim(s)));
    LowerLower(Lower(Trim(s)));
  }

  /** A choice compared with itself is a tie; so are two texts that both
      fail to parse. */
  lemma CompareReflexive(s: string)
    ensures CompareChoices(s, s) == Some(0)
  {
  }

  /** For two valid choices the result is 1 exactly for rock/scissors,
      paper/rock and scissors/paper, and swapping the arguments negates
      it. */
  lemma CompareAntisymmetric(a: Choice, b: Choice)
    ensures CompareChoices(Name(a), Name(b)) == Some(Outcome(a, b))
    ensures CompareChoices(Name(b), Name(a)) == Some(-Outcome(a, b))
    ensures Outcome(a, b) == 1 <==> (a, b) in {(Rock, Scissors), (Paper, Rock), (Scissors, Paper)}
  {
    ParseName(a);
    ParseName(b);
    OutcomeAntisymmetric(a, b);
    BeatsTable(a, b);
  }

  /** A replay answer ignores case and surrounding white space. */
  lemma AnswerNormalized(s: string)
    ensures ParseYesOrNo(Normalize(s)) == ParseYesOrNo(s)
    ensures ParseYesOrNo(Lower(s)) == ParseYesOrNo(s)
  {
    NormalizeIdempotent(s);
    TrimLowerCommute(s);
    NormalizeIdempotent(Lower(s));
    LowerLower(Lower(Trim(s)));
  }

  /** Examples of what `parseChoice` accepts and rejects: case and
      surrounding blanks are ignored, but nothing else is. */
  lemma {:induction false} ParseExamples()
    ensures ParseChoice(" ROCK ") == Some(Rock)
    ensures ParseChoice("") == None
    ensures ParseChoice("rck") == None
    ensures ParseChoice("rock paper") == None
  {
    TrimRock();
    UpperRock();
    assert Trim("") == "";
    NormalExample("rck");
    NormalExample("rock paper");
  }

  lemma NormalExample(s: string)
    requires s == "rck" || s == "rock paper"
    ensures Normalize(s) == s
  {
    assert IsNormal(s);
    NormalFixed(s);
  }

  lemma TrimRock()
    ensures Trim(" ROCK ") == "ROCK"
  {
    assert " ROCK "[1..] == "ROCK ";
    assert TrimStart("ROCK ") == "ROCK ";
    assert TrimStart(" ROCK ") == "ROCK ";
    assert "ROCK "[..4] == "ROCK";
    assert TrimEnd("ROCK") == "ROCK";
    assert TrimEnd("ROCK ") == "ROCK";
  }

  lemma UpperRock()
    ensures Lower("ROCK") == "rock"
  {
    assert "ROCK"[1..] == "OCK" && "OCK"[1..] == "CK" && "CK"[1..] == "K" && "K"[1..] == "";
  }

  /** A replay answer of `YES` restarts, `No` ends, and a typo asks again. */
  lemma {:induction false} AnswerExamples()
    ensures ParseYesOrNo("YES") == Yes
    ensures ParseYesOrNo(" No") == No
    ensures ParseYesOrNo("yse") == Unrecognised
  {
    NormalizeYes();
    NormalizeNo();
    assert IsNormal("yse");
    NormalFixed("yse");
  }

  lemma NormalizeYes()
    ensures Normalize("YES") == "yes"
  {
    assert IsTrimmed("YES");
    TrimTrimmed("YES");
    assert "YES"[1..] == "ES" && "ES"[1..] == "S" && "S"[1..] == "";
  }

  lemma NormalizeNo()
    ensures Normalize(" No") == "no"
  {
    assert " No"[1..] == "No";
    assert TrimStart("No") == "No";
    assert TrimStart(" No") == "No";
    assert TrimEnd("No") == "No";
    assert Trim(" No") == "No";
    assert "No"[1..] == "o";
  }

  // ---------------------------------------------------------------------
  // The match
  // ---------------------------------------------------------------------

  /** Which prompt is open: a round's choice, the replay question, or none
      because the player declined to play again. */
  datatype Phase = AwaitingChoice | AwaitingReplay | Ended

  /** A line of the simulated terminal. */
  datatype Line = Message(text: string) | Prompt(text: string)

  /** What `promptPlayer` adds to the console: the next round's prompt while
      rounds remain, otherwise the overall result and the replay question. */
  function NextPrompt(roundsPlayed: nat, playerScore: nat, computerScore: nat): seq<Line>
  {
    if roundsPlayed >= RoundsPerGame then
      [Message(OverallResultLine(playerScore, computerScore)), Prompt(ReplayPrompt)]
    else
      [Prompt(RoundPrompt(roundsPlayed + 1))]
  }

  function PhaseAfterPrompt(roundsPlayed: nat): Phase
  {
    if roundsPlayed >= RoundsPerGame then AwaitingReplay else AwaitingChoice
  }

  class Match {
    var roundsPlayed: nat
    var playerScore: nat
    var computerScore: nat
    /** Rounds played that neither side won; not in the source, which keeps
        only the two scores. */
    ghost var ties: nat
    var phase: Phase
    /** Everything written to the terminal so far, oldest first. */
    var console: seq<Line>

    /** The match invariant: no more rounds than a game has, every round
        played is a win for one side or a tie, a round prompt only while
        rounds remain, and the terminal ends with the prompt (or farewell)
        of the current phase. */
    ghost predicate Valid()
      reads this
    {
      && playerScore + computerScore + ties == roundsPlayed <= RoundsPerGame
      && (phase == AwaitingChoice ==> roundsPlayed < RoundsPerGame)
      && (phase != AwaitingChoice ==> roundsPlayed == RoundsPerGame)
      && |console| > 0
      && console[|console| - 1] == match phase
           case AwaitingChoice => Prompt(RoundPrompt(roundsPlayed + 1))
           case AwaitingReplay => Prompt(ReplayPrompt)
           case Ended => Message(Farewell)
    }

    /** The two scores add up to the rounds played exactly when no round
        was a tie. */
    lemma ScoresFillRounds()
      requires Valid()
      ensures playerScore + computerScore <= roundsPlayed
      ensures playerScore + computerScore == roundsPlayed <==> ties == 0
    {
    }

    /** The page's initial globals followed by `startGame()`. */
    constructor ()
      ensures Valid()
      ensures roundsPlayed == 0 && playerScore == 0 && computerScore == 0 && ties == 0
      ensures phase == AwaitingChoice
      ensures console == [Message(Welcome), Prompt(RoundPrompt(1))]
    {
      roundsPlayed, playerScore, computerScore, ties := 0, 0, 0, 0;
      phase := AwaitingChoice;
      console := [];
      new;
      StartGame();
    }

    /** `startGame`: greet, reset all three counters and prompt round 1. */
    method StartGame()
      modifies this
      ensures Valid()
      ensures roundsPlayed == 0 && playerScore == 0 && computerScore == 0 && ties == 0
      ensures phase == AwaitingChoice
      ensures console == old(console) + [Message(Welcome), Prompt(RoundPrompt(1))]
    {
      console := console + [Message(Welcome)];
      playerScore := 0;
      computerScore := 0;
      roundsPlayed := 0;
      ties := 0;
      PromptPlayer();
    }

    /** `promptPlayer`: prompt the next round, or, once every round has been
        played, report the overall result and ask about replaying. */
    method PromptPlayer()
      requires playerScore + computerScore + ties == roundsPlayed <= RoundsPerGame
      modifies this
      ensures Valid()
      ensures roundsPlayed == old(roundsPlayed) && ties == old(ties)
      ensures playerScore == old(playerScore) && computerScore == old(computerScore)
      ensures phase == PhaseAfterPrompt(roundsPlayed)
      ensures console == old(console) + NextPrompt(roundsPlayed, playerScore, computerScore)
    {
      if roundsPlayed >= RoundsPerGame {
        console := console + [Message(OverallResultLine(playerScore, computerScore))];
        PromptPlayAgain();
      } else {
        console := console + [Prompt(RoundPrompt(roundsPlayed + 1))];
        phase := AwaitingChoice;
      }
    }

    /** `promptPlayAgain`: ask whether to play another game. */
    method PromptPlayAgain()
      requires playerScore + computerScore + ties == roundsPlayed == RoundsPerGame
      modifies this`console, this`phase
      ensures Valid()
      ensures phase == AwaitingReplay
      ensures console == old(console) + [Prompt(ReplayPrompt)]
    {
      console := console + [Prompt(ReplayPrompt)];
      phase := AwaitingReplay;
    }

    /** `updateScores`: a positive result scores for the player, a negative
        one for the computer, a tie for neither. */
    method UpdateScores(result: int)
      modifies this`playerScore, this`computerScore
      ensures playerScore == old(playerScore) + (if result > 0 then 1 else 0)
      ensures computerScore == old(computerScore) + (if result < 0 then 1 else 0)
    {
      if result > 0 {
        playerScore := playerScore + 1;
      }
      if result < 0 {
        computerScore := computerScore + 1;
      }
    }

    /** `playRound`: compare the player's valid choice with the computer's,
        score the round, report it, count it and prompt again. */
    method PlayRound(playerChoice: Choice, computerChoice: Choice)
      requires Valid() && phase == AwaitingChoice
      modifies this
      ensures Valid()
      ensures roundsPlayed == old(roundsPlayed) + 1
      ensures ties == old(ties) + (if playerChoice == computerChoice then 1 else 0)
      ensures playerScore == old(playerScore) + (if Beats(playerChoice, computerChoice) then 1 else 0)
      ensures computerScore == old(computerScore) + (if Beats(computerChoice, playerChoice) then 1 else 0)
      ensures phase == PhaseAfterPrompt(roundsPlayed)
      ensures console == old(console)
                         + [Message(RoundResultLine(computerChoice, Outcome(playerChoice, computerChoice)))]
                         + NextPrompt(roundsPlayed, playerScore, computerScore)
    {
      CompareAntisymmetric(playerChoice, computerChoice);
      var result := CompareChoices(Name(playerChoice), Name(computerChoice));
      var r := result.value;
      UpdateScores(r);
      ties := ties + (if r == 0 then 1 else 0);
      console := console + [Message(RoundResultLine(computerChoice, r))];
      roundsPlayed := roundsPlayed + 1;
      PromptPlayer();
    }

    /** `parsePlayerChoice`, fired when Enter is pressed at a round prompt:
        a valid choice plays the round; anything else is reported and the
        same round is prompted again, with no counter changed. */
    method ParsePlayerChoice(input: string, computerChoice: Choice)
      requires Valid() && phase == AwaitingChoice
      modifies this
      ensures Valid()
      ensures match ParseChoice(input)
        case None =>
          && roundsPlayed == old(roundsPlayed) && ties == old(ties)
          && playerScore == old(playerScore) && computerScore == old(computerScore)
          && phase == AwaitingChoice
          && console == old(console) + [Message(UnrecognisedInput), Prompt(RoundPrompt(roundsPlayed + 1))]
        case Some(p) =>
          && roundsPlayed == old(roundsPlayed) + 1
          && ties == old(ties) + (if p == computerChoice then 1 else 0)
          && playerScore == old(playerScore) + (if Beats(p, computerChoice) then 1 else 0)
          && computerScore == old(computerScore) + (if Beats(computerChoice, p) then 1 else 0)
          && phase == PhaseAfterPrompt(roundsPlayed)
          && console == old(console)
                        + [Message(RoundResultLine(computerChoice, Outcome(p, computerChoice)))]
                        + NextPrompt(roundsPlayed, playerScore, computerScore)
    {
      var choice := ReadChoice(input);
      if choice.Some? {
        PlayRound(choice.value, computerChoice);
      } else {
        console := console + [Message(UnrecognisedInput)];
        PromptPlayer();
      }
    }

    /** `readCurrentPrompt` (which trims and lower-cases) followed by
        `parseChoice` (which does so again). */
    static method ReadChoice(input: string) returns (choice: Option<Choice>)
      ensures choice == ParseChoice(input)
    {
      var text := Normalize(input);
      choice := ParseChoice(text);
      ParseNormalized(input);
    }

    /** `endGame`: say goodbye; no prompt is open afterwards. */
    method EndGame()
      requires Valid() && phase == AwaitingReplay
      modifies this`console, this`phase
      ensures Valid()
      ensures phase == Ended
      ensures console == old(console) + [Message(Farewell)]
    {
      console := console + [Message(Farewell)];
      phase := Ended;
    }

    /** `parseRestart`, fired when Enter is pressed at the replay prompt:
        `y`/`yes` starts a new game, `n`/`no` ends, anything else is
        reported and the question asked again, with no counter changed. */
    method ParseRestart(input: string)
      requires Valid() && phase == AwaitingReplay
      modifies this
      ensures Valid()
      ensures ParseYesOrNo(input) == Yes ==>
        && roundsPlayed == 0 && playerScore == 0 && computerScore == 0 && ties == 0
        && phase == AwaitingChoice
        && console == old(console) + [Message(Welcome), Prompt(RoundPrompt(1))]
      ensures ParseYesOrNo(input) == No ==>
        && roundsPlayed == old(roundsPlayed) && ties == old(ties)
        && playerScore == old(playerScore) && computerScore == old(computerScore)
        && phase == Ended
        && console == old(console) + [Message(Farewell)]
      ensures ParseYesOrNo(input) == Unrecognised ==>
        && roundsPlayed == old(roundsPlayed) && ties == old(ties)
        && playerScore == old(playerScore) && computerScore == old(computerScore)
        && phase == AwaitingReplay
        && console == old(console) + [Message(RetryReplay), Prompt(ReplayPrompt)]
    {
      var answer := ParseYesOrNo(input);
      match answer
      case Yes => StartGame();
      case No => EndGame();
      case Unrecognised =>
        console := console + [Message(RetryReplay)];
        PromptPlayAgain();
    }
  }
}
