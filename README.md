# Rock, paper, scissors — a verified model of the game rules

This project models the game logic of a browser rock-paper-scissors game in
Dafny. The game exists in two versions:

- **The console version** (`scripts/rock-paper-scissor.js`). It plays a
  five-round match through a simulated terminal. Each prompt is answered by
  pressing Enter. Invalid choices are re-prompted, and the player is asked
  whether to play again.
- **The prompt version** (`rock-paper-scissor.js`). It plays five rounds in
  a fixed loop. An invalid choice uses up its round.

Modules:

- `Text` (`Text.dfy`): JavaScript's `trim()` and `toLowerCase()`, restricted
  to ASCII letters and a fixed set of white-space characters.
- `Choices` (`Choices.dfy`): the `Choice` datatype, the canonical names,
  and a reference dominance rule `Beats`. `Beats` is defined arithmetically:
  a choice beats its predecessor in the list, cyclically. Both files'
  comparison tables are proved against it.
- `ConsoleGame` (`ConsoleGame.dfy`): the console version. The page's
  globals `roundsPlayed`, `playerScore` and `computerScore` become fields of
  the class `Match`. The class also has a `phase` (awaiting a choice,
  awaiting a replay answer, ended) and a `console` of lines. Each
  Enter-key callback becomes a method. The method takes the text the player
  typed, and for a round also the computer's move. The class invariant
  `Valid()` holds three things:
  - Every round played is a win for one side or a tie. A ghost counter
    `ties` records the ties, and
    `playerScore + computerScore + ties == roundsPlayed <= 5`.
  - A round prompt is open only while rounds remain.
  - The console ends with the prompt of the current phase, or with the
    farewell once the player has declined to play again.
- `SimpleGame` (`SimpleGame.dfy`): the prompt version. Its comparison works
  on list positions. `playGame` is a method with a loop. It also holds
  lemmas showing that the two versions agree.

JavaScript `undefined` is modelled as `None` of an `Option`.

Details of the source that the model keeps:

- The console version writes `Unrecgonised Input.` with this spelling. The
  model keeps it.
- The two versions word the overall result differently. The console
  version writes `The results are in... ` and the prompt version
  `The results are in: `.
- `compareChoices` returns 1, 0 or -1. In both versions it returns
  `undefined` when the first argument is not a choice and the second is.
- The prompt version does not re-prompt after an invalid choice. That round
  returns `undefined` and scores for neither side.

## Model

| member | source | states |
|---|---|---|
| Text.Trim | scripts/rock-paper-scissor.js:50 | the trimmed text has no white space at either end and is no longer than the input |
| Text.TrimCuts | scripts/rock-paper-scissor.js:50 | trimming keeps one contiguous slice of the input and drops only white space before and after it |
| Text.TrimTrimmed | scripts/rock-paper-scissor.js:258 | text that is already trimmed is left unchanged by trimming |
| Text.Lower | scripts/rock-paper-scissor.js:50 | lower-casing keeps the length and leaves no upper-case letter |
| Text.LowerAt | scripts/rock-paper-scissor.js:50 | lower-casing works character by character: each position holds the lower-cased input character |
| Text.LowerLower | scripts/rock-paper-scissor.js:258 | lower-casing text without upper-case letters changes nothing |
| Text.TrimLowerCommute | rock-paper-scissor.js:45 | `toLowerCase().trim()` (prompt version) equals `trim().toLowerCase()` (console version) on every input |
| Text.NormalizeIdempotent | scripts/rock-paper-scissor.js:253-266 | normalising gives trimmed lower-case text, and normalising again changes nothing |
| Text.NatToString | scripts/rock-paper-scissor.js:114 | the round number is written as a non-empty run of decimal digits, with no leading zero except for 0 itself |
| Text.NatToStringValue | scripts/rock-paper-scissor.js:114 | reading the written digits back gives the number |
| Text.NatToStringExamples | scripts/rock-paper-scissor.js:350 | 1, 5 and 12 are written `1`, `5` and `12` |
| Choices.Outcome | scripts/rock-paper-scissor.js:17-22 | the reference result is 0 exactly for equal choices, 1 exactly when the first beats the second, and -1 exactly when the second beats the first |
| Choices.FromName | scripts/rock-paper-scissor.js:15 | an exact lookup succeeds with `c` exactly when the text is `c`'s canonical name |
| Choices.BeatsTable | scripts/rock-paper-scissor.js:31-41 | the cyclic rule makes exactly rock/scissors, paper/rock and scissors/paper wins |
| Choices.BeatsTotal | scripts/rock-paper-scissor.js:27-41 | no choice beats itself; of two different choices exactly one beats the other |
| Choices.OutcomeAntisymmetric | scripts/rock-paper-scissor.js:17-22 | swapping the sides negates the reference result |
| ConsoleGame.ParseChoice | scripts/rock-paper-scissor.js:49-54 | parsing yields choice `c` exactly when the trimmed, lower-cased text is `c`'s name; anything else yields `undefined` |
| ConsoleGame.ParseName | scripts/rock-paper-scissor.js:44-54 | every canonical name parses to its own choice |
| ConsoleGame.ParseNormalized | scripts/rock-paper-scissor.js:253-266 | parsing the text `readCurrentPrompt` already normalised gives the same result as parsing the raw input; lower-casing first changes nothing either |
| ConsoleGame.ParseExamples | scripts/rock-paper-scissor.js:49-54 | `" ROCK "` parses to rock; `""`, `"rck"` and `"rock paper"` are rejected |
| ConsoleGame.CompareChoices | scripts/rock-paper-scissor.js:23-42 | two valid texts give the reference outcome of their choices; two invalid texts tie; a valid first against an invalid second gives -1; an invalid first against a valid second gives `undefined` |
| ConsoleGame.CompareParsed | scripts/rock-paper-scissor.js:27-41 | the branch table on parsed arguments agrees with the reference rule on valid choices and handles each `undefined` combination as above |
| ConsoleGame.CompareReflexive | scripts/rock-paper-scissor.js:27-29 | any text compared with itself is a tie |
| ConsoleGame.CompareAntisymmetric | scripts/rock-paper-scissor.js:31-41 | on canonical names the result is the reference outcome, swapping the arguments negates it, and it is 1 exactly for rock/scissors, paper/rock and scissors/paper |
| ConsoleGame.ResultMessage | scripts/rock-paper-scissor.js:319-329 | `'You win!'` exactly for a positive result, `'Bad luck!'` exactly for a negative one, `"It's a tie!"` exactly for 0 |
| ConsoleGame.OverallResultMessage | scripts/rock-paper-scissor.js:342-344 | `'You win!'` exactly when the player's score is higher, `'Bad luck!'` exactly when it is lower, `"It's a tie!"` exactly when the scores are equal |
| ConsoleGame.ParseYesOrNo | scripts/rock-paper-scissor.js:178-190 | the answer is yes exactly for a normalised `y`/`yes`, no exactly for `n`/`no`, and unrecognised otherwise |
| ConsoleGame.AnswerNormalized | scripts/rock-paper-scissor.js:253-258 | the replay answer ignores case and surrounding white space |
| ConsoleGame.AnswerExamples | scripts/rock-paper-scissor.js:178-190 | `YES` restarts, ` No` ends, and `yse` is asked again |
| ConsoleGame.RoundPromptText | scripts/rock-paper-scissor.js:113-116 | the prompt `playerTurn` opens for round 1 reads `Round 1. Enter choice [rock/paper/scissors]` |
| ConsoleGame.RoundResultLineText | scripts/rock-paper-scissor.js:305-311 | the round line reads `Computer chose rock... You win!` for a won round against rock, and `Computer chose scissors... Bad luck!` for a lost round against scissors |
| ConsoleGame.OverallResultLineText | scripts/rock-paper-scissor.js:334-336 | the overall line reads `The results are in... It's a tie!` at 1-1 and `The results are in... You win!` at 3-2 |
| ConsoleGame.WelcomeText | scripts/rock-paper-scissor.js:350 | the greeting reads `Let's play a game of rock paper scissors! Best of 5...` |
| ConsoleGame.Match.ScoresFillRounds | scripts/rock-paper-scissor.js:293-300 | under the invariant the two scores never exceed the rounds played, and they equal the rounds played exactly when no round was a tie |
| ConsoleGame.Match.constructor | scripts/rock-paper-scissor.js:1-8 | the match starts as `startGame` leaves it: zero counters, the greeting, and the round-1 prompt |
| ConsoleGame.Match.StartGame | scripts/rock-paper-scissor.js:349-355 | all three counters are reset to 0, the greeting is written, round 1 is prompted, and the invariant holds |
| ConsoleGame.Match.PromptPlayer | scripts/rock-paper-scissor.js:101-116 | while rounds remain, the next round `roundsPlayed + 1` is prompted; once `roundsPlayed >= 5`, the overall result line and the replay question are written instead; no counter changes |
| ConsoleGame.Match.PromptPlayAgain | scripts/rock-paper-scissor.js:195-197 | the replay question is the only line added |
| ConsoleGame.Match.UpdateScores | scripts/rock-paper-scissor.js:293-300 | a positive result adds one to the player's score, a negative one adds one to the computer's, and a tie adds nothing |
| ConsoleGame.Match.PlayRound | scripts/rock-paper-scissor.js:280-287 | `roundsPlayed` grows by exactly 1; the player scores exactly when their choice beats the computer's, the computer exactly when its choice wins, and the ghost tie count exactly when the choices are equal; the round result line and the next prompt are written; the invariant is kept |
| ConsoleGame.Match.ReadChoice | scripts/rock-paper-scissor.js:264-266 | normalising the input and then parsing it gives what parsing the raw input gives |
| ConsoleGame.Match.ParsePlayerChoice | scripts/rock-paper-scissor.js:264-275 | invalid input leaves all counters unchanged, writes `Unrecgonised Input.` and prompts the same round again; valid input plays the round as in `PlayRound` |
| ConsoleGame.Match.EndGame | scripts/rock-paper-scissor.js:360-362 | `Thank you for playing!` is written and no prompt remains open |
| ConsoleGame.Match.ParseRestart | scripts/rock-paper-scissor.js:170 | yes restarts with all counters at 0; no ends with the farewell; anything else writes the retry message and asks again, changing no counter |
| SimpleGame.FindIndex | rock-paper-scissor.js:10-11 | the position of an exact list member, or -1 exactly when the text is not in the list |
| SimpleGame.CompareChoices | rock-paper-scissor.js:9-31 | canonical names give the reference outcome; two unknown texts tie; a known first against an unknown second gives -1; an unknown first against a known second gives `undefined` |
| SimpleGame.CompareReflexive | rock-paper-scissor.js:13-15 | any text compared with itself is a tie |
| SimpleGame.CompareAntisymmetric | rock-paper-scissor.js:13-30 | for valid choices, swapping the arguments negates the result |
| SimpleGame.PlayerSelection | rock-paper-scissor.js:43-47 | the selection is defined exactly when the lower-cased, trimmed text is in the list, and is then that text |
| SimpleGame.SelectionAgrees | rock-paper-scissor.js:45-46 | the prompt version's selection names the same choice the console version's `parseChoice` finds, on every input |
| SimpleGame.RoundResultMessage | rock-paper-scissor.js:51-58 | on canonical names the message is the one for the reference outcome; an `undefined` result reads as `'Bad luck!'` |
| SimpleGame.OverallResultMessage | rock-paper-scissor.js:62-70 | the message is `'The results are in: '` followed by the message for comparing the two scores |
| SimpleGame.RoundResult | rock-paper-scissor.js:73-82 | a round returns `undefined` exactly when the player's text was not a choice, otherwise the reference outcome, so always -1, 0 or 1 |
| SimpleGame.RoundAgrees | rock-paper-scissor.js:73-82 | on valid player input a round of the prompt version returns what the console version's comparison returns, and both tables agree on canonical names |
| SimpleGame.RoundOutput | rock-paper-scissor.js:73-82 | text that names no choice returns `undefined` and writes only `Error: Invalid choice`; a choice `p` returns the reference outcome against the computer's move and writes the computer's choice, `p`, and the message for that outcome |
| SimpleGame.PlayGame | rock-paper-scissor.js:85-97 | after exactly five rounds the scores count the rounds won by each side; an invalid round scores for neither; `playerScore + computerScore <= 5`; the page holds every round's lines followed by the overall message |
| SimpleGame.ScoreBound | rock-paper-scissor.js:87-95 | each round scores at most one point; the points equal the number of rounds exactly when every round was decisive |
| SimpleGame.GameScoreBound | rock-paper-scissor.js:85-97 | over any game the two scores add up to at most the number of rounds, with equality exactly when no round tied or was invalid |

## Left out

- The page and the terminal are not modelled: element creation, focus and caret handling, styling and page clearing (`getConsole`, `writeToConsole`, `promptUser`, `generatePromptInput`, `generateMessage`, `generatePromptMessage`, `fixCaretPosition`, `getCurrentPrompt`, `clearPage`, `clearElement`, `displayInParagraph`, `displayOnPage`). Writing a line is appending to a sequence. A prompt is a `Prompt` line holding its message.
- Disabling the answered input in `readCurrentPrompt` is not modelled. Only its trim and lower-case step is.
- Event wiring is not modelled (`performOnEnter`, the key-up callbacks, `currentPromptId`). The callbacks become method calls. Each method requires the phase its prompt belongs to, because only that prompt's input carries the callback.
- Randomness is not modelled (`computerTurn`, `randomIndex`, `randomSelection`, `computerSelection`, `Math.random`). The computer's move is a parameter.
- `prompt()` is not modelled. The text it returns is a parameter. A cancelled prompt returns `null`, which would make `toLowerCase()` throw; that case is not modelled.
- The console version's `startGame` is called from outside its file. The constructor runs it after setting the initial globals.
- Text.Lower: lower-cases ASCII letters only, not JavaScript's full Unicode case mapping.
- Text.Trim: removes only a fixed set of white space (ASCII blanks, no-break space, the two line terminators, byte-order mark), not every Unicode space separator.
- ConsoleGame.ResultMessage: takes a number. In the source, an `undefined` result would give `undefined`, but every caller passes a number.
- A client scenario that plays whole matches through the `Match` methods is not included. The same facts come from the method contracts and the example lemmas.
