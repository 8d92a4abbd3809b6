/**
  The three moves of rock-paper-scissors, their canonical names, and the
  cyclic dominance rule, stated once here as the reference that each file's
  comparison table is proved against.
*/
module Choices {

  /** `undefined` in the source, where a lookup finds nothing. */
  datatype Option<+T> = None | Some(value: T)

  datatype Choice = Rock | Paper | Scissors

  /** The canonical spelling of a choice, as in the source's choice list. */
  function Name(c: Choice): string
  {
    match c
    case Rock => "rock"
    case Paper => "paper"
    case Scissors => "scissors"
  }

  /** Position in the list `['rock', 'paper', 'scissors']`. */
  function Index(c: Choice): (i: nat)
    ensures i < 3
  {
    match c
    case Rock => 0
    case Paper => 1
    case Scissors => 2
  }

  /** Reference rule: each choice beats the one just before it in the list,
      cyclically (paper beats rock, scissors beat paper, rock beats scissors). */
  predicate Beats(a: Choice, b: Choice)
  {
    Index(a) == (Index(b) + 1) % 3
  }

  /** The signed result of `a` against `b` read off the reference rule:
      1 when `a` beats `b`, -1 when `b` beats `a`, 0 otherwise. */
  function Outcome(a: Choice, b: Choice): (r: int)
    ensures r == 0 <==> a == b
    ensures r == 1 <==> Beats(a, b)
    ensures r == -1 <==> Beats(b, a)
  {
    if Beats(a, b) then 1 else if Beats(b, a) then -1 else 0
  }

  /** Exact lookup of a canonical name; no normalisation. */
  function FromName(s: string): (r: Option<Choice>)
    ensures forall c :: r == Some(c) <==> s == Name(c)
  {
    if s == "rock" then Some(Rock)
    else if s == "paper" then Some(Paper)
    else if s == "scissors" then Some(Scissors)
    else None
  }

  /** The rule table: exactly the three pairs rock/scissors, paper/rock and
      scissors/paper are wins. */
  lemma BeatsTable(a: Choice, b: Choice)
    ensures Beats(a, b) <==> (a, b) in {(Rock, Scissors), (Paper, Rock), (Scissors, Paper)}
  {
  }

  /** Of two different choices exactly one beats the other; no choice beats
      itself. */
  lemma BeatsTotal(a: Choice, b: Choice)
    ensures !Beats(a, a)
    ensures a != b ==> (Beats(a, b) <==> !Beats(b, a))
  {
  }

  /** Swapping the sides negates the outcome. */
  lemma OutcomeAntisymmetric(a: Choice, b: Choice)
    ensures Outcome(a, b) == -Outcome(b, a)
  {
  }
}
