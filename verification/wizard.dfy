/** The step controller shared by the two onboarding wizards: steps 1..n, Next and Back buttons. */
module Wizard {
  import opened Common

  datatype Move = Next | Back

  /** Whether the button for `m` is rendered at `step`: Next below the last step, Back above the first. */
  predicate Offered(m: Move, step: int, n: int) {
    match m
    case Next => step < n
    case Back => step > 1
  }

  /** The step after pressing `m`: Next is clamped with `Math.min(s + 1, n)`, Back subtracts one. */
  function Step(m: Move, step: int, n: int): (r: int)
    ensures m == Next ==> r == Min(step + 1, n)
    ensures m == Back ==> r == step - 1
    ensures 1 <= step <= n && Offered(m, step, n) ==> 1 <= r <= n && (r == step + 1 || r == step - 1)
    ensures m == Next && step <= n ==> step <= r <= n
  {
    match m
    case Next => Min(step + 1, n)
    case Back => step - 1
  }

  /** The step after a sequence of clicks; a click on a button that is not rendered does nothing. */
  function Run(step: int, moves: seq<Move>, n: int): int
    decreases |moves|
  {
    if moves == [] then step
    else Run(if Offered(moves[0], step, n) then Step(moves[0], step, n) else step, moves[1..], n)
  }

  /** Whatever the clicks, the step never leaves 1..n. */
  lemma {:induction false} RunStaysInRange(step: int, moves: seq<Move>, n: int)
    requires 1 <= step <= n
    ensures 1 <= Run(step, moves, n) <= n
    decreases |moves|
  {
    if moves != [] {
      var next := if Offered(moves[0], step, n) then Step(moves[0], step, n) else step;
      RunStaysInRange(next, moves[1..], n);
    }
  }

  /** Pressing Next k times from `step` reaches `min(step + k, n)`: every step is reachable. */
  lemma {:induction false} RunNextReaches(step: int, k: nat, n: int)
    requires 1 <= step <= n
    ensures Run(step, seq(k, _ => Next), n) == Min(step + k, n)
    decreases k
  {
    if k > 0 {
      var moves := seq(k, _ => Next);
      assert moves[0] == Next && moves[1..] == seq(k - 1, _ => Next);
      if step < n {
        RunNextReaches(step + 1, k - 1, n);
      } else {
        RunNextReaches(step, k - 1, n);
      }
    }
  }
}
