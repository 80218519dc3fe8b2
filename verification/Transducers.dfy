/**
 Facts about any machine that takes one input at a time and gives out a sequence
 of outputs. State, inputs and outputs are parameters.
 */
module Transducers {
  // All outputs, and the state afterwards.
  ghost function Run<S, I, O>(step: (S, I) -> (S, seq<O>), s: S, inputs: seq<I>): (S, seq<O>)
    decreases |inputs|
  {
    if inputs == [] then (s, [])
    else
      var (before, out) := Run(step, s, inputs[..|inputs| - 1]);
      var (after, more) := step(before, inputs[|inputs| - 1]);
      (after, out + more)
  }

  lemma RunSnoc<S, I, O>(step: (S, I) -> (S, seq<O>), s: S, inputs: seq<I>, i: I)
    ensures var (before, out) := Run(step, s, inputs);
            var (after, more) := step(before, i);
            Run(step, s, inputs + [i]) == (after, out + more)
  {
    assert (inputs + [i])[..|inputs|] == inputs;
  }

  lemma RunOne<S, I, O>(step: (S, I) -> (S, seq<O>), s: S, i: I)
    ensures Run(step, s, [i]) == step(s, i)
  {
    RunSnoc(step, s, [], i);
    assert [] + [i] == [i] && [] + step(s, i).1 == step(s, i).1;
  }

  lemma {:induction false} RunAppend<S, I, O>(step: (S, I) -> (S, seq<O>), s: S, a: seq<I>, b: seq<I>)
    ensures var (middle, out) := Run(step, s, a);
            var (after, more) := Run(step, middle, b);
            Run(step, s, a + b) == (after, out + more)
    decreases |b|
  {
    if b == [] {
      assert a + b == a && Run(step, s, a).1 + [] == Run(step, s, a).1;
    } else {
      var front, i := b[..|b| - 1], b[|b| - 1];
      RunAppend(step, s, a, front);
      assert b == front + [i] && a + b == (a + front) + [i];
      RunSnoc(step, s, a + front, i);
      var (middle, out) := Run(step, s, a);
      RunSnoc(step, middle, front, i);
      var (before, more) := Run(step, middle, front);
      assert (out + more) + step(before, i).1 == out + (more + step(before, i).1);
    }
  }

  // A step keeps the state in `shows` with the whole input so far, and gives out
  // what the answer to that input gained.
  ghost predicate Simulates<S(!new), I(!new), O(!new)>(
    step: (S, I) -> (S, seq<O>), shows: (S, seq<I>) -> bool, answer: seq<I> -> seq<O>)
  {
    forall s, past, i {:trigger step(s, i), shows(s, past)} :: shows(s, past) ==>
      && shows(step(s, i).0, past + [i])
      && answer(past + [i]) == answer(past) + step(s, i).1
  }

  lemma {:induction false} Refines<S(!new), I(!new), O(!new)>(
    step: (S, I) -> (S, seq<O>), shows: (S, seq<I>) -> bool, answer: seq<I> -> seq<O>,
    s: S, past: seq<I>, inputs: seq<I>)
    requires Simulates(step, shows, answer) && shows(s, past)
    ensures shows(Run(step, s, inputs).0, past + inputs)
    ensures answer(past + inputs) == answer(past) + Run(step, s, inputs).1
    decreases |inputs|
  {
    if inputs == [] {
      assert past + inputs == past && answer(past) + [] == answer(past);
    } else {
      var front, i := inputs[..|inputs| - 1], inputs[|inputs| - 1];
      Refines(step, shows, answer, s, past, front);
      assert inputs == front + [i] && past + inputs == (past + front) + [i];
      RunSnoc(step, s, front, i);
    }
  }

  // What every step keeps, every run keeps.
  lemma {:induction false} Keeps<S(!new), I(!new), O>(
    step: (S, I) -> (S, seq<O>), good: S -> bool, s: S, inputs: seq<I>)
    requires good(s)
    requires forall s, i {:trigger step(s, i)} :: good(s) ==> good(step(s, i).0)
    ensures good(Run(step, s, inputs).0)
    decreases |inputs|
  {
    if inputs != [] {
      Keeps(step, good, s, inputs[..|inputs| - 1]);
    }
  }
}
