/** Runs of a state machine over a sequence of inputs, and induction over them. */
module Runs {

  function Run<S, I>(step: (S, I) -> S, start: S, inputs: seq<I>): S {
    if inputs == [] then start
    else step(Run(step, start, inputs[..|inputs| - 1]), inputs[|inputs| - 1])
  }

  lemma RunSnoc<S, I>(step: (S, I) -> S, start: S, inputs: seq<I>, input: I)
    ensures Run(step, start, inputs + [input]) == step(Run(step, start, inputs), input)
  {
    assert (inputs + [input])[..|inputs|] == inputs;
  }

  /** What every step keeps holds at the end of every run. */
  lemma {:induction false} RunKeeps<S(!new), I(!new)>(step: (S, I) -> S, start: S, inputs: seq<I>, holds: S -> bool,
                                                      fair: I -> bool)
    requires holds(start) && forall i :: 0 <= i < |inputs| ==> fair(inputs[i])
    requires forall s, input :: holds(s) && fair(input) ==> holds(step(s, input))
    ensures holds(Run(step, start, inputs))
  {
    if inputs != [] {
      RunKeeps(step, start, inputs[..|inputs| - 1], holds, fair);
    }
  }

  /** Every step of the run is allowed in the state it starts from. */
  ghost predicate Throughout<S, I>(step: (S, I) -> S, start: S, inputs: seq<I>, allowed: (S, I) -> bool) {
    inputs != [] ==>
      var past, input := inputs[..|inputs| - 1], inputs[|inputs| - 1];
      Throughout(step, start, past, allowed) && allowed(Run(step, start, past), input)
  }

  lemma {:induction false} RunKeepsWhile<S(!new), I(!new)>(step: (S, I) -> S, start: S, inputs: seq<I>,
                                                           holds: S -> bool, allowed: (S, I) -> bool)
    requires holds(start) && Throughout(step, start, inputs, allowed)
    requires forall s, input :: holds(s) && allowed(s, input) ==> holds(step(s, input))
    ensures holds(Run(step, start, inputs))
  {
    if inputs != [] {
      RunKeepsWhile(step, start, inputs[..|inputs| - 1], holds, allowed);
    }
  }

  /** The same for what relates the inputs so far to the state they lead to. */
  lemma {:induction false} RunRelates<S(!new), I(!new)>(step: (S, I) -> S, start: S, inputs: seq<I>,
                                                        relates: (seq<I>, S) -> bool)
    requires relates([], start)
    requires forall past, input :: relates(past, Run(step, start, past)) ==>
               relates(past + [input], step(Run(step, start, past), input))
    ensures relates(inputs, Run(step, start, inputs))
  {
    if inputs != [] {
      var past, input := inputs[..|inputs| - 1], inputs[|inputs| - 1];
      RunRelates(step, start, past, relates);
      assert relates(past + [input], step(Run(step, start, past), input));
      assert past + [input] == inputs;
    }
  }

  /** After some part of the inputs, the next one is such. */
  ghost predicate Sometime<I>(inputs: seq<I>, such: (seq<I>, I) -> bool) {
    exists i :: 0 <= i < |inputs| && such(inputs[..i], inputs[i])
  }

  lemma SometimeLater<I>(inputs: seq<I>, input: I, such: (seq<I>, I) -> bool)
    requires Sometime(inputs, such)
    ensures Sometime(inputs + [input], such)
  {
    var all := inputs + [input];
    var i :| 0 <= i < |inputs| && such(inputs[..i], inputs[i]);
    assert all[..i] == inputs[..i] && all[i] == inputs[i];
  }

  lemma SometimeNow<I>(inputs: seq<I>, input: I, such: (seq<I>, I) -> bool)
    requires such(inputs, input)
    ensures Sometime(inputs + [input], such)
  {
    var all := inputs + [input];
    assert all[..|inputs|] == inputs && all[|inputs|] == input;
  }

  /** What the steps of a run put out, in order. */
  function Outputs<S, I, O>(step: (S, I) -> S, out: (S, I) -> O, start: S, inputs: seq<I>): (r: seq<O>)
    ensures |r| == |inputs|
  {
    if inputs == [] then []
    else
      var past, input := inputs[..|inputs| - 1], inputs[|inputs| - 1];
      Outputs(step, out, start, past) + [out(Run(step, start, past), input)]
  }

  /** If each step, seen through `view`, is a step of another machine fed with its
      output, then so is every run. */
  lemma {:induction false} RunRefines<S(!new), I(!new), O, A>(step: (S, I) -> S, out: (S, I) -> O, view: S -> A,
                                                              refined: (A, O) -> A, start: S, inputs: seq<I>)
    requires forall s, input :: view(step(s, input)) == refined(view(s), out(s, input))
    ensures view(Run(step, start, inputs)) == Run(refined, view(start), Outputs(step, out, start, inputs))
  {
    if inputs != [] {
      var past, input := inputs[..|inputs| - 1], inputs[|inputs| - 1];
      RunRefines(step, out, view, refined, start, past);
      RunSnoc(refined, view(start), Outputs(step, out, start, past), out(Run(step, start, past), input));
    }
  }

  lemma {:induction false} OutputsAll<S(!new), I(!new), O>(step: (S, I) -> S, out: (S, I) -> O, start: S,
                                                           inputs: seq<I>, ok: O -> bool)
    requires forall s, input :: ok(out(s, input))
    ensures forall i :: 0 <= i < |inputs| ==> ok(Outputs(step, out, start, inputs)[i])
  {
    if inputs != [] {
      OutputsAll(step, out, start, inputs[..|inputs| - 1], ok);
    }
  }

  /** A run can be cut anywhere. */
  lemma {:induction false} RunConcat<S, I>(step: (S, I) -> S, start: S, first: seq<I>, second: seq<I>)
    ensures Run(step, start, first + second) == Run(step, Run(step, start, first), second)
  {
    if second == [] {
      assert first + second == first;
    } else {
      var n := |second| - 1;
      assert (first + second)[..|first| + n] == first + second[..n];
      RunConcat(step, start, first, second[..n]);
    }
  }
}
