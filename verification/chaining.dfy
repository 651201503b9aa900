/**
  Chaining: the crate exists so that `x.apply(f).pass(a).apply(g).pass(b)`
  can be written left to right in place of the nested call `g(f(x, a), b)`
  (the chain of src/lib.rs:89-97). This module states that both spellings
  compute the same value, for two stages of any types and for any number
  of stages over one receiver type.
 */
module Chaining {
  import opened ModExt

  /** Two stages: passing the result of one applicator into the capture of
      the next is the nested call. */
  lemma ChainingComposes<X, A, Y, B, Z>(x: X, f: (X, A) --> Y, a: A, g: (Y, B) --> Z, b: B)
    requires f.requires(x, a)
    requires g.requires(f(x, a), b)
    ensures Pass1(Apply(Pass1(Apply(x, f), a), g), b) == g(f(x, a), b)
  {
  }

  /** One stage of a chain: an extension, which may have a precondition of
      its own, and the argument passed to it. */
  datatype Stage<!T, !A> = Stage(extension: (T, A) --> T, arg: A)

  /** Every stage's precondition holds when the chain reaches it. */
  ghost predicate Runs<T, A>(x: T, stages: seq<Stage<T, A>>)
    decreases |stages|
  {
    |stages| == 0 ||
    (stages[0].extension.requires(x, stages[0].arg) &&
     Runs(Pass1(Apply(x, stages[0].extension), stages[0].arg), stages[1..]))
  }

  /** The chain written left to right: capture, pass, and feed the result to
      the next stage. */
  function Chain<T, A>(x: T, stages: seq<Stage<T, A>>): T
    requires Runs(x, stages)
    decreases |stages|
  {
    if |stages| == 0 then x
    else Chain(Pass1(Apply(x, stages[0].extension), stages[0].arg), stages[1..])
  }

  /** Every call of the nested form meets its extension's precondition. */
  ghost predicate NestedRuns<T, A>(x: T, stages: seq<Stage<T, A>>)
    decreases |stages|, 0
  {
    |stages| == 0 ||
    (var init, last := stages[..|stages| - 1], stages[|stages| - 1];
     NestedRuns(x, init) && last.extension.requires(Nested(x, init), last.arg))
  }

  /** The same computation as nested calls: the last stage is outermost. */
  function Nested<T, A>(x: T, stages: seq<Stage<T, A>>): T
    requires NestedRuns(x, stages)
    decreases |stages|, 1
  {
    if |stages| == 0 then x
    else
      var last := stages[|stages| - 1];
      last.extension(Nested(x, stages[..|stages| - 1]), last.arg)
  }

  /** Appending a stage to a chain runs exactly when the chain runs and the
      new stage accepts the chain's result; it then applies that stage to
      the chain's result. */
  lemma {:induction false} ChainSnoc<T, A>(x: T, stages: seq<Stage<T, A>>, s: Stage<T, A>)
    ensures Runs(x, stages + [s]) <==> Runs(x, stages) && s.extension.requires(Chain(x, stages), s.arg)
    ensures Runs(x, stages + [s]) ==> Chain(x, stages + [s]) == s.extension(Chain(x, stages), s.arg)
    decreases |stages|
  {
    if |stages| == 0 {
      assert stages + [s] == [s];
      assert [s][1..] == [];
    } else {
      assert (stages + [s])[0] == stages[0];
      assert (stages + [s])[1..] == stages[1..] + [s];
      if stages[0].extension.requires(x, stages[0].arg) {
        var y := Pass1(Apply(x, stages[0].extension), stages[0].arg);
        ChainSnoc(y, stages[1..], s);
      }
    }
  }

  /** A left-to-right chain of any length runs exactly when the nested call
      does, and then computes the same value. */
  lemma {:induction false} ChainIsNested<T, A>(x: T, stages: seq<Stage<T, A>>)
    ensures Runs(x, stages) <==> NestedRuns(x, stages)
    ensures Runs(x, stages) ==> Chain(x, stages) == Nested(x, stages)
    decreases |stages|
  {
    if |stages| > 0 {
      var init := stages[..|stages| - 1];
      var last := stages[|stages| - 1];
      assert stages == init + [last];
      ChainSnoc(x, init, last);
      ChainIsNested(x, init);
    }
  }
}
