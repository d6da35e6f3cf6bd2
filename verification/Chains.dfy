/** Histories in which every result is determined by its input and the result before it. */
module Chains {
  import opened Wrappers
  import opened Collections

  /** Whether a result follows from an input and the previous result. */
  type Step<!E, !B> = (E, Option<B>, B) -> bool

  ghost predicate Deterministic<E(!new), B(!new)>(step: Step<E, B>) {
    forall e, previous, a, b :: step(e, previous, a) && step(e, previous, b) ==> a == b
  }

  function Before<B>(results: seq<B>, i: nat): Option<B>
    requires i <= |results|
  {
    if i == 0 then None else Some(results[i - 1])
  }

  ghost predicate IsChain<E(!new), B(!new)>(step: Step<E, B>, inputs: seq<E>, results: seq<B>) {
    && |results| == |inputs|
    && forall i :: 0 <= i < |results| ==> step(inputs[i], Before(results, i), results[i])
  }

  ghost predicate HasChain<E(!new), B(!new)>(step: Step<E, B>, inputs: seq<E>) {
    exists results :: IsChain(step, inputs, results)
  }

  /** Why a result cannot follow from an input and the previous result. */
  type Fault<!E, !B, X> = (E, Option<B>) -> Option<X>

  /** The history goes as far as some results and its next step raises the complaint. */
  ghost predicate StopsWith<E(!new), B(!new), X(!new)>(
      step: Step<E, B>, fault: Fault<E, B, X>, inputs: seq<E>, complaint: X)
  {
    exists results :: StopsAfter(step, fault, inputs, results, complaint)
  }

  ghost predicate StopsAfter<E(!new), B(!new), X(!new)>(
      step: Step<E, B>, fault: Fault<E, B, X>, inputs: seq<E>, results: seq<B>, complaint: X)
  {
    && |results| < |inputs| && IsChain(step, inputs[..|results|], results)
    && fault(inputs[|results|], Before(results, |results|)) == Some(complaint)
  }

  lemma StopFound<E(!new), B(!new), X(!new)>(
      step: Step<E, B>, fault: Fault<E, B, X>, inputs: seq<E>, results: seq<B>, complaint: X)
    requires StopsAfter(step, fault, inputs, results, complaint)
    ensures StopsWith(step, fault, inputs, complaint)
  {
  }

  lemma ChainFound<E(!new), B(!new)>(step: Step<E, B>, inputs: seq<E>, results: seq<B>)
    requires IsChain(step, inputs, results)
    ensures HasChain(step, inputs)
  {
  }

  lemma ChainExtends<E(!new), B(!new)>(step: Step<E, B>, inputs: seq<E>, results: seq<B>, b: B)
    requires |results| < |inputs| && IsChain(step, inputs[..|results|], results)
    requires step(inputs[|results|], Before(results, |results|), b)
    ensures IsChain(step, inputs[..|results| + 1], results + [b])
  {
    var n, more := |results|, results + [b];
    forall i | 0 <= i < |more|
      ensures step(inputs[..n + 1][i], Before(more, i), more[i])
    {
      assert Before(more, i) == Before(results, i);
      if i < n {
        assert inputs[..n][i] == inputs[i];
      }
    }
  }

  /** A longer history extends a shorter one: nothing later changes an earlier result. */
  lemma {:induction false} HistoryIsStable<E(!new), B(!new)>(
      step: Step<E, B>, inputs: seq<E>, results: seq<B>, more: seq<E>, longer: seq<B>, i: nat)
    requires Deterministic(step) && IsChain(step, inputs, results) && IsChain(step, inputs + more, longer)
    requires i <= |inputs|
    ensures longer[..i] == results[..i]
    decreases i
  {
    if i > 0 {
      var j := i - 1;
      HistoryIsStable(step, inputs, results, more, longer, j);
      assert Before(longer, j) == Before(results, j) by {
        if j > 0 {
          assert longer[j - 1] == longer[..j][j - 1] == results[..j][j - 1] == results[j - 1];
        }
      }
      assert (inputs + more)[j] == inputs[j];
      TakeStep(longer, j);
      TakeStep(results, j);
    }
  }

  /** A history that cannot take its next step cannot be continued at all. */
  lemma NoChain<E(!new), B(!new)>(step: Step<E, B>, inputs: seq<E>, results: seq<B>)
    requires Deterministic(step)
    requires |results| < |inputs| && IsChain(step, inputs[..|results|], results)
    requires forall b :: !step(inputs[|results|], Before(results, |results|), b)
    ensures !HasChain(step, inputs)
  {
    var n := |results|;
    forall longer | IsChain(step, inputs, longer)
      ensures false
    {
      assert inputs == inputs[..n] + inputs[n..];
      HistoryIsStable(step, inputs[..n], results, inputs[n..], longer, n);
      assert longer[..n] == results[..n];
      SameBefore(results, longer, n);
    }
  }

  lemma SameBefore<B>(a: seq<B>, b: seq<B>, n: nat)
    requires n <= |a| && n <= |b| && a[..n] == b[..n]
    ensures Before(a, n) == Before(b, n)
  {
    if n > 0 {
      assert a[..n][n - 1] == b[..n][n - 1];
    }
  }

  /** What every allowed step establishes from its predecessor holds of every result. */
  lemma {:induction false} ChainKeeps<E(!new), B(!new)>(
      step: Step<E, B>, inputs: seq<E>, results: seq<B>, good: B -> bool, i: nat)
    requires IsChain(step, inputs, results) && i < |results|
    requires forall e, previous, b ::
               e in inputs && step(e, previous, b) && (previous.Some? ==> good(previous.value)) ==> good(b)
    ensures good(results[i])
    decreases i
  {
    if i > 0 {
      ChainKeeps(step, inputs, results, good, i - 1);
    }
    ChainStep(step, inputs, results, i);
    var e, previous := inputs[i], Before(results, i);
    assert step(e, previous, results[i]);
  }

  lemma ChainStep<E(!new), B(!new)>(step: Step<E, B>, inputs: seq<E>, results: seq<B>, i: nat)
    requires IsChain(step, inputs, results) && i < |results|
    ensures i < |inputs| && inputs[i] in inputs && step(inputs[i], Before(results, i), results[i])
    ensures Before(results, i) == if i == 0 then None else Some(results[i - 1])
  {
  }
}
