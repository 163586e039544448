/** Collecting concurrent futures: the selector loops of `Reconcile` and
    `EnvironmentReconciler`, and `executeConstraints`. */
module Futures {

  /** How a future ends: with a boolean (true for workflows that return nothing)
      or with an error. */
  datatype Future = Succeeded(value: bool) | Failed(error: string)

  function UpTo(n: nat): (s: seq<nat>)
    ensures |s| == n && forall i | 0 <= i < n :: s[i] == i
  {
    if n == 0 then [] else UpTo(n - 1) + [n - 1]
  }

  /** An order in which `n` futures complete: each of 0, ..., n-1 exactly once. */
  predicate IsOrder(order: seq<nat>, n: nat) {
    multiset(order) == multiset(UpTo(n))
  }

  lemma OrderReaches(order: seq<nat>, n: nat)
    requires IsOrder(order, n)
    ensures |order| == n
    ensures forall i | 0 <= i < n :: order[i] < n
    ensures forall k: nat | k < n :: k in order
  {
    assert |order| == |multiset(order)|;
    forall i | 0 <= i < n ensures order[i] < n {
      assert order[i] in multiset(order);
      assert order[i] in UpTo(n);
    }
    forall k: nat | k < n ensures k in order {
      assert UpTo(n)[k] in multiset(UpTo(n));
      assert k in multiset(order);
    }
  }

  /** Each `Select` runs the callback of the next future to complete, which no
      earlier `Select` has run. */
  class Selector {
    const futures: seq<Future>
    var pending: seq<nat>

    constructor (futures: seq<Future>, order: seq<nat>)
      ensures this.futures == futures && pending == order
    {
      this.futures := futures;
      this.pending := order;
    }

    method Select() returns (f: Future, ghost which: nat)
      requires pending != [] && pending[0] < |futures|
      modifies this
      ensures which == old(pending)[0] && f == futures[which] && pending == old(pending)[1..]
    {
      which, f := pending[0], futures[pending[0]];
      pending := pending[1..];
    }
  }

  // ------------------------------------------------------------- draining

  predicate InRange(visited: seq<nat>, n: nat) {
    forall i | 0 <= i < |visited| :: visited[i] < n
  }

  /** The errors met when futures are visited in this order. */
  function Errors(futures: seq<Future>, visited: seq<nat>): seq<string>
    requires InRange(visited, |futures|)
  {
    if visited == [] then []
    else
      var last := |visited| - 1;
      Errors(futures, visited[..last])
      + if futures[visited[last]].Failed? then [futures[visited[last]].error] else []
  }

  /** The loop `for collectedFutures < len(futures)`: it ends, runs every callback
      exactly once and collects exactly the failures. */
  method Drain(futures: seq<Future>, order: seq<nat>) returns (errors: seq<string>, ghost ran: seq<nat>)
    requires IsOrder(order, |futures|)
    ensures ran == order
    ensures InRange(order, |futures|) && errors == Errors(futures, order)
    ensures errors == [] <==> forall f | f in futures :: f.Succeeded?
  {
    OrderReaches(order, |futures|);
    var selector := new Selector(futures, order);
    var collectedFutures := 0;
    errors, ran := [], [];
    while collectedFutures < |futures|
      invariant collectedFutures <= |futures|
      invariant selector.futures == futures && selector.pending == order[collectedFutures..]
      invariant ran == order[..collectedFutures]
      invariant errors == Errors(futures, ran)
      modifies selector
    {
      var f, which := selector.Select();
      collectedFutures := collectedFutures + 1;
      if f.Failed? {
        errors := errors + [f.error];
      }
      assert (ran + [which])[..|ran|] == ran;
      ran := ran + [which];
    }
    assert order[..collectedFutures] == order;
    NoErrorsIff(futures, order);
  }

  lemma {:induction false} NoErrorsAmong(futures: seq<Future>, visited: seq<nat>)
    requires InRange(visited, |futures|)
    ensures Errors(futures, visited) == [] <==> forall i | 0 <= i < |visited| :: futures[visited[i]].Succeeded?
  {
    if visited != [] { NoErrorsAmong(futures, visited[..|visited| - 1]); }
  }

  /** Nothing is collected exactly when every future succeeded. */
  lemma NoErrorsIff(futures: seq<Future>, order: seq<nat>)
    requires IsOrder(order, |futures|)
    ensures InRange(order, |futures|)
    ensures Errors(futures, order) == [] <==> forall f | f in futures :: f.Succeeded?
  {
    OrderReaches(order, |futures|);
    NoErrorsAmong(futures, order);
    if Errors(futures, order) == [] {
      forall f | f in futures ensures f.Succeeded? {
        var k: nat :| k < |futures| && futures[k] == f;
        assert k in order;
      }
    }
  }

  // ------------------------------------------------------ gate collection

  /** `executeConstraints` as written: after starting every future it collects at
      most one of them, and an error counts as a refusal. */
  function GateResult(futures: seq<Future>, order: seq<nat>): bool
    requires IsOrder(order, |futures|)
  {
    OrderReaches(order, |futures|);
    futures == [] || futures[order[0]] == Succeeded(true)
  }

  method ExecuteConstraints(futures: seq<Future>, order: seq<nat>) returns (canContinue: bool)
    requires IsOrder(order, |futures|)
    ensures canContinue == GateResult(futures, order)
  {
    OrderReaches(order, |futures|);
    var checkErr := false;
    var collectedFutures := 0;
    canContinue := true;
    if |futures| == 0 {
      return true;
    }
    var selector := new Selector(futures, order);
    if collectedFutures < |futures| {
      var f, which := selector.Select();
      collectedFutures := collectedFutures + 1;
      var canProceed := false;
      if f.Failed? {
        checkErr := true;
      } else {
        canProceed := f.value;
      }
      if canContinue && !canProceed {
        canContinue := false;
      }
    }
    if checkErr {
      return false;
    }
  }

  predicate AllGranted(futures: seq<Future>) {
    forall f | f in futures :: f == Succeeded(true)
  }

  predicate NoneGranted(futures: seq<Future>) {
    forall f | f in futures :: f != Succeeded(true)
  }

  /** The order in which future `i` completes first. */
  function FirstIs(i: nat, n: nat): (order: seq<nat>)
    requires i < n
    ensures IsOrder(order, n) && order[0] == i
  {
    var pre, post := UpTo(n)[..i], UpTo(n)[i + 1..];
    assert UpTo(n) == pre + [i] + post;
    MoveToFront(pre, i, post);
    [i] + (pre + post)
  }

  lemma MoveToFront(pre: seq<nat>, v: nat, post: seq<nat>)
    ensures multiset([v] + (pre + post)) == multiset(pre + [v] + post)
  {
  }

  /** The gate means "every constraint holds" under every completion order exactly
      when the constraints all agree. */
  lemma GateIsConjunctionIff(futures: seq<Future>)
    ensures (forall order | IsOrder(order, |futures|) :: GateResult(futures, order) == AllGranted(futures))
            <==> AllGranted(futures) || NoneGranted(futures)
  {
    if AllGranted(futures) || NoneGranted(futures) {
      forall order | IsOrder(order, |futures|)
        ensures GateResult(futures, order) == AllGranted(futures)
      {
        OrderReaches(order, |futures|);
        if futures != [] { assert futures[order[0]] in futures; }
      }
    } else {
      var f :| f in futures && f == Succeeded(true);
      var i :| 0 <= i < |futures| && futures[i] == f;
      assert GateResult(futures, FirstIs(i, |futures|));
    }
  }

  /** A refused constraint is ignored when a granted one completes first. */
  lemma RefusalCanBeIgnored()
    ensures exists futures, order ::
              IsOrder(order, |futures|) && Succeeded(false) in futures && GateResult(futures, order)
  {
    var futures, order := [Succeeded(true), Succeeded(false)], [0, 1];
    assert futures[1] == Succeeded(false);
    assert IsOrder(order, |futures|) && GateResult(futures, order);
  }

  // ------------------------------------- the errors as an unordered whole

  lemma {:induction false} ErrorsConcat(futures: seq<Future>, xs: seq<nat>, ys: seq<nat>)
    requires InRange(xs, |futures|) && InRange(ys, |futures|)
    ensures Errors(futures, xs + ys) == Errors(futures, xs) + Errors(futures, ys)
  {
    if ys == [] {
      assert xs + ys == xs;
    } else {
      assert (xs + ys)[..|xs + ys| - 1] == xs + ys[..|ys| - 1];
      ErrorsConcat(futures, xs, ys[..|ys| - 1]);
    }
  }

  function ErrorOf(future: Future): seq<string> {
    if future.Failed? then [future.error] else []
  }

  lemma ErrorsOfOne(futures: seq<Future>, v: nat)
    requires v < |futures|
    ensures Errors(futures, [v]) == ErrorOf(futures[v])
  {
    assert [v][..0] == [];
  }

  lemma {:induction false} ErrorsOfSplit(futures: seq<Future>, pre: seq<nat>, v: nat, post: seq<nat>)
    requires InRange(pre, |futures|) && InRange(post, |futures|) && v < |futures|
    ensures InRange(pre + [v] + post, |futures|)
    ensures multiset(Errors(futures, pre + [v] + post)) ==
            multiset(Errors(futures, pre + post)) + multiset(ErrorOf(futures[v]))
  {
    ErrorsOfOne(futures, v);
    ErrorsConcat(futures, pre + [v], post);
    ErrorsConcat(futures, pre, [v]);
    ErrorsConcat(futures, pre, post);
    Regroup(Errors(futures, pre), ErrorOf(futures[v]), Errors(futures, post));
  }

  lemma Regroup(x: seq<string>, y: seq<string>, z: seq<string>)
    ensures multiset(x + y + z) == multiset(x + z) + multiset(y)
  {
  }

  lemma ErrorsOfLast(futures: seq<Future>, xs: seq<nat>)
    requires InRange(xs, |futures|) && xs != []
    ensures multiset(Errors(futures, xs)) ==
            multiset(Errors(futures, xs[..|xs| - 1])) + multiset(ErrorOf(futures[xs[|xs| - 1]]))
  {
  }

  lemma InRangeOfParts(pre: seq<nat>, v: nat, post: seq<nat>, n: nat)
    requires InRange(pre + [v] + post, n)
    ensures InRange(pre, n) && InRange(post, n) && InRange(pre + post, n)
  {
    var all := pre + [v] + post;
    assert forall i | 0 <= i < |pre| :: pre[i] == all[i];
    assert forall i | 0 <= i < |post| :: post[i] == all[|pre| + 1 + i];
  }

  lemma WithoutOne(pre: seq<nat>, v: nat, post: seq<nat>)
    ensures multiset(pre + [v] + post) - multiset{v} == multiset(pre + post)
  {
    assert multiset(pre + [v] + post) == multiset(pre) + multiset{v} + multiset(post);
  }

  lemma RemoveLast(xs: seq<nat>, ys: seq<nat>) returns (pre: seq<nat>, post: seq<nat>)
    requires xs != [] && multiset(xs) == multiset(ys)
    ensures ys == pre + [xs[|xs| - 1]] + post
    ensures multiset(xs[..|xs| - 1]) == multiset(pre + post)
  {
    var v := xs[|xs| - 1];
    assert xs == xs[..|xs| - 1] + [v] + [];
    assert xs[..|xs| - 1] + [] == xs[..|xs| - 1];
    WithoutOne(xs[..|xs| - 1], v, []);
    assert v in multiset(ys);
    var j :| 0 <= j < |ys| && ys[j] == v;
    pre, post := ys[..j], ys[j + 1..];
    assert ys == pre + [v] + post;
    WithoutOne(pre, v, post);
  }

  /** Whatever the order, the same errors are collected, each exactly as often as
      it occurred. */
  lemma {:induction false} ErrorsAreOrderFree(futures: seq<Future>, xs: seq<nat>, ys: seq<nat>)
    requires InRange(xs, |futures|) && InRange(ys, |futures|)
    requires multiset(xs) == multiset(ys)
    ensures multiset(Errors(futures, xs)) == multiset(Errors(futures, ys))
  {
    if xs == [] {
      assert |ys| == |multiset(ys)|;
    } else {
      var last := |xs| - 1;
      var pre, post := RemoveLast(xs, ys);
      InRangeOfParts(pre, xs[last], post, |futures|);
      ErrorsAreOrderFree(futures, xs[..last], pre + post);
      ErrorsOfSplit(futures, pre, xs[last], post);
      ErrorsOfLast(futures, xs);
    }
  }
}
