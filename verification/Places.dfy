/** What a loop or a filter keeps of a sequence, said place by place: nothing left out,
    nothing twice, all in order. */
module Places {
  import opened Frames

  /** `xs` is, in order, what the places below `n` say that say something; `at` is where. */
  ghost predicate Lists<X>(xs: seq<X>, at: seq<nat>, n: nat, said: nat -> Option<X>) {
    && |at| == |xs|
    && (forall j, k :: 0 <= j < k < |at| ==> at[j] < at[k])
    && (forall k :: 0 <= k < |at| ==> at[k] < n && said(at[k]) == Some(xs[k]))
    && (forall i: nat :: i < n && said(i).Some? ==> i in at)
  }

  function Listed<X>(x: Option<X>): seq<X> { if x.Some? then [x.value] else [] }

  function More<X>(at: seq<nat>, n: nat, said: nat -> Option<X>): seq<nat> { if said(n).Some? then at + [n] else at }

  /** One more place. */
  lemma ListsMore<X>(xs: seq<X>, at: seq<nat>, n: nat, said: nat -> Option<X>, more: nat -> Option<X>)
    requires Lists(xs, at, n, said) && forall i: nat :: i < n ==> said(i) == more(i)
    ensures Lists(xs + Listed(more(n)), More(at, n, more), n + 1, more)
  {
    var all := More(at, n, more);
    forall i: nat | i < n + 1 && more(i).Some? ensures i in all {
      if i < n { assert i in at; } else { assert all[|at|] == n; }
    }
  }

  lemma ListsSame<X>(xs: seq<X>, at: seq<nat>, n: nat, said: nat -> Option<X>, other: nat -> Option<X>)
    requires Lists(xs, at, n, said) && forall i: nat :: i < n ==> said(i) == other(i)
    ensures Lists(xs, at, n, other)
  {
  }

  /** The first of them, up to one. */
  lemma ListsPrefix<X>(xs: seq<X>, at: seq<nat>, n: nat, said: nat -> Option<X>, k: nat)
    requires Lists(xs, at, n, said) && k <= |at|
    ensures Lists(xs[..k], at[..k], if k < |at| then at[k] else n, said)
  {
    var bound := if k < |at| then at[k] else n;
    forall i: nat | i < bound && said(i).Some? ensures i in at[..k] {
      var j :| 0 <= j < |at| && at[j] == i;
      if j < k { assert at[..k][j] == i; }
    }
  }
}
