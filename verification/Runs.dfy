/** Runs of a step system, and the induction over them that every safety theorem here uses. */
module Runs {

  ghost predicate IsRun<W(!new), E(!new)>(start: W, step: (W, E, W) -> bool, ws: seq<W>, es: seq<E>) {
    && |ws| == |es| + 1
    && ws[0] == start
    && forall i :: 0 <= i < |es| ==> step(ws[i], es[i], ws[i + 1])
  }

  ghost predicate Reachable<W(!new), E(!new)>(start: W, step: (W, E, W) -> bool, w: W) {
    exists ws, es :: IsRun(start, step, ws, es) && ws[|es|] == w
  }

  lemma StartIsReachable<W(!new), E(!new)>(start: W, step: (W, E, W) -> bool)
    ensures Reachable(start, step, start)
  {
    var es: seq<E> := [];
    assert IsRun(start, step, [start], es) && [start][|es|] == start;
  }

  lemma StepIsReachable<W(!new), E(!new)>(start: W, step: (W, E, W) -> bool, w: W, e: E, w': W)
    requires Reachable(start, step, w) && step(w, e, w')
    ensures Reachable(start, step, w')
  {
    var ws, es :| IsRun(start, step, ws, es) && ws[|es|] == w;
    var ws', es' := ws + [w'], es + [e];
    assert IsRun(start, step, ws', es') && ws'[|es'|] == w';
  }

  /** What holds at the start and is kept by every step holds at every index of every run. */
  lemma {:induction false} HoldsAlong<W(!new), E(!new)>(
    start: W, step: (W, E, W) -> bool, inv: W -> bool, ws: seq<W>, es: seq<E>, i: nat)
    requires inv(start)
    requires forall w, e, w' :: inv(w) && step(w, e, w') ==> inv(w')
    requires IsRun(start, step, ws, es) && i <= |es|
    ensures inv(ws[i])
  {
    if i > 0 {
      HoldsAlong(start, step, inv, ws, es, i - 1);
      assert step(ws[i - 1], es[i - 1], ws[i - 1 + 1]);
    }
  }

  lemma HoldsWhereReachable<W(!new), E(!new)>(start: W, step: (W, E, W) -> bool, inv: W -> bool, w: W)
    requires inv(start)
    requires forall w, e, w' :: inv(w) && step(w, e, w') ==> inv(w')
    requires Reachable(start, step, w)
    ensures inv(w)
  {
    var ws, es :| IsRun(start, step, ws, es) && ws[|es|] == w;
    HoldsAlong(start, step, inv, ws, es, |es|);
  }

  /** What is false at the start and true later was made true by a step in between. */
  lemma {:induction false} MadeTrue<W(!new), E(!new)>(
    start: W, step: (W, E, W) -> bool, p: W -> bool, ws: seq<W>, es: seq<E>, i: nat) returns (j: nat)
    requires IsRun(start, step, ws, es) && i <= |es|
    requires !p(start) && p(ws[i])
    ensures j < i && !p(ws[j]) && p(ws[j + 1]) && step(ws[j], es[j], ws[j + 1])
  {
    if p(ws[i - 1]) {
      j := MadeTrue(start, step, p, ws, es, i - 1);
    } else {
      j := i - 1;
      assert step(ws[j], es[j], ws[j + 1]);
    }
  }

  /** A flag that only certain events raise and none lowers is up exactly when one of them has happened. */
  lemma {:induction false} RaisedIff<W(!new), E(!new)>(
    flag: W -> bool, raises: (W, E) -> bool, ws: seq<W>, es: seq<E>, n: nat)
    requires |ws| == |es| + 1 && n <= |es| && !flag(ws[0])
    requires forall i :: 0 <= i < n ==> (flag(ws[i + 1]) <==> flag(ws[i]) || raises(ws[i], es[i]))
    ensures flag(ws[n]) <==> exists i :: 0 <= i < n && raises(ws[i], es[i])
  {
    if n > 0 {
      RaisedIff(flag, raises, ws, es, n - 1);
      assert flag(ws[n - 1 + 1]) <==> flag(ws[n - 1]) || raises(ws[n - 1], es[n - 1]);
    }
  }

  /** Runs follow one another. */
  lemma {:induction false} ReachOn<W(!new), E(!new)>(
    start: W, step: (W, E, W) -> bool, middle: W, more: (W, E, W) -> bool, w: W)
    requires Reachable(start, step, middle) && Reachable(middle, more, w)
    requires forall a, e, b :: more(a, e, b) ==> step(a, e, b)
    ensures Reachable(start, step, w)
  {
    var ws, es :| IsRun(middle, more, ws, es) && ws[|es|] == w;
    ReachAlong(start, step, middle, more, ws, es, |es|);
  }

  lemma {:induction false} ReachAlong<W(!new), E(!new)>(
    start: W, step: (W, E, W) -> bool, middle: W, more: (W, E, W) -> bool, ws: seq<W>, es: seq<E>, i: nat)
    requires Reachable(start, step, middle) && IsRun(middle, more, ws, es) && i <= |es|
    requires forall a, e, b :: more(a, e, b) ==> step(a, e, b)
    ensures Reachable(start, step, ws[i])
  {
    if i > 0 {
      ReachAlong(start, step, middle, more, ws, es, i - 1);
      assert more(ws[i - 1], es[i - 1], ws[i - 1 + 1]);
      StepIsReachable(start, step, ws[i - 1], es[i - 1], ws[i]);
    }
  }

  // ---------------------------------------------------------------- progress

  /** How many of the events i to j are `own`. */
  ghost function Count<E(!new)>(es: seq<E>, own: E -> bool, i: nat, j: nat): nat
    requires i <= j <= |es|
    decreases j - i
  {
    if i == j then 0 else (if own(es[i]) then 1 else 0) + Count(es, own, i + 1, j)
  }

  /** What is true at one index and false at a later one stops being true at a step in between. */
  lemma {:induction false} Leaves<W(!new)>(ws: seq<W>, on: W -> bool, i: nat, j: nat) returns (k: nat)
    requires i <= j < |ws| && on(ws[i]) && !on(ws[j])
    ensures i <= k < j && on(ws[k]) && !on(ws[k + 1])
    ensures forall m :: i <= m <= k ==> on(ws[m])
    decreases j - i
  {
    if on(ws[i + 1]) {
      k := Leaves(ws, on, i + 1, j);
    } else {
      k := i;
    }
  }

  /** Where a rank falls with every own step, and rises with none, as long as something holds, as many own steps as the rank
      says put an end to it. */
  lemma {:induction false} Descends<W(!new), E(!new)>(
    ws: seq<W>, es: seq<E>, on: W -> bool, rank: W -> nat, own: E -> bool, i: nat, j: nat) returns (k: nat)
    requires |ws| == |es| + 1 && i <= j <= |es| && on(ws[i])
    requires forall k :: i <= k <= j && on(ws[k]) ==> rank(ws[k]) > 0
    requires forall k :: i <= k < j && on(ws[k]) && on(ws[k + 1]) ==>
               rank(ws[k + 1]) <= rank(ws[k]) && (own(es[k]) ==> rank(ws[k + 1]) < rank(ws[k]))
    requires Count(es, own, i, j) >= rank(ws[i])
    ensures i <= k < j && on(ws[k]) && !on(ws[k + 1])
    ensures forall m :: i <= m <= k ==> on(ws[m])
    decreases j - i
  {
    assert i < j;
    if on(ws[i + 1]) {
      k := Descends(ws, es, on, rank, own, i + 1, j);
    } else {
      k := i;
    }
  }
}
