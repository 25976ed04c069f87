/** The history of a bounded fan-out: what was launched, what finished, and how much was in flight in between. */
module FanOut {
  datatype Step = Launch(item: nat) | Finish(item: nat)

  function Launched(t: seq<Step>): seq<nat>
    decreases |t|
  {
    if t == [] then []
    else
      var init, last := t[..|t| - 1], t[|t| - 1];
      if last.Launch? then Launched(init) + [last.item] else Launched(init)
  }

  function Finished(t: seq<Step>): seq<nat>
    decreases |t|
  {
    if t == [] then []
    else
      var init, last := t[..|t| - 1], t[|t| - 1];
      if last.Finish? then Finished(init) + [last.item] else Finished(init)
  }

  function Flying(t: seq<Step>): int {
    |Launched(t)| - |Finished(t)|
  }

  /** Never more than `cap` in flight. */
  ghost predicate Bounded(t: seq<Step>, cap: nat) {
    forall k {:trigger Flying(t[..k])} :: 0 <= k <= |t| ==> 0 <= Flying(t[..k]) <= cap
  }

  predicate LaunchedBefore(t: seq<Step>, k: nat)
    requires k < |t|
  {
    Launch(t[k].item) in t[..k]
  }

  /** Nothing finishes before it was launched. */
  ghost predicate LaunchedFirst(t: seq<Step>) {
    forall k {:trigger LaunchedBefore(t, k)} :: 0 <= k < |t| && t[k].Finish? ==> LaunchedBefore(t, k)
  }

  function UpTo(n: nat): seq<nat> {
    seq(n, i => i)
  }

  /** Items 0 .. n-1 launched once each in order, each finished once, at most `cap` at a time. */
  ghost predicate FansOut(t: seq<Step>, n: nat, cap: nat) {
    && Launched(t) == UpTo(n)
    && multiset(Finished(t)) == multiset(UpTo(n))
    && Bounded(t, cap) && LaunchedFirst(t)
  }

  /** The history so far: `next` items launched, those in `inflight` not finished. */
  ghost predicate Tracks(t: seq<Step>, next: nat, inflight: multiset<nat>, cap: nat) {
    && Launched(t) == UpTo(next)
    && multiset(UpTo(next)) == multiset(Finished(t)) + inflight
    && Bounded(t, cap) && LaunchedFirst(t)
  }

  lemma UpToSnoc(n: nat)
    ensures UpTo(n + 1) == UpTo(n) + [n]
    ensures multiset(UpTo(n + 1)) == multiset(UpTo(n)) + multiset{n}
  {
    assert UpTo(n + 1) == UpTo(n) + [n];
  }

  lemma {:induction false} OnceEach(n: nat, i: nat)
    ensures multiset(UpTo(n))[i] == if i < n then 1 else 0
  {
    if n > 0 {
      OnceEach(n - 1, i);
      UpToSnoc(n - 1);
    }
  }

  lemma StartTracks(cap: nat)
    ensures Tracks([], 0, multiset{}, cap)
  {
    assert UpTo(0) == [];
  }

  lemma {:induction false} LaunchedMembers(t: seq<Step>, i: nat)
    ensures i in Launched(t) ==> Launch(i) in t
    decreases |t|
  {
    if t != [] {
      LaunchedMembers(t[..|t| - 1], i);
    }
  }

  lemma BoundedSnoc(t: seq<Step>, s: Step, cap: nat)
    requires Bounded(t, cap) && 0 <= Flying(t + [s]) <= cap
    ensures Bounded(t + [s], cap)
  {
    forall k | 0 <= k <= |t + [s]| ensures 0 <= Flying((t + [s])[..k]) <= cap {
      if k <= |t| {
        assert (t + [s])[..k] == t[..k];
      } else {
        assert (t + [s])[..k] == t + [s];
      }
    }
  }

  lemma LaunchedFirstSnoc(t: seq<Step>, s: Step)
    requires LaunchedFirst(t) && (s.Finish? ==> Launch(s.item) in t)
    ensures LaunchedFirst(t + [s])
  {
    forall k | 0 <= k < |t + [s]| && (t + [s])[k].Finish? ensures LaunchedBefore(t + [s], k) {
      assert (t + [s])[..k] == t[..k];
      assert t[..|t|] == t;
      assert k < |t| ==> LaunchedBefore(t, k);
    }
  }

  lemma FlyingIsInflight(t: seq<Step>, next: nat, inflight: multiset<nat>)
    requires Launched(t) == UpTo(next) && multiset(UpTo(next)) == multiset(Finished(t)) + inflight
    ensures Flying(t) == |inflight|
  {
    assert |multiset(UpTo(next))| == next;
  }

  lemma LaunchTracks(t: seq<Step>, next: nat, inflight: multiset<nat>, cap: nat)
    requires Tracks(t, next, inflight, cap) && |inflight| < cap
    ensures Tracks(t + [Launch(next)], next + 1, inflight + multiset{next}, cap)
  {
    var u := t + [Launch(next)];
    assert u[..|u| - 1] == t;
    UpToSnoc(next);
    FlyingIsInflight(t, next, inflight);
    BoundedSnoc(t, Launch(next), cap);
    LaunchedFirstSnoc(t, Launch(next));
  }

  /** What is in flight was launched and has not finished. */
  lemma InFlight(t: seq<Step>, next: nat, inflight: multiset<nat>, cap: nat, i: nat)
    requires Tracks(t, next, inflight, cap) && i in inflight
    ensures i < next && i !in Finished(t) && Launch(i) in t
  {
    OnceEach(next, i);
    assert multiset(Finished(t))[i] + inflight[i] == 1;
    assert i in Launched(t);
    LaunchedMembers(t, i);
  }

  lemma FinishTracks(t: seq<Step>, next: nat, inflight: multiset<nat>, cap: nat, i: nat)
    requires Tracks(t, next, inflight, cap) && i in inflight
    ensures Tracks(t + [Finish(i)], next, inflight - multiset{i}, cap)
  {
    var u := t + [Finish(i)];
    assert u[..|u| - 1] == t;
    assert Finished(u) == Finished(t) + [i];
    InFlight(t, next, inflight, cap, i);
    FlyingIsInflight(t, next, inflight);
    FlyingIsInflight(u, next, inflight - multiset{i});
    assert t[..|t|] == t;
    assert 0 <= Flying(t) <= cap;
    BoundedSnoc(t, Finish(i), cap);
    LaunchedFirstSnoc(t, Finish(i));
  }

  /** Once nothing is in flight, everything launched has finished, once. */
  lemma DoneTracks(t: seq<Step>, n: nat, cap: nat)
    requires Tracks(t, n, multiset{}, cap)
    ensures FansOut(t, n, cap)
    ensures forall i :: 0 <= i < n ==> i in Finished(t)
  {
    forall i | 0 <= i < n ensures i in Finished(t) {
      OnceEach(n, i);
      assert i in multiset(Finished(t));
    }
  }

  /** Launch the next item. */
  method Spawn(cap: nat, next: nat, inflight: multiset<nat>, ghost steps: seq<Step>)
    returns (next': nat, inflight': multiset<nat>, ghost steps': seq<Step>)
    requires Tracks(steps, next, inflight, cap) && |inflight| < cap
    ensures Tracks(steps', next', inflight', cap) && Finished(steps') == Finished(steps)
    ensures next' == next + 1 && inflight' == inflight + multiset{next}
  {
    LaunchTracks(steps, next, inflight, cap);
    steps' := steps + [Launch(next)];
    assert steps'[..|steps|] == steps;
    inflight', next' := inflight + multiset{next}, next + 1;
  }

  /** Some item in flight finishes, and the next one takes its place. */
  method Advance(total: nat, cap: nat, next: nat, inflight: multiset<nat>, ghost steps: seq<Step>)
    returns (done: nat, next': nat, inflight': multiset<nat>, ghost steps': seq<Step>)
    requires Tracks(steps, next, inflight, cap) && inflight != multiset{}
    requires next <= total && |inflight| <= cap && (next < total ==> |inflight| == cap)
    ensures done < next && Finished(steps') == Finished(steps) + [done]
    ensures Tracks(steps', next', inflight', cap)
    ensures next' <= total && |inflight'| <= cap && (next' < total ==> |inflight'| == cap)
    ensures next' > next || (next' == next && |inflight'| < |inflight|)
  {
    done :| done in inflight;
    InFlight(steps, next, inflight, cap, done);
    FinishTracks(steps, next, inflight, cap, done);
    next', inflight', steps' := next, inflight - multiset{done}, steps + [Finish(done)];
    assert steps'[..|steps|] == steps;
    if next < total {
      next', inflight', steps' := Spawn(cap, next', inflight', steps');
    }
  }

  /** Fill the in-flight set up to the cap. */
  method Prime(total: nat, cap: nat) returns (next: nat, inflight: multiset<nat>, ghost steps: seq<Step>)
    ensures Tracks(steps, next, inflight, cap) && Finished(steps) == []
    ensures |inflight| == next == if total < cap then total else cap
  {
    next, inflight, steps := 0, multiset{}, [];
    StartTracks(cap);
    while next < total && |inflight| < cap
      invariant next <= total && |inflight| == next <= cap
      invariant Tracks(steps, next, inflight, cap) && Finished(steps) == []
    {
      next, inflight, steps := Spawn(cap, next, inflight, steps);
    }
  }

  // Totals over a completion order

  function Fold<T>(f: (T, nat) -> T, start: T, order: seq<nat>): T
    decreases |order|
  {
    if order == [] then start else f(Fold(f, start, order[..|order| - 1]), order[|order| - 1])
  }

  /** The items may be taken in either order. */
  ghost predicate Commutes<T(!new)>(f: (T, nat) -> T) {
    forall t, i, j :: f(f(t, i), j) == f(f(t, j), i)
  }

  function Without(order: seq<nat>, j: nat): seq<nat>
    requires j < |order|
  {
    order[..j] + order[j + 1..]
  }

  lemma WithoutIsLess(order: seq<nat>, j: nat)
    requires j < |order|
    ensures multiset(order) == multiset(Without(order, j)) + multiset{order[j]}
  {
    assert order == order[..j] + [order[j]] + order[j + 1..];
  }

  lemma Cancel(a: multiset<nat>, b: multiset<nat>, x: nat)
    requires a + multiset{x} == b + multiset{x}
    ensures a == b
  {
    assert a == (a + multiset{x}) - multiset{x};
  }

  /** Any item of the order may as well be the last. */
  lemma {:induction false} FoldWithout<T(!new)>(f: (T, nat) -> T, start: T, order: seq<nat>, j: nat)
    requires Commutes(f) && j < |order|
    ensures Fold(f, start, order) == f(Fold(f, start, Without(order, j)), order[j])
    decreases |order|
  {
    var n := |order| - 1;
    var init, rest := order[..n], Without(order, j);
    if j == n {
      assert rest == init;
    } else {
      FoldWithout(f, start, init, j);
      assert rest[..|rest| - 1] == Without(init, j) && rest[|rest| - 1] == order[n];
    }
  }

  /** A total does not depend on the order of completion. */
  lemma {:induction false} FoldPermutes<T(!new)>(f: (T, nat) -> T, start: T, a: seq<nat>, b: seq<nat>)
    requires Commutes(f) && multiset(a) == multiset(b)
    ensures Fold(f, start, a) == Fold(f, start, b)
    decreases |a|
  {
    if a == [] {
      assert |multiset(b)| == 0;
    } else {
      var n := |a| - 1;
      WithoutIsLess(a, n);
      assert Without(a, n) == a[..n];
      assert a[n] in multiset(b);
      var j :| 0 <= j < |b| && b[j] == a[n];
      WithoutIsLess(b, j);
      Cancel(multiset(a[..n]), multiset(Without(b, j)), a[n]);
      FoldPermutes(f, start, a[..n], Without(b, j));
      FoldWithout(f, start, b, j);
    }
  }
}
