/** The minute scheduler: which bucket comes next and how long to wait for it, and what that does over a run. */
module Scheduler {
  import opened Base
  import opened OiTypes

  const MILLI: Nanos := 1_000_000
  const SECOND: Nanos := 1_000_000_000
  const MINUTE: Nanos := 60_000_000_000

  function SecondOf(ts: Nanos): int { (ts / SECOND) % 60 }

  function NanosecondOf(ts: Nanos): int { ts % SECOND }

  function FloorMinute(ts: Nanos): Nanos {
    ts - SecondOf(ts) * SECOND - NanosecondOf(ts)
  }

  /** The start of the minute that ts is in. */
  lemma FloorIsMinuteStart(ts: Nanos)
    ensures Aligned(FloorMinute(ts))
    ensures FloorMinute(ts) <= ts < FloorMinute(ts) + MINUTE
  {
    var s := ts / SECOND;
    assert ts == s * SECOND + ts % SECOND;
    assert FloorMinute(ts) == (s / 60) * MINUTE;
  }

  datatype MinuteTick = MinuteTick(bucket: Nanos, late: bool)

  /** The next bucket and the time until its data is due. */
  function Plan(last: Option<Nanos>, now: Nanos, offset: Nanos): (Nanos, Nanos) {
    var target := match last case Some(b) => b + MINUTE case None => FloorMinute(now) - MINUTE;
    (target, target + MINUTE + offset - now)
  }

  function Max(a: int, b: int): int { if a > b then a else b }

  /** When a bucket's data is due: `offset` after its minute has closed. */
  function Due(bucket: Nanos, offset: Nanos): Nanos {
    bucket + MINUTE + offset
  }

  /** The sleep that is asked for: whole milliseconds, nothing when late. */
  function SleepFor(wait: Nanos): Nanos {
    if wait > 0 then wait / MILLI * MILLI else 0
  }

  /** The sleep ends within the millisecond before its bucket is due, and never after. */
  lemma SleepIsWhole(wait: Nanos)
    ensures SleepFor(wait) >= 0 && SleepFor(wait) % MILLI == 0
    ensures wait - MILLI < SleepFor(wait) <= Max(wait, 0)
  {
    assert wait == wait / MILLI * MILLI + wait % MILLI;
    assert wait / MILLI * MILLI % MILLI == 0;
  }

  class MinuteScheduler {
    const offset: Nanos
    var lastBucket: Option<Nanos>

    /** Only the whole seconds of the settle delay are kept. */
    constructor (offset: nat)
      ensures this.offset == offset / SECOND * SECOND && lastBucket == None
    {
      this.offset, lastBucket := offset / SECOND * SECOND, None;
    }

    /** `slept` is how long the caller is put to sleep before the tick is returned. */
    method Next(now: Nanos) returns (tick: MinuteTick, slept: Nanos)
      modifies this
      ensures var (target, wait) := Plan(old(lastBucket), now, offset);
        && lastBucket == Some(target) && tick.bucket == target
        && slept == SleepFor(wait)
        && (tick.late <==> old(lastBucket).Some? && now >= target + MINUTE + offset)
      ensures slept >= 0 && slept % MILLI == 0
      ensures Due(tick.bucket, offset) - MILLI < now + slept <= Max(now, Due(tick.bucket, offset))
    {
      SleepIsWhole(Plan(lastBucket, now, offset).1);
      var (target, wait) := Plan(lastBucket, now, offset);
      var late := wait <= 0 && lastBucket.Some?;
      slept := 0;
      if wait > 0 {
        slept := wait / MILLI * MILLI;
      }
      lastBucket := Some(target);
      tick := MinuteTick(target, late);
    }
  }

  // Runs

  /** One call: when it was made, when it returned, and the bucket it returned. */
  datatype Call = Call(now: Nanos, returned: Nanos, bucket: Nanos)

  function LastBucket(calls: seq<Call>, i: nat): Option<Nanos>
    requires i < |calls|
  {
    if i == 0 then None else Some(calls[i - 1].bucket)
  }

  function WaitAt(calls: seq<Call>, i: nat, offset: Nanos): Nanos
    requires i < |calls|
  {
    Plan(LastBucket(calls, i), calls[i].now, offset).1
  }

  /** Call i returned the bucket planned for it, after at least the sleep asked for. */
  predicate IsCall(calls: seq<Call>, i: nat, offset: Nanos)
    requires i < |calls|
  {
    && calls[i].bucket == Plan(LastBucket(calls, i), calls[i].now, offset).0
    && calls[i].returned >= calls[i].now + SleepFor(WaitAt(calls, i, offset))
  }

  /** Calls of one scheduler, at any times. */
  ghost predicate IsRun(calls: seq<Call>, offset: Nanos) {
    forall i {:trigger IsCall(calls, i, offset)} :: 0 <= i < |calls| ==> IsCall(calls, i, offset)
  }

  /** No minute is skipped or repeated, whatever the calls cost. */
  lemma BucketsProgress(calls: seq<Call>, offset: Nanos)
    requires IsRun(calls, offset) && calls != []
    ensures calls[0].bucket == FloorMinute(calls[0].now) - MINUTE
    ensures forall i :: 0 < i < |calls| ==> calls[i].bucket == calls[i - 1].bucket + MINUTE
  {
    forall i | 0 < i < |calls| ensures calls[i].bucket == calls[i - 1].bucket + MINUTE {
      assert IsCall(calls, i, offset);
    }
    assert IsCall(calls, 0, offset);
  }

  lemma NextMinuteAligned(ts: Nanos)
    requires Aligned(ts)
    ensures Aligned(ts + MINUTE) && Aligned(ts - MINUTE)
  {}

  /** Every bucket is the start of a minute. */
  lemma {:induction false} BucketsAligned(calls: seq<Call>, offset: Nanos, i: nat)
    requires IsRun(calls, offset) && i < |calls|
    ensures Aligned(calls[i].bucket)
  {
    BucketsProgress(calls, offset);
    if i == 0 {
      FloorIsMinuteStart(calls[0].now);
      NextMinuteAligned(FloorMinute(calls[0].now));
    } else {
      BucketsAligned(calls, offset, i - 1);
      NextMinuteAligned(calls[i - 1].bucket);
    }
  }

  predicate Aligned(ts: Nanos) { ts % MINUTE == 0 }

  /** With a settle delay of a second or more, no bucket is returned before its minute has closed. */
  lemma NeverBeforeClose(calls: seq<Call>, offset: Nanos, i: nat)
    requires IsRun(calls, offset) && i < |calls| && offset >= SECOND
    ensures calls[i].returned >= calls[i].bucket + MINUTE
  {
    assert IsCall(calls, i, offset);
    SleepIsWhole(WaitAt(calls, i, offset));
  }

  ghost predicate NeverEarly(calls: seq<Call>) {
    forall i :: 0 <= i < |calls| ==> calls[i].returned >= calls[i].bucket + MINUTE
  }

  /** A delay under a second is cut to none, and then a sleep cut to milliseconds can end inside the minute. */
  lemma NeverEarlyIffDelayed(offset: nat)
    ensures var kept := offset / SECOND * SECOND;
      (forall calls: seq<Call> :: IsRun(calls, kept) ==> NeverEarly(calls)) <==> offset >= SECOND
  {
    var kept := offset / SECOND * SECOND;
    if offset >= SECOND {
      assert kept >= SECOND;
      forall calls: seq<Call> | IsRun(calls, kept) ensures NeverEarly(calls) {
        forall i | 0 <= i < |calls| ensures calls[i].returned >= calls[i].bucket + MINUTE {
          NeverBeforeClose(calls, kept, i);
        }
      }
    } else {
      var calls := [Call(0, 0, -MINUTE), Call(MINUTE - 1, MINUTE - 1, 0)];
      assert FloorMinute(0) == 0 && SleepFor(1) == 0;
      assert IsCall(calls, 0, 0) && IsCall(calls, 1, 0);
      assert IsRun(calls, 0);
      assert calls[1].returned < calls[1].bucket + MINUTE;
    }
  }

  // Lag

  /** How far call i is behind the moment its bucket was due. */
  function LagAt(calls: seq<Call>, i: nat, offset: Nanos): Nanos
    requires i < |calls|
  {
    calls[i].now - Due(calls[i].bucket, offset)
  }

  predicate ExactSleep(calls: seq<Call>, i: nat, offset: Nanos)
    requires i < |calls|
  {
    calls[i].returned == Max(calls[i].now, Due(calls[i].bucket, offset))
  }

  /** Sleeps end exactly when the bucket is due. */
  ghost predicate ExactSleeps(calls: seq<Call>, offset: Nanos) {
    forall i {:trigger ExactSleep(calls, i, offset)} :: 0 <= i < |calls| ==> ExactSleep(calls, i, offset)
  }

  /** A call that returns the planned bucket the moment it is due, or at once when it is late, is one the scheduler makes. */
  lemma ExactCallsHappen(calls: seq<Call>, offset: Nanos)
    requires ExactSleeps(calls, offset)
    requires calls != [] ==> calls[0].bucket == FloorMinute(calls[0].now) - MINUTE
    requires forall i :: 0 < i < |calls| ==> calls[i].bucket == calls[i - 1].bucket + MINUTE
    ensures IsRun(calls, offset)
  {
    forall i | 0 <= i < |calls| ensures IsCall(calls, i, offset) {
      assert ExactSleep(calls, i, offset);
      SleepIsWhole(WaitAt(calls, i, offset));
    }
  }

  /** By how much the work between calls i and i + 1 exceeds a minute. */
  function Overruns(calls: seq<Call>): seq<Nanos>
    requires calls != []
  {
    seq(|calls| - 1, i requires 0 <= i < |calls| - 1 => calls[i + 1].now - calls[i].returned - MINUTE)
  }

  /** Being early does not carry over; being late does. */
  function Lag(lag0: Nanos, overruns: seq<Nanos>): Nanos
    decreases |overruns|
  {
    if overruns == [] then lag0 else Max(Lag(lag0, Init(overruns)), 0) + Last(overruns)
  }

  lemma LagStep(calls: seq<Call>, offset: Nanos, i: nat)
    requires IsRun(calls, offset) && ExactSleeps(calls, offset) && 0 < i < |calls|
    ensures LagAt(calls, i, offset) == Max(LagAt(calls, i - 1, offset), 0) + Overruns(calls)[i - 1]
  {
    assert IsCall(calls, i - 1, offset) && IsCall(calls, i, offset) && ExactSleep(calls, i - 1, offset);
  }

  /** From any call k on, lag is what the overruns since then make of it. */
  lemma {:induction false} LagFollows(calls: seq<Call>, offset: Nanos, k: nat, i: nat)
    requires IsRun(calls, offset) && ExactSleeps(calls, offset) && k <= i < |calls|
    ensures LagAt(calls, i, offset) == Lag(LagAt(calls, k, offset), Overruns(calls)[k..i])
    decreases i - k
  {
    if i > k {
      LagFollows(calls, offset, k, i - 1);
      LagStep(calls, offset, i);
      assert Init(Overruns(calls)[k..i]) == Overruns(calls)[k..i - 1];
    }
  }

  function Sum(xs: seq<Nanos>): Nanos
    decreases |xs|
  {
    if xs == [] then 0 else Sum(Init(xs)) + Last(xs)
  }

  function SuffixSum(xs: seq<Nanos>, j: nat): Nanos
    requires j <= |xs|
  {
    Sum(xs[j..])
  }

  lemma SuffixSumSnoc(xs: seq<Nanos>, j: nat)
    requires j < |xs|
    ensures SuffixSum(xs, j) == SuffixSum(Init(xs), j) + Last(xs)
  {
    assert Init(xs[j..]) == Init(xs)[j..];
  }

  /** The greatest of the initial lag plus all overruns and every sum over a nonempty suffix of them. */
  ghost predicate IsGreatest(v: Nanos, lag0: Nanos, xs: seq<Nanos>) {
    && v >= lag0 + Sum(xs)
    && (forall j :: 0 <= j < |xs| ==> v >= SuffixSum(xs, j))
    && (v == lag0 + Sum(xs) || exists j :: 0 <= j < |xs| && v == SuffixSum(xs, j))
  }

  lemma {:induction false} LagIsGreatest(lag0: Nanos, xs: seq<Nanos>)
    requires xs != []
    ensures IsGreatest(Lag(lag0, xs), lag0, xs)
    decreases |xs|
  {
    var init, n, v := Init(xs), |xs|, Lag(lag0, xs);
    assert xs[n - 1..] == [Last(xs)] && Init([Last(xs)]) == [] && Sum([]) == 0;
    assert SuffixSum(xs, n - 1) == Last(xs);
    if init == [] {
      assert Sum(xs) == Last(xs);
    } else {
      LagIsGreatest(lag0, init);
      forall j | 0 <= j < n - 1 ensures v >= SuffixSum(xs, j) {
        SuffixSumSnoc(xs, j);
      }
      if Lag(lag0, init) > 0 && v != lag0 + Sum(xs) {
        var j :| 0 <= j < n - 1 && Lag(lag0, init) == SuffixSum(init, j);
        SuffixSumSnoc(xs, j);
      }
    }
  }

  /** From the second call on, lag is the larger of (initial lag + all overruns) and the largest suffix sum. */
  lemma LagClosedForm(calls: seq<Call>, offset: Nanos, i: nat)
    requires IsRun(calls, offset) && ExactSleeps(calls, offset) && 0 < i < |calls|
    ensures IsGreatest(LagAt(calls, i, offset), LagAt(calls, 0, offset), Overruns(calls)[0..i])
  {
    LagFollows(calls, offset, 0, i);
    LagIsGreatest(LagAt(calls, 0, offset), Overruns(calls)[0..i]);
  }

  lemma {:induction false} LagFalls(lag0: Nanos, xs: seq<Nanos>, d: Nanos)
    requires d > 0 && forall i :: 0 <= i < |xs| ==> xs[i] <= -d
    requires xs != []
    ensures Lag(lag0, xs) <= Max(Max(lag0, 0) - |xs| * d, -d)
    decreases |xs|
  {
    if |xs| > 1 {
      assert forall i :: 0 <= i < |Init(xs)| ==> Init(xs)[i] == xs[i];
      LagFalls(lag0, Init(xs), d);
      assert |xs| * d == (|xs| - 1) * d + d;
    }
  }

  /** Once work takes at most a minute less d, the schedule is early again after max(lag, 0) / d + 1 more calls. */
  lemma CatchesUp(calls: seq<Call>, offset: Nanos, d: Nanos, k: nat, i: nat)
    requires IsRun(calls, offset) && ExactSleeps(calls, offset) && d > 0 && k < |calls|
    requires forall j :: k <= j < |Overruns(calls)| ==> Overruns(calls)[j] <= -d
    requires k + Max(LagAt(calls, k, offset), 0) / d < i < |calls|
    ensures LagAt(calls, i, offset) < 0
  {
    var l, xs := Max(LagAt(calls, k, offset), 0), Overruns(calls)[k..i];
    QuotientBound(l, d, i - k);
    LagFollows(calls, offset, k, i);
    LagFalls(LagAt(calls, k, offset), xs, d);
  }

  lemma QuotientBound(l: nat, d: Nanos, i: nat)
    requires d > 0 && l / d < i
    ensures l < i * d
  {
    assert l == l / d * d + l % d;
    assert (l / d + 1) * d <= i * d;
  }
}
