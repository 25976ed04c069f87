/** One sweep over the funding history of all instruments: bounded fan-out, events written in chunks. */
module FundingSweep {
  import opened Base
  import opened FanOut
  import opened OiTypes

  const CHUNK: nat := 500
  /** 50 minutes: a stored settlement younger than this cannot have a successor. */
  const NOT_DUE_BEFORE: Nanos := 3_000_000_000_000

  datatype FetchError = Auth | Other

  /** What one instrument's attempt meets: the stored cursor, the time, and the venue's answer (None: the attempt panics). */
  datatype Venue = Venue(cursor: Result<Option<Nanos>, ()>, now: Nanos,
                         history: Option<Nanos> -> Option<Result<seq<FundingEvent>, FetchError>>)

  datatype Outcome = Panicked | Failed(error: FetchError) | Fetched(events: seq<FundingEvent>)

  datatype SweepStats = SweepStats(events: nat, failures: nat, authFailures: nat)

  /** The stored cursor; a failed lookup counts as none. */
  function Since(v: Venue): Option<Nanos> {
    match v.cursor case Ok(c) => c case Err(_) => None
  }

  predicate NotDue(v: Venue) {
    Since(v).Some? && v.now - Since(v).value < NOT_DUE_BEFORE
  }

  /** One instrument's attempt: skip what cannot be due, fetch the rest. */
  function Attempt(v: Venue): Outcome {
    if NotDue(v) then Fetched([])
    else match v.history(Since(v))
      case None => Panicked
      case Some(Err(e)) => Failed(e)
      case Some(Ok(events)) => Fetched(events)
  }

  /** A stored settlement is under fifty minutes old. */
  predicate SettledLately(v: Venue) {
    v.cursor.Ok? && v.cursor.value.Some? && v.now < v.cursor.value.value + 50 * 60 * 1_000_000_000
  }

  /**
   * The venue is left alone exactly when a settlement was stored lately. Otherwise it is asked once, from the stored
   * settlement on, or from the beginning where none is stored or the lookup failed; what it says is the outcome.
   */
  lemma AsksUnlessSettledLately(v: Venue)
    ensures (forall h :: Attempt(v.(history := h)) == Fetched([])) <==> SettledLately(v)
    ensures !SettledLately(v) ==>
      var answer := v.history(if v.cursor.Ok? then v.cursor.value else None);
      && (Attempt(v) == Panicked <==> answer == None)
      && (answer.Some? && answer.value.Err? ==> Attempt(v) == Failed(answer.value.error))
      && (answer.Some? && answer.value.Ok? ==> Attempt(v) == Fetched(answer.value.value))
  {
    if !SettledLately(v) {
      var silent: Option<Nanos> -> Option<Result<seq<FundingEvent>, FetchError>> := _ => None;
      assert Attempt(v.(history := silent)) == Panicked;
    }
  }

  // What a sweep adds up to

  datatype Tally = Tally(events: multiset<FundingEvent>, failures: nat, auth: nat)

  function EventsOf(o: Outcome): seq<FundingEvent> {
    if o.Fetched? then o.events else []
  }

  function FailuresOf(o: Outcome): nat {
    if o.Fetched? then 0 else 1
  }

  function AuthOf(o: Outcome): nat {
    if o == Failed(Auth) then 1 else 0
  }

  /** Item i's outcome; a sweep only ever asks for items it has. */
  function At(outs: seq<Outcome>, i: nat): Outcome {
    if i < |outs| then outs[i] else Panicked
  }

  /** The fetched events in order of completion. */
  function Gathered(outs: seq<Outcome>, order: seq<nat>): seq<FundingEvent>
    decreases |order|
  {
    if order == [] then [] else Gathered(outs, Init(order)) + EventsOf(At(outs, Last(order)))
  }

  function Add(t: Tally, o: Outcome): Tally {
    Tally(t.events + multiset(EventsOf(o)), t.failures + FailuresOf(o), t.auth + AuthOf(o))
  }

  function Adder(outs: seq<Outcome>): (Tally, nat) -> Tally {
    (t: Tally, i: nat) => Add(t, At(outs, i))
  }

  function TallyOf(outs: seq<Outcome>, order: seq<nat>): Tally {
    Fold(Adder(outs), Tally(multiset{}, 0, 0), order)
  }

  lemma Snoc(outs: seq<Outcome>, order: seq<nat>, i: nat)
    ensures Gathered(outs, order + [i]) == Gathered(outs, order) + EventsOf(At(outs, i))
    ensures TallyOf(outs, order + [i]) == Add(TallyOf(outs, order), At(outs, i))
  {
    assert Init(order + [i]) == order;
  }

  lemma {:induction false} TallyOfGathered(outs: seq<Outcome>, order: seq<nat>)
    ensures TallyOf(outs, order).events == multiset(Gathered(outs, order))
    ensures TallyOf(outs, order).auth <= TallyOf(outs, order).failures
    decreases |order|
  {
    if order != [] {
      TallyOfGathered(outs, Init(order));
    }
  }

  /** The first n instruments whose attempt failed; `auth` asks for those the venue turned away. */
  function FailedOnes(outs: seq<Outcome>, n: nat, auth: bool): set<nat> {
    set i | 0 <= i < n && i < |outs| && (if auth then outs[i] == Failed(Auth) else !outs[i].Fetched?)
  }

  lemma {:induction false} TallyCounts(outs: seq<Outcome>, n: nat)
    requires n <= |outs|
    ensures TallyOf(outs, UpTo(n)).failures == |FailedOnes(outs, n, false)|
    ensures TallyOf(outs, UpTo(n)).auth == |FailedOnes(outs, n, true)|
  {
    if n == 0 {
      assert UpTo(0) == [] && FailedOnes(outs, 0, false) == {} && FailedOnes(outs, 0, true) == {};
    } else {
      TallyCounts(outs, n - 1);
      UpToSnoc(n - 1);
      Snoc(outs, UpTo(n - 1), n - 1);
      OneMoreFailed(outs, n - 1, false);
      OneMoreFailed(outs, n - 1, true);
    }
  }

  lemma OneMoreFailed(outs: seq<Outcome>, i: nat, auth: bool)
    requires i < |outs|
    ensures |FailedOnes(outs, i + 1, auth)| == |FailedOnes(outs, i, auth)| +
      if (if auth then outs[i] == Failed(Auth) else !outs[i].Fetched?) then 1 else 0
  {
    var failed := if auth then outs[i] == Failed(Auth) else !outs[i].Fetched?;
    assert FailedOnes(outs, i + 1, auth) == FailedOnes(outs, i, auth) + if failed then {i} else {};
  }

  /** The tally does not depend on the order of completion. */
  lemma TallyPermutes(outs: seq<Outcome>, a: seq<nat>, b: seq<nat>)
    requires multiset(a) == multiset(b)
    ensures TallyOf(outs, a) == TallyOf(outs, b)
  {
    var f := Adder(outs);
    forall t, i, j ensures f(f(t, i), j) == f(f(t, j), i) {
      AddCommutes(t, At(outs, i), At(outs, j));
    }
    FoldPermutes(f, Tally(multiset{}, 0, 0), a, b);
  }

  lemma AddCommutes(t: Tally, o: Outcome, p: Outcome)
    ensures Add(Add(t, o), p) == Add(Add(t, p), o)
  {}

  function Concat(chunks: seq<seq<FundingEvent>>): seq<FundingEvent>
    decreases |chunks|
  {
    if chunks == [] then [] else Concat(Init(chunks)) + Last(chunks)
  }

  /** Of the first n writes, how many the store refuses. */
  function Refusals(refused: set<nat>, n: nat): nat {
    if n == 0 then 0 else Refusals(refused, n - 1) + if n - 1 in refused then 1 else 0
  }

  function RefusedWrites(refused: set<nat>, n: nat): set<nat> {
    set w | 0 <= w < n && w in refused
  }

  lemma {:induction false} RefusalsCount(refused: set<nat>, n: nat)
    ensures Refusals(refused, n) == |RefusedWrites(refused, n)|
  {
    if n == 0 {
      assert RefusedWrites(refused, 0) == {};
    } else {
      RefusalsCount(refused, n - 1);
      assert RefusedWrites(refused, n) == RefusedWrites(refused, n - 1) + if n - 1 in refused then {n - 1} else {};
    }
  }

  /** The running account of a sweep: what was gathered is in the chunks written and in the batch. */
  ghost predicate Accounts(gathered: seq<FundingEvent>, t: Tally, refused: set<nat>,
                           chunks: seq<seq<FundingEvent>>, batch: seq<FundingEvent>, stats: SweepStats) {
    && Concat(chunks) + batch == gathered
    && (forall c :: c in chunks ==> |c| >= CHUNK)
    && stats == SweepStats(|gathered|, t.failures + Refusals(refused, |chunks|), t.auth)
  }

  lemma ConcatSnoc(chunks: seq<seq<FundingEvent>>, c: seq<FundingEvent>)
    ensures Concat(chunks + [c]) == Concat(chunks) + c
  {
    assert Init(chunks + [c]) == chunks;
  }

  /** Handing the batch to the store: the write may be refused, the batch is given up either way. */
  method Write(batch: seq<FundingEvent>, refused: set<nat>, writes: nat, stats: SweepStats) returns (stats': SweepStats)
    ensures stats' == stats.(failures := stats.failures + if writes in refused then 1 else 0)
  {
    stats' := stats;
    if writes in refused {
      stats' := stats'.(failures := stats'.failures + 1);
    }
  }

  function Counted(stats: SweepStats, out: Outcome): SweepStats {
    SweepStats(stats.events + |EventsOf(out)|, stats.failures + FailuresOf(out), stats.authFailures + AuthOf(out))
  }

  /** What one attempt's result adds to the counters. */
  method Count(out: Outcome, stats: SweepStats) returns (stats': SweepStats)
    ensures stats' == Counted(stats, out)
  {
    match out
    case Panicked => stats' := stats.(failures := stats.failures + 1);
    case Failed(e) =>
      stats' := stats.(failures := stats.failures + 1);
      if e.Auth? {
        stats' := stats'.(authFailures := stats'.authFailures + 1);
      }
    case Fetched(events) => stats' := stats.(events := stats.events + |events|);
  }

  lemma Regroup(a: seq<FundingEvent>, b: seq<FundingEvent>, c: seq<FundingEvent>)
    ensures a + (b + c) == (a + b) + c
  {}

  lemma AccountsGrow(gathered: seq<FundingEvent>, t: Tally, refused: set<nat>,
                     chunks: seq<seq<FundingEvent>>, batch: seq<FundingEvent>, stats: SweepStats, out: Outcome)
    requires Accounts(gathered, t, refused, chunks, batch, stats)
    ensures Accounts(gathered + EventsOf(out), Add(t, out), refused, chunks, batch + EventsOf(out), Counted(stats, out))
  {
    Regroup(Concat(chunks), batch, EventsOf(out));
  }

  /** A full batch becomes a chunk. */
  lemma AccountsFlush(gathered: seq<FundingEvent>, t: Tally, refused: set<nat>,
                      chunks: seq<seq<FundingEvent>>, batch: seq<FundingEvent>, stats: SweepStats)
    requires Accounts(gathered, t, refused, chunks, batch, stats) && |batch| >= CHUNK
    ensures Accounts(gathered, t, refused, chunks + [batch], [],
                     stats.(failures := stats.failures + if |chunks| in refused then 1 else 0))
  {
    ConcatSnoc(chunks, batch);
    assert Concat(chunks + [batch]) + [] == Concat(chunks) + batch;
  }

  /** One attempt's result; `writes` counts the chunks written so far. */
  method Handle(out: Outcome, refused: set<nat>, batch: seq<FundingEvent>, writes: nat, stats: SweepStats,
                ghost gathered: seq<FundingEvent>, ghost t: Tally, ghost chunks: seq<seq<FundingEvent>>)
    returns (batch': seq<FundingEvent>, writes': nat, stats': SweepStats, ghost chunks': seq<seq<FundingEvent>>)
    requires Accounts(gathered, t, refused, chunks, batch, stats) && writes == |chunks| && |batch| < CHUNK
    ensures Accounts(gathered + EventsOf(out), Add(t, out), refused, chunks', batch', stats') && writes' == |chunks'| && |batch'| < CHUNK
  {
    batch', writes', chunks' := batch, writes, chunks;
    stats' := Count(out, stats);
    AccountsGrow(gathered, t, refused, chunks, batch, stats, out);
    assert batch + [] == batch;
    if out.Fetched? && out.events != [] {
      batch' := batch' + out.events;
      if |batch'| >= CHUNK {
        AccountsFlush(gathered + EventsOf(out), Add(t, out), refused, chunks, batch', stats');
        stats' := Write(batch', refused, writes', stats');
        chunks', writes', batch' := chunks + [batch'], writes' + 1, [];
      }
    }
  }

  /** Every chunk but the last has at least 500 events, and the last is not empty. */
  ghost predicate WellChunked(chunks: seq<seq<FundingEvent>>) {
    forall k :: 0 <= k < |chunks| ==> chunks[k] != [] && (k < |chunks| - 1 ==> |chunks[k]| >= CHUNK)
  }

  /** The tail: what is left in the batch becomes the last chunk. */
  method WriteTail(batch: seq<FundingEvent>, refused: set<nat>, writes: nat, stats: SweepStats,
                   ghost gathered: seq<FundingEvent>, ghost t: Tally, ghost chunks: seq<seq<FundingEvent>>)
    returns (stats': SweepStats, ghost chunks': seq<seq<FundingEvent>>)
    requires Accounts(gathered, t, refused, chunks, batch, stats) && writes == |chunks|
    ensures WellChunked(chunks') && Concat(chunks') == gathered
    ensures stats' == SweepStats(|gathered|, t.failures + Refusals(refused, |chunks'|), t.auth)
  {
    stats', chunks' := stats, chunks;
    assert forall k :: 0 <= k < |chunks| ==> chunks[k] in chunks;
    if batch != [] {
      ConcatSnoc(chunks, batch);
      stats' := Write(batch, refused, writes, stats);
      chunks' := chunks + [batch];
    } else {
      assert Concat(chunks) + batch == Concat(chunks);
    }
  }

  /** Run every attempt, handling results as they come. */
  method Gather(venues: seq<Venue>, concurrency: nat, refused: set<nat>, ghost outs: seq<Outcome>)
    returns (batch: seq<FundingEvent>, writes: nat, stats: SweepStats, ghost chunks: seq<seq<FundingEvent>>, ghost steps: seq<Step>)
    requires |outs| == |venues| && forall i :: 0 <= i < |outs| ==> outs[i] == Attempt(venues[i])
    ensures Accounts(Gathered(outs, Finished(steps)), TallyOf(outs, Finished(steps)), refused, chunks, batch, stats)
    ensures writes == |chunks| && |batch| < CHUNK
    ensures if concurrency == 0 then steps == [] else FansOut(steps, |venues|, concurrency)
  {
    batch, writes, stats, chunks := [], 0, SweepStats(0, 0, 0), [];
    var next, inflight;
    next, inflight, steps := Prime(|venues|, concurrency);
    while inflight != multiset{}
      invariant next <= |venues| && |inflight| <= concurrency
      invariant next < |venues| ==> |inflight| == concurrency
      invariant concurrency == 0 ==> steps == []
      invariant Tracks(steps, next, inflight, concurrency)
      invariant Accounts(Gathered(outs, Finished(steps)), TallyOf(outs, Finished(steps)), refused, chunks, batch, stats)
      invariant writes == |chunks| && |batch| < CHUNK
      decreases |venues| - next, |inflight|
    {
      ghost var order := Finished(steps);
      var i;
      i, next, inflight, steps := Advance(|venues|, concurrency, next, inflight, steps);
      Snoc(outs, order, i);
      batch, writes, stats, chunks := Handle(Attempt(venues[i]), refused, batch, writes, stats,
                                                Gathered(outs, order), TallyOf(outs, order), chunks);
    }
    if concurrency > 0 {
      DoneTracks(steps, |venues|, concurrency);
    }
  }

  /**
   * A sweep in any order of completion. `chunks` is what was handed to the store, `refused` says which of the
   * writes it refuses. With no concurrency nothing is attempted.
   */
  method SweepOnce(venues: seq<Venue>, concurrency: nat, refused: set<nat>)
    returns (stats: SweepStats, ghost outs: seq<Outcome>, ghost steps: seq<Step>, ghost chunks: seq<seq<FundingEvent>>)
    ensures |outs| == |venues| && forall i :: 0 <= i < |outs| ==> outs[i] == Attempt(venues[i])
    ensures if concurrency == 0 then steps == [] else FansOut(steps, |venues|, concurrency)
    ensures Concat(chunks) == Gathered(outs, Finished(steps)) && WellChunked(chunks)
    ensures var t := TallyOf(outs, Finished(steps));
      stats == SweepStats(|Concat(chunks)|, t.failures + Refusals(refused, |chunks|), t.auth)
    ensures concurrency > 0 ==>
      && stats.failures == |FailedOnes(outs, |venues|, false)| + |RefusedWrites(refused, |chunks|)|
      && stats.authFailures == |FailedOnes(outs, |venues|, true)|
    ensures stats.authFailures <= stats.failures
  {
    outs := seq(|venues|, i requires 0 <= i < |venues| => Attempt(venues[i]));
    var batch, writes;
    batch, writes, stats, chunks, steps := Gather(venues, concurrency, refused, outs);
    stats, chunks := WriteTail(batch, refused, writes, stats, Gathered(outs, Finished(steps)), TallyOf(outs, Finished(steps)), chunks);
    TallyOfGathered(outs, Finished(steps));
    RefusalsCount(refused, |chunks|);
    if concurrency > 0 {
      TallyPermutes(outs, Finished(steps), UpTo(|venues|));
      TallyCounts(outs, |venues|);
    }
  }

  /** Every attempt counts once in the totals, in whatever order they complete. */
  lemma TotalsOverAll(outs: seq<Outcome>, steps: seq<Step>, concurrency: nat)
    requires FansOut(steps, |outs|, concurrency)
    ensures TallyOf(outs, Finished(steps)) == TallyOf(outs, UpTo(|outs|))
    ensures TallyOf(outs, Finished(steps)).failures == |FailedOnes(outs, |outs|, false)|
    ensures TallyOf(outs, Finished(steps)).auth == |FailedOnes(outs, |outs|, true)|
    ensures multiset(Gathered(outs, Finished(steps))) == TallyOf(outs, UpTo(|outs|)).events
  {
    TallyPermutes(outs, Finished(steps), UpTo(|outs|));
    TallyOfGathered(outs, Finished(steps));
    TallyCounts(outs, |outs|);
  }
}
