/** Settlement events derived from the per-minute funding stream: a settlement is due when the next one rolls over. */
module Settlement {
  import opened Base
  import opened OiTypes

  /** The last prediction held for an instrument. */
  datatype Prediction = Prediction(next: Nanos, rate: Decimal)

  type Cursor = map<InstrumentId, Prediction>

  function Settles(p: Prediction, k: InstrumentId): FundingEvent {
    FundingEvent(k, p.next, p.rate, None)
  }

  class FundingCursor {
    var cursor: Cursor
    /** Every bar ever handed in. */
    ghost var history: seq<FundingBar>

    ghost predicate Valid()
      reads this
    {
      cursor == CursorAfter(history)
    }

    constructor ()
      ensures Valid() && history == []
    {
      cursor, history := map[], [];
    }

    /** One minute's batch of funding bars. */
    method Derive(funding: seq<FundingBar>) returns (events: seq<FundingEvent>)
      requires Valid()
      modifies this
      ensures Valid() && history == old(history) + funding
      ensures Emitted(history) == Emitted(old(history)) + events
    {
      ghost var before, seen := history, history;
      events := [];
      var i := 0;
      assert before + funding[..0] == before;
      while i < |funding|
        invariant 0 <= i <= |funding|
        invariant cursor == CursorAfter(seen) && seen == before + funding[..i]
        invariant Emitted(seen) == Emitted(before) + events
      {
        var bar := funding[i];
        assert Init(seen + [bar]) == seen;
        assert before + funding[..i + 1] == seen + [bar];
        i, seen := i + 1, seen + [bar];
        if bar.nextFunding == None {
          continue;
        }
        var next := bar.nextFunding.value;
        if bar.instrument in cursor {
          var prev := cursor[bar.instrument];
          if next > prev.next {
            events := events + [Settles(prev, bar.instrument)];
          }
        }
        cursor := cursor[bar.instrument := Prediction(next, bar.rate)];
      }
      assert funding[..i] == funding;
      history := seen;
    }
  }

  /** The cursor after a stream of bars. */
  function CursorAfter(bars: seq<FundingBar>): Cursor
    decreases |bars|
  {
    if bars == [] then map[]
    else
      var c, b := CursorAfter(Init(bars)), Last(bars);
      match b.nextFunding
      case None => c
      case Some(next) => c[b.instrument := Prediction(next, b.rate)]
  }

  /** The events of a stream of bars, however it was cut into batches. */
  function Emitted(bars: seq<FundingBar>): seq<FundingEvent>
    decreases |bars|
  {
    if bars == [] then []
    else
      var c, b := CursorAfter(Init(bars)), Last(bars);
      if b.nextFunding.Some? && b.instrument in c && b.nextFunding.value > c[b.instrument].next
      then Emitted(Init(bars)) + [Settles(c[b.instrument], b.instrument)]
      else Emitted(Init(bars))
  }

  // What it means, instrument by instrument

  /** The predictions of instrument k, in order; bars without one do not matter. */
  function Predictions(bars: seq<FundingBar>, k: InstrumentId): seq<Prediction>
    decreases |bars|
  {
    if bars == [] then []
    else if Last(bars).instrument == k && Last(bars).nextFunding.Some?
    then Predictions(Init(bars), k) + [Prediction(Last(bars).nextFunding.value, Last(bars).rate)]
    else Predictions(Init(bars), k)
  }

  /** The predictions whose successor names a later settlement. */
  function Rollovers(ps: seq<Prediction>): seq<Prediction>
    decreases |ps|
  {
    if |ps| < 2 then []
    else if ps[|ps| - 2].next < Last(ps).next then Rollovers(Init(ps)) + [ps[|ps| - 2]]
    else Rollovers(Init(ps))
  }

  function EventsFor(events: seq<FundingEvent>, k: InstrumentId): seq<FundingEvent>
    decreases |events|
  {
    if events == [] then []
    else if Last(events).instrument == k then EventsFor(Init(events), k) + [Last(events)]
    else EventsFor(Init(events), k)
  }

  function AsEvents(ps: seq<Prediction>, k: InstrumentId): seq<FundingEvent> {
    seq(|ps|, i requires 0 <= i < |ps| => Settles(ps[i], k))
  }

  /** Event by event: the settlement each prediction announced, at its rate, for this instrument. */
  ghost predicate PaysEach(events: seq<FundingEvent>, ps: seq<Prediction>, k: InstrumentId) {
    && |events| == |ps|
    && forall m :: 0 <= m < |events| ==>
         && events[m].instrument == k && events[m].settlementTs == ps[m].next && events[m].rate == ps[m].rate
         && events[m].markPrice == None
  }

  lemma {:induction false} CursorIsLast(bars: seq<FundingBar>, k: InstrumentId)
    ensures var ps := Predictions(bars, k);
      if ps == [] then k !in CursorAfter(bars) else k in CursorAfter(bars) && CursorAfter(bars)[k] == Last(ps)
    decreases |bars|
  {
    if bars != [] {
      CursorIsLast(Init(bars), k);
    }
  }

  lemma EventsForSnoc(events: seq<FundingEvent>, e: FundingEvent, k: InstrumentId)
    ensures EventsFor(events + [e], k) == if e.instrument == k then EventsFor(events, k) + [e] else EventsFor(events, k)
  {
    assert Init(events + [e]) == events;
  }

  lemma RolloversSnoc(ps: seq<Prediction>, p: Prediction)
    ensures Rollovers(ps + [p]) == if ps != [] && Last(ps).next < p.next then Rollovers(ps) + [Last(ps)] else Rollovers(ps)
  {
    assert Init(ps + [p]) == ps;
    if ps != [] {
      assert (ps + [p])[|ps| - 1] == Last(ps);
    }
  }

  lemma AsEventsSnoc(ps: seq<Prediction>, p: Prediction, k: InstrumentId)
    ensures AsEvents(ps + [p], k) == AsEvents(ps, k) + [Settles(p, k)]
  {}

  lemma {:induction false} EventsAreRollovers(bars: seq<FundingBar>, k: InstrumentId)
    ensures EventsFor(Emitted(bars), k) == AsEvents(Rollovers(Predictions(bars, k)), k)
    decreases |bars|
  {
    if bars != [] {
      EventsAreRollovers(Init(bars), k);
      OneMoreBar(Init(bars), Last(bars), k);
      assert bars == Init(bars) + [Last(bars)];
    }
  }

  /** The events of an instrument pay its rollovers: other instruments and batch boundaries play no part. */
  lemma EmitsRollovers(bars: seq<FundingBar>, k: InstrumentId)
    ensures PaysEach(EventsFor(Emitted(bars), k), Rollovers(Predictions(bars, k)), k)
  {
    EventsAreRollovers(bars, k);
  }

  lemma OneMoreBar(bars: seq<FundingBar>, b: FundingBar, k: InstrumentId)
    requires EventsFor(Emitted(bars), k) == AsEvents(Rollovers(Predictions(bars, k)), k)
    ensures EventsFor(Emitted(bars + [b]), k) == AsEvents(Rollovers(Predictions(bars + [b], k)), k)
  {
    var c, ps := CursorAfter(bars), Predictions(bars, k);
    assert Init(bars + [b]) == bars;
    CursorIsLast(bars, k);
    if b.nextFunding.Some? && b.instrument in c {
      EventsForSnoc(Emitted(bars), Settles(c[b.instrument], b.instrument), k);
    }
    if b.nextFunding.Some? && b.instrument == k {
      RolloversSnoc(ps, Prediction(b.nextFunding.value, b.rate));
      if ps != [] {
        AsEventsSnoc(Rollovers(ps), Last(ps), k);
      }
    }
  }

  ghost predicate NonDecreasing(ps: seq<Prediction>) {
    forall i, j :: 0 <= i <= j < |ps| ==> ps[i].next <= ps[j].next
  }

  /** The last prediction naming settlement t. */
  ghost predicate LastOfRun(ps: seq<Prediction>, i: int, t: Nanos) {
    0 <= i < |ps| && ps[i].next == t && forall j :: i < j < |ps| ==> ps[j].next != t
  }

  ghost predicate Named(ps: seq<Prediction>, t: Nanos) {
    exists i :: 0 <= i < |ps| && ps[i].next == t
  }

  ghost predicate Has(rs: seq<Prediction>, t: Nanos) {
    exists i :: 0 <= i < |rs| && rs[i].next == t
  }

  /** `rs` is one prediction per run of equal settlements except the last: the last of its run, in rising order. */
  ghost predicate OnePerClosedRun(ps: seq<Prediction>, rs: seq<Prediction>) {
    && (forall i, j :: 0 <= i < j < |rs| ==> rs[i].next < rs[j].next)
    && (forall t :: Has(rs, t) <==> ps != [] && Named(ps, t) && t < Last(ps).next)
    && (forall m :: 0 <= m < |rs| ==> exists i :: LastOfRun(ps, i, rs[m].next) && ps[i] == rs[m])
  }

  lemma ExtendRun(ps: seq<Prediction>, rs: seq<Prediction>, p: Prediction)
    requires ps != [] && NonDecreasing(ps + [p]) && Last(ps).next == p.next
    requires OnePerClosedRun(ps, rs)
    ensures OnePerClosedRun(ps + [p], rs)
  {
    var qs := ps + [p];
    forall t ensures Named(qs, t) <==> Named(ps, t) {
      NamedSnoc(ps, p, t);
    }
    forall m | 0 <= m < |rs| ensures exists i :: LastOfRun(qs, i, rs[m].next) && qs[i] == rs[m] {
      assert Has(rs, rs[m].next);
      var i :| LastOfRun(ps, i, rs[m].next) && ps[i] == rs[m];
      assert LastOfRun(qs, i, rs[m].next) && qs[i] == rs[m];
    }
  }

  lemma NamedSnoc(ps: seq<Prediction>, p: Prediction, t: Nanos)
    ensures Named(ps + [p], t) <==> Named(ps, t) || p.next == t
  {
    if Named(ps, t) {
      var i :| 0 <= i < |ps| && ps[i].next == t;
      assert (ps + [p])[i].next == t;
    }
    if p.next == t {
      assert (ps + [p])[|ps|].next == t;
    }
  }

  lemma CloseRun(ps: seq<Prediction>, rs: seq<Prediction>, p: Prediction)
    requires ps != [] && NonDecreasing(ps + [p]) && Last(ps).next < p.next
    requires OnePerClosedRun(ps, rs)
    ensures OnePerClosedRun(ps + [p], rs + [Last(ps)])
  {
    var qs, ss := ps + [p], rs + [Last(ps)];
    forall t ensures Has(ss, t) <==> Named(qs, t) && t < p.next {
      NamedSnoc(ps, p, t);
      NamedSnoc(rs, Last(ps), t);
      assert Named(ss, t) <==> Has(ss, t);
      assert Named(rs, t) <==> Has(rs, t);
      forall i | 0 <= i < |ps| ensures ps[i].next <= Last(ps).next {
        assert qs[i].next <= qs[|ps| - 1].next;
      }
      if t == Last(ps).next {
        assert ps[|ps| - 1].next == t;
      }
    }
    forall i, j | 0 <= i < j < |ss| ensures ss[i].next < ss[j].next {
      assert Has(rs, rs[i].next);
    }
    forall m | 0 <= m < |ss| ensures exists i :: LastOfRun(qs, i, ss[m].next) && qs[i] == ss[m] {
      if m < |rs| {
        assert Has(rs, rs[m].next);
        var i :| LastOfRun(ps, i, rs[m].next) && ps[i] == rs[m];
        assert LastOfRun(qs, i, ss[m].next) && qs[i] == ss[m];
      } else {
        assert LastOfRun(qs, |ps| - 1, ss[m].next) && qs[|ps| - 1] == ss[m];
      }
    }
  }

  lemma {:induction false} RolloversAreRuns(ps: seq<Prediction>)
    requires NonDecreasing(ps)
    ensures OnePerClosedRun(ps, Rollovers(ps))
    decreases |ps|
  {
    if |ps| >= 2 {
      var init, p := Init(ps), Last(ps);
      assert ps == init + [p];
      assert ps[|ps| - 2].next <= p.next;
      RolloversAreRuns(init);
      if Last(init).next < p.next {
        CloseRun(init, Rollovers(init), p);
      } else {
        ExtendRun(init, Rollovers(init), p);
      }
    }
  }

  /**
   * For an instrument whose announced settlement never moves back, the events are one per run of equal
   * announcements except the last, strictly later one after the other, each with the last rate of its run.
   */
  lemma SettlementsArePaidRuns(bars: seq<FundingBar>, k: InstrumentId)
    requires NonDecreasing(Predictions(bars, k))
    ensures OnePerClosedRun(Predictions(bars, k), Rollovers(Predictions(bars, k)))
    ensures PaysEach(EventsFor(Emitted(bars), k), Rollovers(Predictions(bars, k)), k)
  {
    RolloversAreRuns(Predictions(bars, k));
    EmitsRollovers(bars, k);
  }

  /** Prediction i is the last of its kind before a later settlement is announced. */
  predicate Closes(ps: seq<Prediction>, i: int) {
    0 <= i < |ps| - 1 && ps[i].next < ps[i + 1].next
  }

  /** `at[m]` is where rollover m stands; every closing prediction stands somewhere. */
  ghost predicate StandsAt(ps: seq<Prediction>, rs: seq<Prediction>, at: seq<int>) {
    && |at| == |rs|
    && (forall m :: 0 <= m < |at| ==> Closes(ps, at[m]) && ps[at[m]] == rs[m])
    && (forall m, n :: 0 <= m < n < |at| ==> at[m] < at[n])
    && (forall i :: Closes(ps, i) ==> i in at)
  }

  lemma StandsSnoc(ps: seq<Prediction>, rs: seq<Prediction>, at: seq<int>, p: Prediction)
    requires ps != [] && StandsAt(ps, rs, at)
    ensures if Last(ps).next < p.next then StandsAt(ps + [p], rs + [Last(ps)], at + [|ps| - 1]) else StandsAt(ps + [p], rs, at)
  {
    var i := |ps| - 1;
    forall j ensures Closes(ps + [p], j) <==> Closes(ps, j) || (j == i && ps[i].next < p.next) {}
    if Last(ps).next < p.next {
      forall j | Closes(ps + [p], j) ensures j in at + [i] {
        assert j == i ==> (at + [i])[|at|] == i;
      }
    }
  }

  lemma {:induction false} RolloverPlaces(ps: seq<Prediction>) returns (at: seq<int>)
    ensures StandsAt(ps, Rollovers(ps), at)
    decreases |ps|
  {
    if |ps| < 2 {
      at := [];
    } else {
      var init, p := Init(ps), Last(ps);
      at := RolloverPlaces(init);
      assert ps == init + [p];
      RolloversSnoc(init, p);
      StandsSnoc(init, Rollovers(init), at, p);
      if Last(init).next < p.next {
        at := at + [|init| - 1];
      }
    }
  }

  /** Predictions i and j name t, and each is followed by a later one. */
  predicate ClosePair(ps: seq<Prediction>, t: Nanos, i: int, j: int) {
    i < j && Closes(ps, i) && Closes(ps, j) && ps[i].next == t && ps[j].next == t
  }

  ghost predicate ClosesTwice(ps: seq<Prediction>, t: Nanos) {
    exists i, j :: ClosePair(ps, t, i, j)
  }

  predicate SettledPair(events: seq<FundingEvent>, t: Nanos, m: int, n: int) {
    0 <= m < n < |events| && events[m].settlementTs == t && events[n].settlementTs == t
  }

  /** Two events settle moment t. */
  ghost predicate SettledTwice(events: seq<FundingEvent>, t: Nanos) {
    exists m, n :: SettledPair(events, t, m, n)
  }

  lemma PairsMatch(ps: seq<Prediction>, rs: seq<Prediction>, at: seq<int>, k: InstrumentId, t: Nanos)
    requires StandsAt(ps, rs, at)
    ensures SettledTwice(AsEvents(rs, k), t) <==> ClosesTwice(ps, t)
  {
    var events := AsEvents(rs, k);
    if SettledTwice(events, t) {
      var m, n :| SettledPair(events, t, m, n);
      assert ClosePair(ps, t, at[m], at[n]);
    }
    if ClosesTwice(ps, t) {
      var i, j :| ClosePair(ps, t, i, j);
      var m :| 0 <= m < |at| && at[m] == i;
      var n :| 0 <= n < |at| && at[n] == j;
      assert SettledPair(events, t, m, n);
    }
  }

  /** An instrument's events settle a moment twice exactly when two predictions naming it are each followed by a later one. */
  lemma SettledTwiceIff(bars: seq<FundingBar>, k: InstrumentId, t: Nanos)
    ensures SettledTwice(EventsFor(Emitted(bars), k), t) <==> ClosesTwice(Predictions(bars, k), t)
  {
    EventsAreRollovers(bars, k);
    var at := RolloverPlaces(Predictions(bars, k));
    PairsMatch(Predictions(bars, k), Rollovers(Predictions(bars, k)), at, k, t);
  }

  /** It does happen when announcements move back and forth, and not when they never move back. */
  lemma MovingBackRepeats(k: InstrumentId, t: Nanos, u: Nanos, r: Decimal)
    requires t < u
    ensures var p, q := FundingBar(k, 0, r, Some(t), None), FundingBar(k, 0, r, Some(u), None);
      var e := FundingEvent(k, t, r, None);
      Emitted([p, q, p, q]) == [e, e]
  {
    var p, q := FundingBar(k, 0, r, Some(t), None), FundingBar(k, 0, r, Some(u), None);
    assert Init([p, q, p, q]) == [p, q, p] && Init([p, q, p]) == [p, q] && Init([p, q]) == [p] && Init([p]) == [];
    var e := FundingEvent(k, t, r, None);
    assert CursorAfter([p]) == map[k := Prediction(t, r)] && Emitted([p]) == [];
    assert CursorAfter([p, q]) == map[k := Prediction(u, r)] && Emitted([p, q]) == [e];
    assert CursorAfter([p, q, p]) == map[k := Prediction(t, r)] && Emitted([p, q, p]) == [e];
  }

  lemma NeverClosesTwice(ps: seq<Prediction>, t: Nanos)
    requires NonDecreasing(ps)
    ensures !ClosesTwice(ps, t)
  {}

  /** A stream that never moves back settles no moment twice. */
  lemma NeverMovingBackSettlesOnce(bars: seq<FundingBar>, k: InstrumentId, t: Nanos)
    requires NonDecreasing(Predictions(bars, k))
    ensures !SettledTwice(EventsFor(Emitted(bars), k), t)
  {
    NeverClosesTwice(Predictions(bars, k), t);
    SettledTwiceIff(bars, k, t);
  }
}
