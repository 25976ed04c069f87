/**
 * The in-progress bars of all instruments. Observing and removing one entry are atomic (a locked map entry);
 * a flush collects keys first and removes them one by one, so observes may land in between.
 */
module Aggregator {
  import opened Base
  import opened OiTypes
  import opened Ohlc

  type Bars = map<InstrumentId, Snapshot>

  datatype Fate = Flushed | Replaced

  /** A bar that left the map, with the samples it holds. */
  datatype Closed = Closed(bar: Snapshot, samples: seq<Sample>, fate: Fate)

  /** What became of every sample of one instrument: `open` are those in the bar in progress. */
  datatype Account = Account(closed: seq<Closed>, open: seq<Sample>, dropped: seq<Sample>)

  type Accounts = map<InstrumentId, Account>

  function AccountOf(acc: Accounts, k: InstrumentId): Account {
    if k in acc then acc[k] else Account([], [], [])
  }

  /** The sample repeats the only sample of the bar, by receive time: it is not folded again. */
  predicate Repeats(bars: Bars, s: Sample) {
    s.instrument in bars && bars[s.instrument].bucket == s.bucket
    && bars[s.instrument].samples == 1 && bars[s.instrument].lastRecv == s.recv
  }

  function Observed(bars: Bars, s: Sample): Bars {
    var k := s.instrument;
    if k !in bars || bars[k].bucket != s.bucket then bars[k := StartFromSample(s)]
    else if Repeats(bars, s) then bars
    else match Observe(bars[k], s)
      case Ok(b) => bars[k := b]
      case Err(_) => bars
  }

  /** The account with a new bar in progress, or none; the old one is closed. */
  function Close(a: Account, bar: Snapshot, fate: Fate, open: seq<Sample>): Account {
    Account(a.closed + [Closed(bar, a.open, fate)], open, a.dropped)
  }

  function Filed(a: Account, bars: Bars, s: Sample): Account {
    var k := s.instrument;
    if k !in bars then a.(open := [s])
    else if bars[k].bucket != s.bucket then Close(a, bars[k], Replaced, [s])
    else if Repeats(bars, s) then a.(dropped := a.dropped + [s])
    else a.(open := a.open + [s])
  }

  function Booked(acc: Accounts, bars: Bars, s: Sample): Accounts {
    acc[s.instrument := Filed(AccountOf(acc, s.instrument), bars, s)]
  }

  function Removed(acc: Accounts, bars: Bars, k: InstrumentId): Accounts {
    if k in bars then acc[k := Close(AccountOf(acc, k), bars[k], Flushed, [])] else acc
  }

  /** The account of k once its bar was flushed, or as it was. */
  function Settled(acc: Accounts, bars: Bars, flushed: bool, k: InstrumentId): Account {
    AccountOf(if flushed then Removed(acc, bars, k) else acc, k)
  }

  ghost predicate IsFold(k: InstrumentId, b: Snapshot, ss: seq<Sample>) {
    ss != [] && OneBar(ss) && b == Fold(ss) && b.instrument == k
  }

  ghost predicate AccountOk(bars: Bars, acc: Accounts, k: InstrumentId) {
    var a := AccountOf(acc, k);
    && (if k in bars then IsFold(k, bars[k], a.open) else a.open == [])
    && forall i :: 0 <= i < |a.closed| ==> IsFold(k, a.closed[i].bar, a.closed[i].samples)
  }

  ghost predicate Sound(bars: Bars, acc: Accounts) {
    forall k :: AccountOk(bars, acc, k)
  }

  /** The account of the sample's own instrument, case by case. */
  lemma ObservedAccountOk(bars: Bars, acc: Accounts, s: Sample)
    requires AccountOk(bars, acc, s.instrument)
    ensures AccountOk(Observed(bars, s), Booked(acc, bars, s), s.instrument)
    ensures s.instrument in bars && bars[s.instrument].bucket == s.bucket ==> Observe(bars[s.instrument], s).Ok?
  {
    var k := s.instrument;
    if k in bars && bars[k].bucket == s.bucket {
      FoldSnoc(AccountOf(acc, k).open, s);
    }
  }

  /** In a sound state observing cannot fail: the bar under a key is that key's. */
  lemma ObserveKeepsOk(bars: Bars, acc: Accounts, s: Sample)
    requires Sound(bars, acc)
    ensures Sound(Observed(bars, s), Booked(acc, bars, s))
    ensures s.instrument in bars && bars[s.instrument].bucket == s.bucket ==> Observe(bars[s.instrument], s).Ok?
  {
    assert AccountOk(bars, acc, s.instrument);
    ObservedAccountOk(bars, acc, s);
    forall x | x != s.instrument ensures AccountOk(Observed(bars, s), Booked(acc, bars, s), x) {
      assert AccountOk(bars, acc, x);
    }
  }

  lemma RemoveKeepsOk(bars: Bars, acc: Accounts, k: InstrumentId)
    requires Sound(bars, acc)
    ensures Sound(bars - {k}, Removed(acc, bars, k))
  {
    forall x ensures AccountOk(bars - {k}, Removed(acc, bars, k), x) {
      assert AccountOk(bars, acc, x);
    }
  }

  // Any interleaving of observes and removals

  datatype Event = Observes(sample: Sample) | Removes(key: InstrumentId)

  datatype State = State(bars: Bars, accounts: Accounts)

  function Next(st: State, e: Event): State {
    match e
    case Observes(s) => State(Observed(st.bars, s), Booked(st.accounts, st.bars, s))
    case Removes(k) => State(st.bars - {k}, Removed(st.accounts, st.bars, k))
  }

  function Run(es: seq<Event>): State
    decreases |es|
  {
    if es == [] then State(map[], map[]) else Next(Run(Init(es)), Last(es))
  }

  lemma {:induction false} RunKeepsOk(es: seq<Event>)
    ensures Sound(Run(es).bars, Run(es).accounts)
    decreases |es|
  {
    if es != [] {
      var st := Run(Init(es));
      RunKeepsOk(Init(es));
      match Last(es)
      case Observes(s) => ObserveKeepsOk(st.bars, st.accounts, s);
      case Removes(k) => RemoveKeepsOk(st.bars, st.accounts, k);
    }
  }

  /** The samples of instrument k that were observed, in order. */
  function Seen(es: seq<Event>, k: InstrumentId): seq<Sample>
    decreases |es|
  {
    if es == [] then []
    else if Last(es).Observes? && Last(es).sample.instrument == k then Seen(Init(es), k) + [Last(es).sample]
    else Seen(Init(es), k)
  }

  /** The samples of all closed bars, one after the other. */
  function Contents(cs: seq<Closed>): seq<Sample>
    decreases |cs|
  {
    if cs == [] then [] else Contents(Init(cs)) + Last(cs).samples
  }

  /** The samples of an account that were folded into some bar, in order. */
  function Folded(a: Account): seq<Sample> {
    Contents(a.closed) + a.open
  }

  /** Closing a bar only moves its samples. */
  lemma CloseConserves(a: Account, bar: Snapshot, fate: Fate, open: seq<Sample>)
    ensures Folded(Close(a, bar, fate, open)) == Folded(a) + open
  {
    assert Init(a.closed + [Closed(bar, a.open, fate)]) == a.closed;
  }

  /** An observe adds its sample to exactly one place. */
  lemma ObserveConserves(a: Account, bars: Bars, s: Sample)
    requires s.instrument !in bars ==> a.open == []
    ensures var b := Filed(a, bars, s);
      if Repeats(bars, s) then Folded(b) == Folded(a) && b.dropped == a.dropped + [s]
      else Folded(b) == Folded(a) + [s] && b.dropped == a.dropped
  {
    if s.instrument in bars {
      CloseConserves(a, bars[s.instrument], Replaced, [s]);
    }
    assert Contents(a.closed) + (a.open + [s]) == Folded(a) + [s];
  }

  /** The sample repeats the only one of its bar: same minute, same receive time. */
  predicate IsDuplicate(open: seq<Sample>, s: Sample) {
    |open| == 1 && open[0].bucket == s.bucket && open[0].recv == s.recv
  }

  /** The samples of k since its bar was last removed or its minute last changed, repeats of a first sample left out. */
  function Current(es: seq<Event>, k: InstrumentId): seq<Sample>
    decreases |es|
  {
    if es == [] then []
    else
      var prior := Current(Init(es), k);
      match Last(es)
      case Removes(j) => if j == k then [] else prior
      case Observes(s) =>
        if s.instrument != k || IsDuplicate(prior, s) then prior
        else if prior != [] && Last(prior).bucket == s.bucket then prior + [s]
        else [s]
  }

  /** The samples of k that did not repeat the only one of their bar when they arrived, in order. */
  function Accepted(es: seq<Event>, k: InstrumentId): seq<Sample>
    decreases |es|
  {
    if es == [] then []
    else
      var e := Last(es);
      if e.Observes? && e.sample.instrument == k && !IsDuplicate(Current(Init(es), k), e.sample)
      then Accepted(Init(es), k) + [e.sample]
      else Accepted(Init(es), k)
  }

  /** The samples of k that repeated the only one of their bar when they arrived, in order. */
  function Repeated(es: seq<Event>, k: InstrumentId): seq<Sample>
    decreases |es|
  {
    if es == [] then []
    else
      var e := Last(es);
      if e.Observes? && e.sample.instrument == k && IsDuplicate(Current(Init(es), k), e.sample)
      then Repeated(Init(es), k) + [e.sample]
      else Repeated(Init(es), k)
  }

  /** What the bar's count and last receive time tell is that it holds one sample, received when s was. */
  lemma RepeatsMeans(bars: Bars, acc: Accounts, s: Sample)
    requires AccountOk(bars, acc, s.instrument)
    ensures Repeats(bars, s) <==> IsDuplicate(AccountOf(acc, s.instrument).open, s)
  {
    if s.instrument in bars {
      FoldMeans(AccountOf(acc, s.instrument).open);
    }
  }

  lemma OpenStep(st: State, e: Event, k: InstrumentId)
    requires AccountOk(st.bars, st.accounts, k)
    ensures var open := AccountOf(st.accounts, k).open;
      AccountOf(Next(st, e).accounts, k).open ==
        match e
        case Removes(j) => if j == k then [] else open
        case Observes(s) =>
          if s.instrument != k || IsDuplicate(open, s) then open
          else if open != [] && Last(open).bucket == s.bucket then open + [s]
          else [s]
  {
    if e.Observes? && e.sample.instrument == k {
      RepeatsMeans(st.bars, st.accounts, e.sample);
    }
  }

  /** In any run the open samples of an account are the current ones of the history. */
  lemma {:induction false} OpenIsCurrent(es: seq<Event>, k: InstrumentId)
    ensures AccountOf(Run(es).accounts, k).open == Current(es, k)
    decreases |es|
  {
    if es != [] {
      OpenIsCurrent(Init(es), k);
      RunKeepsOk(Init(es));
      assert AccountOk(Run(Init(es)).bars, Run(Init(es)).accounts, k);
      OpenStep(Run(Init(es)), Last(es), k);
    }
  }

  /** In any run the aggregator skips a sample exactly when it repeats the only current one. */
  lemma SkipsOnlyDuplicates(es: seq<Event>, s: Sample)
    ensures Repeats(Run(es).bars, s) <==> IsDuplicate(Current(es, s.instrument), s)
  {
    RunKeepsOk(es);
    assert AccountOk(Run(es).bars, Run(es).accounts, s.instrument);
    RepeatsMeans(Run(es).bars, Run(es).accounts, s);
    OpenIsCurrent(es, s.instrument);
  }

  /** What one event adds to an account, in order. */
  lemma StepOrders(st: State, e: Event, k: InstrumentId)
    requires k !in st.bars ==> AccountOf(st.accounts, k).open == []
    ensures var a, b := AccountOf(st.accounts, k), AccountOf(Next(st, e).accounts, k);
      if e.Observes? && e.sample.instrument == k then
        if Repeats(st.bars, e.sample) then Folded(b) == Folded(a) && b.dropped == a.dropped + [e.sample]
        else Folded(b) == Folded(a) + [e.sample] && b.dropped == a.dropped
      else Folded(b) == Folded(a) && b.dropped == a.dropped
  {
    var a, b := AccountOf(st.accounts, k), AccountOf(Next(st, e).accounts, k);
    if e.Observes? && e.sample.instrument == k {
      assert b == Filed(a, st.bars, e.sample);
      ObserveConserves(a, st.bars, e.sample);
    } else if e == Removes(k) && k in st.bars {
      assert b == Close(a, st.bars[k], Flushed, []);
      CloseConserves(a, st.bars[k], Flushed, []);
      assert Folded(a) + [] == Folded(a);
    } else {
      assert b == a;
    }
  }

  lemma {:induction false} AccountIsHistory(es: seq<Event>, k: InstrumentId)
    ensures var a := AccountOf(Run(es).accounts, k); Folded(a) == Accepted(es, k) && a.dropped == Repeated(es, k)
    decreases |es|
  {
    if es != [] {
      AccountIsHistory(Init(es), k);
      RunKeepsOk(Init(es));
      assert AccountOk(Run(Init(es)).bars, Run(Init(es)).accounts, k);
      StepOrders(Run(Init(es)), Last(es), k);
      if Last(es).Observes? && Last(es).sample.instrument == k {
        SkipsOnlyDuplicates(Init(es), Last(es).sample);
      }
    }
  }

  /** Every sample observed was either accepted or repeated. */
  lemma {:induction false} SeenSplits(es: seq<Event>, k: InstrumentId)
    ensures multiset(Seen(es, k)) == multiset(Accepted(es, k)) + multiset(Repeated(es, k))
    decreases |es|
  {
    if es != [] {
      SeenSplits(Init(es), k);
    }
  }

  /**
   * Conservation: whatever the interleaving, the samples accepted for an instrument, in order, are those in its
   * flushed and replaced bars, one bar after the other, then those in the bar in progress; dropped were, in order,
   * exactly those that had the minute and the receive time of the only sample of their bar; and that is every sample
   * observed.
   */
  lemma SamplesConserved(es: seq<Event>, k: InstrumentId)
    ensures var a := AccountOf(Run(es).accounts, k);
      && a.open == Current(es, k)
      && Contents(a.closed) + a.open == Accepted(es, k)
      && a.dropped == Repeated(es, k)
      && multiset(Seen(es, k)) == multiset(Contents(a.closed) + a.open) + multiset(a.dropped)
    ensures AccountOk(Run(es).bars, Run(es).accounts, k)
  {
    OpenIsCurrent(es, k);
    AccountIsHistory(es, k);
    SeenSplits(es, k);
    RunKeepsOk(es);
  }

  /** The samples a run of bars says it holds. */
  function Total(cs: seq<Closed>): nat
    decreases |cs|
  {
    if cs == [] then 0 else Total(Init(cs)) + Last(cs).bar.samples
  }

  ghost predicate Unsaturated(k: InstrumentId, cs: seq<Closed>) {
    forall i :: 0 <= i < |cs| ==> IsFold(k, cs[i].bar, cs[i].samples) && |cs[i].samples| <= U32_MAX
  }

  lemma {:induction false} TotalCounts(k: InstrumentId, cs: seq<Closed>)
    requires Unsaturated(k, cs)
    ensures Total(cs) == |Contents(cs)|
    decreases |cs|
  {
    if cs != [] {
      assert forall i :: 0 <= i < |Init(cs)| ==> Init(cs)[i] == cs[i];
      TotalCounts(k, Init(cs));
      FoldMeans(Last(cs).samples);
    }
  }

  /** Short of saturation: observe calls = samples counted in closed bars and the open one, plus drops. */
  lemma ObservesCounted(es: seq<Event>, k: InstrumentId)
    requires var a := AccountOf(Run(es).accounts, k); |a.open| <= U32_MAX && forall c :: c in a.closed ==> |c.samples| <= U32_MAX
    ensures var a, bars := AccountOf(Run(es).accounts, k), Run(es).bars;
      |Seen(es, k)| == Total(a.closed) + (if k in bars then bars[k].samples else 0) + |a.dropped|
  {
    var a := AccountOf(Run(es).accounts, k);
    SamplesConserved(es, k);
    RunKeepsOk(es);
    assert AccountOk(Run(es).bars, Run(es).accounts, k);
    assert |multiset(Seen(es, k))| == |Folded(a)| + |a.dropped|;
    TotalCounts(k, a.closed);
    if k in Run(es).bars {
      FoldMeans(a.open);
    }
  }

  /** The bar in progress is of the minute of the last sample seen, whatever came before. */
  lemma {:induction false} BarIsOfLastSeen(es: seq<Event>, k: InstrumentId)
    requires k in Run(es).bars
    ensures Seen(es, k) != [] && Run(es).bars[k].bucket == Last(Seen(es, k)).bucket
    decreases |es|
  {
    if es != [] {
      if !(Last(es).Observes? && Last(es).sample.instrument == k) {
        BarIsOfLastSeen(Init(es), k);
      } else {
        ObservedBucket(Run(Init(es)).bars, Last(es).sample);
      }
    }
  }

  lemma ObservedBucket(bars: Bars, s: Sample)
    ensures s.instrument in Observed(bars, s) && Observed(bars, s)[s.instrument].bucket == s.bucket
  {}

  lemma {:induction false} SeenConcat(es: seq<Event>, fs: seq<Event>, k: InstrumentId)
    ensures Seen(es + fs, k) == Seen(es, k) + Seen(fs, k)
    decreases |fs|
  {
    if fs == [] {
      assert es + fs == es;
    } else {
      assert Init(es + fs) == es + Init(fs);
      SeenConcat(es, Init(fs), k);
    }
  }

  /**
   * A flush collected k's bar after `es` and removes it after `between`: it is handed a bar past `upTo` exactly when
   * something was observed for k in between, and the last of it belongs to a later minute.
   */
  lemma OverlappedFlushTakesLaterBar(es: seq<Event>, between: seq<Event>, k: InstrumentId, upTo: Nanos)
    requires k in Run(es).bars && Run(es).bars[k].bucket <= upTo
    requires k in Run(es + between).bars
    ensures Run(es + between).bars[k].bucket > upTo <==> Seen(between, k) != [] && Last(Seen(between, k)).bucket > upTo
  {
    BarIsOfLastSeen(es, k);
    BarIsOfLastSeen(es + between, k);
    SeenConcat(es, between, k);
    if Seen(between, k) == [] {
      assert Seen(es + between, k) == Seen(es, k);
    }
  }

  /** It does happen: the bar collected is replaced and lost to this flush, the one removed is of the next minute. */
  lemma OverlapHappens(a: Sample, b: Sample, upTo: Nanos)
    requires a.instrument == b.instrument && a.bucket <= upTo < b.bucket
    ensures a.instrument in Run([Observes(a)]).bars && Run([Observes(a)]).bars[a.instrument].bucket <= upTo
    ensures AccountOf(Run([Observes(a), Observes(b), Removes(a.instrument)]).accounts, a.instrument).closed ==
      [Closed(StartFromSample(a), [a], Replaced), Closed(StartFromSample(b), [b], Flushed)]
  {
    var es := [Observes(a), Observes(b), Removes(a.instrument)];
    assert Init(es) == [Observes(a), Observes(b)];
    assert Init([Observes(a), Observes(b)]) == [Observes(a)];
    assert Init([Observes(a)]) == [];
    assert Run([]) == State(map[], map[]);
  }

  // The aggregator as an object

  class OiAggregator {
    var bars: Bars
    ghost var accounts: Accounts

    ghost predicate Valid()
      reads this
    {
      Sound(bars, accounts)
    }

    constructor ()
      ensures Valid() && bars == map[] && accounts == map[]
    {
      bars, accounts := map[], map[];
    }

    /** Fold a sample into the bar of its instrument; the bar as it is afterwards. */
    method ObserveSample(sample: Sample) returns (bar: Snapshot)
      requires Valid()
      modifies this
      ensures Valid()
      ensures bars == Observed(old(bars), sample)
      ensures accounts == Booked(old(accounts), old(bars), sample)
      ensures sample.instrument in bars && bar == bars[sample.instrument]
      ensures IsFold(sample.instrument, bar, AccountOf(accounts, sample.instrument).open)
      ensures var a, b := AccountOf(old(accounts), sample.instrument), AccountOf(accounts, sample.instrument);
        if IsDuplicate(a.open, sample) then b == a.(dropped := a.dropped + [sample])
        else
          && b.dropped == a.dropped
          && b.open == (if a.open != [] && Last(a.open).bucket == sample.bucket then a.open else []) + [sample]
    {
      ObserveKeepsOk(bars, accounts, sample);
      assert AccountOk(bars, accounts, sample.instrument);
      RepeatsMeans(bars, accounts, sample);
      accounts := Booked(accounts, bars, sample);
      assert AccountOk(Observed(bars, sample), accounts, sample.instrument);
      var k := sample.instrument;
      if k !in bars {
        bars := bars[k := StartFromSample(sample)];
      }
      if bars[k].bucket == sample.bucket {
        if bars[k].samples == 1 && bars[k].lastRecv == sample.recv {
          return bars[k];
        }
        var folded := Observe(bars[k], sample);
        if folded.Ok? {
          bars := bars[k := folded.value];
        }
        return bars[k];
      }
      bars := bars[k := StartFromSample(sample)];
      bar := bars[k];
    }

    method Remove(k: InstrumentId) returns (r: Option<Snapshot>)
      requires Valid()
      modifies this
      ensures Valid()
      ensures bars == old(bars) - {k} && accounts == Removed(old(accounts), old(bars), k)
      ensures r == if k in old(bars) then Some(old(bars)[k]) else None
    {
      RemoveKeepsOk(bars, accounts, k);
      accounts := Removed(accounts, bars, k);
      r := if k in bars then Some(bars[k]) else None;
      bars := bars - {k};
    }

    /** Collect the keys of the bars to flush, in whatever order the map yields them. */
    method Collect(upTo: Option<Nanos>) returns (keys: seq<InstrumentId>)
      ensures forall k :: k in keys <==> Due(bars, upTo, k)
      ensures forall i, j :: 0 <= i < j < |keys| ==> keys[i] != keys[j]
    {
      keys := [];
      var rest := bars.Keys;
      while rest != {}
        invariant rest <= bars.Keys
        invariant forall k :: k in keys <==> k !in rest && Due(bars, upTo, k)
        invariant forall i, j :: 0 <= i < j < |keys| ==> keys[i] != keys[j]
        decreases rest
      {
        var k :| k in rest;
        rest := rest - {k};
        if Due(bars, upTo, k) {
          keys := keys + [k];
        }
      }
    }

    /** Remove the collected entries one by one. */
    method RemoveEach(keys: seq<InstrumentId>) returns (out: seq<Snapshot>)
      requires Valid()
      requires forall k :: k in keys ==> k in bars
      requires forall i, j :: 0 <= i < j < |keys| ==> keys[i] != keys[j]
      modifies this
      ensures Valid()
      ensures Without(old(bars), old(accounts), bars, accounts, keys)
      ensures out == BarsAt(old(bars), keys)
    {
      out := [];
      var i := 0;
      while i < |keys|
        invariant 0 <= i <= |keys| && Valid()
        invariant out == BarsAt(old(bars), keys[..i])
        invariant Without(old(bars), old(accounts), bars, accounts, keys[..i])
      {
        assert keys[..i + 1] == keys[..i] + [keys[i]];
        assert keys[i] in keys && keys[i] !in keys[..i];
        label before:
        var bar := Remove(keys[i]);
        OneMoreWithout(old(bars), old(accounts), old@before(bars), old@before(accounts), keys[..i], keys[i]);
        if bar.Some? {
          out := out + [bar.value];
        }
        i := i + 1;
      }
      assert keys[..i] == keys;
    }

    /** Without interference a flush takes exactly the bars of its minute and earlier, each once. */
    method FlushThrough(upTo: Nanos) returns (out: seq<Snapshot>, ghost keys: seq<InstrumentId>)
      requires Valid()
      modifies this
      ensures Valid()
      ensures forall i, j :: 0 <= i < j < |keys| ==> keys[i] != keys[j]
      ensures forall k :: k in keys <==> k in old(bars) && old(bars)[k].bucket <= upTo
      ensures out == BarsAt(old(bars), keys)
      ensures Without(old(bars), old(accounts), bars, accounts, keys)
      ensures bars == map k | k in old(bars) && old(bars)[k].bucket > upTo :: old(bars)[k]
    {
      var due := Collect(Some(upTo));
      keys := due;
      out := RemoveEach(due);
    }

    method FlushAll() returns (out: seq<Snapshot>, ghost keys: seq<InstrumentId>)
      requires Valid()
      modifies this
      ensures Valid() && bars == map[]
      ensures forall i, j :: 0 <= i < j < |keys| ==> keys[i] != keys[j]
      ensures forall k :: k in keys <==> k in old(bars)
      ensures out == BarsAt(old(bars), keys)
      ensures Without(old(bars), old(accounts), bars, accounts, keys)
    {
      var all := Collect(None);
      keys := all;
      out := RemoveEach(all);
    }
  }

  predicate Due(bars: Bars, upTo: Option<Nanos>, k: InstrumentId) {
    k in bars && (upTo.Some? ==> bars[k].bucket <= upTo.value)
  }

  function BarsAt(bars: Bars, keys: seq<InstrumentId>): seq<Snapshot>
    requires forall k :: k in keys ==> k in bars
  {
    seq(|keys|, i requires 0 <= i < |keys| => assert keys[i] in keys; bars[keys[i]])
  }

  /** `bars` and `acc` once the bars under `keys` were flushed, everything else as before. */
  ghost predicate Without(bars: Bars, acc: Accounts, bars': Bars, acc': Accounts, keys: seq<InstrumentId>) {
    && (forall k :: k in bars' <==> k in bars && k !in keys)
    && (forall k :: k in bars' ==> bars'[k] == bars[k])
    && (forall k :: AccountOf(acc', k) == Settled(acc, bars, k in keys, k))
  }

  lemma OneMoreWithout(bars: Bars, acc: Accounts, bars': Bars, acc': Accounts, keys: seq<InstrumentId>, k: InstrumentId)
    requires Without(bars, acc, bars', acc', keys) && k !in keys && k in bars
    ensures Without(bars, acc, bars' - {k}, Removed(acc', bars', k), keys + [k])
  {
    forall x ensures AccountOf(Removed(acc', bars', k), x) == Settled(acc, bars, x in keys + [k], x) {
      assert AccountOf(acc', x) == Settled(acc, bars, x in keys, x);
    }
  }
}
