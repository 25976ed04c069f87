/** The one-minute bar: started from a sample, folded sample by sample, and what it says about all of them. */
module Ohlc {
  import opened Base
  import opened OiTypes

  const U32_MAX: nat := 0xFFFF_FFFF

  datatype ObserveError = WrongBar

  /** `saturating_add(1)` on a 32-bit counter. */
  function CountOneMore(n: nat): nat {
    if n >= U32_MAX then U32_MAX else n + 1
  }

  function Flat<T>(v: T): Ohlc<T> {
    Ohlc(v, v, v, v)
  }

  function StartFromSample(s: Sample): Snapshot {
    Snapshot(s.instrument, s.bucket, s.recv, s.recv, 1, s.unit, Flat(s.native), Flat(s.coins), Flat(s.usd), s.price)
  }

  function Stretch(o: Ohlc<Decimal>, v: Decimal): Ohlc<Decimal> {
    Ohlc(o.open, if v > o.high then v else o.high, if v < o.low then v else o.low, v)
  }

  /** A nullable column after one more observation of it. */
  function FoldOptional(o: Ohlc<Option<Decimal>>, incoming: Option<Decimal>): Ohlc<Option<Decimal>> {
    match incoming
    case None => o
    case Some(v) =>
      if o.open == None then Flat(Some(v))
      else Ohlc(
        o.open,
        if o.high.Some? && v > o.high.value then Some(v) else o.high,
        if o.low.Some? && v < o.low.value then Some(v) else o.low,
        Some(v))
  }

  /** The bar after one more sample, or an error when the sample is of another instrument or minute. */
  function Observe(b: Snapshot, s: Sample): Result<Snapshot, ObserveError> {
    if s.instrument != b.instrument || s.bucket != b.bucket then Err(WrongBar)
    else Ok(b.(
      samples := CountOneMore(b.samples),
      lastRecv := s.recv,
      native := Stretch(b.native, s.native),
      coins := FoldOptional(b.coins, s.coins),
      usd := FoldOptional(b.usd, s.usd),
      priceClose := if s.price.Some? then s.price else b.priceClose))
  }

  // The bar as an object

  class OiBar {
    const instrument: InstrumentId
    const bucketTs: Nanos
    const firstRecvTs: Nanos
    const nativeUnit: UnitKind
    const nativeOpen: Decimal
    var lastRecvTs: Nanos
    var samples: nat
    var nativeHigh: Decimal
    var nativeLow: Decimal
    var nativeClose: Decimal
    var oiCoins: Ohlc<Option<Decimal>>
    var oiUsd: Ohlc<Option<Decimal>>
    var priceUsedClose: Option<Decimal>

    function Value(): Snapshot
      reads this
    {
      Snapshot(instrument, bucketTs, firstRecvTs, lastRecvTs, samples, nativeUnit,
               Ohlc(nativeOpen, nativeHigh, nativeLow, nativeClose), oiCoins, oiUsd, priceUsedClose)
    }

    constructor (s: Sample)
      ensures Value() == StartFromSample(s)
    {
      instrument, bucketTs, firstRecvTs, lastRecvTs, samples := s.instrument, s.bucket, s.recv, s.recv, 1;
      nativeUnit, nativeOpen, nativeHigh, nativeLow, nativeClose := s.unit, s.native, s.native, s.native, s.native;
      oiCoins, oiUsd, priceUsedClose := Flat(s.coins), Flat(s.usd), s.price;
    }

    method ObserveSample(s: Sample) returns (r: Result<(), ObserveError>)
      modifies this
      ensures match Observe(old(Value()), s)
              case Ok(b) => r == Ok(()) && Value() == b
              case Err(e) => r == Err(e) && Value() == old(Value())
    {
      if s.instrument != instrument || s.bucket != bucketTs {
        return Err(WrongBar);
      }
      samples := CountOneMore(samples);
      lastRecvTs := s.recv;
      nativeClose := s.native;
      if s.native > nativeHigh {
        nativeHigh := s.native;
      }
      if s.native < nativeLow {
        nativeLow := s.native;
      }
      oiCoins := FoldColumn(oiCoins, s.coins);
      oiUsd := FoldColumn(oiUsd, s.usd);
      if s.price.Some? {
        priceUsedClose := s.price;
      }
      r := Ok(());
    }

    /** The four references of a nullable column are updated in place; here they come in and go out. */
    static method FoldColumn(column: Ohlc<Option<Decimal>>, incoming: Option<Decimal>) returns (r: Ohlc<Option<Decimal>>)
      ensures r == FoldOptional(column, incoming)
    {
      if incoming == None {
        return column;
      }
      var (v, open, high, low, close) := (incoming.value, column.open, column.high, column.low, column.close);
      if open == None {
        return Ohlc(Some(v), Some(v), Some(v), Some(v));
      }
      close := Some(v);
      if high.Some? && v > high.value {
        high := Some(v);
      }
      if low.Some? && v < low.value {
        low := Some(v);
      }
      r := Ohlc(open, high, low, close);
    }
  }

  // What a fold means

  /** The samples all belong to one bar. */
  ghost predicate OneBar(ss: seq<Sample>) {
    forall i, j :: 0 <= i < |ss| && 0 <= j < |ss| ==> ss[i].instrument == ss[j].instrument && ss[i].bucket == ss[j].bucket
  }

  /** Start from the first sample, observe the rest. */
  ghost function Fold(ss: seq<Sample>): (b: Snapshot)
    requires ss != [] && OneBar(ss)
    ensures b.instrument == ss[0].instrument && b.bucket == ss[0].bucket
    decreases |ss|
  {
    if |ss| == 1 then StartFromSample(ss[0])
    else
      assert Init(ss)[0] == ss[0];
      Observe(Fold(Init(ss)), Last(ss)).value
  }

  ghost predicate IsHighest(v: Decimal, vs: seq<Decimal>) {
    v in vs && forall w :: w in vs ==> w <= v
  }

  ghost predicate IsLowest(v: Decimal, vs: seq<Decimal>) {
    v in vs && forall w :: w in vs ==> v <= w
  }

  /** First, greatest, least and last of the values. */
  ghost predicate Summarizes(o: Ohlc<Decimal>, vs: seq<Decimal>) {
    vs != [] && o.open == vs[0] && IsHighest(o.high, vs) && IsLowest(o.low, vs) && o.close == Last(vs)
  }

  /** The same for a nullable column: all four are there, or none is because there was no value. */
  ghost predicate SummarizesPresent(o: Ohlc<Option<Decimal>>, vs: seq<Decimal>) {
    if vs == [] then o == Flat(None)
    else
      && o.open.Some? && o.high.Some? && o.low.Some? && o.close.Some?
      && Summarizes(Ohlc(o.open.value, o.high.value, o.low.value, o.close.value), vs)
  }

  function Natives(ss: seq<Sample>): seq<Decimal> { seq(|ss|, i requires 0 <= i < |ss| => ss[i].native) }
  function Coins(ss: seq<Sample>): seq<Option<Decimal>> { seq(|ss|, i requires 0 <= i < |ss| => ss[i].coins) }
  function Usds(ss: seq<Sample>): seq<Option<Decimal>> { seq(|ss|, i requires 0 <= i < |ss| => ss[i].usd) }
  function Prices(ss: seq<Sample>): seq<Option<Decimal>> { seq(|ss|, i requires 0 <= i < |ss| => ss[i].price) }

  function LastPresent(vs: seq<Decimal>): Option<Decimal> {
    if vs == [] then None else Some(Last(vs))
  }

  function Capped(n: nat): nat {
    if n > U32_MAX then U32_MAX else n
  }

  /** What a bar says about the samples it was folded from. */
  ghost predicate Means(b: Snapshot, ss: seq<Sample>) {
    && ss != []
    && b.firstRecv == ss[0].recv && b.lastRecv == Last(ss).recv
    && b.unit == ss[0].unit
    && b.samples == Capped(|ss|)
    && Summarizes(b.native, Natives(ss))
    && SummarizesPresent(b.coins, Present(Coins(ss)))
    && SummarizesPresent(b.usd, Present(Usds(ss)))
    && b.priceClose == LastPresent(Present(Prices(ss)))
  }

  lemma StretchSummarizes(o: Ohlc<Decimal>, vs: seq<Decimal>, v: Decimal)
    requires Summarizes(o, vs)
    ensures Summarizes(Stretch(o, v), vs + [v])
  {
    assert (vs + [v])[|vs|] == v;
    assert forall w :: w in vs + [v] <==> w in vs || w == v;
  }

  lemma FlatSummarizes(v: Decimal)
    ensures Summarizes(Flat(v), [v])
  {
    assert [v][0] == v;
  }

  lemma FoldOptionalSummarizes(o: Ohlc<Option<Decimal>>, vs: seq<Option<Decimal>>, v: Option<Decimal>)
    requires SummarizesPresent(o, Present(vs))
    ensures SummarizesPresent(FoldOptional(o, v), Present(vs + [v]))
  {
    PresentSnoc(vs, v);
    if v.Some? {
      if Present(vs) == [] {
        FlatSummarizes(v.value);
      } else {
        StretchSummarizes(Ohlc(o.open.value, o.high.value, o.low.value, o.close.value), Present(vs), v.value);
      }
    }
  }

  lemma FlatSummarizesPresent(v: Option<Decimal>)
    ensures SummarizesPresent(Flat(v), Present([v]))
    ensures v == LastPresent(Present([v]))
  {
    PresentSnoc([], v);
    assert [] + [v] == [v];
    if v.Some? {
      FlatSummarizes(v.value);
      assert Present([v]) == [v.value];
    }
  }

  lemma StartMeans(s: Sample)
    ensures Means(StartFromSample(s), [s])
  {
    FlatSummarizes(s.native);
    FlatSummarizesPresent(s.coins);
    FlatSummarizesPresent(s.usd);
    FlatSummarizesPresent(s.price);
    assert Natives([s]) == [s.native];
    assert Coins([s]) == [s.coins] && Usds([s]) == [s.usd] && Prices([s]) == [s.price];
  }

  lemma ObserveMeans(b: Snapshot, ss: seq<Sample>, s: Sample)
    requires Means(b, ss) && s.instrument == b.instrument && s.bucket == b.bucket
    ensures Means(Observe(b, s).value, ss + [s])
  {
    assert Natives(ss + [s]) == Natives(ss) + [s.native];
    assert Coins(ss + [s]) == Coins(ss) + [s.coins];
    assert Usds(ss + [s]) == Usds(ss) + [s.usd];
    assert Prices(ss + [s]) == Prices(ss) + [s.price];
    PresentSnoc(Prices(ss), s.price);
    StretchSummarizes(b.native, Natives(ss), s.native);
    FoldOptionalSummarizes(b.coins, Coins(ss), s.coins);
    FoldOptionalSummarizes(b.usd, Usds(ss), s.usd);
  }

  /** A bar is, column by column, the first, greatest, least and last of the values its samples carried. */
  lemma {:induction false} FoldMeans(ss: seq<Sample>)
    requires ss != [] && OneBar(ss)
    ensures Means(Fold(ss), ss)
    decreases |ss|
  {
    if |ss| == 1 {
      assert ss == [ss[0]];
      StartMeans(ss[0]);
    } else {
      assert ss == Init(ss) + [Last(ss)];
      FoldMeans(Init(ss));
      ObserveMeans(Fold(Init(ss)), Init(ss), Last(ss));
    }
  }

  /** One sample more. */
  lemma FoldSnoc(ss: seq<Sample>, s: Sample)
    requires ss != [] && OneBar(ss)
    requires s.instrument == ss[0].instrument && s.bucket == ss[0].bucket
    ensures OneBar(ss + [s]) && Observe(Fold(ss), s) == Ok(Fold(ss + [s]))
  {
    assert forall i :: 0 <= i < |ss + [s]| ==> (ss + [s])[i].instrument == s.instrument && (ss + [s])[i].bucket == s.bucket;
    assert Init(ss + [s]) == ss;
  }

  /** No other bar says the same about the samples, apart from the instrument and the minute it is for. */
  lemma MeaningIsUnique(a: Snapshot, b: Snapshot, ss: seq<Sample>)
    requires Means(a, ss) && Means(b, ss)
    ensures a == b.(instrument := a.instrument, bucket := a.bucket)
  {
    SummaryIsUnique(a.native, b.native, Natives(ss));
    PresentIsUnique(a.coins, b.coins, Present(Coins(ss)));
    PresentIsUnique(a.usd, b.usd, Present(Usds(ss)));
  }

  lemma SummaryIsUnique(o: Ohlc<Decimal>, p: Ohlc<Decimal>, vs: seq<Decimal>)
    requires Summarizes(o, vs) && Summarizes(p, vs)
    ensures o == p
  {
    assert o.high in vs && p.high in vs && o.low in vs && p.low in vs;
  }

  lemma PresentIsUnique(o: Ohlc<Option<Decimal>>, p: Ohlc<Option<Decimal>>, vs: seq<Decimal>)
    requires SummarizesPresent(o, vs) && SummarizesPresent(p, vs)
    ensures o == p
  {
    if vs != [] {
      SummaryIsUnique(Ohlc(o.open.value, o.high.value, o.low.value, o.close.value),
                      Ohlc(p.open.value, p.high.value, p.low.value, p.close.value), vs);
    }
  }

  lemma BarBounds(o: Ohlc<Decimal>, vs: seq<Decimal>)
    requires Summarizes(o, vs)
    ensures o.low <= o.open <= o.high && o.low <= o.close <= o.high
  {
    assert vs[0] in vs && Last(vs) in vs;
  }
}
