/** A batch codec: values written to bytes and taken off again, built up from the parts of a snapshot. */
module Codec {
  import opened Base
  import opened OiTypes
  import opened Register
  import opened Store

  /** `put` writes a value; `take` takes one off the front and returns what follows it. */
  datatype Codec<!T> = Codec(put: T -> seq<byte>, take: seq<byte> -> Option<(T, seq<byte>)>)

  /** What was put is what is taken, whatever follows it. */
  ghost predicate Lawful<T(!new)>(c: Codec<T>) {
    forall t, rest :: c.take(c.put(t) + rest) == Some((t, rest))
  }

  // Sequences: every element behind a 1, a 0 at the end

  function PutAll<T>(c: Codec<T>, ts: seq<T>): seq<byte>
    decreases |ts|
  {
    if ts == [] then [0] else [1] + (c.put(ts[0]) + PutAll(c, ts[1..]))
  }

  function TakeAll<T>(c: Codec<T>, s: seq<byte>): Option<(seq<T>, seq<byte>)>
    decreases |s|
  {
    if s == [] then None
    else if s[0] == 0 then Some(([], s[1..]))
    else
      match c.take(s[1..])
      case None => None
      case Some(first) =>
        if |first.1| >= |s| then None
        else
          match TakeAll(c, first.1)
          case None => None
          case Some(others) => Some(([first.0] + others.0, others.1))
  }

  lemma {:induction false} TakeAllPut<T(!new)>(c: Codec<T>, ts: seq<T>, rest: seq<byte>)
    requires Lawful(c)
    ensures TakeAll(c, PutAll(c, ts) + rest) == Some((ts, rest))
    decreases |ts|
  {
    var s := PutAll(c, ts) + rest;
    if ts == [] {
      assert s[1..] == rest;
    } else {
      var behind := PutAll(c, ts[1..]) + rest;
      assert s[1..] == c.put(ts[0]) + behind;
      assert c.take(c.put(ts[0]) + behind) == Some((ts[0], behind));
      TakeAllPut(c, ts[1..], rest);
      assert [ts[0]] + ts[1..] == ts;
    }
  }

  function SeqOf<T>(c: Codec<T>): Codec<seq<T>> {
    Codec(ts => PutAll(c, ts), s => TakeAll(c, s))
  }

  lemma SeqLawful<T(!new)>(c: Codec<T>)
    requires Lawful(c)
    ensures Lawful(SeqOf(c))
  {
    forall ts, rest ensures SeqOf(c).take(SeqOf(c).put(ts) + rest) == Some((ts, rest)) {
      TakeAllPut(c, ts, rest);
    }
  }

  // Pairs, and values that stand for others

  function TakePair<A, B>(a: Codec<A>, b: Codec<B>, s: seq<byte>): Option<((A, B), seq<byte>)> {
    match a.take(s)
    case None => None
    case Some(x) =>
      match b.take(x.1)
      case None => None
      case Some(y) => Some(((x.0, y.0), y.1))
  }

  function Both<A, B>(a: Codec<A>, b: Codec<B>): Codec<(A, B)> {
    Codec((p: (A, B)) => a.put(p.0) + b.put(p.1), s => TakePair(a, b, s))
  }

  lemma BothLawful<A(!new), B(!new)>(a: Codec<A>, b: Codec<B>)
    requires Lawful(a) && Lawful(b)
    ensures Lawful(Both(a, b))
  {
    var c := Both(a, b);
    forall p: (A, B), rest ensures c.take(c.put(p) + rest) == Some((p, rest)) {
      assert c.put(p) + rest == a.put(p.0) + (b.put(p.1) + rest);
      assert a.take(a.put(p.0) + (b.put(p.1) + rest)) == Some((p.0, b.put(p.1) + rest));
      assert b.take(b.put(p.1) + rest) == Some((p.1, rest));
    }
  }

  function TakeAs<A, B>(a: Codec<A>, view: A -> Option<B>, s: seq<byte>): Option<(B, seq<byte>)> {
    match a.take(s)
    case None => None
    case Some(x) => match view(x.0) case None => None case Some(b) => Some((b, x.1))
  }

  /** Bs written as As. */
  function Via<A, B>(a: Codec<A>, from: B -> A, view: A -> Option<B>): Codec<B> {
    Codec(b => a.put(from(b)), s => TakeAs(a, view, s))
  }

  lemma ViaLawful<A(!new), B(!new)>(a: Codec<A>, from: B -> A, view: A -> Option<B>)
    requires Lawful(a) && forall b :: view(from(b)) == Some(b)
    ensures Lawful(Via(a, from, view))
  {
    var c := Via(a, from, view);
    forall b, rest ensures c.take(c.put(b) + rest) == Some((b, rest)) {
      assert a.take(a.put(from(b)) + rest) == Some((from(b), rest));
    }
  }

  // Numbers and characters

  function PutUnit(u: ()): seq<byte> {
    []
  }

  function TakeUnit(s: seq<byte>): Option<((), seq<byte>)> {
    Some(((), s))
  }

  function UnitCodec(): Codec<()> {
    Codec(PutUnit, TakeUnit)
  }

  /** An integer as a count: 0, -1, 1, -2, 2, and so on. */
  function Units(i: int): seq<()> {
    seq(if i < 0 then -2 * i - 1 else 2 * i, k => ())
  }

  function Counted(us: seq<()>): Option<int> {
    Some(if |us| % 2 == 0 then |us| / 2 else -(|us| / 2) - 1)
  }

  lemma CountedUnits(i: int)
    ensures Counted(Units(i)) == Some(i)
  {
    if i < 0 {
      assert |Units(i)| == 2 * (-i - 1) + 1;
    } else {
      assert |Units(i)| == 2 * i;
    }
  }

  function IntCodec(): Codec<int> {
    Via(SeqOf(UnitCodec()), Units, Counted)
  }

  lemma UnitLawful()
    ensures Lawful(UnitCodec())
  {
    forall u: (), rest: seq<byte> ensures TakeUnit(PutUnit(u) + rest) == Some((u, rest)) {
      assert PutUnit(u) + rest == rest;
      assert u == ();
    }
  }

  lemma IntLawful()
    ensures Lawful(IntCodec())
  {
    UnitLawful();
    SeqLawful(UnitCodec());
    forall i ensures Counted(Units(i)) == Some(i) {
      CountedUnits(i);
    }
    ViaLawful(SeqOf(UnitCodec()), Units, Counted);
  }

  function CodePoint(c: char): int {
    c as int
  }

  function CharOf(n: int): Option<char> {
    if 0 <= n < 0xD800 || 0xE000 <= n < 0x11_0000 then Some(n as char) else None
  }

  function CharCodec(): Codec<char> {
    Via(IntCodec(), CodePoint, CharOf)
  }

  function StringCodec(): Codec<string> {
    SeqOf(CharCodec())
  }

  lemma StringLawful()
    ensures Lawful(StringCodec())
  {
    IntLawful();
    ViaLawful(IntCodec(), CodePoint, CharOf);
    SeqLawful(CharCodec());
  }

  // Optional numbers and groups of four

  function AsSeq(o: Option<Decimal>): seq<int> {
    match o case None => [] case Some(d) => [d]
  }

  function AsOption(s: seq<int>): Option<Option<Decimal>> {
    if s == [] then Some(None) else if |s| == 1 then Some(Some(s[0])) else None
  }

  function MaybeCodec(): Codec<Option<Decimal>> {
    Via(SeqOf(IntCodec()), AsSeq, AsOption)
  }

  lemma MaybeLawful()
    ensures Lawful(MaybeCodec())
  {
    IntLawful();
    SeqLawful(IntCodec());
    ViaLawful(SeqOf(IntCodec()), AsSeq, AsOption);
  }

  function FourOf<T>(o: Ohlc<T>): ((T, T), (T, T)) {
    ((o.open, o.high), (o.low, o.close))
  }

  function OhlcOf<T>(f: ((T, T), (T, T))): Option<Ohlc<T>> {
    Some(Ohlc(f.0.0, f.0.1, f.1.0, f.1.1))
  }

  function OhlcCodec<T>(c: Codec<T>): Codec<Ohlc<T>> {
    Via(Both(Both(c, c), Both(c, c)), (o: Ohlc<T>) => FourOf(o), (f: ((T, T), (T, T))) => OhlcOf(f))
  }

  lemma OhlcLawful<T(!new)>(c: Codec<T>)
    requires Lawful(c)
    ensures Lawful(OhlcCodec(c))
  {
    BothLawful(c, c);
    BothLawful(Both(c, c), Both(c, c));
    ViaLawful(Both(Both(c, c), Both(c, c)), (o: Ohlc<T>) => FourOf(o), (f: ((T, T), (T, T))) => OhlcOf(f));
  }

  // Snapshots

  const UNITS: seq<UnitKind> := [Coins, Contracts, Usd]

  function UnitIndex(u: UnitKind): (i: nat)
    ensures i < |UNITS| && UNITS[i] == u
  {
    match u
    case Coins => 0
    case Contracts => 1
    case Usd => 2
  }

  /** The numbers of a snapshot that are always there. */
  function Numbers(s: Snapshot): seq<int> {
    [Rank(s.instrument.exchange), s.bucket, s.firstRecv, s.lastRecv, s.samples, UnitIndex(s.unit)]
  }

  type Parts = ((seq<int>, string), ((Ohlc<Decimal>, Ohlc<Option<Decimal>>), (Ohlc<Option<Decimal>>, Option<Decimal>)))

  function PartsOf(s: Snapshot): Parts {
    ((Numbers(s), s.instrument.symbol), ((s.native, s.coins), (s.usd, s.priceClose)))
  }

  function SnapshotOf(p: Parts): Option<Snapshot> {
    var n := p.0.0;
    if |n| == 6 && 0 <= n[0] < |ALL_EXCHANGES| && n[4] >= 0 && 0 <= n[5] < |UNITS|
    then Some(Snapshot(InstrumentId(ALL_EXCHANGES[n[0]], p.0.1), n[1], n[2], n[3], n[4], UNITS[n[5]],
                       p.1.0.0, p.1.0.1, p.1.1.0, p.1.1.1))
    else None
  }

  function PartsCodec(): Codec<Parts> {
    Both(Both(SeqOf(IntCodec()), StringCodec()),
         Both(Both(OhlcCodec(IntCodec()), OhlcCodec(MaybeCodec())), Both(OhlcCodec(MaybeCodec()), MaybeCodec())))
  }

  lemma PartsLawful()
    ensures Lawful(PartsCodec())
  {
    IntLawful();
    SeqLawful(IntCodec());
    StringLawful();
    MaybeLawful();
    OhlcLawful(IntCodec());
    OhlcLawful(MaybeCodec());
    BothLawful(SeqOf(IntCodec()), StringCodec());
    BothLawful(OhlcCodec(IntCodec()), OhlcCodec(MaybeCodec()));
    BothLawful(OhlcCodec(MaybeCodec()), MaybeCodec());
    BothLawful(Both(OhlcCodec(IntCodec()), OhlcCodec(MaybeCodec())), Both(OhlcCodec(MaybeCodec()), MaybeCodec()));
    BothLawful(Both(SeqOf(IntCodec()), StringCodec()),
               Both(Both(OhlcCodec(IntCodec()), OhlcCodec(MaybeCodec())), Both(OhlcCodec(MaybeCodec()), MaybeCodec())));
  }

  function SnapshotCodec(): Codec<Snapshot> {
    Via(PartsCodec(), PartsOf, SnapshotOf)
  }

  lemma SnapshotLawful()
    ensures Lawful(SnapshotCodec())
  {
    PartsLawful();
    ViaLawful(PartsCodec(), PartsOf, SnapshotOf);
  }

  // Batches

  function Encode(b: Batch): seq<byte> {
    PutAll(SnapshotCodec(), b)
  }

  function Decode(s: seq<byte>): Option<Batch> {
    match TakeAll(SnapshotCodec(), s)
    case None => None
    case Some(r) => if r.1 == [] then Some(r.0) else None
  }

  /** Every batch reads back as it was written. */
  lemma RoundTrips(b: Batch)
    ensures Decode(Encode(b)) == Some(b)
  {
    SnapshotLawful();
    TakeAllPut(SnapshotCodec(), b, []);
    assert Encode(b) + [] == Encode(b);
  }
}
