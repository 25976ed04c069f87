/** Bybit ticker frames merged into the state of a symbol: emit open interest only when it changes. */
module BybitMerge {
  import opened Base
  import opened OiTypes

  datatype FrameType = SnapshotFrame | DeltaFrame

  /** The decimal fields a frame carries, as far as they can be read. */
  datatype Frame = Frame(kind: FrameType, openInterest: Option<Decimal>, markPrice: Option<Decimal>, lastPrice: Option<Decimal>)

  function Or(a: Option<Decimal>, b: Option<Decimal>): Option<Decimal> {
    if a.Some? then a else b
  }

  function LastPresent(vs: seq<Option<Decimal>>): Option<Decimal> {
    if Present(vs) == [] then None else Some(Last(Present(vs)))
  }

  function Interests(fs: seq<Frame>): seq<Option<Decimal>> { seq(|fs|, i requires 0 <= i < |fs| => fs[i].openInterest) }
  function Marks(fs: seq<Frame>): seq<Option<Decimal>> { seq(|fs|, i requires 0 <= i < |fs| => fs[i].markPrice) }
  function Lasts(fs: seq<Frame>): seq<Option<Decimal>> { seq(|fs|, i requires 0 <= i < |fs| => fs[i].lastPrice) }

  /** Adjacent repeats removed. */
  function Squeezed(xs: seq<Decimal>): seq<Decimal>
    decreases |xs|
  {
    if xs == [] then []
    else if |xs| >= 2 && xs[|xs| - 2] == Last(xs) then Squeezed(Init(xs))
    else Squeezed(Init(xs)) + [Last(xs)]
  }

  lemma SqueezedSnoc(xs: seq<Decimal>, x: Decimal)
    ensures Squeezed(xs + [x]) == if xs != [] && Last(xs) == x then Squeezed(xs) else Squeezed(xs) + [x]
  {
    assert Init(xs + [x]) == xs;
    if xs != [] {
      assert (xs + [x])[|xs| - 1] == Last(xs);
    }
  }

  /** What the frames emit: the open interest values without repeats. */
  function Emits(fs: seq<Frame>): seq<Decimal> {
    Squeezed(Present(Interests(fs)))
  }

  lemma LastPresentSnoc(vs: seq<Option<Decimal>>, v: Option<Decimal>)
    ensures LastPresent(vs + [v]) == Or(v, LastPresent(vs))
  {
    PresentSnoc(vs, v);
  }

  lemma EmitsSnoc(vs: seq<Option<Decimal>>, v: Option<Decimal>)
    ensures Squeezed(Present(vs + [v])) ==
      if v.Some? && LastPresent(vs) != v then Squeezed(Present(vs)) + [v.value] else Squeezed(Present(vs))
  {
    PresentSnoc(vs, v);
    if v.Some? {
      SqueezedSnoc(Present(vs), v.value);
    }
  }

  /** One frame more: each field takes the frame's value if it has one, and a new open interest is emitted. */
  lemma OneMoreFrame(fs: seq<Frame>, f: Frame)
    ensures LastPresent(Interests(fs + [f])) == Or(f.openInterest, LastPresent(Interests(fs)))
    ensures LastPresent(Marks(fs + [f])) == Or(f.markPrice, LastPresent(Marks(fs)))
    ensures LastPresent(Lasts(fs + [f])) == Or(f.lastPrice, LastPresent(Lasts(fs)))
    ensures Emits(fs + [f]) ==
      if f.openInterest.Some? && LastPresent(Interests(fs)) != f.openInterest then Emits(fs) + [f.openInterest.value] else Emits(fs)
  {
    assert Interests(fs + [f]) == Interests(fs) + [f.openInterest];
    assert Marks(fs + [f]) == Marks(fs) + [f.markPrice];
    assert Lasts(fs + [f]) == Lasts(fs) + [f.lastPrice];
    LastPresentSnoc(Interests(fs), f.openInterest);
    LastPresentSnoc(Marks(fs), f.markPrice);
    LastPresentSnoc(Lasts(fs), f.lastPrice);
    EmitsSnoc(Interests(fs), f.openInterest);
  }

  class SymbolState {
    var openInterest: Option<Decimal>
    var markPrice: Option<Decimal>
    var lastPrice: Option<Decimal>
    /** Every frame merged so far, and every value handed out. */
    ghost var frames: seq<Frame>
    ghost var emitted: seq<Decimal>

    /** Each field is its last present value, and what was emitted is the open interest without repeats. */
    ghost predicate Valid()
      reads this
    {
      && openInterest == LastPresent(Interests(frames))
      && markPrice == LastPresent(Marks(frames))
      && lastPrice == LastPresent(Lasts(frames))
      && emitted == Emits(frames)
    }

    constructor ()
      ensures Valid() && frames == [] && emitted == []
    {
      openInterest, markPrice, lastPrice := None, None, None;
      frames, emitted := [], [];
    }

    method Merge(f: Frame) returns (r: Option<Decimal>)
      requires Valid()
      modifies this
      ensures Valid() && frames == old(frames) + [f]
      ensures emitted == if r.Some? then old(emitted) + [r.value] else old(emitted)
      ensures openInterest == Or(f.openInterest, old(openInterest))
      ensures markPrice == Or(f.markPrice, old(markPrice)) && lastPrice == Or(f.lastPrice, old(lastPrice))
    {
      OneMoreFrame(frames, f);
      var prev := openInterest;
      if f.kind == SnapshotFrame {
        openInterest := Or(f.openInterest, openInterest);
        markPrice := Or(f.markPrice, markPrice);
        lastPrice := Or(f.lastPrice, lastPrice);
      } else {
        if f.openInterest.Some? { openInterest := f.openInterest; }
        if f.markPrice.Some? { markPrice := f.markPrice; }
        if f.lastPrice.Some? { lastPrice := f.lastPrice; }
      }
      r := if prev.Some? && openInterest.Some? && prev.value == openInterest.value then None else openInterest;
      frames := frames + [f];
      emitted := if r.Some? then emitted + [r.value] else emitted;
    }
  }

  /** `at[i]` says where element i of xs went: repeats share a place, others take the next one. */
  ghost predicate SqueezesTo(xs: seq<Decimal>, ys: seq<Decimal>, at: seq<nat>) {
    && |at| == |xs|
    && (forall i :: 0 <= i < |xs| ==> at[i] < |ys| && ys[at[i]] == xs[i])
    && (forall i, j :: 0 <= i < |xs| && j == i + 1 && j < |xs| ==> at[j] == if xs[j] == xs[i] then at[i] else at[i] + 1)
    && (if xs == [] then ys == [] else at[0] == 0 && at[|xs| - 1] == |ys| - 1)
  }

  ghost predicate NoEqualNeighbours(ys: seq<Decimal>) {
    forall i, j :: 0 <= i < |ys| && j == i + 1 && j < |ys| ==> ys[i] != ys[j]
  }

  lemma SqueezeStep(xs: seq<Decimal>, ys: seq<Decimal>, zs: seq<Decimal>, at: seq<nat>, x: Decimal)
    requires SqueezesTo(xs, ys, at) && NoEqualNeighbours(ys)
    requires zs == if xs != [] && Last(xs) == x then ys else ys + [x]
    ensures zs != [] && SqueezesTo(xs + [x], zs, at + [|zs| - 1]) && NoEqualNeighbours(zs)
  {
    if xs != [] {
      assert ys[at[|xs| - 1]] == Last(xs);
    }
  }

  /** Squeezing merges each run of equal neighbours into one, keeps the order, and leaves no equal neighbours. */
  lemma {:induction false} SqueezedMeaning(xs: seq<Decimal>) returns (at: seq<nat>)
    ensures SqueezesTo(xs, Squeezed(xs), at) && NoEqualNeighbours(Squeezed(xs))
    decreases |xs|
  {
    if xs == [] {
      at := [];
    } else {
      var init, x := Init(xs), Last(xs);
      at := SqueezedMeaning(init);
      assert xs == init + [x];
      SqueezedSnoc(init, x);
      SqueezeStep(init, Squeezed(init), Squeezed(xs), at, x);
      at := at + [|Squeezed(xs)| - 1];
    }
  }

  /** The same frames, all of them deltas. */
  function AsDeltas(fs: seq<Frame>): seq<Frame> {
    seq(|fs|, i requires 0 <= i < |fs| => fs[i].(kind := DeltaFrame))
  }

  /** Whether a frame is a snapshot or a delta makes no difference to the state or to what is emitted. */
  method SnapshotsAreDeltas(fs: seq<Frame>) returns (a: SymbolState, b: SymbolState)
    ensures a.frames == fs && b.frames == AsDeltas(fs)
    ensures a.openInterest == b.openInterest && a.markPrice == b.markPrice && a.lastPrice == b.lastPrice
    ensures a.emitted == b.emitted
  {
    a := MergeAll(fs);
    b := MergeAll(AsDeltas(fs));
    assert Interests(AsDeltas(fs)) == Interests(fs) && Marks(AsDeltas(fs)) == Marks(fs) && Lasts(AsDeltas(fs)) == Lasts(fs);
  }

  method MergeAll(fs: seq<Frame>) returns (s: SymbolState)
    ensures fresh(s) && s.Valid() && s.frames == fs
  {
    s := new SymbolState();
    for i := 0 to |fs|
      invariant fresh(s) && s.Valid() && s.frames == fs[..i]
    {
      var emitted := s.Merge(fs[i]);
    }
  }
}
