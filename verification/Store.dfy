/** The target store: one row per (instrument, bucket), the last write wins. */
module Store {
  import opened Base
  import opened OiTypes

  type Batch = seq<Snapshot>

  datatype Key = Key(instrument: InstrumentId, bucket: Nanos)

  type Rows = map<Key, Snapshot>

  function KeyOf(s: Snapshot): Key {
    Key(s.instrument, s.bucket)
  }

  /** The rows after a whole batch was written. */
  function Upsert(rows: Rows, batch: Batch): Rows
    decreases |batch|
  {
    if batch == [] then rows else Upsert(rows[KeyOf(batch[0]) := batch[0]], batch[1..])
  }

  /** The rows of a batch whose positions are in `which`, in order. */
  function Part(batch: Batch, which: set<nat>): Batch
    decreases |batch|
  {
    if batch == [] then []
    else
      var init := Part(batch[..|batch| - 1], which);
      if |batch| - 1 in which then init + [batch[|batch| - 1]] else init
  }

  /** Batches written one after the other. */
  function UpsertAll(rows: Rows, batches: seq<Batch>): Rows
    decreases |batches|
  {
    if batches == [] then rows else UpsertAll(Upsert(rows, batches[0]), batches[1..])
  }

  function Overlay(batch: Batch): Rows {
    Upsert(map[], batch)
  }

  lemma {:induction false} UpsertIsOverlay(rows: Rows, batch: Batch)
    ensures Upsert(rows, batch) == rows + Overlay(batch)
    decreases |batch|
  {
    if batch != [] {
      var k, s := KeyOf(batch[0]), batch[0];
      UpsertIsOverlay(rows[k := s], batch[1..]);
      UpsertIsOverlay(map[k := s], batch[1..]);
    }
  }

  lemma {:induction false} OverlayKeys(batch: Batch)
    ensures Overlay(batch).Keys == set s | s in batch :: KeyOf(s)
    decreases |batch|
  {
    if batch != [] {
      OverlayKeys(batch[1..]);
      UpsertIsOverlay(map[KeyOf(batch[0]) := batch[0]], batch[1..]);
      assert batch == [batch[0]] + batch[1..];
    }
  }

  lemma {:induction false} PartMembers(batch: Batch, which: set<nat>)
    ensures forall s :: s in Part(batch, which) ==> s in batch
    decreases |batch|
  {
    if batch != [] {
      PartMembers(batch[..|batch| - 1], which);
    }
  }

  /** A full write hides any earlier partial write of the same batch, and so any repetition of it. */
  lemma PartialThenFull(rows: Rows, batch: Batch, which: set<nat>)
    ensures Upsert(Upsert(rows, Part(batch, which)), batch) == Upsert(rows, batch)
  {
    var part := Part(batch, which);
    PartMembers(batch, which);
    OverlayKeys(batch);
    OverlayKeys(part);
    UpsertIsOverlay(rows, part);
    UpsertIsOverlay(rows, batch);
    UpsertIsOverlay(rows + Overlay(part), batch);
  }

  lemma Repeat(rows: Rows, batch: Batch)
    ensures Upsert(Upsert(rows, batch), batch) == Upsert(rows, batch)
  {
    UpsertIsOverlay(rows, batch);
    UpsertIsOverlay(rows + Overlay(batch), batch);
  }

  lemma {:induction false} UpsertAllConcat(rows: Rows, a: seq<Batch>, b: seq<Batch>)
    ensures UpsertAll(rows, a + b) == UpsertAll(UpsertAll(rows, a), b)
    decreases |a|
  {
    if a == [] {
      assert a + b == b;
    } else {
      assert (a + b)[1..] == a[1..] + b;
      UpsertAllConcat(Upsert(rows, a[0]), a[1..], b);
    }
  }

  /** The last row of the batch with key k. */
  function LastWith(batch: Batch, k: Key): (r: Option<Snapshot>)
    ensures r.Some? ==> KeyOf(r.value) == k && r.value in batch
    ensures r.None? ==> forall s :: s in batch ==> KeyOf(s) != k
    decreases |batch|
  {
    if batch == [] then None
    else
      var init, last := batch[..|batch| - 1], batch[|batch| - 1];
      assert batch == init + [last];
      if KeyOf(last) == k then Some(last) else LastWith(init, k)
  }

  lemma {:induction false} UpsertSnoc(rows: Rows, init: Batch, last: Snapshot)
    ensures Upsert(rows, init + [last]) == Upsert(rows, init)[KeyOf(last) := last]
    decreases |init|
  {
    if init == [] {
      assert [last][1..] == [];
    } else {
      assert (init + [last])[1..] == init[1..] + [last];
      UpsertSnoc(rows[KeyOf(init[0]) := init[0]], init[1..], last);
    }
  }

  /** What a write means key by key: the last row of the batch with that key, or what was there before. */
  lemma {:induction false} LastRowStored(rows: Rows, batch: Batch, k: Key)
    ensures var r := Upsert(rows, batch);
      match LastWith(batch, k)
      case Some(s) => k in r && r[k] == s
      case None => SameAt(r, rows, k)
    decreases |batch|
  {
    if batch != [] {
      var init, last := batch[..|batch| - 1], batch[|batch| - 1];
      assert batch == init + [last];
      UpsertSnoc(rows, init, last);
      LastRowStored(rows, init, k);
    }
  }

  /** The row belongs to this instrument and this minute. */
  predicate IsRowOf(s: Snapshot, instrument: InstrumentId, bucket: Nanos) {
    s.instrument == instrument && s.bucket == bucket
  }

  /** Two rows compete for one place in the store iff they agree in instrument and minute. */
  lemma PlaceIsInstrumentAndMinute(a: Snapshot, b: Snapshot)
    ensures KeyOf(a) == KeyOf(b) <==> IsRowOf(b, a.instrument, a.bucket)
  {}

  /** No later row of the batch is of the same instrument and minute. */
  ghost predicate IsLastOfItsMinute(batch: Batch, j: nat)
    requires j < |batch|
  {
    forall m :: j < m < |batch| ==> !IsRowOf(batch[m], batch[j].instrument, batch[j].bucket)
  }

  /**
   * An upsert keeps one row per instrument and minute: of the batch's rows for it the last, and where the batch has
   * none, whatever was stored before.
   */
  lemma LastWriteWins(rows: Rows, batch: Batch, instrument: InstrumentId, bucket: Nanos)
    ensures var r, k := Upsert(rows, batch), Key(instrument, bucket);
      && (forall j :: 0 <= j < |batch| && IsRowOf(batch[j], instrument, bucket) && IsLastOfItsMinute(batch, j) ==>
           k in r && r[k] == batch[j])
      && ((forall j :: 0 <= j < |batch| ==> !IsRowOf(batch[j], instrument, bucket)) ==>
           (k in r <==> k in rows) && (k in r ==> r[k] == rows[k]))
  {
    var r, k := Upsert(rows, batch), Key(instrument, bucket);
    LastRowStored(rows, batch, k);
    forall j | 0 <= j < |batch| && IsRowOf(batch[j], instrument, bucket) && IsLastOfItsMinute(batch, j)
      ensures k in r && r[k] == batch[j]
    {
      LastWithIs(batch, j);
    }
  }

  lemma {:induction false} LastWithIs(batch: Batch, j: nat)
    requires j < |batch| && IsLastOfItsMinute(batch, j)
    ensures LastWith(batch, KeyOf(batch[j])) == Some(batch[j])
    decreases |batch|
  {
    var init, last := batch[..|batch| - 1], batch[|batch| - 1];
    if j < |init| {
      PlaceIsInstrumentAndMinute(batch[j], last);
      assert forall m :: j < m < |init| ==> init[m] == batch[m];
      LastWithIs(init, j);
    }
  }

  /** The chosen positions of the batch, in order, once each. */
  ghost predicate Chooses(at: seq<nat>, n: nat, which: set<nat>) {
    && (forall i :: 0 <= i < |at| ==> at[i] < n && at[i] in which)
    && (forall i, j :: 0 <= i < j < |at| ==> at[i] < at[j])
    && (forall p :: p in which && p < n ==> p in at)
  }

  /** A part of a batch is its rows at the chosen positions, in the order of the batch. */
  lemma {:induction false} PartIsChoice(batch: Batch, which: set<nat>) returns (at: seq<nat>)
    ensures Chooses(at, |batch|, which) && |Part(batch, which)| == |at|
    ensures forall i :: 0 <= i < |at| ==> Part(batch, which)[i] == batch[at[i]]
    decreases |batch|
  {
    at := [];
    if batch != [] {
      at := PartIsChoice(batch[..|batch| - 1], which);
      if |batch| - 1 in which {
        at := at + [|batch| - 1];
      }
    }
  }

  // What later writes hide

  function KeysIn(batch: Batch): set<Key> {
    set s | s in batch :: KeyOf(s)
  }

  function KeysOfAll(batches: seq<Batch>): set<Key>
    decreases |batches|
  {
    if batches == [] then {} else KeysIn(batches[0]) + KeysOfAll(batches[1..])
  }

  predicate SameAt(a: Rows, b: Rows, k: Key) {
    (k in a <==> k in b) && (k in a ==> a[k] == b[k])
  }

  /** The two stores differ at most under keys in `ks`. */
  ghost predicate AgreeOff(a: Rows, b: Rows, ks: set<Key>) {
    forall k :: k !in ks ==> SameAt(a, b, k)
  }

  /** A write makes two stores agree under its keys. */
  lemma UpsertHides(a: Rows, b: Rows, batch: Batch, ks: set<Key>)
    requires AgreeOff(a, b, ks)
    ensures AgreeOff(Upsert(a, batch), Upsert(b, batch), ks - KeysIn(batch))
  {
    UpsertIsOverlay(a, batch);
    UpsertIsOverlay(b, batch);
    OverlayKeys(batch);
    forall k | k !in ks - KeysIn(batch) ensures SameAt(Upsert(a, batch), Upsert(b, batch), k) {
      if k !in KeysIn(batch) {
        assert SameAt(a, b, k);
      }
    }
  }

  /** Writes hide whatever differed under their keys. */
  lemma {:induction false} UpsertAllHides(a: Rows, b: Rows, batches: seq<Batch>, ks: set<Key>)
    requires AgreeOff(a, b, ks) && ks <= KeysOfAll(batches)
    ensures UpsertAll(a, batches) == UpsertAll(b, batches)
    decreases |batches|
  {
    if batches == [] {
      forall k ensures k in a <==> k in b {
        assert SameAt(a, b, k);
      }
      assert forall k :: k in a ==> SameAt(a, b, k);
      assert a == b;
    } else {
      UpsertHides(a, b, batches[0], ks);
      UpsertAllHides(Upsert(a, batches[0]), Upsert(b, batches[0]), batches[1..], ks - KeysIn(batches[0]));
    }
  }

  /** A write, whole or in part, changes rows under its own keys only. */
  lemma PartStaysWithin(a: Rows, b: Rows, batch: Batch, which: set<nat>, ks: set<Key>)
    requires AgreeOff(a, b, ks) && KeysIn(batch) <= ks
    ensures AgreeOff(Upsert(a, batch), b, ks) && AgreeOff(Upsert(a, Part(batch, which)), b, ks)
  {
    PartMembers(batch, which);
    WithinKeys(a, b, batch, ks);
    WithinKeys(a, b, Part(batch, which), ks);
  }

  lemma WithinKeys(a: Rows, b: Rows, batch: Batch, ks: set<Key>)
    requires AgreeOff(a, b, ks) && KeysIn(batch) <= ks
    ensures AgreeOff(Upsert(a, batch), b, ks)
  {
    UpsertIsOverlay(a, batch);
    OverlayKeys(batch);
    forall k | k !in ks ensures SameAt(Upsert(a, batch), b, k) {
      assert SameAt(a, b, k);
    }
  }
}
