/** The batch endpoint: per-item queries with bounded concurrency, results in the order of the items. */
module RunBatch {
  import opened Base
  import opened FanOut
  import opened OiTypes

  const BATCH_CONCURRENCY: nat := 16

  datatype Item = Item(id: InstrumentId, from: Nanos, to: Nanos)

  datatype BatchEntry<P> = BatchEntry(exchange: Exchange, symbol: string, error: Option<string>, payload: P)

  /** The entry for an item whose query had this outcome. */
  function EntryFor<T, P>(item: Item, out: Result<seq<T>, string>, finalize: seq<T> -> P, empty: P): BatchEntry<P> {
    match out
    case Ok(rows) => BatchEntry(item.id.exchange, item.id.symbol, None, finalize(rows))
    case Err(e) => BatchEntry(item.id.exchange, item.id.symbol, Some(e), empty)
  }

  /** The entry names its item, and holds either all of its rows, finalized, or its error and the empty payload. */
  ghost predicate AnswersItem<T, P>(entry: BatchEntry<P>, item: Item, out: Result<seq<T>, string>, finalize: seq<T> -> P,
      empty: P)
  {
    && entry.exchange == item.id.exchange && entry.symbol == item.id.symbol
    && (entry.error == None <==> out.Ok?)
    && (out.Ok? ==> entry.payload == finalize(out.value))
    && (out.Err? ==> entry.error == Some(out.error) && entry.payload == empty)
  }

  function Sequential<T, P>(items: seq<Item>, outs: seq<Result<seq<T>, string>>, finalize: seq<T> -> P,
      empty: P): seq<BatchEntry<P>>
    requires |items| == |outs|
  {
    seq(|items|, i requires 0 <= i < |items| => EntryFor(items[i], outs[i], finalize, empty))
  }

  /** The slots of finished items are filled with their entries, the others are empty. */
  ghost predicate Filled<P>(slots: seq<Option<BatchEntry<P>>>, entries: seq<BatchEntry<P>>, done: seq<nat>) {
    && |slots| == |entries|
    && forall i :: 0 <= i < |slots| ==> slots[i] == if i in done then Some(entries[i]) else None
  }

  lemma FinishFills<P>(slots: seq<Option<BatchEntry<P>>>, entries: seq<BatchEntry<P>>, done: seq<nat>, done': seq<nat>, i: nat)
    requires Filled(slots, entries, done) && i < |slots| && done' == done + [i]
    ensures Filled(slots[i := Some(entries[i])], entries, done')
  {}

  /**
   * Queries complete in any order and with any outcome (`outs[i]` is item i's); the answer is that of running
   * them one after the other. Every slot is filled in the end, so taking the entries out cannot fail.
   */
  method Run<T, P>(items: seq<Item>, outs: seq<Result<seq<T>, string>>, finalize: seq<T> -> P, empty: P)
    returns (entries: seq<BatchEntry<P>>, ghost steps: seq<Step>)
    requires |outs| == |items|
    ensures entries == Sequential(items, outs, finalize, empty)
    ensures |entries| == |items|
    ensures forall i :: 0 <= i < |items| ==> AnswersItem(entries[i], items[i], outs[i], finalize, empty)
    ensures FansOut(steps, |items|, BATCH_CONCURRENCY)
  {
    var total := |items|;
    ghost var expected := Sequential(items, outs, finalize, empty);
    var results := new Option<BatchEntry<P>>[total](_ => None);
    var next, inflight;
    next, inflight, steps := Prime(total, BATCH_CONCURRENCY);
    while inflight != multiset{}
      invariant next <= total && |inflight| <= BATCH_CONCURRENCY
      invariant next < total ==> |inflight| == BATCH_CONCURRENCY
      invariant Tracks(steps, next, inflight, BATCH_CONCURRENCY)
      invariant Filled(results[..], expected, Finished(steps))
      decreases total - next, |inflight|
    {
      ghost var before := steps;
      var idx;
      idx, next, inflight, steps := Advance(total, BATCH_CONCURRENCY, next, inflight, steps);
      FinishFills(results[..], expected, Finished(before), Finished(steps), idx);
      results[idx] := Some(EntryFor(items[idx], outs[idx], finalize, empty));
    }
    DoneTracks(steps, total, BATCH_CONCURRENCY);
    entries := Unwrap(results, expected);
  }

  /** Take the entries out of their slots, all of which are filled. */
  method Unwrap<P>(slots: array<Option<BatchEntry<P>>>,
      ghost expected: seq<BatchEntry<P>>) returns (entries: seq<BatchEntry<P>>)
    requires slots.Length == |expected| && forall i :: 0 <= i < slots.Length ==> slots[i] == Some(expected[i])
    ensures entries == expected
  {
    entries := [];
    for i := 0 to slots.Length
      invariant entries == expected[..i]
    {
      entries := entries + [slots[i].value];
    }
  }
}
