/** Draining the queue into the store: one cycle, any number of cycles, and what the store ends up with. */
module Drain {
  import opened Base
  import opened Register
  import Frame
  import opened WalNames
  import opened FileWal
  import opened Store

  type Decoder = seq<byte> -> Option<Batch>

  /** What a file's bytes are taken to hold; None when they cannot be read. */
  type Reader = seq<byte> -> Option<Batch>

  function ReaderOf(decode: Decoder): Reader {
    bytes => match Frame.Read(decode, bytes)
             case Ok(batch) => Some(batch)
             case Err(_) => None
  }

  /** How the store answers one upsert: taken and acked, taken but not acked, or refused with some rows written. */
  datatype Outcome = Accepted | Unacked | Refused(applied: set<nat>)

  /** What goes wrong in one cycle: the answer per file (Accepted when absent), and renames that fail. */
  datatype Faults = Faults(answers: map<string, Outcome>, stuck: set<string>)

  datatype Queue = Queue(files: Dir, rows: Rows)

  function Answer(f: Faults, name: string): Outcome {
    if name in f.answers then f.answers[name] else Accepted
  }

  /** One file of a cycle; the flag says whether the cycle goes on. */
  function DrainFile(read: Reader, f: Faults, q: Queue, name: string): (Queue, bool)
    requires IsPending(name)
  {
    if name !in q.files then (q, true)
    else match read(q.files[name])
      case None => (if name in f.stuck then q else q.(files := Quarantined(q.files, name)), true)
      case Some(batch) =>
        match Answer(f, name)
        case Accepted => (Queue(q.files - {name}, Upsert(q.rows, batch)), true)
        case Unacked => (q.(rows := Upsert(q.rows, batch)), false)
        case Refused(applied) => (q.(rows := Upsert(q.rows, Part(batch, applied))), false)
  }

  /** A cycle over a listing; the flag is its result. */
  function DrainList(read: Reader, f: Faults, q: Queue, list: seq<string>): (Queue, bool)
    requires forall n :: n in list ==> IsPending(n)
    decreases |list|
  {
    if list == [] then (q, true)
    else
      var (q', goOn) := DrainFile(read, f, q, list[0]);
      if goOn then DrainList(read, f, q', list[1..]) else (q', false)
  }

  ghost function DrainCycle(read: Reader, f: Faults, q: Queue): (Queue, bool) {
    DrainList(read, f, q, Listing(PendingIn(q.files)))
  }

  class Target {
    var rows: Rows

    constructor (rows: Rows)
      ensures this.rows == rows
    {
      this.rows := rows;
    }

    method Upsert(batch: Batch, answer: Outcome) returns (ok: bool)
      modifies this
      ensures ok <==> !answer.Refused?
      ensures rows == if answer.Refused? then Store.Upsert(old(rows), Part(batch, answer.applied)) else Store.Upsert(old(rows), batch)
    {
      rows := Store.Upsert(rows, if answer.Refused? then Part(batch, answer.applied) else batch);
      ok := !answer.Refused?;
    }
  }

  /** Read one file, hand it to the store, ack it; or set it aside when it cannot be read. */
  method DrainOne(wal: FileWal, target: Target, decode: Decoder, f: Faults, name: string) returns (goOn: bool)
    requires IsPending(name)
    modifies wal, target
    ensures (Queue(wal.files, target.rows), goOn) == DrainFile(ReaderOf(decode), f, Queue(old(wal.files), old(target.rows)), name)
  {
    var read := wal.ReadFile(decode, name);
    if read.Err? {
      wal.Quarantine(name, f.stuck);
      return true;
    }
    var answer := Answer(f, name);
    var taken := target.Upsert(read.value, answer);
    if !taken {
      return false;
    }
    var acked := wal.Ack(name, if answer.Unacked? then {name} else {});
    goOn := acked.Ok?;
  }

  /** Replay every pending file, oldest first; quarantine what cannot be read; stop at the first failure. */
  method DrainOnce(wal: FileWal, target: Target, decode: Decoder, f: Faults) returns (ok: bool)
    modifies wal, target
    ensures (Queue(wal.files, target.rows), ok) == DrainCycle(ReaderOf(decode), f, Queue(old(wal.files), old(target.rows)))
  {
    var pending := wal.Pending();
    assert forall n :: n in pending ==> n in PendingIn(wal.files) && IsPending(n);
    ghost var read, q0 := ReaderOf(decode), Queue(wal.files, target.rows);
    var i := 0;
    while i < |pending|
      invariant 0 <= i <= |pending|
      invariant forall n :: n in pending[i..] ==> IsPending(n)
      invariant DrainList(read, f, q0, pending) == DrainList(read, f, Queue(wal.files, target.rows), pending[i..])
    {
      assert pending[i..][0] == pending[i] && pending[i..][1..] == pending[i + 1..];
      var goOn := DrainOne(wal, target, decode, f, pending[i]);
      if !goOn {
        return false;
      }
      i := i + 1;
    }
    ok := true;
  }

  // The backlog

  ghost predicate IsReadable(read: Reader, files: Dir, n: string) {
    n in files && IsPending(n) && read(files[n]).Some?
  }

  ghost function ReadableNames(read: Reader, files: Dir): set<string> {
    set n | n in files && IsReadable(read, files, n)
  }

  ghost function BatchIn(read: Reader, files: Dir, n: string): Batch
    requires IsReadable(read, files, n)
  {
    read(files[n]).value
  }

  ghost function Batches(read: Reader, files: Dir, list: seq<string>): seq<Batch>
    requires forall n :: n in list ==> IsReadable(read, files, n)
    decreases |list|
  {
    if list == [] then [] else [BatchIn(read, files, list[0])] + Batches(read, files, list[1..])
  }

  /** The batches still queued, oldest first. */
  ghost function Backlog(read: Reader, files: Dir): seq<Batch> {
    Batches(read, files, Listing(ReadableNames(read, files)))
  }

  /** What the store would hold if the whole backlog were written now, each readable file once. */
  ghost function Replayed(read: Reader, q: Queue): Rows {
    UpsertAll(q.rows, Backlog(read, q.files))
  }

  lemma {:induction false} BatchesSame(read: Reader, a: Dir, b: Dir, list: seq<string>)
    requires forall n :: n in list ==> IsReadable(read, a, n) && n in b && a[n] == b[n]
    ensures forall n :: n in list ==> IsReadable(read, b, n)
    ensures Batches(read, a, list) == Batches(read, b, list)
    decreases |list|
  {
    if list != [] {
      BatchesSame(read, a, b, list[1..]);
    }
  }

  /** Changing anything but readable pending files leaves the backlog alone. */
  lemma BacklogSame(read: Reader, a: Dir, b: Dir)
    requires ReadableNames(read, a) == ReadableNames(read, b)
    requires forall n :: n in ReadableNames(read, a) ==> a[n] == b[n]
    ensures Backlog(read, a) == Backlog(read, b)
  {
    BatchesSame(read, a, b, Listing(ReadableNames(read, a)));
  }

  lemma ConsLists(n: string, rest: seq<string>, names: set<string>)
    requires Lists(rest, names - {n}) && n in names
    requires forall m :: m in names && m != n ==> Less(n, m)
    ensures Listing(names) == [n] + rest
  {
    SortedCons(n, rest);
    ListingUnique(Listing(names), [n] + rest, names);
  }

  /** Taking the oldest readable file off the queue takes the first batch off the backlog. */
  lemma BacklogHead(read: Reader, files: Dir, n: string)
    requires IsReadable(read, files, n)
    requires forall m :: m in ReadableNames(read, files) && m != n ==> Less(n, m)
    ensures Backlog(read, files) == [BatchIn(read, files, n)] + Backlog(read, files - {n})
  {
    var names, left := ReadableNames(read, files), files - {n};
    assert ReadableNames(read, left) == names - {n};
    var rest := Listing(names - {n});
    ConsLists(n, rest, names);
    BatchesSame(read, left, files, rest);
    assert ([n] + rest)[1..] == rest;
  }

  lemma QuarantineKeepsReadable(read: Reader, files: Dir, n: string)
    requires n in files && IsPending(n) && !IsReadable(read, files, n)
    ensures Backlog(read, Quarantined(files, n)) == Backlog(read, files)
    ensures ReadableNames(read, Quarantined(files, n)) == ReadableNames(read, files)
  {
    var after := Quarantined(files, n);
    OtherNamesNotPending(n);
    forall m ensures IsReadable(read, after, m) <==> IsReadable(read, files, m) {
      if m != n && m != CorruptName(n) {
        assert m in after <==> m in files;
      }
    }
    assert ReadableNames(read, after) == ReadableNames(read, files);
    BacklogSame(read, files, after);
  }

  /** The oldest batch may be written in full or in part before the rest of the backlog: the replay hides it. */
  lemma HeadWrites(rows: Rows, batch: Batch, rest: seq<Batch>, applied: set<nat>)
    ensures UpsertAll(Upsert(rows, batch), rest) == UpsertAll(rows, [batch] + rest)
    ensures UpsertAll(Upsert(rows, batch), [batch] + rest) == UpsertAll(rows, [batch] + rest)
    ensures UpsertAll(Upsert(rows, Part(batch, applied)), [batch] + rest) == UpsertAll(rows, [batch] + rest)
  {
    assert ([batch] + rest)[1..] == rest;
    Repeat(rows, batch);
    PartialThenFull(rows, batch, applied);
  }

  lemma ReadableKeepsReplayed(read: Reader, f: Faults, q: Queue, n: string)
    requires IsReadable(read, q.files, n)
    requires forall m :: m in ReadableNames(read, q.files) && m != n ==> Less(n, m)
    ensures Replayed(read, DrainFile(read, f, q, n).0) == Replayed(read, q)
  {
    BacklogHead(read, q.files, n);
    var applied := if Answer(f, n).Refused? then Answer(f, n).applied else {};
    HeadWrites(q.rows, BatchIn(read, q.files, n), Backlog(read, q.files - {n}), applied);
  }

  /** One file of a cycle, the oldest readable one or an unreadable one, leaves the replayed store as it was. */
  lemma FileKeepsReplayed(read: Reader, f: Faults, q: Queue, n: string)
    requires IsPending(n)
    requires forall m :: m in ReadableNames(read, q.files) && m != n ==> Less(n, m)
    ensures Replayed(read, DrainFile(read, f, q, n).0) == Replayed(read, q)
  {
    if IsReadable(read, q.files, n) {
      ReadableKeepsReplayed(read, f, q, n);
    } else if n in q.files && n !in f.stuck {
      QuarantineKeepsReadable(read, q.files, n);
    }
  }

  lemma FileShrinksReadable(read: Reader, f: Faults, q: Queue, n: string)
    requires IsPending(n)
    ensures var (q', goOn) := DrainFile(read, f, q, n);
      && ReadableNames(read, q'.files) <= ReadableNames(read, q.files)
      && (goOn ==> n !in ReadableNames(read, q'.files))
  {
    if IsReadable(read, q.files, n) {
      assert forall m :: IsReadable(read, q.files - {n}, m) ==> IsReadable(read, q.files, m);
    } else if n in q.files && n !in f.stuck {
      QuarantineKeepsReadable(read, q.files, n);
    }
  }

  /** A cycle leaves the replayed store as it was, and one that ends well leaves nothing readable behind. */
  lemma {:induction false} ListKeepsReplayed(read: Reader, f: Faults, q: Queue, list: seq<string>)
    requires forall n :: n in list ==> IsPending(n)
    requires Sorted(list) && forall n :: n in ReadableNames(read, q.files) ==> n in list
    ensures var (q', ok) := DrainList(read, f, q, list);
      && Replayed(read, q') == Replayed(read, q)
      && ReadableNames(read, q'.files) <= ReadableNames(read, q.files)
      && (ok ==> ReadableNames(read, q'.files) == {})
    decreases |list|
  {
    if list != [] {
      var n := list[0];
      forall m | m in ReadableNames(read, q.files) && m != n ensures Less(n, m) {
        var i :| 0 <= i < |list| && list[i] == m;
      }
      FileKeepsReplayed(read, f, q, n);
      FileShrinksReadable(read, f, q, n);
      var (q', goOn) := DrainFile(read, f, q, n);
      if goOn {
        assert list == [n] + list[1..];
        ListKeepsReplayed(read, f, q', list[1..]);
      }
    }
  }

  lemma CycleKeepsReplayed(read: Reader, f: Faults, q: Queue)
    ensures var (q', ok) := DrainCycle(read, f, q);
      && Replayed(read, q') == Replayed(read, q)
      && (ok ==> ReadableNames(read, q'.files) == {})
  {
    ListKeepsReplayed(read, f, q, Listing(PendingIn(q.files)));
  }

  // The order of replay

  /** The batches of the named files, in the order given. */
  function BatchesOf(all: map<string, Batch>, list: seq<string>): seq<Batch>
    requires forall n :: n in list ==> n in all
    decreases |list|
  {
    if list == [] then [] else [all[list[0]]] + BatchesOf(all, list[1..])
  }

  /** All the batches in the order of their files' names. */
  ghost function InOrder(all: map<string, Batch>): seq<Batch> {
    BatchesOf(all, Listing(all.Keys))
  }

  ghost function AllIn(read: Reader, files: Dir): map<string, Batch> {
    map n | n in files && IsReadable(read, files, n) :: BatchIn(read, files, n)
  }

  lemma {:induction false} BatchesOfConcat(all: map<string, Batch>, a: seq<string>, b: seq<string>)
    requires forall n :: n in a ==> n in all
    requires forall n :: n in b ==> n in all
    ensures BatchesOf(all, a + b) == BatchesOf(all, a) + BatchesOf(all, b)
    decreases |a|
  {
    if a == [] {
      assert a + b == b;
    } else {
      assert (a + b)[1..] == a[1..] + b;
      BatchesOfConcat(all, a[1..], b);
    }
  }

  lemma {:induction false} BatchesOfSame(all: map<string, Batch>, more: map<string, Batch>, list: seq<string>)
    requires forall n :: n in list ==> n in all && n in more && more[n] == all[n]
    ensures BatchesOf(more, list) == BatchesOf(all, list)
    decreases |list|
  {
    if list != [] {
      BatchesOfSame(all, more, list[1..]);
    }
  }

  lemma {:induction false} BatchesAre(read: Reader, files: Dir, all: map<string, Batch>, list: seq<string>)
    requires forall n :: n in list ==> IsReadable(read, files, n) && n in all && all[n] == BatchIn(read, files, n)
    ensures BatchesOf(all, list) == Batches(read, files, list)
    decreases |list|
  {
    if list != [] {
      BatchesAre(read, files, all, list[1..]);
    }
  }

  lemma {:induction false} KeysOfBatches(read: Reader, files: Dir, list: seq<string>, k: Key)
    requires forall n :: n in list ==> IsReadable(read, files, n)
    ensures k in KeysOfAll(Batches(read, files, list)) <==> exists n :: n in list && k in KeysIn(BatchIn(read, files, n))
    decreases |list|
  {
    if list != [] {
      KeysOfBatches(read, files, list[1..], k);
      assert list == [list[0]] + list[1..];
      var b := BatchIn(read, files, list[0]);
      var bs := Batches(read, files, list);
      assert bs[0] == b && bs[1..] == Batches(read, files, list[1..]);
    }
  }

  /** The keys the backlog will write are those of the readable files. */
  lemma BacklogKeys(read: Reader, files: Dir, k: Key)
    ensures k in KeysOfAll(Backlog(read, files)) <==>
      exists n :: n in ReadableNames(read, files) && k in KeysIn(BatchIn(read, files, n))
  {
    var list := Listing(ReadableNames(read, files));
    KeysOfBatches(read, files, list, k);
  }

  /** `done` holds each name once, and none that is still readable. */
  ghost predicate Apart(done: seq<string>, rest: set<string>) {
    Distinct(done) && forall m :: m in done ==> m !in rest
  }

  /** `done` was taken off the queue in order, and everything still readable sorts after it. */
  ghost predicate InTurn(done: seq<string>, rest: set<string>) {
    Sorted(done) && forall m, n :: m in done && n in rest ==> Less(m, n)
  }

  /** Every file in `all` is done or still readable, with its batch. */
  ghost predicate Covers(read: Reader, files: Dir, done: seq<string>, all: map<string, Batch>) {
    && (forall m :: m in done ==> m in all)
    && (forall m :: m in ReadableNames(read, files) ==> m in all && all[m] == BatchIn(read, files, m))
    && (forall m :: m in all ==> m in done || m in ReadableNames(read, files))
  }

  /** The store is what writing the done files once each made it, but for keys the backlog will write anyway. */
  ghost predicate Accounts(read: Reader, rows: Rows, q: Queue, done: seq<string>, all: map<string, Batch>) {
    && Covers(read, q.files, done, all)
    && Apart(done, ReadableNames(read, q.files))
    && AgreeOff(q.rows, UpsertAll(rows, BatchesOf(all, done)), KeysOfAll(Backlog(read, q.files)))
  }

  /** Then replaying the backlog gives what writing the done files and then the readable ones, each once, gives. */
  lemma AccountsReplay(read: Reader, rows: Rows, q: Queue, done: seq<string>, all: map<string, Batch>)
    requires Accounts(read, rows, q, done, all)
    ensures var order := done + Listing(ReadableNames(read, q.files));
      && (forall m :: m in order <==> m in all)
      && Replayed(read, q) == UpsertAll(rows, BatchesOf(all, order))
  {
    var list := Listing(ReadableNames(read, q.files));
    BatchesOfConcat(all, done, list);
    BatchesAre(read, q.files, all, list);
    UpsertAllConcat(rows, BatchesOf(all, done), Backlog(read, q.files));
    var backlog := Backlog(read, q.files);
    UpsertAllHides(q.rows, UpsertAll(rows, BatchesOf(all, done)), backlog, KeysOfAll(backlog));
  }

  // One file of a cycle, a cycle, an arrival

  /** The name, if its file is taken off the queue: delivered and removed. */
  function DoneFile(read: Reader, f: Faults, q: Queue, n: string): seq<string> {
    if n in q.files && read(q.files[n]).Some? && Answer(f, n).Accepted? then [n] else []
  }

  /** The names a cycle over a listing takes off the queue. */
  function DoneList(read: Reader, f: Faults, q: Queue, list: seq<string>): seq<string>
    requires forall n :: n in list ==> IsPending(n)
    decreases |list|
  {
    if list == [] then []
    else
      var (q', goOn) := DrainFile(read, f, q, list[0]);
      DoneFile(read, f, q, list[0]) + if goOn then DoneList(read, f, q', list[1..]) else []
  }

  lemma TakenAccounts(read: Reader, rows: Rows, q: Queue, done: seq<string>, all: map<string, Batch>, n: string)
    requires Accounts(read, rows, q, done, all) && IsReadable(read, q.files, n)
    requires forall m :: m in ReadableNames(read, q.files) && m != n ==> Less(n, m)
    ensures Accounts(read, rows, Queue(q.files - {n}, Upsert(q.rows, BatchIn(read, q.files, n))), done + [n], all)
  {
    var b, left := BatchIn(read, q.files, n), q.files - {n};
    assert n in ReadableNames(read, q.files);
    TakenCovers(read, q.files, done, all, n);
    TakenBase(rows, all, done, n);
    BacklogHead(read, q.files, n);
    TakenAgrees(q.rows, UpsertAll(rows, BatchesOf(all, done)), b, Backlog(read, left));
  }

  lemma TakenCovers(read: Reader, files: Dir, done: seq<string>, all: map<string, Batch>, n: string)
    requires Covers(read, files, done, all) && Apart(done, ReadableNames(read, files)) && IsReadable(read, files, n)
    ensures Covers(read, files - {n}, done + [n], all) && Apart(done + [n], ReadableNames(read, files - {n}))
  {
    assert n in ReadableNames(read, files);
    assert forall m :: IsReadable(read, files - {n}, m) <==> IsReadable(read, files, m) && m != n;
  }

  lemma TakenBase(rows: Rows, all: map<string, Batch>, done: seq<string>, n: string)
    requires n in all && forall m :: m in done ==> m in all
    ensures UpsertAll(rows, BatchesOf(all, done + [n])) == Upsert(UpsertAll(rows, BatchesOf(all, done)), all[n])
  {
    BatchesOfConcat(all, done, [n]);
    assert BatchesOf(all, [n]) == [all[n]];
    UpsertAllConcat(rows, BatchesOf(all, done), [all[n]]);
    assert [all[n]][1..] == [];
  }

  lemma TakenAgrees(a: Rows, b: Rows, head: Batch, rest: seq<Batch>)
    requires AgreeOff(a, b, KeysOfAll([head] + rest))
    ensures AgreeOff(Upsert(a, head), Upsert(b, head), KeysOfAll(rest))
  {
    assert ([head] + rest)[1..] == rest;
    UpsertHides(a, b, head, KeysOfAll([head] + rest));
  }

  lemma SortedSnoc(done: seq<string>, n: string)
    requires Sorted(done) && forall m :: m in done ==> Less(m, n)
    ensures Sorted(done + [n])
  {
    var list := done + [n];
    forall i, j | 0 <= i < j < |list| ensures Less(list[i], list[j]) {
      assert list[i] == done[i] && done[i] in done;
    }
  }

  lemma WrittenAccounts(read: Reader, rows: Rows, q: Queue, done: seq<string>, all: map<string, Batch>, n: string, which: set<nat>)
    requires Accounts(read, rows, q, done, all) && IsReadable(read, q.files, n)
    ensures var b := BatchIn(read, q.files, n);
      && Accounts(read, rows, q.(rows := Upsert(q.rows, b)), done, all)
      && Accounts(read, rows, q.(rows := Upsert(q.rows, Part(b, which))), done, all)
  {
    var b, ks := BatchIn(read, q.files, n), KeysOfAll(Backlog(read, q.files));
    forall k | k in KeysIn(b) ensures k in ks {
      BacklogKeys(read, q.files, k);
      assert n in ReadableNames(read, q.files);
    }
    PartStaysWithin(q.rows, UpsertAll(rows, BatchesOf(all, done)), b, which, ks);
  }

  lemma QuarantineAccounts(read: Reader, rows: Rows, q: Queue, done: seq<string>, all: map<string, Batch>, n: string)
    requires Accounts(read, rows, q, done, all) && n in q.files && IsPending(n) && !IsReadable(read, q.files, n)
    ensures Accounts(read, rows, q.(files := Quarantined(q.files, n)), done, all)
  {
    QuarantineKeepsReadable(read, q.files, n);
    OtherNamesNotPending(n);
  }

  lemma ReadableAccounts(read: Reader, rows: Rows, f: Faults, q: Queue, done: seq<string>, all: map<string, Batch>, n: string)
    requires Accounts(read, rows, q, done, all) && IsReadable(read, q.files, n)
    requires forall m :: m in ReadableNames(read, q.files) && m != n ==> Less(n, m)
    ensures Accounts(read, rows, DrainFile(read, f, q, n).0, done + DoneFile(read, f, q, n), all)
  {
    if Answer(f, n).Accepted? {
      TakenAccounts(read, rows, q, done, all, n);
    } else {
      assert done + [] == done;
      WrittenAccounts(read, rows, q, done, all, n, if Answer(f, n).Refused? then Answer(f, n).applied else {});
    }
  }

  lemma UnreadableAccounts(read: Reader, rows: Rows, f: Faults, q: Queue, done: seq<string>, all: map<string, Batch>, n: string)
    requires Accounts(read, rows, q, done, all) && IsPending(n) && !IsReadable(read, q.files, n)
    ensures Accounts(read, rows, DrainFile(read, f, q, n).0, done + DoneFile(read, f, q, n), all)
  {
    assert done + [] == done;
    if n in q.files {
      QuarantineAccounts(read, rows, q, done, all, n);
    }
  }

  lemma FileAccounts(read: Reader, rows: Rows, f: Faults, q: Queue, done: seq<string>, all: map<string, Batch>, n: string)
    requires Accounts(read, rows, q, done, all) && IsPending(n)
    requires forall m :: m in ReadableNames(read, q.files) && m != n ==> Less(n, m)
    ensures Accounts(read, rows, DrainFile(read, f, q, n).0, done + DoneFile(read, f, q, n), all)
  {
    if IsReadable(read, q.files, n) {
      ReadableAccounts(read, rows, f, q, done, all, n);
    } else {
      UnreadableAccounts(read, rows, f, q, done, all, n);
    }
  }

  /** A cycle takes the oldest readable file first, so it keeps the order of names. */
  lemma FileInTurn(read: Reader, f: Faults, q: Queue, done: seq<string>, n: string)
    requires InTurn(done, ReadableNames(read, q.files)) && IsPending(n)
    requires forall m :: m in ReadableNames(read, q.files) && m != n ==> Less(n, m)
    ensures InTurn(done + DoneFile(read, f, q, n), ReadableNames(read, DrainFile(read, f, q, n).0.files))
  {
    FileShrinksReadable(read, f, q, n);
    if DoneFile(read, f, q, n) == [] {
      assert done + [] == done;
    } else {
      assert n in ReadableNames(read, q.files);
      SortedSnoc(done, n);
    }
  }

  /** The first file of a listing; what is readable after it stands in the rest of the listing. */
  lemma HeadAccounts(read: Reader, rows: Rows, f: Faults, q: Queue, done: seq<string>, all: map<string, Batch>, list: seq<string>)
    requires Accounts(read, rows, q, done, all) && list != [] && IsPending(list[0])
    requires Sorted(list) && forall n :: n in ReadableNames(read, q.files) ==> n in list
    ensures var (q', goOn) := DrainFile(read, f, q, list[0]);
      && Accounts(read, rows, q', done + DoneFile(read, f, q, list[0]), all)
      && (goOn ==> forall n :: n in ReadableNames(read, q'.files) ==> n in list[1..])
  {
    var (q', goOn) := DrainFile(read, f, q, list[0]);
    HeadIsOldest(list, ReadableNames(read, q.files));
    FileAccounts(read, rows, f, q, done, all, list[0]);
    FileShrinksReadable(read, f, q, list[0]);
    if goOn {
      TailLists(list, ReadableNames(read, q'.files));
    }
  }

  lemma HeadIsOldest(list: seq<string>, names: set<string>)
    requires list != [] && Sorted(list) && forall n :: n in names ==> n in list
    ensures forall n :: n in names && n != list[0] ==> Less(list[0], n)
  {
    forall n | n in names && n != list[0] ensures Less(list[0], n) {
      var i :| 0 <= i < |list| && list[i] == n;
    }
  }

  lemma TailLists(list: seq<string>, names: set<string>)
    requires list != [] && list[0] !in names && forall n :: n in names ==> n in list
    ensures forall n :: n in names ==> n in list[1..]
  {
    assert list == [list[0]] + list[1..];
  }

  lemma Regrouped(a: seq<string>, b: seq<string>, c: seq<string>)
    ensures a + (b + c) == (a + b) + c && a + (b + []) == a + b
  {}

  lemma {:induction false} ListAccounts(read: Reader, rows: Rows, f: Faults, q: Queue, done: seq<string>, all: map<string, Batch>,
                                        list: seq<string>)
    requires Accounts(read, rows, q, done, all)
    requires forall n :: n in list ==> IsPending(n)
    requires Sorted(list) && forall n :: n in ReadableNames(read, q.files) ==> n in list
    ensures Accounts(read, rows, DrainList(read, f, q, list).0, done + DoneList(read, f, q, list), all)
    decreases |list|
  {
    if list == [] {
      assert done + [] == done;
    } else {
      HeadAccounts(read, rows, f, q, done, all, list);
      var (q', goOn) := DrainFile(read, f, q, list[0]);
      var one := DoneFile(read, f, q, list[0]);
      Regrouped(done, one, if goOn then DoneList(read, f, q', list[1..]) else []);
      if goOn {
        ListAccounts(read, rows, f, q', done + one, all, list[1..]);
      }
    }
  }

  lemma {:induction false} ListInTurn(read: Reader, f: Faults, q: Queue, done: seq<string>, list: seq<string>)
    requires InTurn(done, ReadableNames(read, q.files))
    requires forall n :: n in list ==> IsPending(n)
    requires Sorted(list) && forall n :: n in ReadableNames(read, q.files) ==> n in list
    ensures InTurn(done + DoneList(read, f, q, list), ReadableNames(read, DrainList(read, f, q, list).0.files))
    decreases |list|
  {
    if list == [] {
      assert done + [] == done;
    } else {
      var (q', goOn) := DrainFile(read, f, q, list[0]);
      var one := DoneFile(read, f, q, list[0]);
      HeadIsOldest(list, ReadableNames(read, q.files));
      FileInTurn(read, f, q, done, list[0]);
      Regrouped(done, one, if goOn then DoneList(read, f, q', list[1..]) else []);
      if goOn {
        FileShrinksReadable(read, f, q, list[0]);
        TailLists(list, ReadableNames(read, q'.files));
        ListInTurn(read, f, q', done + one, list[1..]);
      }
    }
  }

  lemma ArrivalAccounts(read: Reader, rows: Rows, q: Queue, done: seq<string>, all: map<string, Batch>, n: string, bytes: seq<byte>)
    requires Accounts(read, rows, q, done, all)
    requires IsPending(n) && n !in q.files && n !in all
    ensures Accounts(read, rows, q.(files := q.files[n := bytes]), done, WithArrival(read, all, n, bytes))
  {
    var more := WithArrival(read, all, n, bytes);
    ArrivalCovers(read, q.files, done, all, n, bytes);
    BatchesOfSame(all, more, done);
    ArrivalWidens(read, q.files, n, bytes);
  }

  lemma ArrivalCovers(read: Reader, files: Dir, done: seq<string>, all: map<string, Batch>, n: string, bytes: seq<byte>)
    requires Covers(read, files, done, all) && Apart(done, ReadableNames(read, files))
    requires IsPending(n) && n !in files && n !in all
    ensures var after := files[n := bytes];
      Covers(read, after, done, WithArrival(read, all, n, bytes)) && Apart(done, ReadableNames(read, after))
  {
    assert forall m :: m != n ==> (IsReadable(read, files[n := bytes], m) <==> IsReadable(read, files, m));
  }

  lemma ArrivalInTurn(read: Reader, files: Dir, done: seq<string>, n: string, bytes: seq<byte>)
    requires InTurn(done, ReadableNames(read, files)) && n !in files
    requires read(bytes).Some? ==> forall m :: m in done ==> Less(m, n)
    ensures InTurn(done, ReadableNames(read, files[n := bytes]))
  {
    assert forall m :: m != n ==> (IsReadable(read, files[n := bytes], m) <==> IsReadable(read, files, m));
  }

  /** An arrival takes nothing away from the keys the backlog will write. */
  lemma ArrivalWidens(read: Reader, files: Dir, n: string, bytes: seq<byte>)
    requires n !in files
    ensures KeysOfAll(Backlog(read, files)) <= KeysOfAll(Backlog(read, files[n := bytes]))
  {
    var after := files[n := bytes];
    forall k | k in KeysOfAll(Backlog(read, files)) ensures k in KeysOfAll(Backlog(read, after)) {
      BacklogKeys(read, files, k);
      var m :| m in ReadableNames(read, files) && k in KeysIn(BatchIn(read, files, m));
      assert m in ReadableNames(read, after) && BatchIn(read, after, m) == BatchIn(read, files, m);
      BacklogKeys(read, after, k);
    }
  }

  // Any number of cycles, with files arriving between them

  datatype Event = Cycle(faults: Faults) | Arrive(name: string, bytes: seq<byte>)

  ghost function Next(read: Reader, q: Queue, e: Event): Queue {
    match e
    case Cycle(f) => DrainCycle(read, f, q).0
    case Arrive(name, bytes) => q.(files := q.files[name := bytes])
  }

  /** The readable batches seen so far, with an arriving one. */
  function WithArrival(read: Reader, all: map<string, Batch>, name: string, bytes: seq<byte>): map<string, Batch> {
    match read(bytes)
    case Some(b) => all[name := b]
    case None => all
  }

  /** The files taken off the queue in the first i events, in order. */
  ghost function Done(read: Reader, tr: seq<Queue>, es: seq<Event>, i: nat): seq<string>
    requires i <= |es| && |tr| == |es| + 1
    decreases i
  {
    if i == 0 then []
    else match es[i - 1]
      case Cycle(f) => Done(read, tr, es, i - 1) + DoneList(read, f, tr[i - 1], Listing(PendingIn(tr[i - 1].files)))
      case Arrive(_, _) => Done(read, tr, es, i - 1)
  }

  /** The readable batches that were there at the start or arrived in the first i events, by file name. */
  ghost function Seen(read: Reader, tr: seq<Queue>, es: seq<Event>, i: nat): map<string, Batch>
    requires i <= |es| && |tr| == |es| + 1
    decreases i
  {
    if i == 0 then AllIn(read, tr[0].files)
    else match es[i - 1]
      case Cycle(_) => Seen(read, tr, es, i - 1)
      case Arrive(name, bytes) => WithArrival(read, Seen(read, tr, es, i - 1), name, bytes)
  }

  /** An arriving file has a pending name that is not in use and that no readable file had before. */
  ghost predicate Admissible(read: Reader, tr: seq<Queue>, es: seq<Event>, i: nat)
    requires i < |es| && |tr| == |es| + 1
  {
    es[i].Arrive? ==> IsPending(es[i].name) && es[i].name !in tr[i].files && es[i].name !in Seen(read, tr, es, i)
  }

  ghost predicate StepOk(read: Reader, tr: seq<Queue>, es: seq<Event>, i: nat)
    requires i < |es| && |tr| == |es| + 1
  {
    Admissible(read, tr, es, i) && tr[i + 1] == Next(read, tr[i], es[i])
  }

  ghost predicate IsRun(read: Reader, tr: seq<Queue>, es: seq<Event>) {
    && |tr| == |es| + 1
    && forall i {:trigger StepOk(read, tr, es, i)} :: 0 <= i < |es| ==> StepOk(read, tr, es, i)
  }

  lemma StartAccounts(read: Reader, q: Queue)
    ensures Accounts(read, q.rows, q, [], AllIn(read, q.files))
  {}

  lemma {:induction false} RunAccounts(read: Reader, tr: seq<Queue>, es: seq<Event>, i: nat)
    requires IsRun(read, tr, es) && i < |tr|
    ensures Accounts(read, tr[0].rows, tr[i], Done(read, tr, es, i), Seen(read, tr, es, i))
  {
    if i == 0 {
      StartAccounts(read, tr[0]);
    } else {
      RunAccounts(read, tr, es, i - 1);
      assert StepOk(read, tr, es, i - 1);
      var q, done, all := tr[i - 1], Done(read, tr, es, i - 1), Seen(read, tr, es, i - 1);
      match es[i - 1] {
        case Cycle(f) => ListAccounts(read, tr[0].rows, f, q, done, all, Listing(PendingIn(q.files)));
        case Arrive(name, bytes) => ArrivalAccounts(read, tr[0].rows, q, done, all, name, bytes);
      }
    }
  }

  /**
   * At every point of every run, replaying what is queued gives what writing every readable file once gives, those
   * taken off the queue in the order they were taken, then the others in the order of names.
   */
  lemma RunKeepsReplayed(read: Reader, tr: seq<Queue>, es: seq<Event>, i: nat)
    requires IsRun(read, tr, es) && i < |tr|
    ensures var all, order := Seen(read, tr, es, i), Done(read, tr, es, i) + Listing(ReadableNames(read, tr[i].files));
      && (forall m :: m in order <==> m in all)
      && Replayed(read, tr[i]) == UpsertAll(tr[0].rows, BatchesOf(all, order))
  {
    RunAccounts(read, tr, es, i);
    AccountsReplay(read, tr[0].rows, tr[i], Done(read, tr, es, i), Seen(read, tr, es, i));
  }

  /**
   * At-least-once delivery has exactly-once effect: however writes failed, half-applied or went unacked, and under
   * whatever names files arrived, once nothing readable is queued the store is what writing every readable file
   * once makes it, in the order in which they were taken off the queue.
   */
  lemma ExactlyOnceEffect(read: Reader, tr: seq<Queue>, es: seq<Event>)
    requires IsRun(read, tr, es)
    requires ReadableNames(read, tr[|es|].files) == {}
    ensures var all, done := Seen(read, tr, es, |es|), Done(read, tr, es, |es|);
      && Distinct(done) && (forall m :: m in done <==> m in all)
      && tr[|es|].rows == UpsertAll(tr[0].rows, BatchesOf(all, done))
  {
    var done := Done(read, tr, es, |es|);
    RunAccounts(read, tr, es, |es|);
    RunKeepsReplayed(read, tr, es, |es|);
    ListingEmpty(Listing({}), {});
    assert done + [] == done;
  }

  // When that is the order of names

  /** Event i brings a readable file under a name before one already taken off the queue. */
  ghost predicate ComesLate(read: Reader, tr: seq<Queue>, es: seq<Event>, i: nat)
    requires i < |es| && |tr| == |es| + 1
  {
    es[i].Arrive? && read(es[i].bytes).Some? && exists m :: m in Done(read, tr, es, i) && Less(es[i].name, m)
  }

  ghost predicate NoneLate(read: Reader, tr: seq<Queue>, es: seq<Event>, i: nat)
    requires i <= |es| && |tr| == |es| + 1
  {
    forall j {:trigger ComesLate(read, tr, es, j)} :: 0 <= j < i ==> !ComesLate(read, tr, es, j)
  }

  lemma {:induction false} RunInTurn(read: Reader, tr: seq<Queue>, es: seq<Event>, i: nat)
    requires IsRun(read, tr, es) && i < |tr| && NoneLate(read, tr, es, i)
    ensures InTurn(Done(read, tr, es, i), ReadableNames(read, tr[i].files))
  {
    if i > 0 {
      RunInTurn(read, tr, es, i - 1);
      assert StepOk(read, tr, es, i - 1) && !ComesLate(read, tr, es, i - 1);
      var q, done := tr[i - 1], Done(read, tr, es, i - 1);
      match es[i - 1] {
        case Cycle(f) => ListInTurn(read, f, q, done, Listing(PendingIn(q.files)));
        case Arrive(name, bytes) => PunctualInTurn(read, tr, es, i - 1);
      }
    }
  }

  lemma PunctualInTurn(read: Reader, tr: seq<Queue>, es: seq<Event>, i: nat)
    requires IsRun(read, tr, es) && i < |es| && es[i].Arrive? && !ComesLate(read, tr, es, i)
    requires InTurn(Done(read, tr, es, i), ReadableNames(read, tr[i].files))
    ensures InTurn(Done(read, tr, es, i), ReadableNames(read, tr[i + 1].files))
  {
    var n, done := es[i].name, Done(read, tr, es, i);
    assert StepOk(read, tr, es, i);
    RunAccounts(read, tr, es, i);
    if read(es[i].bytes).Some? {
      forall m | m in done ensures Less(m, n) {
        LessTotal(m, n);
      }
    }
    ArrivalInTurn(read, tr[i].files, done, n, es[i].bytes);
  }

  lemma {:induction false} DoneGrows(read: Reader, tr: seq<Queue>, es: seq<Event>, i: nat, j: nat)
    requires i <= j <= |es| && |tr| == |es| + 1
    ensures Done(read, tr, es, i) <= Done(read, tr, es, j)
    decreases j
  {
    if i < j {
      DoneGrows(read, tr, es, i, j - 1);
    }
  }

  lemma {:induction false} SeenGrows(read: Reader, tr: seq<Queue>, es: seq<Event>, i: nat, j: nat, n: string)
    requires i <= j <= |es| && |tr| == |es| + 1 && n in Seen(read, tr, es, i)
    ensures n in Seen(read, tr, es, j)
    decreases j
  {
    if i < j {
      SeenGrows(read, tr, es, i, j - 1, n);
    }
  }

  lemma ArrivedIsNew(read: Reader, tr: seq<Queue>, es: seq<Event>, i: nat)
    requires IsRun(read, tr, es) && i < |es| && es[i].Arrive?
    ensures es[i].name !in Done(read, tr, es, i)
    ensures read(es[i].bytes).Some? ==> es[i].name in Seen(read, tr, es, i + 1)
  {
    assert StepOk(read, tr, es, i);
    RunAccounts(read, tr, es, i);
  }

  /** A readable file that arrives is not among those taken before, and is among those taken in the end. */
  lemma ArrivedIsTaken(read: Reader, tr: seq<Queue>, es: seq<Event>, i: nat)
    requires IsRun(read, tr, es) && ReadableNames(read, tr[|es|].files) == {}
    requires i < |es| && es[i].Arrive? && read(es[i].bytes).Some?
    ensures es[i].name !in Done(read, tr, es, i) && es[i].name in Done(read, tr, es, |es|)
  {
    ArrivedIsNew(read, tr, es, i);
    SeenGrows(read, tr, es, i + 1, |es|, es[i].name);
    SeenIsTaken(read, tr, es, es[i].name);
  }

  lemma SeenIsTaken(read: Reader, tr: seq<Queue>, es: seq<Event>, n: string)
    requires IsRun(read, tr, es) && ReadableNames(read, tr[|es|].files) == {} && n in Seen(read, tr, es, |es|)
    ensures n in Done(read, tr, es, |es|)
  {
    RunAccounts(read, tr, es, |es|);
  }

  lemma LateBreaksOrder(read: Reader, tr: seq<Queue>, es: seq<Event>, i: nat)
    requires IsRun(read, tr, es) && ReadableNames(read, tr[|es|].files) == {}
    requires i < |es| && ComesLate(read, tr, es, i)
    ensures !Sorted(Done(read, tr, es, |es|))
  {
    var m :| m in Done(read, tr, es, i) && Less(es[i].name, m);
    ArrivedIsTaken(read, tr, es, i);
    DoneGrows(read, tr, es, i, |es|);
    OutOfOrder(Done(read, tr, es, i), Done(read, tr, es, |es|), m, es[i].name);
  }

  lemma OutOfOrder(early: seq<string>, done: seq<string>, m: string, n: string)
    requires early <= done && m in early && n in done && n !in early && Less(n, m)
    ensures !Sorted(done)
  {
    var a :| 0 <= a < |early| && early[a] == m;
    var b :| 0 <= b < |done| && done[b] == n;
    assert forall k :: 0 <= k < |early| ==> done[k] == early[k];
    assert done[a] == m && a < b;
    LessAsymmetric(m, n);
  }

  /** Files are taken in the order of their names exactly when no readable one comes late. */
  lemma SortedIffNoneLate(read: Reader, tr: seq<Queue>, es: seq<Event>)
    requires IsRun(read, tr, es) && ReadableNames(read, tr[|es|].files) == {}
    ensures Sorted(Done(read, tr, es, |es|)) <==> NoneLate(read, tr, es, |es|)
  {
    if NoneLate(read, tr, es, |es|) {
      RunInTurn(read, tr, es, |es|);
    } else {
      var i :| 0 <= i < |es| && ComesLate(read, tr, es, i);
      LateBreaksOrder(read, tr, es, i);
    }
  }

  /** Then the store is what writing every readable file once, in sorted order, makes it. */
  lemma ExactlyOnceSorted(read: Reader, tr: seq<Queue>, es: seq<Event>)
    requires IsRun(read, tr, es) && NoneLate(read, tr, es, |es|)
    requires ReadableNames(read, tr[|es|].files) == {}
    ensures tr[|es|].rows == UpsertAll(tr[0].rows, InOrder(Seen(read, tr, es, |es|)))
  {
    var all, done := Seen(read, tr, es, |es|), Done(read, tr, es, |es|);
    ExactlyOnceEffect(read, tr, es);
    SortedIffNoneLate(read, tr, es);
    ListingUnique(Listing(all.Keys), done, all.Keys);
  }

  // A late arrival

  const NO_FAULTS := Faults(map[], {})

  lemma OneFileCycle(read: Reader, rows: Rows, n: string, bytes: seq<byte>)
    requires IsPending(n) && read(bytes).Some?
    ensures DrainCycle(read, NO_FAULTS, Queue(map[n := bytes], rows)) == (Queue(map[], Upsert(rows, read(bytes).value)), true)
  {
    var files := map[n := bytes];
    assert PendingIn(files) == {n};
    ListingUnique(Listing({n}), [n], {n});
    assert Listing(PendingIn(files)) == [n] && [n][1..] == [] && files - {n} == map[];
    var q, q' := Queue(files, rows), Queue(map[], Upsert(rows, read(bytes).value));
    assert DrainFile(read, NO_FAULTS, q, n) == (q', true);
    assert DrainList(read, NO_FAULTS, q', []) == (q', true);
  }

  /** A file that arrives late, under a name before one already taken, is written after it: the order is the other way round. */
  lemma LateArrivalOverwrites(read: Reader, m: string, x: seq<byte>, n: string, y: seq<byte>)
    requires IsPending(m) && IsPending(n) && Less(m, n) && read(x).Some? && read(y).Some?
    ensures var q1 := Next(read, Queue(map[n := y], map[]), Cycle(NO_FAULTS));
      var q3 := Next(read, Next(read, q1, Arrive(m, x)), Cycle(NO_FAULTS));
      q3 == Queue(map[], UpsertAll(map[], [read(y).value, read(x).value]))
    ensures InOrder(map[m := read(x).value, n := read(y).value]) == [read(x).value, read(y).value]
  {
    var b, c := read(x).value, read(y).value;
    OneFileCycle(read, map[], n, y);
    OneFileCycle(read, Upsert(map[], c), m, x);
    var q1 := Next(read, Queue(map[n := y], map[]), Cycle(NO_FAULTS));
    assert q1 == Queue(map[], Upsert(map[], c));
    assert q1.files[m := x] == map[m := x];
    var q2 := Next(read, q1, Arrive(m, x));
    assert q2 == Queue(map[m := x], Upsert(map[], c));
    assert [c, b][1..] == [b] && [b][1..] == [];
    assert UpsertAll(map[], [c, b]) == UpsertAll(Upsert(map[], c), [b]) == Upsert(Upsert(map[], c), b);
    TwoInOrder(m, b, n, c);
  }

  lemma TwoInOrder(m: string, b: Batch, n: string, c: Batch)
    requires Less(m, n)
    ensures InOrder(map[m := b, n := c]) == [b, c]
  {
    LessIrreflexive(m);
    var all := map[m := b, n := c];
    assert all.Keys == {m, n};
    ListingUnique(Listing(all.Keys), [m, n], all.Keys);
    assert [m, n][1..] == [n] && [n][1..] == [];
    assert BatchesOf(all, [n]) == [c];
  }
}
