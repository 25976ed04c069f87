/** What one drain cycle does, file by file: where it stops, what becomes of each queued file, and what the store gets. */
module Cycle {
  import opened Base
  import opened Register
  import opened WalNames
  import opened FileWal
  import opened Store
  import opened Drain

  /** A readable file whose write or ack the store or the disk denies: the cycle stops there. */
  ghost predicate Blocks(read: Reader, f: Faults, files: Dir, n: string) {
    IsReadable(read, files, n) && Answer(f, n) != Accepted
  }

  predicate Same(a: Dir, b: Dir, n: string) {
    (n in a <==> n in b) && (n in a ==> a[n] == b[n])
  }

  /** A file the cycle got past: delivered and removed, or set aside whole, or left where it is if that failed. */
  ghost predicate GotPast(read: Reader, f: Faults, a: Dir, b: Dir, n: string)
    requires n in a && IsPending(n)
  {
    if IsReadable(read, a, n) then n !in b
    else if n in f.stuck then Same(a, b, n)
    else n !in b && CorruptName(n) in b && b[CorruptName(n)] == a[n]
  }

  /** The rows after writing each readable file of the list once, in its order. */
  ghost function WrittenOnce(read: Reader, files: Dir, rows: Rows, list: seq<string>): Rows
    decreases |list|
  {
    if list == [] then rows
    else WrittenOnce(read, files, if IsReadable(read, files, list[0]) then Upsert(rows, BatchIn(read, files, list[0])) else rows, list[1..])
  }

  /** What of its batch the file the cycle stopped at has put into the store. */
  ghost function LastWords(read: Reader, f: Faults, files: Dir, n: string): Batch
    requires Blocks(read, f, files, n)
  {
    match Answer(f, n)
    case Refused(applied) => Part(BatchIn(read, files, n), applied)
    case _ => BatchIn(read, files, n)
  }

  /** Neither a listed file nor what one is set aside as. */
  ghost predicate Beside(list: seq<string>, x: string)
    requires forall n :: n in list ==> IsPending(n)
  {
    x !in list && forall n :: n in list ==> x != CorruptName(n)
  }

  /** The first k files of the list were got past, the others are as they were, and nothing else was touched. */
  ghost predicate FilesAfter(read: Reader, f: Faults, a: Dir, b: Dir, list: seq<string>, k: nat)
    requires k <= |list| && forall n :: n in list ==> IsPending(n) && n in a
  {
    && (forall i :: 0 <= i < k ==> GotPast(read, f, a, b, list[i]))
    && (forall i :: k <= i < |list| ==> Same(a, b, list[i]))
    && (forall x :: Beside(list, x) ==> Same(a, b, x))
  }

  ghost function RowsAfter(read: Reader, f: Faults, q: Queue, list: seq<string>, k: nat): Rows
    requires k <= |list| && (k < |list| ==> Blocks(read, f, q.files, list[k]))
  {
    var rows := WrittenOnce(read, q.files, q.rows, list[..k]);
    if k < |list| then Upsert(rows, LastWords(read, f, q.files, list[k])) else rows
  }

  /** k is the position of the first file that blocks, or the end of the list. */
  ghost predicate StopsAt(read: Reader, f: Faults, files: Dir, list: seq<string>, k: nat) {
    && k <= |list| && (k < |list| ==> Blocks(read, f, files, list[k]))
    && forall i :: 0 <= i < k ==> !Blocks(read, f, files, list[i])
  }

  lemma FileDoes(read: Reader, f: Faults, q: Queue, n: string)
    requires n in q.files && IsPending(n) && !Blocks(read, f, q.files, n)
    ensures var (q', goOn) := DrainFile(read, f, q, n);
      && goOn && GotPast(read, f, q.files, q'.files, n)
      && (forall x :: x != n && x != CorruptName(n) ==> Same(q.files, q'.files, x))
      && q'.rows == if IsReadable(read, q.files, n) then Upsert(q.rows, BatchIn(read, q.files, n)) else q.rows
  {
    OtherNamesNotPending(n);
  }

  lemma BlockerDoes(read: Reader, f: Faults, q: Queue, n: string)
    requires IsPending(n) && Blocks(read, f, q.files, n)
    ensures DrainFile(read, f, q, n) == (q.(rows := Upsert(q.rows, LastWords(read, f, q.files, n))), false)
  {}

  lemma {:induction false} WrittenOnceSame(read: Reader, a: Dir, b: Dir, rows: Rows, list: seq<string>)
    requires forall n :: n in list ==> Same(a, b, n)
    ensures WrittenOnce(read, a, rows, list) == WrittenOnce(read, b, rows, list)
    decreases |list|
  {
    if list != [] {
      var n := list[0];
      assert Same(a, b, n);
      WrittenOnceSame(read, a, b, if IsReadable(read, a, n) then Upsert(rows, BatchIn(read, a, n)) else rows, list[1..]);
    }
  }

  /** What the rest of a cycle does to the files is what the whole does, seen after its first file. */
  lemma ConsFilesAfter(read: Reader, f: Faults, a: Dir, mid: Dir, b: Dir, list: seq<string>, k: nat)
    requires list != [] && Distinct(list) && k < |list| && forall n :: n in list ==> IsPending(n) && n in a
    requires GotPast(read, f, a, mid, list[0])
    requires forall x :: x != list[0] && x != CorruptName(list[0]) ==> Same(a, mid, x)
    requires forall n :: n in list[1..] ==> n in mid
    requires FilesAfter(read, f, mid, b, list[1..], k)
    ensures FilesAfter(read, f, a, b, list, k + 1)
  {
    var n, rest := list[0], list[1..];
    OtherNamesNotPending(n);
    forall m | m in rest ensures m != n && m != CorruptName(n) && n != CorruptName(m) && CorruptName(m) != CorruptName(n) {
      NamesApart(n, m);
      NamesApart(m, n);
    }
    assert Beside(rest, n) && Beside(rest, CorruptName(n));
    assert Same(mid, b, n) && Same(mid, b, CorruptName(n));
    forall i | 0 <= i < k + 1 ensures GotPast(read, f, a, b, list[i]) {
      if i > 0 {
        assert list[i] == rest[i - 1] && Same(a, mid, list[i]);
      }
    }
    forall i | k + 1 <= i < |list| ensures Same(a, b, list[i]) {
      assert list[i] == rest[i - 1] && Same(a, mid, list[i]);
    }
    forall x | Beside(list, x) ensures Same(a, b, x) {
      assert n in list && Beside(rest, x) && Same(a, mid, x);
    }
  }

  lemma ConsRowsAfter(read: Reader, f: Faults, q: Queue, q1: Queue, list: seq<string>, k: nat)
    requires list != [] && k < |list|
    requires forall m :: m in list[1..] ==> Same(q.files, q1.files, m)
    requires q1.rows == if IsReadable(read, q.files, list[0]) then Upsert(q.rows, BatchIn(read, q.files, list[0])) else q.rows
    requires k + 1 < |list| ==> Blocks(read, f, q1.files, list[1..][k])
    ensures k + 1 < |list| ==> Blocks(read, f, q.files, list[k + 1])
    ensures RowsAfter(read, f, q, list, k + 1) == RowsAfter(read, f, q1, list[1..], k)
  {
    var rest := list[1..];
    assert list[..k + 1][1..] == rest[..k];
    if k + 1 < |list| {
      assert rest[k] == list[k + 1] && rest[k] in rest;
    }
    assert forall m :: m in rest[..k] ==> m in rest;
    WrittenOnceSame(read, q1.files, q.files, q1.rows, rest[..k]);
  }

  lemma ConsStopsAt(read: Reader, f: Faults, a: Dir, mid: Dir, list: seq<string>, k: nat)
    requires list != [] && !Blocks(read, f, a, list[0]) && forall m :: m in list[1..] ==> Same(a, mid, m)
    requires StopsAt(read, f, mid, list[1..], k)
    ensures StopsAt(read, f, a, list, k + 1)
  {
    forall i | 0 < i < |list| ensures Blocks(read, f, a, list[i]) <==> Blocks(read, f, mid, list[1..][i - 1]) {
      assert list[i] == list[1..][i - 1] && list[i] in list[1..];
    }
  }

  lemma {:induction false} ListDoes(read: Reader, f: Faults, q: Queue, list: seq<string>) returns (k: nat)
    requires Distinct(list) && forall n :: n in list ==> IsPending(n) && n in q.files
    ensures StopsAt(read, f, q.files, list, k)
    ensures var (q', ok) := DrainList(read, f, q, list);
      && (ok <==> k == |list|)
      && FilesAfter(read, f, q.files, q'.files, list, k)
      && q'.rows == RowsAfter(read, f, q, list, k)
    decreases |list|
  {
    k := 0;
    if list != [] {
      var n := list[0];
      if Blocks(read, f, q.files, n) {
        BlockerDoes(read, f, q, n);
      } else {
        FileDoes(read, f, q, n);
        k := RestDoes(read, f, q, list);
      }
    }
  }

  lemma {:induction false} RestDoes(read: Reader, f: Faults, q: Queue, list: seq<string>) returns (k: nat)
    requires list != [] && Distinct(list) && forall n :: n in list ==> IsPending(n) && n in q.files
    requires !Blocks(read, f, q.files, list[0])
    ensures StopsAt(read, f, q.files, list, k)
    ensures var (q', ok) := DrainList(read, f, q, list);
      && (ok <==> k == |list|)
      && FilesAfter(read, f, q.files, q'.files, list, k)
      && q'.rows == RowsAfter(read, f, q, list, k)
    decreases |list|, 0
  {
    var n, rest := list[0], list[1..];
    var (q1, goOn) := DrainFile(read, f, q, n);
    FileDoes(read, f, q, n);
    OtherNamesNotPending(n);
    forall m | m in rest ensures Same(q.files, q1.files, m) && m in list {
      assert m != n;
    }
    var j := ListDoes(read, f, q1, rest);
    k := j + 1;
    ConsStopsAt(read, f, q.files, q1.files, list, j);
    ConsFilesAfter(read, f, q.files, q1.files, DrainList(read, f, q1, rest).0.files, list, j);
    ConsRowsAfter(read, f, q, q1, list, j);
  }

  /**
   * A cycle returns Ok exactly when no readable file of the queue is denied. Up to the first that is, oldest first,
   * every file is delivered and removed or set aside, each batch written once; that one has written what it was
   * allowed to and stays; and the younger ones stay as they were.
   */
  lemma CycleDoes(read: Reader, f: Faults, q: Queue) returns (k: nat)
    ensures var list := Listing(PendingIn(q.files));
      && StopsAt(read, f, q.files, list, k)
      && var (q', ok) := DrainCycle(read, f, q);
         && (ok <==> forall n :: n in q.files ==> !Blocks(read, f, q.files, n))
         && FilesAfter(read, f, q.files, q'.files, list, k)
         && q'.rows == RowsAfter(read, f, q, list, k)
  {
    var list := Listing(PendingIn(q.files));
    assert forall n :: n in list <==> n in PendingIn(q.files);
    forall i, j | 0 <= i < j < |list| ensures list[i] != list[j] {
      LessIrreflexive(list[i]);
    }
    k := ListDoes(read, f, q, list);
    if k < |list| {
      assert list[k] in list;
    } else {
      forall n | n in q.files ensures !Blocks(read, f, q.files, n) {
        if IsPending(n) {
          assert n in list;
        }
      }
    }
  }
}
