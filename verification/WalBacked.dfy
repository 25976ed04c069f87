/** The upsert path as one uninterrupted call: write-ahead file, leader gate, store, ack. */
module WalBacked {
  import opened Base
  import opened Register
  import opened Frame
  import opened WalNames
  import opened FileWal
  import opened Store
  import opened Drain

  datatype UpsertError = Wal(error: WalError) | NotLeader | StoreFailed

  /** The gate in front of the store: a follower's write is refused without touching it. */
  method GatedUpsert(target: Target, isLeader: bool, batch: Batch, answer: Outcome) returns (r: Result<(), UpsertError>)
    modifies target
    ensures !isLeader ==> r == Err(NotLeader) && target.rows == old(target.rows)
    ensures isLeader ==> r == if answer.Refused? then Err(StoreFailed) else Ok(())
    ensures isLeader ==> target.rows == Store.Upsert(old(target.rows), if answer.Refused? then Part(batch, answer.applied) else batch)
  {
    if !isLeader {
      return Err(NotLeader);
    }
    var taken := target.Upsert(batch, answer);
    r := if taken then Ok(()) else Err(StoreFailed);
  }

  /** The directory with the batch queued under its name. */
  function Queued(files: Dir, name: string, bytes: seq<byte>): Dir {
    (files - {TmpName(name)})[name := bytes]
  }

  /**
   * Nothing is reported as done before it is in the store, and nothing appended leaves the queue before that:
   * only a write that was taken gives up its file.
   */
  method UpsertSnapshots(wal: FileWal, target: Target, isLeader: bool, encode: Batch -> seq<byte>, batch: Batch,
                         ts: nat, pid: nat, counter: nat, stages: nat, renameFails: bool,
                         answer: Outcome, undeletable: set<string>)
    returns (r: Result<(), UpsertError>)
    modifies wal, target
    ensures var name, file := FileName(ts, pid, counter), Framed(encode(batch));
      var appended := stages >= 5 && !renameFails;
      var queued := Queued(old(wal.files), name, file);
      if batch == [] then
        r == Ok(()) && wal.files == old(wal.files) && target.rows == old(target.rows)
      else if !appended then
        r == Err(Wal(Io)) && PendingIn(wal.files) == PendingIn(old(wal.files)) && target.rows == old(target.rows)
      else if !isLeader then
        r == Err(NotLeader) && wal.files == queued && target.rows == old(target.rows)
      else if answer.Refused? then
        r == Err(StoreFailed) && wal.files == queued && target.rows == Store.Upsert(old(target.rows), Part(batch, answer.applied))
      else
        && target.rows == Store.Upsert(old(target.rows), batch)
        && (r == if name in undeletable then Err(Wal(Io)) else Ok(()))
        && wal.files == if name in undeletable then queued else queued - {name}
  {
    if batch == [] {
      return Ok(());
    }
    var written := wal.Append(encode(batch), ts, pid, counter, stages, renameFails);
    if written.Err? {
      return Err(Wal(written.error));
    }
    r := GatedUpsert(target, isLeader, batch, answer);
    if r.Ok? {
      var acked := wal.Ack(written.value, undeletable);
      r := if acked.Ok? then Ok(()) else Err(Wal(acked.error));
    }
  }
}
