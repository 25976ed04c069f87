/** The file-backed queue: one directory, its files, and the operations that create, list, read and remove them. */
module FileWal {
  import opened Base
  import opened Register
  import opened Frame
  import opened WalNames

  type Dir = map<string, seq<byte>>

  const U64_LIMIT := 0x1_0000_0000_0000_0000

  /** The stages an append goes through before its rename, in order. */
  datatype Stage = Created | MagicWritten | CrcWritten | PayloadWritten | Synced

  /** What the hidden file holds once a stage is complete. */
  function Written(s: Stage, payload: seq<byte>): seq<byte> {
    match s
    case Created => []
    case MagicWritten => MAGIC
    case CrcWritten => MAGIC + BigEndian(Crc32.Crc(payload))
    case _ => Framed(payload)
  }

  /** The stage after so many I/O operations. */
  function Reached(stages: nat): Stage {
    if stages <= 1 then Created else if stages == 2 then MagicWritten else if stages == 3 then CrcWritten
    else if stages == 4 then PayloadWritten else Synced
  }

  /** Names the drainer may pick up. */
  function PendingIn(files: Dir): set<string> {
    set n | n in files && IsPending(n)
  }

  /** The two directories differ at most in the file `tmp`. */
  ghost predicate SameElsewhere(a: Dir, b: Dir, tmp: string) {
    forall n :: n != tmp ==> (n in a <==> n in b) && (n in a ==> a[n] == b[n])
  }

  lemma HiddenNotPending(a: Dir, b: Dir, tmp: string)
    requires !IsPending(tmp) && SameElsewhere(a, b, tmp)
    ensures PendingIn(a) == PendingIn(b)
    ensures a - {tmp} == b - {tmp}
  {}

  function SatSub(a: nat, b: nat): nat {
    if a < b then 0 else a - b
  }

  /** The names one reap cycle removes from a listing: it skips unparsable names and stops at the first young one. */
  function Reaped(list: seq<string>, now: nat, maxAge: nat): seq<string>
    decreases |list|
  {
    if list == [] then []
    else match ParseTs(list[0])
      case None => Reaped(list[1..], now, maxAge)
      case Some(ts) =>
        if SatSub(now, ts) <= maxAge then [] else [list[0]] + Reaped(list[1..], now, maxAge)
  }

  /** The names before the first one that is in `bad`. */
  function Before(list: seq<string>, bad: set<string>): (r: seq<string>)
    ensures r <= list
    ensures forall n :: n in r ==> n !in bad
    ensures |r| < |list| ==> list[|r|] in bad
    decreases |list|
  {
    if list == [] || list[0] in bad then [] else [list[0]] + Before(list[1..], bad)
  }

  lemma ReapedUnfolds(list: seq<string>, i: nat, now: nat, maxAge: nat)
    requires i < |list|
    ensures Reaped(list[i..], now, maxAge) ==
      match ParseTs(list[i])
      case None => Reaped(list[i + 1..], now, maxAge)
      case Some(ts) => if SatSub(now, ts) <= maxAge then [] else [list[i]] + Reaped(list[i + 1..], now, maxAge)
  {
    assert list[i..][1..] == list[i + 1..];
  }

  lemma {:induction false} BeforeStops(good: seq<string>, rest: seq<string>, bad: set<string>)
    requires forall n :: n in good ==> n !in bad
    requires rest == [] || rest[0] in bad
    ensures Before(good + rest, bad) == good
    decreases |good|
  {
    if good == [] {
      assert good + rest == rest;
    } else {
      assert (good + rest)[1..] == good[1..] + rest;
      BeforeStops(good[1..], rest, bad);
    }
  }

  function ReapResult(due: seq<string>, undeletable: set<string>): Result<nat, WalError> {
    if |Before(due, undeletable)| < |due| then Err(Io) else Ok(|due| as nat)
  }

  lemma ReapStops(due: seq<string>, done: seq<string>, rest: seq<string>, undeletable: set<string>)
    requires due == done + rest
    requires forall n :: n in done ==> n !in undeletable
    requires rest == [] || rest[0] in undeletable
    ensures Before(due, undeletable) == done
    ensures ReapResult(due, undeletable) == if rest == [] then Ok(|done|) else Err(Io)
  {
    BeforeStops(done, rest, undeletable);
  }

  function Without(files: Dir, gone: seq<string>): Dir {
    files - set n | n in gone
  }

  lemma WithoutSnoc(files: Dir, gone: seq<string>, n: string)
    ensures Without(files, gone + [n]) == Without(files, gone) - {n}
  {
    assert (set x | x in gone + [n]) == (set x | x in gone) + {n};
  }

  function Quarantined(files: Dir, name: string): Dir
    requires name in files && IsPending(name)
  {
    (files - {name})[CorruptName(name) := files[name]]
  }

  datatype WalError = Missing | Bad(error: ReadError) | Io

  method CrcBytes(payload: seq<byte>) returns (crc: seq<byte>)
    ensures MAGIC + crc == Written(CrcWritten, payload) && MAGIC + crc + payload == Framed(payload)
  {
    crc := BigEndian(Crc32.Crc(payload));
  }

  class FileWal {
    var files: Dir

    constructor (files: Dir)
      ensures this.files == files
    {
      this.files := files;
    }

    /**
     * Create the hidden file and write the frame into it. `stages` says how many of the five I/O stages
     * (create, magic, checksum, payload, fsync) succeed.
     */
    method WriteHidden(tmp: string, payload: seq<byte>, stages: nat) returns (ok: bool)
      modifies this
      ensures ok <==> stages >= 5
      ensures ok ==> tmp in files && files[tmp] == Framed(payload)
      ensures stages == 0 ==> files == old(files)
      ensures 0 < stages ==> tmp in files && files[tmp] == Written(Reached(stages), payload)
      ensures SameElsewhere(old(files), files, tmp)
    {
      var crc := CrcBytes(payload);
      if stages < 1 { return false; }
      files := files[tmp := []];
      if stages < 2 { return false; }
      files := files[tmp := MAGIC];
      if stages < 3 { return false; }
      files := files[tmp := MAGIC + crc];
      if stages < 4 { return false; }
      files := files[tmp := MAGIC + crc + payload];
      ok := stages >= 5;
    }

    /** Write the framed payload under a hidden name, then rename it to its final one. */
    method Append(payload: seq<byte>, ts: nat, pid: nat, counter: nat, stages: nat, renameFails: bool)
      returns (r: Result<string, WalError>)
      modifies this
      ensures var name := FileName(ts, pid, counter);
        if stages >= 5 && !renameFails
        then r == Ok(name) && files == (old(files) - {TmpName(name)})[name := Framed(payload)]
        else r == Err(Io) && files - {TmpName(name)} == old(files) - {TmpName(name)}
      ensures r.Err? ==> PendingIn(files) == PendingIn(old(files))
    {
      var name := FileName(ts, pid, counter);
      var tmp := TmpName(name);
      OtherNamesNotPending(name);
      var ok := WriteHidden(tmp, payload, stages);
      HiddenNotPending(old(files), files, tmp);
      if !ok || renameFails { return Err(Io); }
      files := (files - {tmp})[name := files[tmp]];
      r := Ok(name);
    }

    /** Remove a drained file; a missing one is not an error. */
    method Ack(name: string, undeletable: set<string>) returns (r: Result<(), WalError>)
      modifies this
      ensures r == if name in old(files) && name in undeletable then Err(Io) else Ok(())
      ensures files == if name in undeletable then old(files) else old(files) - {name}
    {
      if name in files {
        if name in undeletable { return Err(Io); }
        files := files - {name};
      }
      r := Ok(());
    }

    /** Scan the directory in whatever order it comes, keep the pending names, sort them. */
    method Pending() returns (out: seq<string>)
      ensures out == Listing(PendingIn(files))
    {
      out := [];
      var rest := files.Keys;
      while rest != {}
        invariant rest <= files.Keys
        invariant Distinct(out)
        invariant forall n :: n in out <==> n in files && n !in rest && IsPending(n)
        decreases rest
      {
        var name :| name in rest;
        rest := rest - {name};
        if IsPending(name) {
          out := out + [name];
        }
      }
      SortLists(out);
      assert (set n | n in out) == PendingIn(files);
      out := Sort(out);
      ListingUnique(out, Listing(PendingIn(files)), PendingIn(files));
    }

    /** Age of the first listed file, when its name can be parsed. */
    method OldestPendingAge(now: nat) returns (r: Option<nat>)
      ensures r == FirstAge(Listing(PendingIn(files)), now)
    {
      var list := Pending();
      r := if list == [] then None
           else match ParseTs(list[0])
                case None => None
                case Some(ts) => Some(SatSub(now, ts) % U64_LIMIT);
    }

    /** Delete files older than `maxAge`, oldest first. */
    method ReapOlderThan(now: nat, maxAge: nat, undeletable: set<string>) returns (r: Result<nat, WalError>)
      modifies this
      ensures var due := Reaped(Listing(PendingIn(old(files))), now, maxAge);
        && files == Without(old(files), Before(due, undeletable))
        && r == ReapResult(due, undeletable)
    {
      var list := Pending();
      ghost var done, left;
      r, done, left := ReapListed(list, now, maxAge, undeletable);
      ReapStops(Reaped(list, now, maxAge), done, left, undeletable);
    }

    /** The loop over a listing: `done` was deleted, `left` is what an I/O error kept it from deleting. */
    method ReapListed(list: seq<string>, now: nat, maxAge: nat, undeletable: set<string>)
      returns (r: Result<nat, WalError>, ghost done: seq<string>, ghost left: seq<string>)
      modifies this
      ensures files == Without(old(files), done)
      ensures Reaped(list, now, maxAge) == done + left
      ensures forall n :: n in done ==> n !in undeletable
      ensures left == [] || left[0] in undeletable
      ensures r == if left == [] then Ok(|done|) else Err(Io)
    {
      done, left := [], [];
      var reaped: nat := 0;
      var i := 0;
      while i < |list|
        invariant 0 <= i <= |list|
        invariant reaped == |done| && left == []
        invariant Reaped(list, now, maxAge) == done + Reaped(list[i..], now, maxAge)
        invariant files == Without(old(files), done)
        invariant forall n :: n in done ==> n !in undeletable
        decreases |list| - i
      {
        var name := list[i];
        var ts := ParseTs(name);
        ReapedUnfolds(list, i, now, maxAge);
        if ts.Some? {
          if SatSub(now, ts.value) <= maxAge {
            break;
          }
          if name in undeletable {
            left := Reaped(list[i..], now, maxAge);
            return Err(Io), done, left;
          }
          WithoutSnoc(old(files), done, name);
          files, done := files - {name}, done + [name];
          reaped := reaped + 1;
        }
        i := i + 1;
      }
      r := Ok(reaped);
    }

    /** Read and validate one file: a batch is returned exactly when the file is there and holds it. */
    method ReadFile<B>(decode: seq<byte> -> Option<B>, name: string) returns (r: Result<B, WalError>)
      ensures r == ReadIn(decode, files, name)
      ensures r == Err(Missing) <==> name !in files
      ensures name in files && r.Ok? ==> Holds(decode, files[name], r.value)
      ensures name in files && r.Err? ==> Illegible(decode, files[name])
      ensures r == Err(Bad(CrcMismatch)) <==> name in files && Broken(files[name])
    {
      if name !in files { return Err(Missing); }
      ReadMeans(decode, files[name]);
      match Read(decode, files[name])
      case Ok(b) => r := Ok(b);
      case Err(e) => r := Err(Bad(e));
    }

    /** Rename a file aside; when the rename fails the file stays where it is. */
    method Quarantine(name: string, stuck: set<string>)
      requires IsPending(name)
      modifies this
      ensures files == if name in old(files) && name !in stuck then Quarantined(old(files), name) else old(files)
    {
      if name in files && name !in stuck {
        files := (files - {name})[CorruptName(name) := files[name]];
      }
    }
  }

  function FirstAge(list: seq<string>, now: nat): Option<nat> {
    if list == [] then None
    else match ParseTs(list[0])
      case None => None
      case Some(ts) => Some(SatSub(now, ts) % U64_LIMIT)
  }

  function ReadIn<B>(decode: seq<byte> -> Option<B>, files: Dir, name: string): Result<B, WalError> {
    if name !in files then Err(Missing)
    else match Read(decode, files[name])
      case Ok(b) => Ok(b)
      case Err(e) => Err(Bad(e))
  }

  // What reaping and the age gauge mean

  predicate Old(n: string, now: nat, maxAge: nat) {
    ParseTs(n).Some? && ParseTs(n).value + maxAge < now
  }

  predicate Young(n: string, now: nat, maxAge: nat) {
    ParseTs(n).Some? && now <= ParseTs(n).value + maxAge
  }

  ghost predicate YoungBefore(list: seq<string>, i: nat, now: nat, maxAge: nat)
    requires i <= |list|
  {
    exists j :: 0 <= j < i && Young(list[j], now, maxAge)
  }

  /** Exactly the old files that no young one precedes are removed. */
  lemma {:induction false} ReapedAt(list: seq<string>, now: nat, maxAge: nat, i: nat)
    requires Sorted(list) && i < |list|
    ensures list[i] in Reaped(list, now, maxAge) <==> Old(list[i], now, maxAge) && !YoungBefore(list, i, now, maxAge)
    decreases |list|
  {
    var rest := list[1..];
    if i == 0 {
      if !Old(list[0], now, maxAge) && !Young(list[0], now, maxAge) {
        NotReaped(rest, now, maxAge, list[0]);
      }
    } else {
      ReapedAt(rest, now, maxAge, i - 1);
      assert list[0] != list[i] by { LessIrreflexive(list[i]); }
      if Young(list[0], now, maxAge) {
        assert YoungBefore(list, i, now, maxAge);
      } else {
        assert YoungBefore(list, i, now, maxAge) <==> YoungBefore(rest, i - 1, now, maxAge) by {
          if YoungBefore(list, i, now, maxAge) {
            var j :| 0 <= j < i && Young(list[j], now, maxAge);
            assert rest[j - 1] == list[j];
          }
          if YoungBefore(rest, i - 1, now, maxAge) {
            var j :| 0 <= j < i - 1 && Young(rest[j], now, maxAge);
            assert list[j + 1] == rest[j];
          }
        }
      }
    }
  }

  lemma {:induction false} NotReaped(list: seq<string>, now: nat, maxAge: nat, n: string)
    requires !Old(n, now, maxAge)
    ensures n !in Reaped(list, now, maxAge)
    decreases |list|
  {
    if list != [] {
      NotReaped(list[1..], now, maxAge, n);
    }
  }

  lemma {:induction false} ReapedListed(list: seq<string>, now: nat, maxAge: nat)
    ensures forall n :: n in Reaped(list, now, maxAge) ==> n in list
    decreases |list|
  {
    if list != [] {
      ReapedListed(list[1..], now, maxAge);
      assert list == [list[0]] + list[1..];
    }
  }

  /** A name made by Append whose timestamp prints with `width` digits. */
  ghost predicate AppendMade(n: string, width: nat) {
    exists ts: nat, pid: nat, k: nat :: n == FileName(ts, pid, k) && ts < U128_LIMIT && |Digits(ts, Dec)| == width
  }

  lemma AppendMadeParses(n: string, width: nat)
    requires AppendMade(n, width)
    ensures ParseTs(n).Some?
  {
    var ts: nat, pid: nat, k: nat :| n == FileName(ts, pid, k) && ts < U128_LIMIT && |Digits(ts, Dec)| == width;
    ParseTsOfFileName(ts, pid, k);
  }

  lemma AppendMadeOrdered(a: string, b: string, width: nat)
    requires AppendMade(a, width) && AppendMade(b, width) && Less(a, b)
    ensures ParseTs(a).Some? && ParseTs(b).Some? && ParseTs(a).value <= ParseTs(b).value
  {
    var t: nat, p: nat, k: nat :| a == FileName(t, p, k) && t < U128_LIMIT && |Digits(t, Dec)| == width;
    var t': nat, p': nat, k': nat :| b == FileName(t', p', k') && t' < U128_LIMIT && |Digits(t', Dec)| == width;
    ParseTsOfFileName(t, p, k);
    ParseTsOfFileName(t', p', k');
    ChronologicalOrder(t, p, k, t', p', k');
  }

  /** In a listing of such names, whatever stands before n is not later than n. */
  lemma EarlierInListing(list: seq<string>, width: nat, j: nat, i: nat)
    requires Sorted(list) && j <= i < |list|
    requires forall n :: n in list ==> AppendMade(n, width)
    ensures ParseTs(list[j]).Some? && ParseTs(list[i]).Some? && ParseTs(list[j]).value <= ParseTs(list[i]).value
  {
    AppendMadeParses(list[j], width);
    if j < i {
      AppendMadeOrdered(list[j], list[i], width);
    }
  }

  lemma NoYoungBeforeOld(list: seq<string>, width: nat, i: nat, now: nat, maxAge: nat)
    requires Sorted(list) && i < |list| && Old(list[i], now, maxAge)
    requires forall n :: n in list ==> AppendMade(n, width)
    ensures !YoungBefore(list, i, now, maxAge)
  {
    forall j | 0 <= j < i ensures !Young(list[j], now, maxAge) {
      EarlierInListing(list, width, j, i);
    }
  }

  /** With timestamps of one width, stopping at the first young file misses nothing. */
  lemma ReapIsExact(names: set<string>, width: nat, now: nat, maxAge: nat)
    requires forall n :: n in names ==> AppendMade(n, width)
    ensures forall n :: n in Reaped(Listing(names), now, maxAge) <==> n in names && Old(n, now, maxAge)
  {
    var list := Listing(names);
    ReapedListed(list, now, maxAge);
    forall n | n in names ensures n in Reaped(list, now, maxAge) <==> Old(n, now, maxAge) {
      var i :| 0 <= i < |list| && list[i] == n;
      ReapedAt(list, now, maxAge, i);
      if Old(n, now, maxAge) {
        NoYoungBeforeOld(list, width, i, now, maxAge);
      }
    }
  }

  /** With timestamps of different widths it can miss an old file: "10" sorts before "9". */
  lemma ReapMissesAcrossWidths()
    ensures AppendMade(FileName(9, 0, 0), 1) && AppendMade(FileName(10, 0, 0), 2)
    ensures Listing({FileName(9, 0, 0), FileName(10, 0, 0)}) == [FileName(10, 0, 0), FileName(9, 0, 0)]
    ensures Old(FileName(9, 0, 0), 10, 0) && Reaped([FileName(10, 0, 0), FileName(9, 0, 0)], 10, 0) == []
  {
    var a, b := FileName(10, 0, 0), FileName(9, 0, 0);
    assert Digits(9, Dec) == "9" && Digits(1, Dec) == "1" && Digits(10, Dec) == "10";
    assert a[0] == '1' && b[0] == '9';
    assert Less(a, b);
    ParseTsOfFileName(10, 0, 0);
    ParseTsOfFileName(9, 0, 0);
    ListingUnique(Listing({b, a}), [a, b], {b, a});
  }

  function Age(n: string, now: nat): nat
    requires ParseTs(n).Some?
  {
    if now < ParseTs(n).value then 0 else now - ParseTs(n).value
  }

  lemma FirstAgeFits(list: seq<string>, now: nat)
    requires list != [] && ParseTs(list[0]).Some? && now < U64_LIMIT
    ensures FirstAge(list, now) == Some(Age(list[0], now))
  {
    var age := Age(list[0], now);
    assert age % U64_LIMIT == age;
  }

  lemma FirstIsOldest(list: seq<string>, width: nat, now: nat, i: nat)
    requires Sorted(list) && i < |list|
    requires forall n :: n in list ==> AppendMade(n, width)
    ensures ParseTs(list[0]).Some? && ParseTs(list[i]).Some? && Age(list[i], now) <= Age(list[0], now)
  {
    EarlierInListing(list, width, 0, i);
  }

  /** The gauge shows the greatest age in the queue, and nothing only when the queue is empty. */
  lemma OldestAgeIsMaximal(names: set<string>, width: nat, now: nat)
    requires forall n :: n in names ==> AppendMade(n, width)
    requires now < U64_LIMIT
    ensures forall n :: n in names ==> ParseTs(n).Some?
    ensures FirstAge(Listing(names), now) == None <==> names == {}
    ensures forall n :: n in names ==> Age(n, now) <= FirstAge(Listing(names), now).value
    ensures names != {} ==> exists n :: n in names && Age(n, now) == FirstAge(Listing(names), now).value
  {
    var list := Listing(names);
    ListingEmpty(list, names);
    if list != [] {
      var first := list[0];
      assert first in names;
      FirstIsOldest(list, width, now, 0);
      FirstAgeFits(list, now);
      forall n | n in names ensures ParseTs(n).Some? && Age(n, now) <= Age(first, now) {
        var i :| 0 <= i < |list| && list[i] == n;
        FirstIsOldest(list, width, now, i);
      }
    }
  }
}
