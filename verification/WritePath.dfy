/**
 * The durable write path of one node as interleaved tasks: any number of producers (WalBacked upserts), one
 * drainer loop, and the leader gate they share. Every step stands for what happens between two awaits. The
 * store is represented by the log of the writes it took; a log entry says whether it is a whole batch.
 */
module WritePath {
  import opened Base
  import opened Register
  import opened WalNames
  import opened FileWal
  import opened Store

  type NodeId = nat

  /** `written` is the hidden file after a stage, `image` the finished file, `read` what a file is taken to hold. */
  datatype Config = Config(written: (Stage, Batch) -> seq<byte>, image: Batch -> seq<byte>,
                           read: seq<byte> -> Option<Batch>, maxAge: Option<nat>)

  /** A finished file holds the whole batch and reads back as it. */
  ghost predicate Faithful(c: Config) {
    forall b :: c.written(Synced, b) == c.image(b) && c.read(c.image(b)) == Some(b)
  }

  /** An upsert in flight, by the name of its file; `held` records whether the node owned the lease at the gate. */
  datatype Producer =
    | Writing(stage: Stage, batch: Batch)
    | Appended(batch: Batch)
    | Passed(batch: Batch, held: bool)
    | Accepted(batch: Batch)

  /** `base` is the set of names that were pending when the cycle's directory scan began. */
  datatype Drainer =
    | Sleeping
    | Woken(may: bool)
    | Scanning(may: bool, base: set<string>)
    | Draining(base: set<string>, todo: seq<string>)
    | Unreadable(base: set<string>, todo: seq<string>)
    | Loaded(base: set<string>, todo: seq<string>, batch: Batch)
    | Sending(base: set<string>, todo: seq<string>, batch: Batch, held: bool)
    | Acking(base: set<string>, todo: seq<string>)
    | Reaping(todo: seq<string>, now: nat)

  /**
   * Files and tasks of a node, then history: appends begun and finished, names removed by an ack or by the
   * reaper, files the disk damaged, files a read of this cycle failed on for another reason than their contents.
   */
  datatype Node = Node(
    files: Dir, producers: map<string, Producer>, drainer: Drainer,
    begun: set<string>, appended: map<string, Batch>, acked: set<string>, reaped: set<string>,
    damaged: set<string>, misread: set<string>)

  datatype Write = Write(node: NodeId, name: string, rows: Batch, whole: bool, held: bool)

  datatype Event =
    // a producer
    | Begin(name: string, batch: Batch)
    | Progress(name: string)
    | AppendFails(name: string)
    | CheckGate(name: string)
    | SomeRows(name: string, applied: set<nat>)
    | StoreOk(name: string)
    | StoreErr(name: string)
    | Ack(name: string)
    | AckFails(name: string)
    // the drainer
    | Wake
    | ScanStart
    | ScanEnd(list: seq<string>, clock: nat)
    | ScanFails
    | ReadNext
    | ReadError
    | SetAside(renamed: bool)
    | DrainGate
    | DrainRows(applied: set<nat>)
    | DrainOk
    | DrainErr
    | DrainAck
    | DrainAckFails
    | DrainDone
    | ReapNext
    | ReapFails
    // the environment
    | Damage(name: string, bytes: seq<byte>)
    | Crash

  function NextStage(s: Stage): Stage {
    match s
    case Created => MagicWritten
    case MagicWritten => CrcWritten
    case CrcWritten => PayloadWritten
    case _ => Synced
  }

  function Drop(n: Node, name: string): Node {
    n.(producers := n.producers - {name})
  }

  function Put(n: Node, name: string, t: Producer): Node {
    n.(producers := n.producers[name := t])
  }

  /** A task of a producer: one step of an upsert that is in flight. */
  function ProducerStep(c: Config, p: NodeId, gate: bool, held: bool, n: Node, e: Event, name: string):
    Option<(Node, seq<Write>)>
    requires name in n.producers
  {
    var t := n.producers[name];
    match e
    case Progress(_) =>
      if !t.Writing? then None
      else if t.stage != Synced then
        var s := NextStage(t.stage);
        Some((Put(n, name, Writing(s, t.batch)).(files := n.files[TmpName(name) := c.written(s, t.batch)]), []))
      else if TmpName(name) in n.files then
        Some((Put(n, name, Appended(t.batch)).(
                files := (n.files - {TmpName(name)})[name := n.files[TmpName(name)]],
                appended := n.appended[name := t.batch]), []))
      else None
    case AppendFails(_) => if t.Writing? then Some((Drop(n, name), [])) else None
    case CheckGate(_) =>
      if !t.Appended? then None
      else if gate then Some((Put(n, name, Passed(t.batch, held)), []))
      else Some((Drop(n, name), []))
    case SomeRows(_, applied) =>
      if t.Passed? then Some((n, [Write(p, name, Part(t.batch, applied), false, t.held)])) else None
    case StoreOk(_) =>
      if t.Passed? then Some((Put(n, name, Accepted(t.batch)), [Write(p, name, t.batch, true, t.held)])) else None
    case StoreErr(_) => if t.Passed? then Some((Drop(n, name), [])) else None
    case Ack(_) =>
      if t.Accepted? then Some((Drop(n, name).(files := n.files - {name}, acked := n.acked + {name}), [])) else None
    case AckFails(_) => if t.Accepted? then Some((Drop(n, name), [])) else None
    case _ => None
  }

  /** One step of the drainer loop. */
  function DrainerStep(c: Config, p: NodeId, gate: bool, held: bool, n: Node, e: Event): Option<(Node, seq<Write>)> {
    var d := n.drainer;
    match e
    case Wake => if d.Sleeping? then Some((n.(drainer := Woken(gate)), [])) else None
    case ScanStart =>
      if !d.Woken? then None
      else if !d.may && c.maxAge == None then Some((n.(drainer := Sleeping), []))
      else Some((n.(drainer := Scanning(d.may, PendingIn(n.files)), misread := {}), []))
    case ScanEnd(list, clock) =>
      // a scan reports every entry that was there throughout, and none that never was
      if d.Scanning? && (forall m :: m in list ==> m in n.appended)
         && (forall m :: m in d.base && m in n.files ==> m in list)
      then Some((n.(drainer := if d.may then Draining(d.base, list) else Reaping(list, clock)), []))
      else None
    case ScanFails => if d.Scanning? then Some((n.(drainer := Sleeping), [])) else None
    case ReadNext =>
      if !d.Draining? || d.todo == [] then None
      else
        var m := d.todo[0];
        var got := if m in n.files then c.read(n.files[m]) else None;
        Some((n.(drainer := match got case Some(b) => Loaded(d.base, d.todo, b) case None => Unreadable(d.base, d.todo)), []))
    case ReadError =>
      if !d.Draining? || d.todo == [] then None
      else Some((n.(drainer := Unreadable(d.base, d.todo), misread := n.misread + {d.todo[0]}), []))
    case SetAside(renamed) =>
      if !d.Unreadable? || d.todo == [] then None
      else
        var m := d.todo[0];
        var next := n.(drainer := Draining(d.base, d.todo[1..]));
        if renamed && m in n.files && IsPending(m) then Some((next.(files := Quarantined(n.files, m)), []))
        else if !renamed || m !in n.files then Some((next, []))
        else None
    case DrainGate =>
      if !d.Loaded? then None
      else Some((n.(drainer := if gate then Sending(d.base, d.todo, d.batch, held) else Sleeping), []))
    case DrainRows(applied) =>
      if d.Sending? && d.todo != [] then Some((n, [Write(p, d.todo[0], Part(d.batch, applied), false, d.held)])) else None
    case DrainOk =>
      if d.Sending? && d.todo != []
      then Some((n.(drainer := Acking(d.base, d.todo)), [Write(p, d.todo[0], d.batch, true, d.held)]))
      else None
    case DrainErr => if d.Sending? then Some((n.(drainer := Sleeping), [])) else None
    case DrainAck =>
      if d.Acking? && d.todo != []
      then Some((n.(drainer := Draining(d.base, d.todo[1..]), files := n.files - {d.todo[0]}, acked := n.acked + {d.todo[0]}), []))
      else None
    case DrainAckFails => if d.Acking? then Some((n.(drainer := Sleeping), [])) else None
    case DrainDone => if d.Draining? && d.todo == [] then Some((n.(drainer := Sleeping), [])) else None
    case ReapNext =>
      if !d.Reaping? || c.maxAge == None then None
      else if d.todo == [] then Some((n.(drainer := Sleeping), []))
      else
        var m, rest := d.todo[0], n.(drainer := Reaping(d.todo[1..], d.now));
        if ParseTs(m) == None then Some((rest, []))
        else if SatSub(d.now, ParseTs(m).value) <= c.maxAge.value then Some((n.(drainer := Sleeping), []))
        else Some((rest.(files := n.files - {m}, reaped := if m in n.files then n.reaped + {m} else n.reaped), []))
    case ReapFails => if d.Reaping? then Some((n.(drainer := Sleeping), [])) else None
    case _ => None
  }

  predicate OfProducer(e: Event) {
    e.Progress? || e.AppendFails? || e.CheckGate? || e.SomeRows? || e.StoreOk? || e.StoreErr? || e.Ack? || e.AckFails?
  }

  /** The node after an event and the writes the store took in it, or None where the event cannot happen. */
  function NodeNext(c: Config, p: NodeId, gate: bool, held: bool, n: Node, e: Event): Option<(Node, seq<Write>)> {
    if e.Begin? then
      if IsPending(e.name) && e.name !in n.producers && e.batch != []
      then Some((Put(n, e.name, Writing(Created, e.batch)).(files := n.files[TmpName(e.name) := c.written(Created, e.batch)], begun := n.begun + {e.name}), []))
      else None
    else if e.Damage? then
      if e.name in n.files && IsPending(e.name)
      then Some((n.(files := n.files[e.name := e.bytes], damaged := n.damaged + {e.name}), []))
      else None
    else if e.Crash? then Some((n.(producers := map[], drainer := Sleeping), []))
    else if OfProducer(e) then
      if e.name in n.producers then ProducerStep(c, p, gate, held, n, e, e.name) else None
    else DrainerStep(c, p, gate, held, n, e)
  }

  /** Names made from (millisecond, process id, counter) are not reused. */
  predicate Fresh(n: Node, e: Event) {
    e.Begin? ==> e.name !in n.begun
  }

  ghost predicate NodeInit(n: Node) {
    n == Node(map[], map[], Sleeping, {}, map[], {}, {}, {}, {})
  }

  // The invariant

  /** The store took the whole batch from this node's file. */
  ghost predicate Taken(log: seq<Write>, p: NodeId, name: string, b: Batch) {
    exists w :: w in log && w.node == p && w.name == name && w.rows == b && w.whole
  }

  /** `name` was appended, and its batch was taken. */
  ghost predicate Delivered(log: seq<Write>, p: NodeId, n: Node, name: string) {
    name in n.appended && Taken(log, p, name, n.appended[name])
  }

  ghost predicate ProducerOk(c: Config, p: NodeId, n: Node, log: seq<Write>, name: string)
    requires name in n.producers
  {
    && IsPending(name) && name in n.begun
    && match n.producers[name]
       case Writing(s, b) => name !in n.appended && TmpName(name) in n.files && n.files[TmpName(name)] == c.written(s, b)
       case Appended(b) => name in n.appended && n.appended[name] == b
       case Passed(b, _) => name in n.appended && n.appended[name] == b
       case Accepted(b) => name in n.appended && n.appended[name] == b && Taken(log, p, name, b)
  }

  /** A pending file is a finished append, and holds its batch unless the disk damaged it. */
  predicate FileOk(c: Config, n: Node, name: string)
    requires name in n.files
  {
    IsPending(name) ==> name in n.appended && (name !in n.damaged ==> n.files[name] == c.image(n.appended[name]))
  }

  /** Where a finished append is: pending, taken by the store, quarantined with its contents, or reaped. */
  ghost predicate Kept(c: Config, p: NodeId, n: Node, log: seq<Write>, name: string)
    requires name in n.appended && IsPending(name)
  {
    || (name in n.files && n.files[name] == c.image(n.appended[name]))
    || Taken(log, p, name, n.appended[name])
    || (CorruptName(name) in n.files && n.files[CorruptName(name)] == c.image(n.appended[name]))
    || name in n.reaped
  }

  predicate Unhurt(n: Node, name: string) {
    name !in n.damaged && name !in n.misread
  }

  /** Every file the cycle found pending is delivered, or still there and still to be done. */
  ghost predicate CycleOk(p: NodeId, n: Node, log: seq<Write>, base: set<string>, todo: seq<string>) {
    forall m :: m in base && Unhurt(n, m) ==> Delivered(log, p, n, m) || (m in n.files && m in todo)
  }

  ghost predicate Listed(n: Node, todo: seq<string>) {
    forall m :: m in todo ==> m in n.appended
  }

  ghost predicate DrainerOk(c: Config, p: NodeId, n: Node, log: seq<Write>) {
    match n.drainer
    case Sleeping => true
    case Woken(_) => true
    case Scanning(may, base) =>
      && (forall m :: m in base ==> m in n.appended)
      && (may ==> forall m :: m in base && Unhurt(n, m) ==> Delivered(log, p, n, m) || m in n.files)
    case Draining(base, todo) => Listed(n, todo) && CycleOk(p, n, log, base, todo)
    case Unreadable(base, todo) =>
      && Listed(n, todo) && todo != [] && CycleOk(p, n, log, base, todo[1..])
      && (Unhurt(n, todo[0]) ==> todo[0] !in n.files)
    case Loaded(base, todo, b) =>
      && Listed(n, todo) && todo != [] && CycleOk(p, n, log, base, todo)
      && (todo[0] !in n.damaged ==> b == n.appended[todo[0]])
    case Sending(base, todo, b, _) =>
      && Listed(n, todo) && todo != [] && CycleOk(p, n, log, base, todo)
      && (todo[0] !in n.damaged ==> b == n.appended[todo[0]])
    case Acking(base, todo) =>
      && Listed(n, todo) && todo != [] && CycleOk(p, n, log, base, todo)
      && (todo[0] !in n.damaged ==> Delivered(log, p, n, todo[0]))
    case Reaping(todo, _) => Listed(n, todo)
  }

  ghost predicate NamesOk(n: Node) {
    forall m :: m in n.appended ==> m in n.begun && IsPending(m)
  }

  ghost predicate TasksOk(c: Config, p: NodeId, n: Node, log: seq<Write>) {
    forall m :: m in n.producers ==> ProducerOk(c, p, n, log, m)
  }

  ghost predicate FilesOk(c: Config, n: Node) {
    forall m :: m in n.files ==> FileOk(c, n, m)
  }

  /** Conservation: no finished append is ever lost. */
  ghost predicate Conserved(c: Config, p: NodeId, n: Node, log: seq<Write>)
    requires NamesOk(n)
  {
    forall m :: m in n.appended && m !in n.damaged ==> Kept(c, p, n, log, m)
  }

  /** Only delivered files are acked. */
  ghost predicate AcksOk(p: NodeId, n: Node, log: seq<Write>) {
    forall m :: m in n.acked && m !in n.damaged ==> Delivered(log, p, n, m)
  }

  ghost predicate NodeInv(c: Config, p: NodeId, n: Node, log: seq<Write>) {
    && NamesOk(n)
    && TasksOk(c, p, n, log)
    && FilesOk(c, n)
    && Conserved(c, p, n, log)
    && AcksOk(p, n, log)
    && DrainerOk(c, p, n, log)
  }

  lemma InitInv(c: Config, p: NodeId, n: Node, log: seq<Write>)
    requires NodeInit(n)
    ensures NodeInv(c, p, n, log)
  {}

  /** The log only grows, and everything said about it survives that. */
  lemma LogGrows(c: Config, p: NodeId, n: Node, log: seq<Write>, ws: seq<Write>)
    requires NodeInv(c, p, n, log)
    ensures NodeInv(c, p, n, log + ws)
  {
    assert forall name, b :: Taken(log, p, name, b) ==> Taken(log + ws, p, name, b) by {
      forall name, b | Taken(log, p, name, b) ensures Taken(log + ws, p, name, b) {
        var w :| w in log && w.node == p && w.name == name && w.rows == b && w.whole;
        assert w in log + ws;
      }
    }
    forall m | m in n.producers ensures ProducerOk(c, p, n, log + ws, m) {
      assert ProducerOk(c, p, n, log, m);
    }
  }

  lemma NewEntryTaken(log: seq<Write>, w: Write)
    requires w.whole
    ensures Taken(log + [w], w.node, w.name, w.rows)
  {
    assert (log + [w])[|log|] == w;
  }

  /** A step that touches one producer's record and nothing else. */
  lemma TaskChanges(c: Config, p: NodeId, n: Node, log: seq<Write>, name: string, n': Node)
    requires NodeInv(c, p, n, log)
    requires n' == n.(producers := n'.producers)
    requires n'.producers - {name} == n.producers - {name}
    requires name in n'.producers ==> ProducerOk(c, p, n', log, name)
    ensures NodeInv(c, p, n', log)
  {
    forall m | m in n'.producers ensures ProducerOk(c, p, n', log, m) {
      if m != name {
        assert m in n'.producers - {name} && n'.producers[m] == (n'.producers - {name})[m];
        assert ProducerOk(c, p, n, log, m);
      }
    }
  }

  /** A step that moves the drainer and nothing else. */
  lemma DrainerMoves(c: Config, p: NodeId, n: Node, log: seq<Write>, d: Drainer)
    requires NodeInv(c, p, n, log) && DrainerOk(c, p, n.(drainer := d), log)
    ensures NodeInv(c, p, n.(drainer := d), log)
  {
    var n' := n.(drainer := d);
    forall m | m in n'.producers ensures ProducerOk(c, p, n', log, m) {
      assert ProducerOk(c, p, n, log, m);
    }
    forall m | m in n'.files ensures FileOk(c, n', m) {
      assert FileOk(c, n, m);
    }
    forall m | m in n'.appended && m !in n'.damaged ensures Kept(c, p, n', log, m) {
      assert Kept(c, p, n, log, m);
    }
  }

  // Producer steps

  /** Writing the hidden file of a fresh append disturbs no other file. */
  lemma HiddenWriteKeeps(c: Config, p: NodeId, n: Node, log: seq<Write>, name: string, s: Stage, b: Batch, n': Node)
    requires NodeInv(c, p, n, log) && IsPending(name) && name !in n.appended
    requires n' == Put(n, name, Writing(s, b)).(files := n.files[TmpName(name) := c.written(s, b)], begun := n.begun + {name})
    ensures NodeInv(c, p, n', log)
  {
    OtherNamesNotPending(name);
    forall m | m in n'.producers ensures ProducerOk(c, p, n', log, m) {
      if m != name {
        assert ProducerOk(c, p, n, log, m);
        NamesApart(m, name);
      }
    }
    forall m | m in n'.files ensures FileOk(c, n', m) {
      if m != TmpName(name) {
        assert FileOk(c, n, m);
      }
    }
    forall m | m in n'.appended && m !in n'.damaged ensures Kept(c, p, n', log, m) {
      assert Kept(c, p, n, log, m);
      NamesApart(name, m);
    }
    DrainerKeeps(p, c, n, n', log);
  }

  /** The drainer's claims survive when no listed file disappears and no batch is reassigned. */
  lemma DrainerKeeps(p: NodeId, c: Config, n: Node, n': Node, log: seq<Write>)
    requires DrainerOk(c, p, n, log) && n'.drainer == n.drainer
    requires n'.damaged >= n.damaged && n'.misread >= n.misread
    requires forall m :: m in n.appended ==> m in n'.appended && n'.appended[m] == n.appended[m]
    requires forall m :: m in n.files ==> m in n'.files || !IsPending(m) || !Unhurt(n', m) || Delivered(log, p, n, m)
    requires forall m :: m in n.appended && m in n'.files ==> m in n.files
    requires forall m :: m in n.appended ==> IsPending(m)
    ensures DrainerOk(c, p, n', log)
  {
    match n.drainer
    case Scanning(may, base) =>
    case _ =>
  }

  /** The rename turns the hidden file into a pending one with the whole batch. */
  lemma RenameKeeps(c: Config, p: NodeId, gate: bool, held: bool, n: Node, log: seq<Write>, name: string, n': Node)
    requires Faithful(c) && NodeInv(c, p, n, log)
    requires name in n.producers && n.producers[name].Writing? && n.producers[name].stage == Synced
    requires ProducerStep(c, p, gate, held, n, Progress(name), name) == Some((n', []))
    ensures NodeInv(c, p, n', log)
  {
    var b := n.producers[name].batch;
    assert ProducerOk(c, p, n, log, name);
    assert n'.files[name] == c.image(b);
    OtherNamesNotPending(name);
    forall m | m in n'.producers ensures ProducerOk(c, p, n', log, m) {
      if m != name {
        assert ProducerOk(c, p, n, log, m);
        NamesApart(m, name);
        NamesApart(name, m);
      }
    }
    forall m | m in n'.files ensures FileOk(c, n', m) {
      if m != name {
        assert FileOk(c, n, m);
      }
    }
    forall m | m in n'.appended && m !in n'.damaged ensures Kept(c, p, n', log, m) {
      if m != name {
        assert Kept(c, p, n, log, m);
        NamesApart(name, m);
        NamesApart(m, name);
      }
    }
    assert name in n.files ==> FileOk(c, n, name);
    DrainerKeeps(p, c, n, n', log);
  }

  /** Removing a file whose batch the store took loses nothing. */
  lemma AckedFileRemoved(c: Config, p: NodeId, n: Node, log: seq<Write>, name: string)
    requires NodeInv(c, p, n, log) && name in n.appended
    requires name !in n.damaged ==> Delivered(log, p, n, name)
    ensures NodeInv(c, p, n.(files := n.files - {name}, acked := n.acked + {name}), log)
  {
    var n' := n.(files := n.files - {name}, acked := n.acked + {name});
    forall m | m in n'.producers ensures ProducerOk(c, p, n', log, m) {
      assert ProducerOk(c, p, n, log, m);
      NamesApart(m, name);
    }
    forall m | m in n'.files ensures FileOk(c, n', m) {
      assert FileOk(c, n, m);
    }
    forall m | m in n'.appended && m !in n'.damaged ensures Kept(c, p, n', log, m) {
      assert Kept(c, p, n, log, m);
      NamesApart(m, name);
    }
    DrainerKeeps(p, c, n, n', log);
  }

  lemma ProgressKeeps(c: Config, p: NodeId, gate: bool, held: bool, n: Node, log: seq<Write>, name: string, n': Node)
    requires Faithful(c) && NodeInv(c, p, n, log) && name in n.producers
    requires ProducerStep(c, p, gate, held, n, Progress(name), name) == Some((n', []))
    ensures NodeInv(c, p, n', log)
  {
    var t := n.producers[name];
    assert ProducerOk(c, p, n, log, name);
    if t.stage == Synced {
      RenameKeeps(c, p, gate, held, n, log, name, n');
    } else {
      assert n.begun + {name} == n.begun;
      HiddenWriteKeeps(c, p, n, log, name, NextStage(t.stage), t.batch, n');
    }
  }

  /** The store took the batch: a new log entry, and the producer moves on to its ack. */
  lemma TakenKeeps(c: Config, p: NodeId, n: Node, log: seq<Write>, name: string, w: Write)
    requires NodeInv(c, p, n, log) && name in n.producers && n.producers[name].Passed?
    requires w.node == p && w.name == name && w.rows == n.producers[name].batch && w.whole
    ensures NodeInv(c, p, Put(n, name, Accepted(w.rows)), log + [w])
  {
    assert ProducerOk(c, p, n, log, name);
    LogGrows(c, p, n, log, [w]);
    NewEntryTaken(log, w);
    TaskChanges(c, p, n, log + [w], name, Put(n, name, Accepted(w.rows)));
  }

  lemma ProducerAckKeeps(c: Config, p: NodeId, n: Node, log: seq<Write>, name: string)
    requires NodeInv(c, p, n, log) && name in n.producers && n.producers[name].Accepted?
    ensures NodeInv(c, p, Drop(n, name).(files := n.files - {name}, acked := n.acked + {name}), log)
  {
    assert ProducerOk(c, p, n, log, name);
    TaskChanges(c, p, n, log, name, Drop(n, name));
    AckedFileRemoved(c, p, Drop(n, name), log, name);
  }

  /** An upsert that ends leaves its file to the drainer. */
  lemma DropKeeps(c: Config, p: NodeId, n: Node, log: seq<Write>, name: string)
    requires NodeInv(c, p, n, log)
    ensures NodeInv(c, p, Drop(n, name), log)
  {
    TaskChanges(c, p, n, log, name, Drop(n, name));
  }

  lemma GateKeeps(c: Config, p: NodeId, n: Node, log: seq<Write>, name: string, held: bool)
    requires NodeInv(c, p, n, log) && name in n.producers && n.producers[name].Appended?
    ensures NodeInv(c, p, Put(n, name, Passed(n.producers[name].batch, held)), log)
  {
    assert ProducerOk(c, p, n, log, name);
    TaskChanges(c, p, n, log, name, Put(n, name, Passed(n.producers[name].batch, held)));
  }

  /** Every producer step keeps the invariant. */
  lemma ProducerKeeps(c: Config, p: NodeId, gate: bool, held: bool, n: Node, log: seq<Write>, e: Event, name: string,
      n': Node, ws: seq<Write>)
    requires Faithful(c) && NodeInv(c, p, n, log) && name in n.producers
    requires ProducerStep(c, p, gate, held, n, e, name) == Some((n', ws))
    ensures NodeInv(c, p, n', log + ws)
  {
    assert log + [] == log;
    if e.Progress? {
      ProgressKeeps(c, p, gate, held, n, log, name, n');
    } else if e.CheckGate? && gate {
      GateKeeps(c, p, n, log, name, held);
    } else if e.SomeRows? {
      LogGrows(c, p, n, log, ws);
    } else if e.StoreOk? {
      TakenKeeps(c, p, n, log, name, ws[0]);
    } else if e.Ack? {
      ProducerAckKeeps(c, p, n, log, name);
    } else {
      DropKeeps(c, p, n, log, name);
    }
  }

  // Drainer steps

  /** Moving an undeliverable file aside keeps its contents, and only hurt files get there. */
  lemma QuarantineKeeps(c: Config, p: NodeId, n: Node, log: seq<Write>, name: string)
    requires NodeInv(c, p, n, log) && name in n.files && name in n.appended && IsPending(name)
    requires !Unhurt(n, name)
    ensures NodeInv(c, p, n.(files := Quarantined(n.files, name)), log)
  {
    var n' := n.(files := Quarantined(n.files, name));
    OtherNamesNotPending(name);
    assert FileOk(c, n, name);
    forall m | m in n'.producers ensures ProducerOk(c, p, n', log, m) {
      assert ProducerOk(c, p, n, log, m);
      NamesApart(m, name);
    }
    forall m | m in n'.files ensures FileOk(c, n', m) {
      if m != CorruptName(name) {
        assert FileOk(c, n, m);
      }
    }
    forall m | m in n'.appended && m !in n'.damaged ensures Kept(c, p, n', log, m) {
      assert Kept(c, p, n, log, m);
      NamesApart(m, name);
      NamesApart(name, m);
    }
    forall m | m in n.appended && m in n'.files ensures m in n.files {
      NamesApart(name, m);
    }
    DrainerKeeps(p, c, n, n', log);
  }

  lemma ReapKeeps(c: Config, p: NodeId, n: Node, log: seq<Write>, name: string)
    requires NodeInv(c, p, n, log) && name in n.appended && n.drainer.Reaping?
    ensures NodeInv(c, p, n.(files := n.files - {name}, reaped := if name in n.files then n.reaped + {name} else n.reaped), log)
  {
    var n' := n.(files := n.files - {name}, reaped := if name in n.files then n.reaped + {name} else n.reaped);
    forall m | m in n'.producers ensures ProducerOk(c, p, n', log, m) {
      assert ProducerOk(c, p, n, log, m);
      NamesApart(m, name);
    }
    forall m | m in n'.files ensures FileOk(c, n', m) {
      assert FileOk(c, n, m);
    }
    forall m | m in n'.appended && m !in n'.damaged ensures Kept(c, p, n', log, m) {
      assert Kept(c, p, n, log, m);
      NamesApart(m, name);
    }
  }

  lemma ReadKeeps(c: Config, p: NodeId, n: Node, log: seq<Write>, n': Node, ws: seq<Write>)
    requires Faithful(c) && NodeInv(c, p, n, log)
    requires DrainerStep(c, p, false, false, n, ReadNext) == Some((n', ws))
    ensures ws == [] && NodeInv(c, p, n', log)
  {
    var m := n.drainer.todo[0];
    assert m in n.appended;
    if m in n.files {
      assert FileOk(c, n, m);
    }
    DrainerMoves(c, p, n, log, n'.drainer);
  }

  lemma MisreadKeeps(c: Config, p: NodeId, n: Node, log: seq<Write>, name: string)
    requires NodeInv(c, p, n, log)
    ensures NodeInv(c, p, n.(misread := n.misread + {name}), log)
  {
    var n' := n.(misread := n.misread + {name});
    forall m | m in n'.producers ensures ProducerOk(c, p, n', log, m) {
      assert ProducerOk(c, p, n, log, m);
    }
    forall m | m in n'.files ensures FileOk(c, n', m) {
      assert FileOk(c, n, m);
    }
    forall m | m in n'.appended && m !in n'.damaged ensures Kept(c, p, n', log, m) {
      assert Kept(c, p, n, log, m);
    }
    DrainerKeeps(p, c, n, n', log);
  }

  lemma ReadErrorKeeps(c: Config, p: NodeId, n: Node, log: seq<Write>, base: set<string>, todo: seq<string>)
    requires NodeInv(c, p, n, log) && n.drainer == Draining(base, todo) && todo != []
    ensures NodeInv(c, p, n.(drainer := Unreadable(base, todo), misread := n.misread + {todo[0]}), log)
  {
    var n1 := n.(misread := n.misread + {todo[0]});
    MisreadKeeps(c, p, n, log, todo[0]);
    assert forall m :: m in todo ==> m == todo[0] || m in todo[1..];
    DrainerMoves(c, p, n1, log, Unreadable(base, todo));
  }

  /** Whether the rename works or not, the cycle goes on with the next file. */
  lemma SetAsideKeeps(c: Config, p: NodeId, n: Node, log: seq<Write>, renamed: bool, n': Node, ws: seq<Write>)
    requires NodeInv(c, p, n, log)
    requires DrainerStep(c, p, false, false, n, SetAside(renamed)) == Some((n', ws))
    ensures ws == [] && NodeInv(c, p, n', log)
  {
    var name, next := n.drainer.todo[0], Draining(n.drainer.base, n.drainer.todo[1..]);
    assert forall m :: m in n.drainer.todo[1..] ==> m in n.drainer.todo;
    assert name in n.drainer.todo;
    DrainerMoves(c, p, n, log, next);
    if renamed && name in n.files && IsPending(name) {
      QuarantineKeeps(c, p, n.(drainer := next), log, name);
    }
  }

  lemma DrainOkKeeps(c: Config, p: NodeId, n: Node, log: seq<Write>, w: Write)
    requires NodeInv(c, p, n, log) && n.drainer.Sending? && n.drainer.todo != []
    requires w.node == p && w.name == n.drainer.todo[0] && w.rows == n.drainer.batch && w.whole
    ensures NodeInv(c, p, n.(drainer := Acking(n.drainer.base, n.drainer.todo)), log + [w])
  {
    LogGrows(c, p, n, log, [w]);
    NewEntryTaken(log, w);
    assert n.drainer.todo[0] in n.drainer.todo;
    DrainerMoves(c, p, n, log + [w], Acking(n.drainer.base, n.drainer.todo));
  }

  /** Once its batch is taken, a file is done whether it is removed or not. */
  lemma DrainAckKeeps(c: Config, p: NodeId, n: Node, log: seq<Write>)
    requires NodeInv(c, p, n, log) && n.drainer.Acking? && n.drainer.todo != []
    ensures var name, next := n.drainer.todo[0], Draining(n.drainer.base, n.drainer.todo[1..]);
      NodeInv(c, p, n.(drainer := next, files := n.files - {name}, acked := n.acked + {name}), log)
  {
    var todo := n.drainer.todo;
    var next := Draining(n.drainer.base, todo[1..]);
    assert forall m :: m in todo <==> m == todo[0] || m in todo[1..];
    DrainerMoves(c, p, n, log, next);
    AckedFileRemoved(c, p, n.(drainer := next), log, todo[0]);
  }

  lemma ReapNextKeeps(c: Config, p: NodeId, n: Node, log: seq<Write>, n': Node, ws: seq<Write>)
    requires NodeInv(c, p, n, log)
    requires DrainerStep(c, p, false, false, n, ReapNext) == Some((n', ws))
    ensures ws == [] && NodeInv(c, p, n', log)
  {
    var todo := n.drainer.todo;
    if n'.drainer.Sleeping? {
      DrainerMoves(c, p, n, log, Sleeping);
    } else {
      var next := Reaping(todo[1..], n.drainer.now);
      assert todo[0] in todo && forall m :: m in todo[1..] ==> m in todo;
      DrainerMoves(c, p, n, log, next);
      if ParseTs(todo[0]).Some? {
        ReapKeeps(c, p, n.(drainer := next), log, todo[0]);
      }
    }
  }

  lemma ScanKeeps(c: Config, p: NodeId, n: Node, log: seq<Write>, e: Event, n': Node, ws: seq<Write>)
    requires NodeInv(c, p, n, log) && (e.ScanStart? || e.ScanEnd?)
    requires DrainerStep(c, p, false, false, n, e) == Some((n', ws))
    ensures ws == [] && NodeInv(c, p, n', log)
  {
    forall m | m in PendingIn(n.files) ensures m in n.appended {
      assert FileOk(c, n, m);
    }
    if e.ScanStart? && n'.drainer.Scanning? {
      ForgetMisreads(c, p, n, log);
      DrainerMoves(c, p, n.(misread := {}), log, n'.drainer);
    } else {
      DrainerMoves(c, p, n, log, n'.drainer);
    }
  }

  /** A new cycle starts with no failed reads. */
  lemma ForgetMisreads(c: Config, p: NodeId, n: Node, log: seq<Write>)
    requires NodeInv(c, p, n, log) && n.drainer.Woken?
    ensures NodeInv(c, p, n.(misread := {}), log)
  {
    var n' := n.(misread := {});
    forall m | m in n'.producers ensures ProducerOk(c, p, n', log, m) {
      assert ProducerOk(c, p, n, log, m);
    }
    forall m | m in n'.files ensures FileOk(c, n', m) {
      assert FileOk(c, n, m);
    }
    forall m | m in n'.appended && m !in n'.damaged ensures Kept(c, p, n', log, m) {
      assert Kept(c, p, n, log, m);
    }
  }

  lemma SendKeeps(c: Config, p: NodeId, n: Node, log: seq<Write>, held: bool)
    requires NodeInv(c, p, n, log) && n.drainer.Loaded?
    ensures NodeInv(c, p, n.(drainer := Sending(n.drainer.base, n.drainer.todo, n.drainer.batch, held)), log)
  {
    DrainerMoves(c, p, n, log, Sending(n.drainer.base, n.drainer.todo, n.drainer.batch, held));
  }

  /** Every drainer step keeps the invariant. */
  lemma DrainerStepKeeps(c: Config, p: NodeId, gate: bool, held: bool, n: Node, log: seq<Write>, e: Event, n': Node,
      ws: seq<Write>)
    requires Faithful(c) && NodeInv(c, p, n, log)
    requires DrainerStep(c, p, gate, held, n, e) == Some((n', ws))
    ensures NodeInv(c, p, n', log + ws)
  {
    assert log + [] == log;
    if e.ReadNext? {
      ReadKeeps(c, p, n, log, n', ws);
    } else if e.ReadError? {
      ReadErrorKeeps(c, p, n, log, n.drainer.base, n.drainer.todo);
    } else if e.SetAside? {
      SetAsideKeeps(c, p, n, log, e.renamed, n', ws);
    } else if e.DrainOk? {
      DrainOkKeeps(c, p, n, log, ws[0]);
    } else if e.DrainRows? {
      LogGrows(c, p, n, log, ws);
    } else if e.DrainAck? {
      DrainAckKeeps(c, p, n, log);
    } else if e.ReapNext? {
      ReapNextKeeps(c, p, n, log, n', ws);
    } else if e.ScanStart? || e.ScanEnd? {
      ScanKeeps(c, p, n, log, e, n', ws);
    } else if e.DrainGate? && gate {
      SendKeeps(c, p, n, log, held);
    } else {
      DrainerMoves(c, p, n, log, n'.drainer);
    }
  }

  // The other steps

  lemma DamageKeeps(c: Config, p: NodeId, n: Node, log: seq<Write>, name: string, bytes: seq<byte>)
    requires NodeInv(c, p, n, log) && name in n.files && IsPending(name)
    ensures NodeInv(c, p, n.(files := n.files[name := bytes], damaged := n.damaged + {name}), log)
  {
    var n' := n.(files := n.files[name := bytes], damaged := n.damaged + {name});
    forall m | m in n'.producers ensures ProducerOk(c, p, n', log, m) {
      assert ProducerOk(c, p, n, log, m);
      NamesApart(m, name);
    }
    assert FileOk(c, n, name);
    forall m | m in n'.files ensures FileOk(c, n', m) {
      assert FileOk(c, n, m);
    }
    forall m | m in n'.appended && m !in n'.damaged ensures Kept(c, p, n', log, m) {
      assert Kept(c, p, n, log, m);
      NamesApart(m, name);
    }
    DrainerKeeps(p, c, n, n', log);
  }

  /** A crash stops every task and leaves the files. */
  lemma CrashKeeps(c: Config, p: NodeId, n: Node, log: seq<Write>)
    requires NodeInv(c, p, n, log)
    ensures NodeInv(c, p, n.(producers := map[], drainer := Sleeping), log)
  {
    var n1 := n.(producers := map[]);
    forall m | m in n1.files ensures FileOk(c, n1, m) {
      assert FileOk(c, n, m);
    }
    forall m | m in n1.appended && m !in n1.damaged ensures Kept(c, p, n1, log, m) {
      assert Kept(c, p, n, log, m);
    }
    DrainerMoves(c, p, n1, log, Sleeping);
  }

  lemma BeginKeeps(c: Config, p: NodeId, n: Node, log: seq<Write>, name: string, b: Batch)
    requires NodeInv(c, p, n, log) && IsPending(name) && name !in n.begun
    ensures NodeInv(c, p, Put(n, name, Writing(Created, b)).(files := n.files[TmpName(name) := c.written(Created, b)], begun := n.begun + {name}), log)
  {
    HiddenWriteKeeps(c, p, n, log, name, Created, b,
      Put(n, name, Writing(Created, b)).(files := n.files[TmpName(name) := c.written(Created, b)], begun := n.begun + {name}));
  }

  /** Conservation and all that goes with it survive every step of a node. */
  lemma NodeNextKeeps(c: Config, p: NodeId, gate: bool, held: bool, n: Node, log: seq<Write>, e: Event, n': Node,
      ws: seq<Write>)
    requires Faithful(c) && NodeInv(c, p, n, log) && Fresh(n, e)
    requires NodeNext(c, p, gate, held, n, e) == Some((n', ws))
    ensures NodeInv(c, p, n', log + ws)
  {
    assert log + [] == log;
    if e.Begin? {
      BeginKeeps(c, p, n, log, e.name, e.batch);
    } else if e.Damage? {
      DamageKeeps(c, p, n, log, e.name, e.bytes);
    } else if e.Crash? {
      CrashKeeps(c, p, n, log);
    } else if OfProducer(e) {
      ProducerKeeps(c, p, gate, held, n, log, e, e.name, n', ws);
    } else {
      DrainerStepKeeps(c, p, gate, held, n, log, e, n', ws);
    }
  }

  // How a pending file can leave its name

  /** The file's timestamp lies more than the configured age before `now`. */
  predicate Overdue(c: Config, name: string, now: nat) {
    c.maxAge.Some? && ParseTs(name).Some? && ParseTs(name).value + c.maxAge.value < now
  }

  lemma ProducerLeavesReaped(c: Config, p: NodeId, gate: bool, held: bool, n: Node, e: Event, name: string, n': Node,
      ws: seq<Write>)
    requires name in n.producers && ProducerStep(c, p, gate, held, n, e, name) == Some((n', ws))
    ensures n'.reaped == n.reaped
  {}

  lemma DrainerReaps(c: Config, p: NodeId, gate: bool, held: bool, n: Node, e: Event, n': Node, ws: seq<Write>)
    requires DrainerStep(c, p, gate, held, n, e) == Some((n', ws)) && n'.reaped != n.reaped
    ensures e.ReapNext? && n.drainer.Reaping? && n.drainer.todo != []
    ensures var m := n.drainer.todo[0];
      && m in n.files && Overdue(c, m, n.drainer.now)
      && n'.files == n.files - {m} && n'.reaped == n.reaped + {m}
  {}

  /** The reaper deletes the next file of its listing, and only when that one is overdue by the clock of its scan. */
  lemma ReapsOnlyOverdue(c: Config, p: NodeId, gate: bool, held: bool, n: Node, e: Event, n': Node, ws: seq<Write>)
    requires NodeNext(c, p, gate, held, n, e) == Some((n', ws)) && n'.reaped != n.reaped
    ensures e.ReapNext? && n.drainer.Reaping? && n.drainer.todo != []
    ensures var m := n.drainer.todo[0];
      && m in n.files && Overdue(c, m, n.drainer.now)
      && n'.files == n.files - {m} && n'.reaped == n.reaped + {m}
  {
    if OfProducer(e) {
      ProducerLeavesReaped(c, p, gate, held, n, e, e.name, n', ws);
    } else if !e.Begin? && !e.Damage? && !e.Crash? {
      DrainerReaps(c, p, gate, held, n, e, n', ws);
    }
  }

  /** What the reaper does with the next file of its listing. */
  lemma ReapNextStep(c: Config, p: NodeId, gate: bool, held: bool, n: Node)
    requires c.maxAge.Some? && n.drainer.Reaping? && n.drainer.todo != []
    ensures var m, rest := n.drainer.todo[0], Reaping(n.drainer.todo[1..], n.drainer.now);
      var after := NodeNext(c, p, gate, held, n, ReapNext);
      && after.Some? && after.value.1 == []
      && (Overdue(c, m, n.drainer.now) ==>
           after.value.0 == n.(drainer := rest, files := n.files - {m}, reaped := after.value.0.reaped))
      && (ParseTs(m) == None ==> after.value.0 == n.(drainer := rest))
      && (ParseTs(m).Some? && !Overdue(c, m, n.drainer.now) ==> after.value.0 == n.(drainer := Sleeping))
  {}

  lemma ProducerRemoves(c: Config, p: NodeId, gate: bool, held: bool, n: Node, e: Event, name: string, n': Node,
      ws: seq<Write>, m: string)
    requires name in n.producers && ProducerStep(c, p, gate, held, n, e, name) == Some((n', ws))
    requires e.name == name && IsPending(m) && m in n.files && m !in n'.files && OfProducer(e) && IsPending(name)
    ensures e == Ack(m) && n.producers[m].Accepted? && m in n'.acked
  {
    OtherNamesNotPending(name);
  }

  /** The file was set aside with its contents. */
  predicate SetAsideWhole(n: Node, n': Node, m: string)
    requires IsPending(m)
  {
    m in n.files && CorruptName(m) in n'.files && n'.files[CorruptName(m)] == n.files[m]
  }

  lemma DrainerRemoves(c: Config, p: NodeId, gate: bool, held: bool, n: Node, e: Event, n': Node, ws: seq<Write>, m: string)
    requires DrainerStep(c, p, gate, held, n, e) == Some((n', ws))
    requires IsPending(m) && m in n.files && m !in n'.files
    ensures (e.DrainAck? || e.SetAside? || e.ReapNext?) && n'.drainer != n.drainer
    ensures e.DrainAck? ==> n.drainer.Acking? && m in n'.acked
    ensures e.SetAside? ==> n.drainer.Unreadable? && SetAsideWhole(n, n', m)
    ensures e.ReapNext? ==> n.drainer.Reaping? && Overdue(c, m, n.drainer.now) && m in n'.reaped
  {}

  /**
   * A pending file leaves its name in one of four ways only: the upsert that wrote it acks it once the store took it,
   * the drainer does, the drainer sets it aside whole, or the reaper finds it overdue.
   */
  lemma FileLeavesOnlySo(c: Config, p: NodeId, gate: bool, held: bool, n: Node, log: seq<Write>, e: Event, n': Node,
      ws: seq<Write>, m: string)
    requires NodeInv(c, p, n, log) && NodeNext(c, p, gate, held, n, e) == Some((n', ws))
    requires IsPending(m) && m in n.files && m !in n'.files
    ensures e == Ack(m) || e.DrainAck? || e.SetAside? || e.ReapNext?
    ensures e == Ack(m) ==> m in n.producers && n.producers[m].Accepted? && m in n'.acked
    ensures e.DrainAck? ==> n.drainer.Acking? && m in n'.acked
    ensures e.SetAside? ==> n.drainer.Unreadable? && SetAsideWhole(n, n', m)
    ensures e.ReapNext? ==> n.drainer.Reaping? && Overdue(c, m, n.drainer.now) && m in n'.reaped
  {
    if OfProducer(e) {
      assert ProducerOk(c, p, n, log, e.name);
      ProducerRemoves(c, p, gate, held, n, e, e.name, n', ws, m);
    } else if !e.Begin? && !e.Damage? && !e.Crash? {
      DrainerRemoves(c, p, gate, held, n, e, n', ws, m);
    }
  }

  // What can go wrong

  /**
   * A crash can strike at any moment, ends every task and leaves the files; so can the disk, on any pending file; a
   * scan can fail, which ends the cycle.
   */
  lemma FaultsStrikeAnytime(c: Config, p: NodeId, gate: bool, held: bool, n: Node, m: string, bytes: seq<byte>)
    ensures NodeNext(c, p, gate, held, n, Crash) == Some((n.(producers := map[], drainer := Sleeping), []))
    ensures IsPending(m) && m in n.files ==>
      NodeNext(c, p, gate, held, n, Damage(m, bytes)) ==
        Some((n.(files := n.files[m := bytes], damaged := n.damaged + {m}), []))
    ensures n.drainer.Scanning? ==> NodeNext(c, p, gate, held, n, ScanFails) == Some((n.(drainer := Sleeping), []))
  {}

  /** An append can fail at each of its stages and leaves its hidden file; the batch is then not promised anything. */
  lemma AppendsCanFail(c: Config, p: NodeId, gate: bool, held: bool, n: Node, m: string)
    requires m in n.producers && n.producers[m].Writing?
    ensures NodeNext(c, p, gate, held, n, AppendFails(m)) == Some((n.(producers := n.producers - {m}), []))
  {}
}
