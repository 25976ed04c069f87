/**
 * The whole write path: lease supervisors, and on each node producers and a drainer gated by the node's flag.
 * What a run keeps, whatever crashes and wherever.
 */
module HaSystem {
  import opened Base
  import opened OiTypes
  import opened Register
  import opened WalNames
  import Codec
  import FileWal
  import Frame
  import opened Store
  import Drain
  import Lease
  import W = WritePath

  datatype Config = Config(lease: Lease.Config, wal: W.Config)

  datatype State = State(lease: Lease.State, nodes: map<W.NodeId, W.Node>, log: seq<W.Write>)

  datatype Event =
    | LeaseStep(tick: Lease.Event)
    | On(p: W.NodeId, step: W.Event)
    | CrashNode(p: W.NodeId)

  /** What the gate of node p reads. */
  predicate Gate(s: State, p: W.NodeId) {
    p in s.lease.procs && s.lease.procs[p].isLeader
  }

  /** Whether the unexpired key is p's. */
  predicate Holds(s: State, p: W.NodeId) {
    Lease.Live(s.lease) && s.lease.key.value.holder == p
  }

  function NodeStep(c: Config, s: State, p: W.NodeId, e: W.Event): Option<State>
    requires p in s.nodes
  {
    match W.NodeNext(c.wal, p, Gate(s, p), Holds(s, p), s.nodes[p], e)
    case Some(r) => Some(s.(nodes := s.nodes[p := r.0], log := s.log + r.1))
    case None => None
  }

  function Next(c: Config, s: State, e: Event): Option<State> {
    match e
    case LeaseStep(tick) =>
      if tick.Crash? then None
      else (match Lease.Next(c.lease, s.lease, tick)
            case Some(l) => Some(s.(lease := l))
            case None => None)
    case On(p, step) => if p in s.nodes && !step.Crash? then NodeStep(c, s, p, step) else None
    case CrashNode(p) =>
      if p in s.nodes && p in s.lease.procs
      then NodeStep(c, s.(lease := Lease.GiveUp(s.lease, p)), p, W.Crash)
      else None
  }

  ghost predicate Init(c: Config, s: State) {
    && Lease.Init(c.lease, s.lease)
    && (forall p :: p in s.nodes ==> W.NodeInit(s.nodes[p]))
    && s.log == []
  }

  /** Names are not reused. */
  predicate Fresh(s: State, e: Event) {
    e.On? && e.p in s.nodes ==> W.Fresh(s.nodes[e.p], e.step)
  }

  predicate Steps(c: Config, s: State, e: Event, s': State) {
    Fresh(s, e) && Next(c, s, e) == Some(s')
  }

  ghost predicate IsRun(c: Config, tr: seq<State>, es: seq<Event>) {
    && |tr| == |es| + 1
    && forall i {:trigger es[i]} :: 0 <= i < |es| ==> Steps(c, tr[i], es[i], tr[i + 1])
  }

  ghost predicate TimelyRun(c: Config, tr: seq<State>) {
    forall i :: 0 <= i < |tr| ==> Lease.Timely(c.lease, tr[i].lease)
  }

  // Every node keeps its invariant

  ghost predicate NodesOk(c: Config, s: State) {
    forall p :: p in s.nodes ==> W.NodeInv(c.wal, p, s.nodes[p], s.log)
  }

  lemma NodeStepKeeps(c: Config, s: State, p: W.NodeId, e: W.Event, s': State)
    requires W.Faithful(c.wal) && NodesOk(c, s) && p in s.nodes && W.Fresh(s.nodes[p], e)
    requires NodeStep(c, s, p, e) == Some(s')
    ensures NodesOk(c, s')
  {
    var r := W.NodeNext(c.wal, p, Gate(s, p), Holds(s, p), s.nodes[p], e).value;
    forall q | q in s'.nodes ensures W.NodeInv(c.wal, q, s'.nodes[q], s'.log) {
      assert W.NodeInv(c.wal, q, s.nodes[q], s.log);
      if q == p {
        W.NodeNextKeeps(c.wal, p, Gate(s, p), Holds(s, p), s.nodes[p], s.log, e, r.0, r.1);
      } else {
        W.LogGrows(c.wal, q, s.nodes[q], s.log, r.1);
      }
    }
  }

  lemma NextKeepsNodes(c: Config, s: State, e: Event, s': State)
    requires W.Faithful(c.wal) && NodesOk(c, s) && Steps(c, s, e, s')
    ensures NodesOk(c, s')
  {
    match e {
      case LeaseStep(_) =>
      case On(p, step) => NodeStepKeeps(c, s, p, step, s');
      case CrashNode(p) => NodeStepKeeps(c, s.(lease := Lease.GiveUp(s.lease, p)), p, W.Crash, s');
    }
  }

  lemma {:induction false} RunKeepsNodes(c: Config, tr: seq<State>, es: seq<Event>, i: nat)
    requires W.Faithful(c.wal) && IsRun(c, tr, es) && Init(c, tr[0]) && i < |tr|
    ensures NodesOk(c, tr[i])
  {
    if i == 0 {
      forall p | p in tr[0].nodes ensures W.NodeInv(c.wal, p, tr[0].nodes[p], []) {
        W.InitInv(c.wal, p, tr[0].nodes[p], []);
      }
    } else {
      RunKeepsNodes(c, tr, es, i - 1);
      NextKeepsNodes(c, tr[i - 1], es[i - 1], tr[i]);
    }
  }

  /**
   * WAL conservation: at every point of every run, a batch whose append finished is pending with its contents,
   * taken by the store, quarantined with its contents, or reaped; unless the disk damaged its file.
   */
  lemma WalConservation(c: Config, tr: seq<State>, es: seq<Event>, i: nat, p: W.NodeId, name: string)
    requires W.Faithful(c.wal) && IsRun(c, tr, es) && Init(c, tr[0]) && i < |tr| && p in tr[i].nodes
    requires name in tr[i].nodes[p].appended && name !in tr[i].nodes[p].damaged
    ensures IsPending(name) && W.Kept(c.wal, p, tr[i].nodes[p], tr[i].log, name)
  {
    RunKeepsNodes(c, tr, es, i);
  }

  /** Nothing is acked before the store took it. */
  lemma AckedOnlyAfterTaken(c: Config, tr: seq<State>, es: seq<Event>, i: nat, p: W.NodeId, name: string)
    requires W.Faithful(c.wal) && IsRun(c, tr, es) && Init(c, tr[0]) && i < |tr| && p in tr[i].nodes
    requires name in tr[i].nodes[p].acked && name !in tr[i].nodes[p].damaged
    ensures W.Delivered(tr[i].log, p, tr[i].nodes[p], name)
  {
    RunKeepsNodes(c, tr, es, i);
  }

  // The gate

  /** A write past its gate check passed it while its node held the lease. */
  ghost predicate GateOk(n: W.Node) {
    && (n.drainer.Sending? ==> n.drainer.held)
    && forall m :: m in n.producers && n.producers[m].Passed? ==> n.producers[m].held
  }

  ghost predicate WritesHeld(log: seq<W.Write>) {
    forall w :: w in log ==> w.held
  }

  ghost predicate Gated(s: State) {
    WritesHeld(s.log) && forall p :: p in s.nodes ==> GateOk(s.nodes[p])
  }

  lemma ProducerStepGated(c: W.Config, p: W.NodeId, gate: bool, held: bool, n: W.Node, e: W.Event, name: string,
      n': W.Node, ws: seq<W.Write>)
    requires GateOk(n) && (gate ==> held) && name in n.producers
    requires W.ProducerStep(c, p, gate, held, n, e, name) == Some((n', ws))
    ensures GateOk(n') && WritesHeld(ws)
  {
    assert n'.drainer == n.drainer;
    assert n'.producers - {name} == n.producers - {name};
    forall m | m in n'.producers && n'.producers[m].Passed? ensures n'.producers[m].held {
      if m != name {
        assert m in n.producers - {name} && n.producers[m] == (n'.producers - {name})[m];
      }
    }
  }

  lemma DrainerStepGated(c: W.Config, p: W.NodeId, gate: bool, held: bool, n: W.Node, e: W.Event, n': W.Node,
      ws: seq<W.Write>)
    requires GateOk(n) && (gate ==> held)
    requires W.DrainerStep(c, p, gate, held, n, e) == Some((n', ws))
    ensures GateOk(n') && WritesHeld(ws)
  {
    assert n'.producers == n.producers;
  }

  lemma NodeStepGated(c: W.Config, p: W.NodeId, gate: bool, held: bool, n: W.Node, e: W.Event, n': W.Node, ws: seq<W.Write>)
    requires GateOk(n) && (gate ==> held)
    requires W.NodeNext(c, p, gate, held, n, e) == Some((n', ws))
    ensures GateOk(n') && WritesHeld(ws)
  {
    if W.OfProducer(e) {
      ProducerStepGated(c, p, gate, held, n, e, e.name, n', ws);
    } else if !e.Begin? && !e.Damage? && !e.Crash? {
      DrainerStepGated(c, p, gate, held, n, e, n', ws);
    }
  }

  /** With the lease invariant and the timing assumption, a raised gate means the node holds the key. */
  lemma GateMeansHeld(c: Config, s: State, p: W.NodeId)
    requires Lease.Inv(c.lease, s.lease) && Lease.Timely(c.lease, s.lease)
    ensures Gate(s, p) ==> Holds(s, p)
  {
    if Gate(s, p) {
      assert Lease.ProcInv(c.lease, s.lease, p);
    }
  }

  lemma OnGated(c: Config, s: State, p: W.NodeId, e: W.Event, s': State)
    requires Gated(s) && p in s.nodes && (Gate(s, p) ==> Holds(s, p))
    requires NodeStep(c, s, p, e) == Some(s')
    ensures Gated(s')
  {
    var r := W.NodeNext(c.wal, p, Gate(s, p), Holds(s, p), s.nodes[p], e).value;
    NodeStepGated(c.wal, p, Gate(s, p), Holds(s, p), s.nodes[p], e, r.0, r.1);
  }

  lemma NextGated(c: Config, s: State, e: Event, s': State)
    requires Gated(s) && Lease.Inv(c.lease, s.lease) && Lease.Timely(c.lease, s.lease)
    requires Steps(c, s, e, s')
    ensures Gated(s')
  {
    match e {
      case LeaseStep(_) =>
      case On(p, step) =>
        GateMeansHeld(c, s, p);
        OnGated(c, s, p, step, s');
      case CrashNode(p) =>
        OnGated(c, s.(lease := Lease.GiveUp(s.lease, p)), p, W.Crash, s');
    }
  }

  lemma NextKeepsLease(c: Config, s: State, e: Event, s': State)
    requires 0 < c.lease.ttl && Lease.Inv(c.lease, s.lease) && Lease.Timely(c.lease, s.lease)
    requires Steps(c, s, e, s')
    ensures Lease.Inv(c.lease, s'.lease)
  {
    match e {
      case LeaseStep(tick) => Lease.NextKeepsInv(c.lease, s.lease, tick, s'.lease);
      case On(_, _) =>
      case CrashNode(p) => Lease.NextKeepsInv(c.lease, s.lease, Lease.Crash(p), s'.lease);
    }
  }

  lemma {:induction false} RunGated(c: Config, tr: seq<State>, es: seq<Event>, i: nat)
    requires 0 < c.lease.ttl && IsRun(c, tr, es) && Init(c, tr[0]) && TimelyRun(c, tr) && i < |tr|
    ensures Lease.Inv(c.lease, tr[i].lease) && Gated(tr[i])
  {
    if i == 0 {
      Lease.InitInv(c.lease, tr[0].lease);
      assert forall p :: p in tr[0].nodes ==> W.NodeInit(tr[0].nodes[p]);
    } else {
      RunGated(c, tr, es, i - 1);
      NextKeepsLease(c, tr[i - 1], es[i - 1], tr[i]);
      NextGated(c, tr[i - 1], es[i - 1], tr[i]);
    }
  }

  /** Every write the store took was let through while its node held the unexpired lease. */
  lemma OnlyHoldersWrite(c: Config, tr: seq<State>, es: seq<Event>, i: nat, w: W.Write)
    requires 0 < c.lease.ttl && IsRun(c, tr, es) && Init(c, tr[0]) && TimelyRun(c, tr) && i < |tr|
    requires w in tr[i].log
    ensures w.held
  {
    RunGated(c, tr, es, i);
  }

  // Failover

  /** The drainer is between the start of a directory scan and the end of the cycle. */
  predicate InCycle(d: W.Drainer) {
    d.Scanning? || d.Draining? || d.Unreadable? || d.Loaded? || d.Sending? || d.Acking?
  }

  /** The names a cycle in progress set out to deliver. */
  function Undertaken(d: W.Drainer): Option<set<string>> {
    if InCycle(d) then Some(d.base) else None
  }

  function DrainerOf(s: State, p: W.NodeId): W.Drainer {
    if p in s.nodes then s.nodes[p].drainer else W.Sleeping
  }

  predicate SameCycle(d: W.Drainer, d': W.Drainer) {
    Undertaken(d).Some? && Undertaken(d').Some? ==> Undertaken(d) == Undertaken(d')
  }

  lemma DrainerStepKeepsBase(c: W.Config, p: W.NodeId, gate: bool, held: bool, n: W.Node, e: W.Event, n': W.Node,
      ws: seq<W.Write>)
    requires W.DrainerStep(c, p, gate, held, n, e) == Some((n', ws)) && InCycle(n.drainer) && InCycle(n'.drainer)
    ensures n'.drainer.base == n.drainer.base
  {}

  lemma NodeStepKeepsBase(c: W.Config, p: W.NodeId, gate: bool, held: bool, n: W.Node, e: W.Event, n': W.Node,
      ws: seq<W.Write>)
    requires W.NodeNext(c, p, gate, held, n, e) == Some((n', ws))
    ensures SameCycle(n.drainer, n'.drainer)
  {
    if W.OfProducer(e) {
      ProducerStepKeepsDrainer(c, p, gate, held, n, e, e.name, n', ws);
    } else if !e.Begin? && !e.Damage? && !e.Crash? && InCycle(n.drainer) && InCycle(n'.drainer) {
      DrainerStepKeepsBase(c, p, gate, held, n, e, n', ws);
    }
  }

  lemma ProducerStepKeepsDrainer(c: W.Config, p: W.NodeId, gate: bool, held: bool, n: W.Node, e: W.Event,
      name: string, n': W.Node, ws: seq<W.Write>)
    requires name in n.producers && W.ProducerStep(c, p, gate, held, n, e, name) == Some((n', ws))
    ensures n'.drainer == n.drainer
  {}

  lemma NextKeepsBase(c: Config, s: State, e: Event, s': State, p: W.NodeId)
    requires Steps(c, s, e, s')
    ensures SameCycle(DrainerOf(s, p), DrainerOf(s', p))
  {
    if e.On? && e.p == p {
      var r := W.NodeNext(c.wal, p, Gate(s, p), Holds(s, p), s.nodes[p], e.step).value;
      NodeStepKeepsBase(c.wal, p, Gate(s, p), Holds(s, p), s.nodes[p], e.step, r.0, r.1);
    }
  }

  lemma StepKeepsBase(c: Config, tr: seq<State>, es: seq<Event>, k: nat, p: W.NodeId)
    requires IsRun(c, tr, es) && k < |es|
    ensures SameCycle(DrainerOf(tr[k], p), DrainerOf(tr[k + 1], p))
  {
    NextKeepsBase(c, tr[k], es[k], tr[k + 1], p);
  }

  /** From state i + 1 to state j node p runs one and the same cycle. */
  ghost predicate OneCycle(tr: seq<State>, i: nat, j: nat, p: W.NodeId)
    requires j < |tr|
  {
    forall k :: i < k <= j ==> Undertaken(DrainerOf(tr[k], p)).Some?
  }

  lemma {:induction false} Constant<T>(xs: seq<T>, i: nat, j: nat)
    requires i <= j < |xs| && forall k :: i < k <= j ==> xs[k - 1] == xs[k]
    ensures xs[j] == xs[i]
    decreases j - i
  {
    if i < j {
      Constant(xs, i, j - 1);
    }
  }

  lemma CycleKeepsBase(c: Config, tr: seq<State>, es: seq<Event>, i: nat, j: nat, p: W.NodeId)
    requires IsRun(c, tr, es) && i < j < |tr| && OneCycle(tr, i, j, p)
    ensures Undertaken(DrainerOf(tr[j], p)) == Undertaken(DrainerOf(tr[i + 1], p))
  {
    var bases := seq(|tr|, k requires 0 <= k < |tr| => Undertaken(DrainerOf(tr[k], p)));
    forall k | i + 1 < k <= j ensures bases[k - 1] == bases[k] {
      StepKeepsBase(c, tr, es, k - 1, p);
    }
    Constant(bases, i + 1, j);
  }

  /**
   * Lossless failover: once a drain cycle that began with the gate open returns Ok, every batch that was pending
   * on the node when the cycle listed its directory is in the store, wherever and however other nodes crashed: each
   * of its rows is there, or a row written later under the same key. Excepted are files the disk damaged, and those
   * that a read of this very cycle failed on for a reason other than their contents.
   */
  lemma LosslessFailover(c: Config, tr: seq<State>, es: seq<Event>, i: nat, j: nat, p: W.NodeId, name: string)
    requires W.Faithful(c.wal) && IsRun(c, tr, es) && Init(c, tr[0])
    requires i < j < |es| && OneCycle(tr, i, j, p)
    requires p in tr[i].nodes && DrainerOf(tr[i], p) == W.Woken(true) && es[i] == On(p, W.ScanStart)
    requires p in tr[j].nodes && es[j] == On(p, W.DrainDone)
    requires name in FileWal.PendingIn(tr[i].nodes[p].files) && W.Unhurt(tr[j].nodes[p], name)
    ensures W.Delivered(tr[j].log, p, tr[j].nodes[p], name)
    ensures forall s :: s in tr[j].nodes[p].appended[name] ==> StoredSince(tr[j].log, p, name, tr[j].nodes[p].appended[name], s)
  {
    assert Steps(c, tr[i], es[i], tr[i + 1]) && Steps(c, tr[j], es[j], tr[j + 1]);
    ScanTakesPending(c, tr[i], p, tr[i + 1]);
    CycleKeepsBase(c, tr, es, i, j, p);
    RunKeepsNodes(c, tr, es, j);
    FinishedCycleDelivers(c, tr[j], p, tr[j + 1], name);
  }

  lemma ScanTakesPending(c: Config, s: State, p: W.NodeId, s': State)
    requires Steps(c, s, On(p, W.ScanStart), s') && p in s.nodes && s.nodes[p].drainer == W.Woken(true)
    ensures p in s'.nodes && s'.nodes[p].drainer == W.Scanning(true, FileWal.PendingIn(s.nodes[p].files))
  {}

  lemma ScanForgetsMisreads(c: Config, s: State, p: W.NodeId, s': State)
    requires Steps(c, s, On(p, W.ScanStart), s') && p in s.nodes && s.nodes[p].drainer == W.Woken(true)
    ensures s'.nodes[p] == s.nodes[p].(drainer := s'.nodes[p].drainer, misread := {}) && s'.log == s.log
  {}

  lemma FinishedCycleDelivers(c: Config, s: State, p: W.NodeId, s': State, name: string)
    requires NodesOk(c, s) && Steps(c, s, On(p, W.DrainDone), s') && p in s.nodes
    requires Undertaken(s.nodes[p].drainer).Some? && name in Undertaken(s.nodes[p].drainer).value && W.Unhurt(s.nodes[p], name)
    ensures W.Delivered(s.log, p, s.nodes[p], name)
    ensures forall r :: r in s.nodes[p].appended[name] ==> StoredSince(s.log, p, name, s.nodes[p].appended[name], r)
  {
    assert W.NodeInv(c.wal, p, s.nodes[p], s.log);
    assert s.nodes[p].drainer.Draining? && s.nodes[p].drainer.todo == [];
    TakenIsStored(s.log, p, name, s.nodes[p].appended[name]);
  }

  // The files a read of the cycle failed on are not delivered

  ghost predicate DistinctTodo(d: W.Drainer) {
    d.Draining? || d.Unreadable? || d.Loaded? || d.Sending? || d.Acking? ==> Distinct(d.todo)
  }

  /** The cycle still has to read the file, or has read it and not yet had an answer from the store. */
  predicate Ahead(d: W.Drainer, name: string) {
    match d
    case Scanning(_, _) => true
    case Draining(_, todo) => name in todo
    case Loaded(_, todo, _) => name in todo
    case Sending(_, todo, _, _) => name in todo
    case Unreadable(_, todo) => todo != [] && name in todo[1..]
    case Acking(_, todo) => todo != [] && name in todo[1..]
    case _ => false
  }

  /** No upsert of the file is in flight, and the store has not taken it while it is ahead or once a read of it failed. */
  ghost predicate OnTrack(p: W.NodeId, n: W.Node, log: seq<W.Write>, name: string) {
    && name in n.appended && name in n.begun && name !in n.producers
    && DistinctTodo(n.drainer)
    && (Ahead(n.drainer, name) ==> name !in n.misread)
    && (Ahead(n.drainer, name) || name in n.misread ==> !W.Delivered(log, p, n, name))
  }

  /** Writes that do not deliver the file. */
  ghost predicate Elsewhere(ws: seq<W.Write>, p: W.NodeId, name: string) {
    forall w :: w in ws ==> !(w.node == p && w.name == name && w.whole)
  }

  lemma ElsewhereKeeps(log: seq<W.Write>, ws: seq<W.Write>, p: W.NodeId, name: string, b: Batch)
    requires Elsewhere(ws, p, name)
    ensures W.Taken(log + ws, p, name, b) <==> W.Taken(log, p, name, b)
  {
    assert forall w :: w in log + ws <==> w in log || w in ws;
  }

  /** A step that leaves the cycle and the file's own records alone, and does not deliver it. */
  lemma BystanderOnTrack(p: W.NodeId, n: W.Node, log: seq<W.Write>, n': W.Node, ws: seq<W.Write>, name: string)
    requires OnTrack(p, n, log, name) && Elsewhere(ws, p, name)
    requires n'.drainer == n.drainer && n'.misread == n.misread
    requires name in n'.appended && n'.appended[name] == n.appended[name] && name in n'.begun && name !in n'.producers
    ensures OnTrack(p, n', log + ws, name)
  {
    ElsewhereKeeps(log, ws, p, name, n.appended[name]);
  }

  lemma ProducerStaysAway(c: W.Config, p: W.NodeId, gate: bool, held: bool, n: W.Node, e: W.Event, who: string,
      n': W.Node, ws: seq<W.Write>, name: string)
    requires who in n.producers && name !in n.producers && name in n.appended && name in n.begun
    requires W.ProducerStep(c, p, gate, held, n, e, who) == Some((n', ws))
    ensures n'.drainer == n.drainer && n'.misread == n.misread && Elsewhere(ws, p, name)
    ensures name in n'.appended && n'.appended[name] == n.appended[name] && name in n'.begun && name !in n'.producers
  {}

  /** A cycle works through its listing and does not come back to a file. */
  lemma CycleAdvances(c: W.Config, p: W.NodeId, gate: bool, held: bool, n: W.Node, e: W.Event, n': W.Node,
      ws: seq<W.Write>, name: string)
    requires W.DrainerStep(c, p, gate, held, n, e) == Some((n', ws)) && InCycle(n.drainer) && InCycle(n'.drainer)
    requires DistinctTodo(n.drainer) && (e.ScanEnd? ==> Distinct(e.list))
    ensures DistinctTodo(n'.drainer)
    ensures Ahead(n'.drainer, name) ==> Ahead(n.drainer, name)
  {}

  /** What one step reads wrongly is ahead before it and no longer after it. */
  lemma CycleMisreads(c: W.Config, p: W.NodeId, gate: bool, held: bool, n: W.Node, e: W.Event, n': W.Node,
      ws: seq<W.Write>, name: string)
    requires W.DrainerStep(c, p, gate, held, n, e) == Some((n', ws)) && InCycle(n.drainer) && DistinctTodo(n.drainer)
    ensures n'.appended == n.appended && n'.producers == n.producers && n'.begun == n.begun
    ensures name in n.misread ==> name in n'.misread
    ensures name in n'.misread ==> name in n.misread || (Ahead(n.drainer, name) && !Ahead(n'.drainer, name) && ws == [])
  {}

  /** A step that delivers a file has it ahead before and no longer after it. */
  lemma CycleDelivers(c: W.Config, p: W.NodeId, gate: bool, held: bool, n: W.Node, e: W.Event, n': W.Node,
      ws: seq<W.Write>, name: string)
    requires W.DrainerStep(c, p, gate, held, n, e) == Some((n', ws)) && InCycle(n.drainer) && DistinctTodo(n.drainer)
    ensures Elsewhere(ws, p, name) || (Ahead(n.drainer, name) && !Ahead(n'.drainer, name) && n'.misread == n.misread)
  {}

  lemma DrainerOnTrack(c: W.Config, p: W.NodeId, gate: bool, held: bool, n: W.Node, log: seq<W.Write>, e: W.Event,
      n': W.Node, ws: seq<W.Write>, name: string)
    requires OnTrack(p, n, log, name) && InCycle(n.drainer) && InCycle(n'.drainer) && (e.ScanEnd? ==> Distinct(e.list))
    requires W.DrainerStep(c, p, gate, held, n, e) == Some((n', ws))
    ensures OnTrack(p, n', log + ws, name)
  {
    CycleAdvances(c, p, gate, held, n, e, n', ws, name);
    CycleMisreads(c, p, gate, held, n, e, n', ws, name);
    CycleDelivers(c, p, gate, held, n, e, n', ws, name);
    if Elsewhere(ws, p, name) {
      ElsewhereKeeps(log, ws, p, name, n.appended[name]);
    }
  }

  lemma NodeStepOnTrack(c: W.Config, p: W.NodeId, gate: bool, held: bool, n: W.Node, log: seq<W.Write>, e: W.Event,
      n': W.Node, ws: seq<W.Write>, name: string)
    requires OnTrack(p, n, log, name) && InCycle(n.drainer) && InCycle(n'.drainer)
    requires W.Fresh(n, e) && (e.ScanEnd? ==> Distinct(e.list))
    requires W.NodeNext(c, p, gate, held, n, e) == Some((n', ws))
    ensures OnTrack(p, n', log + ws, name)
  {
    if W.OfProducer(e) {
      ProducerStaysAway(c, p, gate, held, n, e, e.name, n', ws, name);
      BystanderOnTrack(p, n, log, n', ws, name);
    } else if e.Begin? || e.Damage? {
      BystanderOnTrack(p, n, log, n', ws, name);
    } else if !e.Crash? {
      DrainerOnTrack(c, p, gate, held, n, log, e, n', ws, name);
    }
  }

  /** Listings name every file once. */
  ghost predicate ListsOnce(e: Event) {
    e.On? && e.step.ScanEnd? ==> Distinct(e.step.list)
  }

  lemma ProducerWritesItsOwn(c: W.Config, q: W.NodeId, gate: bool, held: bool, n: W.Node, e: W.Event, who: string,
      n': W.Node, ws: seq<W.Write>)
    requires who in n.producers && W.ProducerStep(c, q, gate, held, n, e, who) == Some((n', ws))
    ensures forall w :: w in ws ==> w.node == q
  {}

  lemma DrainerWritesItsOwn(c: W.Config, q: W.NodeId, gate: bool, held: bool, n: W.Node, e: W.Event, n': W.Node,
      ws: seq<W.Write>)
    requires W.DrainerStep(c, q, gate, held, n, e) == Some((n', ws))
    ensures forall w :: w in ws ==> w.node == q
  {}

  lemma OthersWriteElsewhere(c: W.Config, q: W.NodeId, gate: bool, held: bool, n: W.Node, e: W.Event, n': W.Node,
      ws: seq<W.Write>, p: W.NodeId, name: string)
    requires W.NodeNext(c, q, gate, held, n, e) == Some((n', ws)) && q != p
    ensures Elsewhere(ws, p, name)
  {
    if W.OfProducer(e) {
      ProducerWritesItsOwn(c, q, gate, held, n, e, e.name, n', ws);
    } else if !e.Begin? && !e.Damage? && !e.Crash? {
      DrainerWritesItsOwn(c, q, gate, held, n, e, n', ws);
    }
  }

  lemma StepOnTrack(c: Config, s: State, e: Event, s': State, p: W.NodeId, name: string)
    requires Steps(c, s, e, s') && ListsOnce(e) && p in s.nodes && p in s'.nodes
    requires OnTrack(p, s.nodes[p], s.log, name)
    requires InCycle(s.nodes[p].drainer) && InCycle(s'.nodes[p].drainer)
    ensures OnTrack(p, s'.nodes[p], s'.log, name)
  {
    if e.On? {
      var r := W.NodeNext(c.wal, e.p, Gate(s, e.p), Holds(s, e.p), s.nodes[e.p], e.step).value;
      if e.p == p {
        NodeStepOnTrack(c.wal, p, Gate(s, p), Holds(s, p), s.nodes[p], s.log, e.step, r.0, r.1, name);
      } else {
        OthersWriteElsewhere(c.wal, e.p, Gate(s, e.p), Holds(s, e.p), s.nodes[e.p], e.step, r.0, r.1, p, name);
        BystanderOnTrack(p, s.nodes[p], s.log, s'.nodes[p], r.1, name);
      }
    } else {
      assert s'.log == s.log || s'.log == s.log + [];
      BystanderOnTrack(p, s.nodes[p], s.log, s'.nodes[p], [], name);
      assert s.log + [] == s.log;
    }
  }

  lemma {:induction false} CycleOnTrack(c: Config, tr: seq<State>, es: seq<Event>, i: nat, j: nat, p: W.NodeId, name: string)
    requires IsRun(c, tr, es) && i < j < |tr| && OneCycle(tr, i, j, p)
    requires forall k {:trigger ListsOnce(es[k])} :: i < k < j ==> ListsOnce(es[k])
    requires p in tr[i + 1].nodes && OnTrack(p, tr[i + 1].nodes[p], tr[i + 1].log, name)
    ensures p in tr[j].nodes && OnTrack(p, tr[j].nodes[p], tr[j].log, name)
    decreases j - i
  {
    if i + 1 < j {
      CycleOnTrack(c, tr, es, i, j - 1, p, name);
      assert Steps(c, tr[j - 1], es[j - 1], tr[j]) && ListsOnce(es[j - 1]);
      assert Undertaken(DrainerOf(tr[j - 1], p)).Some? && Undertaken(DrainerOf(tr[j], p)).Some?;
      StepOnTrack(c, tr[j - 1], es[j - 1], tr[j], p, name);
    }
  }

  lemma StartsOnTrack(c: Config, s: State, p: W.NodeId, s': State, name: string)
    requires NodesOk(c, s) && Steps(c, s, On(p, W.ScanStart), s') && p in s.nodes && s.nodes[p].drainer == W.Woken(true)
    requires name in FileWal.PendingIn(s.nodes[p].files) && name !in s.nodes[p].producers
    requires !W.Delivered(s.log, p, s.nodes[p], name)
    ensures p in s'.nodes && OnTrack(p, s'.nodes[p], s'.log, name)
  {
    assert W.NodeInv(c.wal, p, s.nodes[p], s.log);
    assert W.FileOk(c.wal, s.nodes[p], name);
    ScanTakesPending(c, s, p, s');
    ScanForgetsMisreads(c, s, p, s');
  }

  /**
   * What a failed read costs: of the undamaged files that were pending and undelivered when the cycle listed the
   * directory, with no upsert of theirs in flight, the finished cycle has delivered exactly those that no read of the
   * cycle failed on.
   */
  lemma DeliveredIffRead(c: Config, tr: seq<State>, es: seq<Event>, i: nat, j: nat, p: W.NodeId, name: string)
    requires W.Faithful(c.wal) && IsRun(c, tr, es) && Init(c, tr[0])
    requires i < j < |es| && OneCycle(tr, i, j, p)
    requires forall k {:trigger ListsOnce(es[k])} :: i < k < j ==> ListsOnce(es[k])
    requires p in tr[i].nodes && DrainerOf(tr[i], p) == W.Woken(true) && es[i] == On(p, W.ScanStart)
    requires p in tr[j].nodes && es[j] == On(p, W.DrainDone)
    requires name in FileWal.PendingIn(tr[i].nodes[p].files) && name !in tr[i].nodes[p].producers
    requires !W.Delivered(tr[i].log, p, tr[i].nodes[p], name) && name !in tr[j].nodes[p].damaged
    ensures W.Delivered(tr[j].log, p, tr[j].nodes[p], name) <==> name !in tr[j].nodes[p].misread
  {
    if name in tr[j].nodes[p].misread {
      assert Steps(c, tr[i], es[i], tr[i + 1]);
      RunKeepsNodes(c, tr, es, i);
      StartsOnTrack(c, tr[i], p, tr[i + 1], name);
      CycleOnTrack(c, tr, es, i, j, p, name);
    } else {
      LosslessFailover(c, tr, es, i, j, p, name);
    }
  }

  // The store behind the log

  /** The rows a log of writes leaves in the store. */
  function RowsOf(log: seq<W.Write>): Rows
    decreases |log|
  {
    if log == [] then map[] else Upsert(RowsOf(log[..|log| - 1]), log[|log| - 1].rows)
  }

  /** The row under a key of a logged write comes from that write or from a later one. */
  lemma {:induction false} NotOlder(log: seq<W.Write>, k: nat, s: OiTypes.Snapshot) returns (m: nat)
    requires k < |log| && s in log[k].rows
    ensures k <= m < |log|
    ensures KeyOf(s) in RowsOf(log) && RowsOf(log)[KeyOf(s)] in log[m].rows
    decreases |log|
  {
    var init, last := log[..|log| - 1], log[|log| - 1];
    LastRowStored(RowsOf(init), last.rows, KeyOf(s));
    if LastWith(last.rows, KeyOf(s)).Some? {
      m := |log| - 1;
    } else {
      assert k < |init| && init[k] == log[k];
      m := NotOlder(init, k, s);
      assert init[m] == log[m];
    }
  }

  /** Log entry k is the write that delivers batch b from p's file, and the row stored now comes from entry m. */
  ghost predicate StoredBy(log: seq<W.Write>, p: W.NodeId, name: string, b: Batch, s: OiTypes.Snapshot, k: nat, m: nat) {
    && k <= m < |log|
    && log[k].node == p && log[k].name == name && log[k].rows == b && log[k].whole
    && KeyOf(s) in RowsOf(log) && RowsOf(log)[KeyOf(s)] in log[m].rows
  }

  /** The row under the key of s was written by the delivery of b, or later. */
  ghost predicate StoredSince(log: seq<W.Write>, p: W.NodeId, name: string, b: Batch, s: OiTypes.Snapshot) {
    exists k, m :: StoredBy(log, p, name, b, s, k, m)
  }

  lemma TakenIsStored(log: seq<W.Write>, p: W.NodeId, name: string, b: Batch)
    requires W.Taken(log, p, name, b)
    ensures forall s :: s in b ==> StoredSince(log, p, name, b, s)
  {
    var w :| w in log && w.node == p && w.name == name && w.rows == b && w.whole;
    var k :| 0 <= k < |log| && log[k] == w;
    forall s | s in b ensures StoredSince(log, p, name, b, s) {
      var m := NotOlder(log, k, s);
      assert StoredBy(log, p, name, b, s, k, m);
    }
  }

  // The files as FileWal writes and reads them

  function WalConfig(encode: Batch -> seq<byte>, decode: Drain.Decoder, maxAge: Option<nat>): W.Config {
    W.Config((s, b) => FileWal.Written(s, encode(b)), b => Frame.Framed(encode(b)), Drain.ReaderOf(decode), maxAge)
  }

  /** With a codec that round-trips, a finished file is the frame of its batch and reads back as it. */
  lemma FramesAreFaithful(encode: Batch -> seq<byte>, decode: Drain.Decoder, maxAge: Option<nat>)
    requires forall b :: decode(encode(b)) == Some(b)
    ensures W.Faithful(WalConfig(encode, decode, maxAge))
  {
    var c := WalConfig(encode, decode, maxAge);
    forall b ensures c.written(FileWal.Synced, b) == c.image(b) && c.read(c.image(b)) == Some(b) {
      FrameReads(encode, decode, b);
    }
  }

  lemma FrameReads(encode: Batch -> seq<byte>, decode: Drain.Decoder, b: Batch)
    requires decode(encode(b)) == Some(b)
    ensures Drain.ReaderOf(decode)(Frame.Framed(encode(b))) == Some(b)
  {
    Frame.RoundTrip(decode, encode(b));
  }

  /** Such codecs exist, so what is said of faithful configurations is said of something. */
  lemma FaithfulConfigExists(maxAge: Option<nat>)
    ensures W.Faithful(WalConfig(Codec.Encode, Codec.Decode, maxAge))
  {
    forall b ensures Codec.Decode(Codec.Encode(b)) == Some(b) {
      Codec.RoundTrips(b);
    }
    FramesAreFaithful(Codec.Encode, Codec.Decode, maxAge);
  }
}
