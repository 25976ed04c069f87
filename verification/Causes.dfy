/**
 * Why a node did what it did: in every run, a deletion by the reaper and a write to the store are traced back to the
 * steps that allowed them.
 */
module Causes {
  import opened Base
  import opened WalNames
  import Lease
  import W = WritePath
  import opened HaSystem

  // One step of a node

  lemma WokenFrom(c: W.Config, p: W.NodeId, gate: bool, held: bool, n: W.Node, e: W.Event, n': W.Node, ws: seq<W.Write>)
    requires W.DrainerStep(c, p, gate, held, n, e) == Some((n', ws)) && n'.drainer != n.drainer && n'.drainer.Woken?
    ensures e.Wake? && n'.drainer.may == gate
  {}

  lemma ScanningFrom(c: W.Config, p: W.NodeId, gate: bool, held: bool, n: W.Node, e: W.Event, n': W.Node, ws: seq<W.Write>)
    requires W.DrainerStep(c, p, gate, held, n, e) == Some((n', ws)) && n'.drainer != n.drainer && n'.drainer.Scanning?
    ensures e.ScanStart? && n.drainer == W.Woken(n'.drainer.may)
  {}

  lemma ReapingFrom(c: W.Config, p: W.NodeId, gate: bool, held: bool, n: W.Node, e: W.Event, n': W.Node, ws: seq<W.Write>)
    requires W.DrainerStep(c, p, gate, held, n, e) == Some((n', ws)) && n'.drainer != n.drainer && n'.drainer.Reaping?
    ensures (e == W.ScanEnd(n'.drainer.todo, n'.drainer.now) && n.drainer.Scanning? && !n.drainer.may)
      || (n.drainer.Reaping? && n.drainer.now == n'.drainer.now && n.drainer.todo != [] && n'.drainer.todo == n.drainer.todo[1..])
  {}

  lemma SendingFrom(c: W.Config, p: W.NodeId, gate: bool, held: bool, n: W.Node, e: W.Event, n': W.Node, ws: seq<W.Write>)
    requires W.DrainerStep(c, p, gate, held, n, e) == Some((n', ws)) && n'.drainer != n.drainer && n'.drainer.Sending?
    ensures e.DrainGate? && gate && n.drainer == W.Loaded(n'.drainer.base, n'.drainer.todo, n'.drainer.batch)
  {}

  /** The upsert of this file has passed its gate check and had no answer from the store yet. */
  predicate HasPassed(n: W.Node, name: string) {
    name in n.producers && n.producers[name].Passed?
  }

  lemma PassedFrom(c: W.Config, p: W.NodeId, gate: bool, held: bool, n: W.Node, e: W.Event, n': W.Node, ws: seq<W.Write>,
      name: string)
    requires W.NodeNext(c, p, gate, held, n, e) == Some((n', ws)) && HasPassed(n', name) && !HasPassed(n, name)
    ensures e == W.CheckGate(name) && gate
  {
    if !W.OfProducer(e) && !e.Begin? && !e.Damage? && !e.Crash? {
      DrainerKeepsProducers(c, p, gate, held, n, e, n', ws);
    }
  }

  lemma DrainerKeepsProducers(c: W.Config, p: W.NodeId, gate: bool, held: bool, n: W.Node, e: W.Event, n': W.Node,
      ws: seq<W.Write>)
    requires W.DrainerStep(c, p, gate, held, n, e) == Some((n', ws))
    ensures n'.producers == n.producers
  {}

  predicate IsSending(d: W.Drainer, name: string) {
    d.Sending? && d.todo != [] && d.todo[0] == name
  }

  lemma DrainerWriteFrom(c: W.Config, p: W.NodeId, gate: bool, held: bool, n: W.Node, e: W.Event, n': W.Node,
      ws: seq<W.Write>, w: W.Write)
    requires W.DrainerStep(c, p, gate, held, n, e) == Some((n', ws)) && w in ws
    ensures w.node == p && IsSending(n.drainer, w.name)
  {}

  lemma WriteFrom(c: W.Config, p: W.NodeId, gate: bool, held: bool, n: W.Node, e: W.Event, n': W.Node, ws: seq<W.Write>,
      w: W.Write)
    requires W.NodeNext(c, p, gate, held, n, e) == Some((n', ws)) && w in ws
    ensures w.node == p && (HasPassed(n, w.name) || IsSending(n.drainer, w.name))
  {
    if !W.OfProducer(e) && !e.Begin? && !e.Damage? && !e.Crash? {
      DrainerWriteFrom(c, p, gate, held, n, e, n', ws, w);
    }
  }

  // One step of the system

  /** A drainer that moves, other than to sleep, took a step of its own. */
  lemma DrainerMoves(c: Config, s: State, e: Event, s': State, p: W.NodeId) returns (ws: seq<W.Write>)
    requires Steps(c, s, e, s') && DrainerOf(s', p) != DrainerOf(s, p) && DrainerOf(s', p) != W.Sleeping
    ensures e.On? && e.p == p && p in s.nodes && p in s'.nodes
    ensures W.DrainerStep(c.wal, p, Gate(s, p), Holds(s, p), s.nodes[p], e.step) == Some((s'.nodes[p], ws))
  {
    assert e.On? && e.p == p;
    ws := W.NodeNext(c.wal, p, Gate(s, p), Holds(s, p), s.nodes[p], e.step).value.1;
    if W.OfProducer(e.step) {
      ProducerStepKeepsDrainer(c.wal, p, Gate(s, p), Holds(s, p), s.nodes[p], e.step, e.step.name, s'.nodes[p], ws);
    }
  }

  lemma Wakes(c: Config, s: State, e: Event, s': State, p: W.NodeId)
    requires Steps(c, s, e, s') && DrainerOf(s', p) != DrainerOf(s, p) && DrainerOf(s', p).Woken?
    ensures e == On(p, W.Wake) && DrainerOf(s', p).may == Gate(s, p)
  {
    var ws := DrainerMoves(c, s, e, s', p);
    WokenFrom(c.wal, p, Gate(s, p), Holds(s, p), s.nodes[p], e.step, s'.nodes[p], ws);
  }

  lemma ScanStarts(c: Config, s: State, e: Event, s': State, p: W.NodeId)
    requires Steps(c, s, e, s') && DrainerOf(s', p) != DrainerOf(s, p) && DrainerOf(s', p).Scanning?
    ensures DrainerOf(s, p) == W.Woken(DrainerOf(s', p).may)
  {
    var ws := DrainerMoves(c, s, e, s', p);
    ScanningFrom(c.wal, p, Gate(s, p), Holds(s, p), s.nodes[p], e.step, s'.nodes[p], ws);
  }

  lemma Reaps(c: Config, s: State, e: Event, s': State, p: W.NodeId)
    requires Steps(c, s, e, s') && DrainerOf(s', p) != DrainerOf(s, p) && DrainerOf(s', p).Reaping?
    ensures var d, d' := DrainerOf(s, p), DrainerOf(s', p);
      || (e == On(p, W.ScanEnd(d'.todo, d'.now)) && d.Scanning? && !d.may)
      || (d.Reaping? && d.now == d'.now && d.todo != [] && d'.todo == d.todo[1..])
  {
    var ws := DrainerMoves(c, s, e, s', p);
    ReapingFrom(c.wal, p, Gate(s, p), Holds(s, p), s.nodes[p], e.step, s'.nodes[p], ws);
  }

  lemma Sends(c: Config, s: State, e: Event, s': State, p: W.NodeId)
    requires Steps(c, s, e, s') && DrainerOf(s', p) != DrainerOf(s, p) && DrainerOf(s', p).Sending?
    ensures var d, d' := DrainerOf(s, p), DrainerOf(s', p);
      e == On(p, W.DrainGate) && Gate(s, p) && d == W.Loaded(d'.base, d'.todo, d'.batch)
  {
    var ws := DrainerMoves(c, s, e, s', p);
    SendingFrom(c.wal, p, Gate(s, p), Holds(s, p), s.nodes[p], e.step, s'.nodes[p], ws);
  }

  predicate PassedIn(s: State, p: W.NodeId, name: string) {
    p in s.nodes && HasPassed(s.nodes[p], name)
  }

  lemma Passes(c: Config, s: State, e: Event, s': State, p: W.NodeId, name: string)
    requires Steps(c, s, e, s') && PassedIn(s', p, name) && !PassedIn(s, p, name)
    ensures e == On(p, W.CheckGate(name)) && Gate(s, p)
  {
    assert e.On? && e.p == p;
    var r := W.NodeNext(c.wal, p, Gate(s, p), Holds(s, p), s.nodes[p], e.step).value;
    PassedFrom(c.wal, p, Gate(s, p), Holds(s, p), s.nodes[p], e.step, r.0, r.1, name);
  }

  predicate ReapedIn(s: State, p: W.NodeId, name: string) {
    p in s.nodes && name in s.nodes[p].reaped
  }

  lemma Deletes(c: Config, s: State, e: Event, s': State, p: W.NodeId, name: string)
    requires Steps(c, s, e, s') && ReapedIn(s', p, name) && !ReapedIn(s, p, name)
    ensures var d := DrainerOf(s, p); d.Reaping? && d.todo != [] && d.todo[0] == name && W.Overdue(c.wal, name, d.now)
  {
    assert e.On? && e.p == p;
    var r := W.NodeNext(c.wal, p, Gate(s, p), Holds(s, p), s.nodes[p], e.step).value;
    W.ReapsOnlyOverdue(c.wal, p, Gate(s, p), Holds(s, p), s.nodes[p], e.step, r.0, r.1);
  }

  lemma Logs(c: Config, s: State, e: Event, s': State, w: W.Write)
    requires Steps(c, s, e, s') && w in s'.log && w !in s.log
    ensures PassedIn(s, w.node, w.name) || IsSending(DrainerOf(s, w.node), w.name)
  {
    assert e.On?;
    var p := e.p;
    var r := W.NodeNext(c.wal, p, Gate(s, p), Holds(s, p), s.nodes[p], e.step).value;
    WriteFrom(c.wal, p, Gate(s, p), Holds(s, p), s.nodes[p], e.step, r.0, r.1, w);
  }

  // Runs

  /** A drainer that woke read its gate when it did. */
  lemma {:induction false} WokenSince(c: Config, tr: seq<State>, es: seq<Event>, i: nat, p: W.NodeId) returns (g: nat)
    requires IsRun(c, tr, es) && HaSystem.Init(c, tr[0]) && i < |tr| && DrainerOf(tr[i], p).Woken?
    ensures g < i && es[g] == On(p, W.Wake) && Gate(tr[g], p) == DrainerOf(tr[i], p).may
  {
    g := 0;
    if i > 0 {
      if DrainerOf(tr[i - 1], p) == DrainerOf(tr[i], p) {
        g := WokenSince(c, tr, es, i - 1, p);
      } else {
        g := i - 1;
        Wakes(c, tr[g], es[g], tr[i], p);
      }
    }
  }

  lemma {:induction false} ScanningSince(c: Config, tr: seq<State>, es: seq<Event>, i: nat, p: W.NodeId) returns (g: nat)
    requires IsRun(c, tr, es) && HaSystem.Init(c, tr[0]) && i < |tr| && DrainerOf(tr[i], p).Scanning?
    ensures g < i && es[g] == On(p, W.Wake) && Gate(tr[g], p) == DrainerOf(tr[i], p).may
  {
    g := 0;
    if i > 0 {
      if DrainerOf(tr[i - 1], p) == DrainerOf(tr[i], p) {
        g := ScanningSince(c, tr, es, i - 1, p);
      } else {
        ScanStarts(c, tr[i - 1], es[i - 1], tr[i], p);
        g := WokenSince(c, tr, es, i - 1, p);
      }
    }
  }

  /** Step k ended a directory scan of p with this listing and this clock, the gate having been closed at step g. */
  predicate ScannedClosed(tr: seq<State>, es: seq<Event>, p: W.NodeId, g: nat, k: nat, list: seq<string>, clock: nat)
    requires |tr| == |es| + 1
  {
    && g < k < |es| && es[g] == On(p, W.Wake) && !Gate(tr[g], p)
    && es[k] == On(p, W.ScanEnd(list, clock))
  }

  lemma {:induction false} ReapingSince(c: Config, tr: seq<State>, es: seq<Event>, i: nat, p: W.NodeId)
    returns (g: nat, k: nat, list: seq<string>)
    requires IsRun(c, tr, es) && HaSystem.Init(c, tr[0]) && i < |tr| && DrainerOf(tr[i], p).Reaping?
    ensures k < i && ScannedClosed(tr, es, p, g, k, list, DrainerOf(tr[i], p).now)
    ensures forall m :: m in DrainerOf(tr[i], p).todo ==> m in list
  {
    g, k, list := 0, 0, [];
    if i > 0 {
      var d, d' := DrainerOf(tr[i - 1], p), DrainerOf(tr[i], p);
      if d != d' {
        Reaps(c, tr[i - 1], es[i - 1], tr[i], p);
      }
      if d.Reaping? {
        g, k, list := ReapingSince(c, tr, es, i - 1, p);
      } else {
        g := ScanningSince(c, tr, es, i - 1, p);
        k, list := i - 1, d'.todo;
      }
    }
  }

  lemma DeletedNow(c: Config, tr: seq<State>, es: seq<Event>, i: nat, p: W.NodeId, name: string)
    returns (g: nat, k: nat, list: seq<string>, clock: nat)
    requires IsRun(c, tr, es) && HaSystem.Init(c, tr[0]) && i < |es| && ReapedIn(tr[i + 1], p, name) && !ReapedIn(tr[i], p, name)
    ensures k < i && ScannedClosed(tr, es, p, g, k, list, clock)
    ensures name in list && W.Overdue(c.wal, name, clock)
  {
    Deletes(c, tr[i], es[i], tr[i + 1], p, name);
    g, k, list := ReapingSince(c, tr, es, i, p);
    clock := DrainerOf(tr[i], p).now;
  }

  /**
   * The reaper keeps its promise: every file it ever deleted was on the listing of a scan made by a drainer that had
   * woken with its gate closed, and by the clock of that scan its timestamp lay more than the maximum age back.
   */
  lemma {:induction false} ReapedWasOverdue(c: Config, tr: seq<State>, es: seq<Event>, i: nat, p: W.NodeId, name: string)
    returns (g: nat, k: nat, list: seq<string>, clock: nat)
    requires IsRun(c, tr, es) && HaSystem.Init(c, tr[0]) && i < |tr| && ReapedIn(tr[i], p, name)
    ensures k < i && ScannedClosed(tr, es, p, g, k, list, clock)
    ensures name in list && c.wal.maxAge.Some? && ParseTs(name).Some?
    ensures ParseTs(name).value + c.wal.maxAge.value < clock
  {
    g, k, list, clock := 0, 0, [], 0;
    if i > 0 {
      if ReapedIn(tr[i - 1], p, name) {
        g, k, list, clock := ReapedWasOverdue(c, tr, es, i - 1, p, name);
      } else {
        g, k, list, clock := DeletedNow(c, tr, es, i - 1, p, name);
      }
    }
  }

  lemma {:induction false} SendingSince(c: Config, tr: seq<State>, es: seq<Event>, i: nat, p: W.NodeId, name: string)
    returns (k: nat)
    requires IsRun(c, tr, es) && HaSystem.Init(c, tr[0]) && i < |tr| && IsSending(DrainerOf(tr[i], p), name)
    ensures k < i && es[k] == On(p, W.DrainGate) && Gate(tr[k], p)
    ensures DrainerOf(tr[k], p).Loaded? && DrainerOf(tr[k], p).todo != [] && DrainerOf(tr[k], p).todo[0] == name
  {
    k := 0;
    if i > 0 {
      if DrainerOf(tr[i - 1], p) == DrainerOf(tr[i], p) {
        k := SendingSince(c, tr, es, i - 1, p, name);
      } else {
        k := i - 1;
        Sends(c, tr[k], es[k], tr[i], p);
      }
    }
  }

  lemma {:induction false} PassedSince(c: Config, tr: seq<State>, es: seq<Event>, i: nat, p: W.NodeId, name: string)
    returns (k: nat)
    requires IsRun(c, tr, es) && HaSystem.Init(c, tr[0]) && i < |tr| && PassedIn(tr[i], p, name)
    ensures k < i && es[k] == On(p, W.CheckGate(name)) && Gate(tr[k], p)
  {
    k := 0;
    if i > 0 {
      if PassedIn(tr[i - 1], p, name) {
        k := PassedSince(c, tr, es, i - 1, p, name);
      } else {
        k := i - 1;
        Passes(c, tr[k], es[k], tr[i], p, name);
      }
    }
  }

  /** The step checked the gate for the write: the upsert's own check, or the drainer's before it sends that file. */
  predicate ChecksGateFor(s: State, e: Event, w: W.Write) {
    || e == On(w.node, W.CheckGate(w.name))
    || (var d := DrainerOf(s, w.node);
        e == On(w.node, W.DrainGate) && d.Loaded? && d.todo != [] && d.todo[0] == w.name)
  }

  lemma LoggedNow(c: Config, tr: seq<State>, es: seq<Event>, i: nat, w: W.Write) returns (k: nat)
    requires IsRun(c, tr, es) && HaSystem.Init(c, tr[0]) && i < |es| && w in tr[i + 1].log && w !in tr[i].log
    ensures k < i && ChecksGateFor(tr[k], es[k], w) && Gate(tr[k], w.node)
  {
    Logs(c, tr[i], es[i], tr[i + 1], w);
    if PassedIn(tr[i], w.node, w.name) {
      k := PassedSince(c, tr, es, i, w.node, w.name);
    } else {
      k := SendingSince(c, tr, es, i, w.node, w.name);
    }
  }

  /** Every entry of the log got there in a step of its node that had passed the gate. */
  lemma {:induction false} LoggedSince(c: Config, tr: seq<State>, es: seq<Event>, i: nat, w: W.Write) returns (k: nat)
    requires IsRun(c, tr, es) && HaSystem.Init(c, tr[0]) && i < |tr| && w in tr[i].log
    ensures k < i && ChecksGateFor(tr[k], es[k], w) && Gate(tr[k], w.node)
  {
    k := 0;
    if i > 0 {
      if w in tr[i - 1].log {
        k := LoggedSince(c, tr, es, i - 1, w);
      } else {
        k := LoggedNow(c, tr, es, i - 1, w);
      }
    }
  }

  /**
   * No write without the lease: for everything the store ever took there is a step of the run that checked the gate
   * for it, with the node's flag up and the unexpired key its own.
   */
  lemma WritesPassedTheGate(c: Config, tr: seq<State>, es: seq<Event>, i: nat, w: W.Write) returns (k: nat)
    requires 0 < c.lease.ttl && IsRun(c, tr, es) && HaSystem.Init(c, tr[0]) && TimelyRun(c, tr) && i < |tr|
    requires w in tr[i].log
    ensures k < i && ChecksGateFor(tr[k], es[k], w)
    ensures Lease.Leads(tr[k].lease, w.node) && w.node in c.lease.ids
    ensures var key := tr[k].lease.key;
      key.Some? && tr[k].lease.now < key.value.expiry && key.value.owner == c.lease.ids[w.node] && key.value.holder == w.node
  {
    k := LoggedSince(c, tr, es, i, w);
    RunGated(c, tr, es, k);
    assert Lease.ProcInv(c.lease, tr[k].lease, w.node);
  }
}
