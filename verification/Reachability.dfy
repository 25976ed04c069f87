/** The tasks of one node, uninterrupted, are runs of the whole system; and from the start there is one that delivers. */
module Reachability {
  import opened Base
  import opened WalNames
  import Lease
  import Drain
  import opened Store
  import W = WritePath
  import U = Uninterrupted
  import opened HaSystem

  /** Events of node p as events of the system. */
  function OfNode(p: W.NodeId, es: seq<W.Event>): seq<Event> {
    seq(|es|, i requires 0 <= i < |es| => On(p, es[i]))
  }

  /** The system with node p and the log as given. */
  function With(s: State, p: W.NodeId, n: W.Node, log: seq<W.Write>): State {
    s.(nodes := s.nodes[p := n], log := log)
  }

  /** The setting is that of node p in state s: what its gate reads, and whether the key is its own. */
  ghost predicate IsSettingOf(c: Config, s: State, x: U.Setting) {
    x.c == c.wal && x.p in s.nodes && x.gate == Gate(s, x.p) && x.held == Holds(s, x.p)
  }

  lemma StepLifts(c: Config, s: State, x: U.Setting, n: W.Node, log: seq<W.Write>, e: W.Event, n': W.Node, ws: seq<W.Write>)
    requires IsSettingOf(c, s, x) && U.InScope(x.scope, e) && W.Fresh(n, e)
    requires W.NodeNext(x.c, x.p, x.gate, x.held, n, e) == Some((n', ws))
    ensures Steps(c, With(s, x.p, n, log), On(x.p, e), With(s, x.p, n', log + ws))
  {
    var t := With(s, x.p, n, log);
    assert !e.Crash?;
    assert Gate(t, x.p) == x.gate && Holds(t, x.p) == x.held && t.nodes[x.p] == n;
    assert t.nodes[x.p := n'] == s.nodes[x.p := n'];
  }

  lemma RunSnoc(c: Config, tr: seq<State>, es: seq<Event>, e: Event, s': State)
    requires IsRun(c, tr, es) && Steps(c, tr[|es|], e, s')
    ensures IsRun(c, tr + [s'], es + [e])
  {
    var us, fs := tr + [s'], es + [e];
    forall i | 0 <= i < |fs| ensures Steps(c, us[i], fs[i], us[i + 1]) {
      if i < |es| {
        assert fs[i] == es[i] && us[i] == tr[i] && us[i + 1] == tr[i + 1];
      }
    }
  }

  lemma {:induction false} RunConcat(c: Config, tr: seq<State>, es: seq<Event>, us: seq<State>, fs: seq<Event>)
    requires IsRun(c, tr, es) && IsRun(c, us, fs) && us[0] == tr[|es|]
    ensures IsRun(c, tr + us[1..], es + fs)
    decreases |fs|
  {
    if fs == [] {
      assert tr + us[1..] == tr && es + fs == es;
    } else {
      var k := |fs| - 1;
      PrefixIsRun(c, us, fs);
      RunConcat(c, tr, es, us[..k + 1], fs[..k]);
      assert us[..k + 1][1..] == us[1..k + 1];
      assert Steps(c, us[k], fs[k], us[k + 1]);
      RunSnoc(c, tr + us[1..k + 1], es + fs[..k], fs[k], us[k + 1]);
      assert (tr + us[1..k + 1]) + [us[k + 1]] == tr + us[1..];
      assert (es + fs[..k]) + [fs[k]] == es + fs;
    }
  }

  lemma PrefixIsRun(c: Config, us: seq<State>, fs: seq<Event>)
    requires IsRun(c, us, fs) && fs != []
    ensures IsRun(c, us[..|fs|], fs[..|fs| - 1])
  {
    var vs, gs := us[..|fs|], fs[..|fs| - 1];
    forall i | 0 <= i < |gs| ensures Steps(c, vs[i], gs[i], vs[i + 1]) {
      assert gs[i] == fs[i];
    }
  }

  /**
   * An execution of one task of a node is a run of the system from any state with that node in it: nothing but the
   * node and the log changes, and the lease stays as it is.
   */
  lemma {:induction false} TaskIsRun(c: Config, s: State, x: U.Setting, es: seq<W.Event>, n': W.Node, log': seq<W.Write>)
    returns (tr: seq<State>)
    requires IsSettingOf(c, s, x) && U.Exec(x, s.nodes[x.p], s.log, es) == Some((n', log'))
    ensures IsRun(c, tr, OfNode(x.p, es)) && tr[0] == s && tr[|es|] == With(s, x.p, n', log')
    ensures forall i :: 0 <= i < |tr| ==> tr[i].lease == s.lease
    decreases |es|
  {
    if es == [] {
      tr := [s];
      assert s.nodes[x.p := s.nodes[x.p]] == s.nodes;
    } else {
      var init, e := es[..|es| - 1], es[|es| - 1];
      var (n, log) := U.Exec(x, s.nodes[x.p], s.log, init).value;
      var (m, ws) := W.NodeNext(x.c, x.p, x.gate, x.held, n, e).value;
      tr := TaskIsRun(c, s, x, init, n, log);
      StepLifts(c, s, x, n, log, e, m, ws);
      RunSnoc(c, tr, OfNode(x.p, init), On(x.p, e), With(s, x.p, n', log'));
      assert OfNode(x.p, init) + [On(x.p, e)] == OfNode(x.p, es);
      tr := tr + [With(s, x.p, n', log')];
    }
  }

  function Elect(p: Lease.ProcId): seq<Event> {
    [LeaseStep(Lease.Send(p)), LeaseStep(Lease.Execute(p)), LeaseStep(Lease.Store(p))]
  }

  /** From the start any process can become leader. */
  lemma CanLead(c: Config, s: State, p: Lease.ProcId) returns (tr: seq<State>)
    requires HaSystem.Init(c, s) && 0 < c.lease.ttl && p in c.lease.ids
    ensures IsRun(c, tr, Elect(p)) && tr[0] == s && TimelyRun(c, tr)
    ensures tr[3] == s.(lease := tr[3].lease) && Gate(tr[3], p) && Holds(tr[3], p)
  {
    var l := s.lease;
    var q := l.procs[p];
    var l1 := Lease.WithProc(l, p, q.(pc := Lease.Sent(Lease.SetNx)));
    var l2 := Lease.WithProc(l1.(key := Some(Lease.Key(c.lease.ids[p], l.now + c.lease.ttl, p))), p,
                             q.(pc := Lease.Answered(Lease.SetNx, true, l.now)));
    var l3 := Lease.WithProc(l2, p, Lease.Proc(true, Lease.Idle, l.now));
    tr := [s, s.(lease := l1), s.(lease := l2), s.(lease := l3)];
    var es := Elect(p);
    assert Steps(c, tr[0], es[0], tr[1]);
    assert Steps(c, tr[1], es[1], tr[2]);
    assert Steps(c, tr[2], es[2], tr[3]);
  }

  /**
   * The machine is not idle: from its initial states there is a timely run in which a node becomes leader and any
   * batch it upserts is taken by the store and acked.
   */
  lemma SomeRunDelivers(c: Config, s: State, p: W.NodeId, name: string, b: Batch)
    returns (tr: seq<State>, es: seq<Event>)
    requires HaSystem.Init(c, s) && 0 < c.lease.ttl && W.Faithful(c.wal)
    requires p in s.nodes && p in c.lease.ids && IsPending(name) && b != []
    ensures IsRun(c, tr, es) && tr[0] == s && TimelyRun(c, tr)
    ensures var last := tr[|es|];
      && p in last.nodes && W.Delivered(last.log, p, last.nodes[p], name) && last.nodes[p].appended[name] == b
      && name !in last.nodes[p].files && RowsOf(last.log) == Upsert(map[], b)
  {
    var us := CanLead(c, s, p);
    var s1 := us[3];
    assert W.NodeInit(s.nodes[p]);
    var x := U.Setting(c.wal, p, true, true, U.OfUpsert(name));
    var fs, n', log' := U.UpsertSteps(x, s1.nodes[p], s1.log, name, b, Drain.Accepted);
    var vs := TaskIsRun(c, s1, x, fs, n', log');
    RunConcat(c, us, Elect(p), vs, OfNode(p, fs));
    tr, es := us + vs[1..], Elect(p) + OfNode(p, fs);
    assert tr[|es|] == vs[|fs|];
    forall i | 0 <= i < |tr| ensures Lease.Timely(c.lease, tr[i].lease) {
      if i >= 4 {
        assert tr[i] == vs[i - 3];
      }
    }
  }

  /** The gate lets an upsert through, and sets the drainer draining, exactly when the node's flag is up. */
  lemma GateIsFlag(c: Config, s: State, e: Event, s': State, p: W.NodeId)
    requires Steps(c, s, e, s') && p in s.nodes
    ensures e.On? && e.p == p && e.step.CheckGate? ==>
      (e.step.name in s'.nodes[p].producers <==> p in s.lease.procs && s.lease.procs[p].isLeader)
    ensures e == On(p, W.Wake) ==>
      s'.nodes[p].drainer == W.Woken(p in s.lease.procs && s.lease.procs[p].isLeader)
    ensures e == On(p, W.DrainGate) ==>
      (s'.nodes[p].drainer.Sending? <==> p in s.lease.procs && s.lease.procs[p].isLeader)
  {
    if e.On? && e.p == p {
      GateSteps(c.wal, p, Gate(s, p), Holds(s, p), s.nodes[p], e.step);
    }
  }

  lemma GateSteps(c: W.Config, p: W.NodeId, gate: bool, held: bool, n: W.Node, e: W.Event)
    requires W.NodeNext(c, p, gate, held, n, e).Some?
    ensures var n' := W.NodeNext(c, p, gate, held, n, e).value.0;
      && (e.CheckGate? ==> (e.name in n'.producers <==> gate))
      && (e == W.Wake ==> n'.drainer == W.Woken(gate))
      && (e == W.DrainGate ==> (n'.drainer.Sending? <==> gate))
  {}

  /** A crash can strike any node of the system: its tasks and its flag are gone, its files and the log are not. */
  lemma CrashCanStrike(c: Config, s: State, p: W.NodeId)
    requires p in s.nodes && p in s.lease.procs
    ensures var s' := Next(c, s, CrashNode(p));
      && s'.Some? && s'.value.log == s.log && !Gate(s'.value, p) && s'.value.lease.key == s.lease.key
      && s'.value.nodes == s.nodes[p := s.nodes[p].(producers := map[], drainer := W.Sleeping)]
  {
    var t := s.(lease := Lease.GiveUp(s.lease, p));
    assert s.log + [] == s.log;
    assert W.NodeNext(c.wal, p, Gate(t, p), Holds(t, p), t.nodes[p], W.Crash) ==
      Some((s.nodes[p].(producers := map[], drainer := W.Sleeping), []));
  }
}
