/**
 * The code as it reads, without interference, takes steps of the interleaving machine: an upsert and a drain cycle
 * run from start to end are event sequences of one node, and leave the files and the store the sequential
 * specifications say.
 */
module Uninterrupted {
  import opened Base
  import opened Register
  import opened WalNames
  import FileWal
  import opened Store
  import Drain
  import WalBacked
  import W = WritePath
  import HaSystem

  /** Whose events may occur: the drainer's, with or without reads that fail on good files, or those of one upsert. */
  datatype Scope = OfDrainer | OfMisreadingDrainer | OfUpsert(name: string)

  predicate OfDrainerTask(e: W.Event) {
    !e.Begin? && !e.Damage? && !e.Crash? && !W.OfProducer(e)
  }

  predicate InScope(scope: Scope, e: W.Event) {
    match scope
    case OfDrainer => OfDrainerTask(e) && !e.ReadError? && !e.ScanFails?
    case OfMisreadingDrainer => OfDrainerTask(e)
    case OfUpsert(name) => (e.Begin? || W.OfProducer(e)) && e.name == name
  }

  /** One task of node p alone, with what its gate reads and whether it holds the lease unchanged. */
  datatype Setting = Setting(c: W.Config, p: W.NodeId, gate: bool, held: bool, scope: Scope)

  function Exec(x: Setting, n: W.Node, log: seq<W.Write>, es: seq<W.Event>): Option<(W.Node, seq<W.Write>)>
    decreases |es|
  {
    if es == [] then Some((n, log))
    else match Exec(x, n, log, es[..|es| - 1])
      case None => None
      case Some(s) =>
        if !InScope(x.scope, es[|es| - 1]) || !W.Fresh(s.0, es[|es| - 1]) then None
        else
          match W.NodeNext(x.c, x.p, x.gate, x.held, s.0, es[|es| - 1])
          case None => None
          case Some(r) => Some((r.0, s.1 + r.1))
  }

  lemma Then(x: Setting, n0: W.Node, log0: seq<W.Write>, es: seq<W.Event>, n: W.Node, log: seq<W.Write>, e: W.Event,
      n': W.Node, ws: seq<W.Write>)
    requires Exec(x, n0, log0, es) == Some((n, log)) && InScope(x.scope, e) && W.Fresh(n, e)
    requires W.NodeNext(x.c, x.p, x.gate, x.held, n, e) == Some((n', ws))
    ensures Exec(x, n0, log0, es + [e]) == Some((n', log + ws))
  {
    assert (es + [e])[..|es|] == es;
  }

  lemma RowsSnoc(log: seq<W.Write>, w: W.Write)
    ensures HaSystem.RowsOf(log + [w]) == Upsert(HaSystem.RowsOf(log), w.rows)
  {
    assert (log + [w])[..|log|] == log;
  }

  /** What the node's queue and the store's log come to as files and rows. */
  function QueueOf(n: W.Node, log: seq<W.Write>): Drain.Queue {
    Drain.Queue(n.files, HaSystem.RowsOf(log))
  }

  /** One file of a cycle: the steps from its read to the next file, or to the end of a cycle given up. */
  lemma FileSteps(x: Setting, f: Drain.Faults, n0: W.Node, log0: seq<W.Write>, es0: seq<W.Event>, n: W.Node,
      log: seq<W.Write>)
    returns (es: seq<W.Event>, n': W.Node, log': seq<W.Write>)
    requires x.scope == OfDrainer && x.gate && Exec(x, n0, log0, es0) == Some((n, log))
    requires n.drainer.Draining? && n.drainer.todo != [] && IsPending(n.drainer.todo[0])
    ensures es != [] && Last(es) != W.DrainDone && Exec(x, n0, log0, es) == Some((n', log'))
    ensures var (q, goOn) := Drain.DrainFile(x.c.read, f, QueueOf(n, log), n.drainer.todo[0]);
      && QueueOf(n', log') == q
      && n'.drainer == if goOn then W.Draining(n.drainer.base, n.drainer.todo[1..]) else W.Sleeping
  {
    var m := n.drainer.todo[0];
    if m in n.files && x.c.read(n.files[m]).Some? {
      es, n', log' := ReadableSteps(x, f, n0, log0, es0, n, log);
    } else {
      var renamed := m in n.files && m !in f.stuck;
      es, n' := UnreadableSteps(x, renamed, n0, log0, es0, n, log);
      log' := log;
    }
  }

  lemma ReadStep(x: Setting, n: W.Node)
    requires n.drainer.Draining? && n.drainer.todo != []
    ensures var d, m := n.drainer, n.drainer.todo[0];
      W.NodeNext(x.c, x.p, x.gate, x.held, n, W.ReadNext) ==
        if m in n.files && x.c.read(n.files[m]).Some?
        then Some((n.(drainer := W.Loaded(d.base, d.todo, x.c.read(n.files[m]).value)), []))
        else Some((n.(drainer := W.Unreadable(d.base, d.todo)), []))
  {}

  lemma SetAsideStep(x: Setting, n: W.Node, renamed: bool)
    requires n.drainer.Unreadable? && n.drainer.todo != [] && IsPending(n.drainer.todo[0])
    requires renamed ==> n.drainer.todo[0] in n.files
    ensures var d, m := n.drainer, n.drainer.todo[0];
      W.NodeNext(x.c, x.p, x.gate, x.held, n, W.SetAside(renamed)) ==
        Some((n.(drainer := W.Draining(d.base, d.todo[1..]), files := if renamed then FileWal.Quarantined(n.files, m) else n.files), []))
  {}

  lemma UnreadableSteps(x: Setting, renamed: bool, n0: W.Node, log0: seq<W.Write>, es0: seq<W.Event>, n: W.Node,
      log: seq<W.Write>)
    returns (es: seq<W.Event>, n': W.Node)
    requires x.scope == OfDrainer && Exec(x, n0, log0, es0) == Some((n, log))
    requires n.drainer.Draining? && n.drainer.todo != [] && IsPending(n.drainer.todo[0])
    requires n.drainer.todo[0] in n.files ==> x.c.read(n.files[n.drainer.todo[0]]) == None
    requires renamed ==> n.drainer.todo[0] in n.files
    ensures es != [] && Last(es) != W.DrainDone && Exec(x, n0, log0, es) == Some((n', log))
    ensures n'.files == if renamed then FileWal.Quarantined(n.files, n.drainer.todo[0]) else n.files
    ensures n'.drainer == W.Draining(n.drainer.base, n.drainer.todo[1..])
  {
    var n1 := n.(drainer := W.Unreadable(n.drainer.base, n.drainer.todo));
    assert log + [] == log;
    ReadStep(x, n);
    Then(x, n0, log0, es0, n, log, W.ReadNext, n1, []);
    es, n' := AsideSteps(x, renamed, n0, log0, es0 + [W.ReadNext], n1, log);
  }

  lemma AsideSteps(x: Setting, renamed: bool, n0: W.Node, log0: seq<W.Write>, es0: seq<W.Event>, n: W.Node, log: seq<W.Write>)
    returns (es: seq<W.Event>, n': W.Node)
    requires !x.scope.OfUpsert? && Exec(x, n0, log0, es0) == Some((n, log))
    requires n.drainer.Unreadable? && n.drainer.todo != [] && IsPending(n.drainer.todo[0])
    requires renamed ==> n.drainer.todo[0] in n.files
    ensures es != [] && Last(es) != W.DrainDone && Exec(x, n0, log0, es) == Some((n', log))
    ensures n'.files == if renamed then FileWal.Quarantined(n.files, n.drainer.todo[0]) else n.files
    ensures n'.drainer == W.Draining(n.drainer.base, n.drainer.todo[1..]) && n'.appended == n.appended
  {
    var d := n.drainer;
    n' := n.(drainer := W.Draining(d.base, d.todo[1..]), files := if renamed then FileWal.Quarantined(n.files, d.todo[0]) else n.files);
    assert log + [] == log;
    SetAsideStep(x, n, renamed);
    Then(x, n0, log0, es0, n, log, W.SetAside(renamed), n', []);
    es := es0 + [W.SetAside(renamed)];
  }

  lemma ReadableSteps(x: Setting, f: Drain.Faults, n0: W.Node, log0: seq<W.Write>, es0: seq<W.Event>, n: W.Node,
      log: seq<W.Write>)
    returns (es: seq<W.Event>, n': W.Node, log': seq<W.Write>)
    requires x.scope == OfDrainer && x.gate && Exec(x, n0, log0, es0) == Some((n, log))
    requires n.drainer.Draining? && n.drainer.todo != [] && IsPending(n.drainer.todo[0])
    requires n.drainer.todo[0] in n.files && x.c.read(n.files[n.drainer.todo[0]]).Some?
    ensures es != [] && Last(es) != W.DrainDone && Exec(x, n0, log0, es) == Some((n', log'))
    ensures var (q, goOn) := Drain.DrainFile(x.c.read, f, QueueOf(n, log), n.drainer.todo[0]);
      && QueueOf(n', log') == q
      && n'.drainer == if goOn then W.Draining(n.drainer.base, n.drainer.todo[1..]) else W.Sleeping
  {
    var d := n.drainer;
    var b := x.c.read(n.files[d.todo[0]]).value;
    var n1, n2 := n.(drainer := W.Loaded(d.base, d.todo, b)), n.(drainer := W.Sending(d.base, d.todo, b, x.held));
    ReadStep(x, n);
    Then(x, n0, log0, es0, n, log, W.ReadNext, n1, []);
    assert log + [] == log;
    Then(x, n0, log0, es0 + [W.ReadNext], n1, log, W.DrainGate, n2, []);
    es, n', log' := SendSteps(x, Drain.Answer(f, d.todo[0]), n0, log0, es0 + [W.ReadNext] + [W.DrainGate], n2, log);
  }

  /** What the store answers to a batch that passed the gate, and what the drainer does then. */
  lemma SendSteps(x: Setting, answer: Drain.Outcome, n0: W.Node, log0: seq<W.Write>, es0: seq<W.Event>, n: W.Node,
      log: seq<W.Write>)
    returns (es: seq<W.Event>, n': W.Node, log': seq<W.Write>)
    requires x.scope == OfDrainer && Exec(x, n0, log0, es0) == Some((n, log))
    requires n.drainer.Sending? && n.drainer.held == x.held && n.drainer.todo != []
    ensures es != [] && Last(es) != W.DrainDone && Exec(x, n0, log0, es) == Some((n', log'))
    ensures n'.files == if answer.Accepted? then n.files - {n.drainer.todo[0]} else n.files
    ensures n'.drainer == if answer.Accepted? then W.Draining(n.drainer.base, n.drainer.todo[1..]) else W.Sleeping
    ensures HaSystem.RowsOf(log') ==
      Upsert(HaSystem.RowsOf(log), if answer.Refused? then Part(n.drainer.batch, answer.applied) else n.drainer.batch)
  {
    var d := n.drainer;
    var m := d.todo[0];
    if answer.Refused? {
      es, n', log' := RefusedSteps(x, answer.applied, n0, log0, es0, n, log);
    } else {
      var w, n1 := W.Write(x.p, m, d.batch, true, x.held), n.(drainer := W.Acking(d.base, d.todo));
      Then(x, n0, log0, es0, n, log, W.DrainOk, n1, [w]);
      RowsSnoc(log, w);
      log' := log + [w];
      es, n' := AckSteps(x, answer.Accepted?, n0, log0, es0 + [W.DrainOk], n1, log');
    }
  }

  lemma RefusedSteps(x: Setting, applied: set<nat>, n0: W.Node, log0: seq<W.Write>, es0: seq<W.Event>, n: W.Node,
      log: seq<W.Write>)
    returns (es: seq<W.Event>, n': W.Node, log': seq<W.Write>)
    requires x.scope == OfDrainer && Exec(x, n0, log0, es0) == Some((n, log))
    requires n.drainer.Sending? && n.drainer.held == x.held && n.drainer.todo != []
    ensures es != [] && Last(es) != W.DrainDone && Exec(x, n0, log0, es) == Some((n', log')) && n' == n.(drainer := W.Sleeping)
    ensures HaSystem.RowsOf(log') == Upsert(HaSystem.RowsOf(log), Part(n.drainer.batch, applied))
  {
    var w := W.Write(x.p, n.drainer.todo[0], Part(n.drainer.batch, applied), false, x.held);
    RowsStep(x, applied, n);
    Then(x, n0, log0, es0, n, log, W.DrainRows(applied), n, [w]);
    RowsSnoc(log, w);
    log' := log + [w];
    es, n' := ErrStep(x, n0, log0, es0 + [W.DrainRows(applied)], n, log');
  }

  lemma RowsStep(x: Setting, applied: set<nat>, n: W.Node)
    requires n.drainer.Sending? && n.drainer.held == x.held && n.drainer.todo != []
    ensures W.NodeNext(x.c, x.p, x.gate, x.held, n, W.DrainRows(applied)) ==
      Some((n, [W.Write(x.p, n.drainer.todo[0], Part(n.drainer.batch, applied), false, x.held)]))
  {}

  lemma ErrStep(x: Setting, n0: W.Node, log0: seq<W.Write>, es0: seq<W.Event>, n: W.Node, log: seq<W.Write>)
    returns (es: seq<W.Event>, n': W.Node)
    requires x.scope == OfDrainer && Exec(x, n0, log0, es0) == Some((n, log)) && n.drainer.Sending?
    ensures es != [] && Last(es) != W.DrainDone && Exec(x, n0, log0, es) == Some((n', log)) && n' == n.(drainer := W.Sleeping)
  {
    n' := n.(drainer := W.Sleeping);
    assert log + [] == log;
    Then(x, n0, log0, es0, n, log, W.DrainErr, n', []);
    es := es0 + [W.DrainErr];
  }

  lemma DrainAckStep(x: Setting, n: W.Node)
    requires n.drainer.Acking? && n.drainer.todo != []
    ensures var d, m := n.drainer, n.drainer.todo[0];
      W.NodeNext(x.c, x.p, x.gate, x.held, n, W.DrainAck) ==
        Some((n.(drainer := W.Draining(d.base, d.todo[1..]), files := n.files - {m}, acked := n.acked + {m}), []))
    ensures W.NodeNext(x.c, x.p, x.gate, x.held, n, W.DrainAckFails) == Some((n.(drainer := W.Sleeping), []))
  {}

  lemma AckSteps(x: Setting, acked: bool, n0: W.Node, log0: seq<W.Write>, es0: seq<W.Event>, n: W.Node, log: seq<W.Write>)
    returns (es: seq<W.Event>, n': W.Node)
    requires x.scope == OfDrainer && Exec(x, n0, log0, es0) == Some((n, log)) && n.drainer.Acking? && n.drainer.todo != []
    ensures es != [] && Last(es) != W.DrainDone && Exec(x, n0, log0, es) == Some((n', log))
    ensures n'.files == if acked then n.files - {n.drainer.todo[0]} else n.files
    ensures n'.drainer == if acked then W.Draining(n.drainer.base, n.drainer.todo[1..]) else W.Sleeping
  {
    var d := n.drainer;
    assert log + [] == log;
    DrainAckStep(x, n);
    if acked {
      n' := n.(drainer := W.Draining(d.base, d.todo[1..]), files := n.files - {d.todo[0]}, acked := n.acked + {d.todo[0]});
      Then(x, n0, log0, es0, n, log, W.DrainAck, n', []);
      es := es0 + [W.DrainAck];
    } else {
      n' := n.(drainer := W.Sleeping);
      Then(x, n0, log0, es0, n, log, W.DrainAckFails, n', []);
      es := es0 + [W.DrainAckFails];
    }
  }

  /** A listing drained file by file. */
  lemma {:induction false} ListSteps(x: Setting, f: Drain.Faults, n0: W.Node, log0: seq<W.Write>, es0: seq<W.Event>,
      n: W.Node, log: seq<W.Write>)
    returns (es: seq<W.Event>, n': W.Node, log': seq<W.Write>)
    requires x.scope == OfDrainer && x.gate && Exec(x, n0, log0, es0) == Some((n, log))
    requires n.drainer.Draining? && forall m :: m in n.drainer.todo ==> IsPending(m)
    ensures Exec(x, n0, log0, es) == Some((n', log'))
    ensures n'.drainer == W.Sleeping
    ensures var (q, ok) := Drain.DrainList(x.c.read, f, QueueOf(n, log), n.drainer.todo);
      QueueOf(n', log') == q && es != [] && (Last(es) == W.DrainDone <==> ok)
    decreases |n.drainer.todo|
  {
    var todo := n.drainer.todo;
    if todo == [] {
      es, n', log' := es0 + [W.DrainDone], n.(drainer := W.Sleeping), log;
      Then(x, n0, log0, es0, n, log, W.DrainDone, n', []);
      assert log + [] == log;
    } else {
      assert todo[0] in todo;
      es, n', log' := FileSteps(x, f, n0, log0, es0, n, log);
      if n'.drainer.Draining? {
        es, n', log' := ListSteps(x, f, n0, log0, es, n', log');
      }
    }
  }

  /** Waking up with the gate open, and listing an undisturbed directory. */
  lemma StartSteps(x: Setting, n: W.Node, list: seq<string>)
    requires x.gate && n.drainer == W.Sleeping
    requires forall m :: m in list ==> m in n.appended
    requires forall m :: m in FileWal.PendingIn(n.files) ==> m in list
    ensures var names := FileWal.PendingIn(n.files);
      var n1, n2 := n.(drainer := W.Woken(true)), n.(drainer := W.Scanning(true, names), misread := {});
      && W.NodeNext(x.c, x.p, x.gate, x.held, n, W.Wake) == Some((n1, []))
      && W.NodeNext(x.c, x.p, x.gate, x.held, n1, W.ScanStart) == Some((n2, []))
      && W.NodeNext(x.c, x.p, x.gate, x.held, n2, W.ScanEnd(list, 0)) == Some((n.(drainer := W.Draining(names, list), misread := {}), []))
  {}

  lemma StartRun(x: Setting, n: W.Node, log: seq<W.Write>, list: seq<string>) returns (es: seq<W.Event>)
    requires !x.scope.OfUpsert? && x.gate && n.drainer == W.Sleeping
    requires forall m :: m in list ==> m in n.appended
    requires forall m :: m in FileWal.PendingIn(n.files) ==> m in list
    ensures Exec(x, n, log, es) == Some((n.(drainer := W.Draining(FileWal.PendingIn(n.files), list), misread := {}), log))
  {
    var names := FileWal.PendingIn(n.files);
    var n1, n2 := n.(drainer := W.Woken(true)), n.(drainer := W.Scanning(true, names), misread := {});
    assert log + [] == log && Exec(x, n, log, []) == Some((n, log));
    StartSteps(x, n, list);
    Then(x, n, log, [], n, log, W.Wake, n1, []);
    Then(x, n, log, [] + [W.Wake], n1, log, W.ScanStart, n2, []);
    es := [] + [W.Wake] + [W.ScanStart] + [W.ScanEnd(list, 0)];
    Then(x, n, log, [] + [W.Wake] + [W.ScanStart], n2, log, W.ScanEnd(list, 0),
      n.(drainer := W.Draining(names, list), misread := {}), []);
  }

  /** A drain cycle of the leader, uninterrupted, is a run of the machine with the effect of the sequential cycle. */
  lemma CycleSteps(x: Setting, f: Drain.Faults, n: W.Node, log: seq<W.Write>)
    returns (es: seq<W.Event>, n': W.Node, log': seq<W.Write>)
    requires x.scope == OfDrainer && x.gate && n.drainer == W.Sleeping && W.FilesOk(x.c, n)
    ensures Exec(x, n, log, es) == Some((n', log'))
    ensures n'.drainer == W.Sleeping
    ensures var (q, ok) := Drain.DrainCycle(x.c.read, f, QueueOf(n, log));
      QueueOf(n', log') == q && es != [] && (Last(es) == W.DrainDone <==> ok)
  {
    var names := FileWal.PendingIn(n.files);
    var list := Listing(names);
    forall m | m in list ensures m in n.appended && IsPending(m) {
      assert m in names;
      assert W.FileOk(x.c, n, m);
    }
    es := StartRun(x, n, log, list);
    es, n', log' := ListSteps(x, f, n, log, es, n.(drainer := W.Draining(names, list), misread := {}), log);
  }

  // Reaps

  /** A follower wakes with the gate closed and lists an undisturbed directory. */
  lemma ReapStartSteps(x: Setting, n: W.Node, list: seq<string>, now: nat)
    requires !x.gate && x.c.maxAge.Some? && n.drainer == W.Sleeping
    requires forall m :: m in list ==> m in n.appended
    requires forall m :: m in FileWal.PendingIn(n.files) ==> m in list
    ensures var names := FileWal.PendingIn(n.files);
      var n1, n2 := n.(drainer := W.Woken(false)), n.(drainer := W.Scanning(false, names), misread := {});
      && W.NodeNext(x.c, x.p, x.gate, x.held, n, W.Wake) == Some((n1, []))
      && W.NodeNext(x.c, x.p, x.gate, x.held, n1, W.ScanStart) == Some((n2, []))
      && W.NodeNext(x.c, x.p, x.gate, x.held, n2, W.ScanEnd(list, now)) == Some((n.(drainer := W.Reaping(list, now), misread := {}), []))
  {}

  lemma ReapStart(x: Setting, n: W.Node, log: seq<W.Write>, list: seq<string>, now: nat) returns (es: seq<W.Event>)
    requires x.scope == OfDrainer && !x.gate && x.c.maxAge.Some? && n.drainer == W.Sleeping
    requires forall m :: m in list ==> m in n.appended
    requires forall m :: m in FileWal.PendingIn(n.files) ==> m in list
    ensures Exec(x, n, log, es) == Some((n.(drainer := W.Reaping(list, now), misread := {}), log))
  {
    var names := FileWal.PendingIn(n.files);
    var n1, n2 := n.(drainer := W.Woken(false)), n.(drainer := W.Scanning(false, names), misread := {});
    assert log + [] == log && Exec(x, n, log, []) == Some((n, log));
    ReapStartSteps(x, n, list, now);
    Then(x, n, log, [], n, log, W.Wake, n1, []);
    Then(x, n, log, [] + [W.Wake], n1, log, W.ScanStart, n2, []);
    es := [] + [W.Wake] + [W.ScanStart] + [W.ScanEnd(list, now)];
    Then(x, n, log, [] + [W.Wake] + [W.ScanStart], n2, log, W.ScanEnd(list, now),
      n.(drainer := W.Reaping(list, now), misread := {}), []);
  }

  /** The steps in which a reap ends: its listing is done, or an I/O error keeps a file from being deleted. */
  lemma ReapEndSteps(x: Setting, n: W.Node)
    requires n.drainer.Reaping? && x.c.maxAge.Some?
    ensures n.drainer.todo == [] ==>
      W.NodeNext(x.c, x.p, x.gate, x.held, n, W.ReapNext) == Some((n.(drainer := W.Sleeping), []))
    ensures W.NodeNext(x.c, x.p, x.gate, x.held, n, W.ReapFails) == Some((n.(drainer := W.Sleeping), []))
  {}

  lemma ReapEnds(x: Setting, n0: W.Node, log0: seq<W.Write>, es0: seq<W.Event>, n: W.Node, log: seq<W.Write>, fails: bool)
    returns (es: seq<W.Event>, n': W.Node)
    requires x.scope == OfDrainer && x.c.maxAge.Some? && Exec(x, n0, log0, es0) == Some((n, log)) && n.drainer.Reaping?
    requires !fails ==> n.drainer.todo == [] || Stops(x, n)
    ensures es != [] && Exec(x, n0, log0, es) == Some((n', log)) && n' == n.(drainer := W.Sleeping)
    ensures Last(es) == W.ReapFails <==> fails
  {
    var e := if fails then W.ReapFails else W.ReapNext;
    n' := n.(drainer := W.Sleeping);
    assert log + [] == log;
    ReapEndSteps(x, n);
    if !fails && n.drainer.todo != [] {
      W.ReapNextStep(x.c, x.p, x.gate, x.held, n);
    }
    Then(x, n0, log0, es0, n, log, e, n', []);
    es := es0 + [e];
  }

  /** The next file is young: the reap stops there. */
  predicate Stops(x: Setting, n: W.Node)
    requires n.drainer.Reaping?
  {
    n.drainer.todo != [] && ParseTs(n.drainer.todo[0]).Some? && !W.Overdue(x.c, n.drainer.todo[0], n.drainer.now)
  }

  /** One file of a listing passed over or deleted. */
  lemma ReapOne(x: Setting, n0: W.Node, log0: seq<W.Write>, es0: seq<W.Event>, n: W.Node, log: seq<W.Write>)
    returns (es: seq<W.Event>, n': W.Node)
    requires x.scope == OfDrainer && x.c.maxAge.Some? && Exec(x, n0, log0, es0) == Some((n, log))
    requires n.drainer.Reaping? && n.drainer.todo != [] && !Stops(x, n)
    ensures Exec(x, n0, log0, es) == Some((n', log))
    ensures n'.drainer == W.Reaping(n.drainer.todo[1..], n.drainer.now)
    ensures n'.files == if ParseTs(n.drainer.todo[0]).Some? then n.files - {n.drainer.todo[0]} else n.files
  {
    W.ReapNextStep(x.c, x.p, x.gate, x.held, n);
    n' := W.NodeNext(x.c, x.p, x.gate, x.held, n, W.ReapNext).value.0;
    assert log + [] == log;
    Then(x, n0, log0, es0, n, log, W.ReapNext, n', []);
    es := es0 + [W.ReapNext];
  }

  lemma WithoutFirst(files: FileWal.Dir, m: string, rest: seq<string>)
    ensures FileWal.Without(files, [m] + rest) == FileWal.Without(files - {m}, rest)
  {
    assert (set n | n in [m] + rest) == {m} + (set n | n in rest);
  }

  lemma ReapUnfolds(x: Setting, n: W.Node, undeletable: set<string>)
    requires x.c.maxAge.Some? && n.drainer.Reaping? && n.drainer.todo != []
    ensures var todo, now := n.drainer.todo, n.drainer.now;
      var due, rest := FileWal.Reaped(todo, now, x.c.maxAge.value), FileWal.Reaped(todo[1..], now, x.c.maxAge.value);
      if Stops(x, n) then due == []
      else if ParseTs(todo[0]) == None then due == rest
      else
        && due == [todo[0]] + rest
        && FileWal.Before(due, undeletable) == if todo[0] in undeletable then [] else [todo[0]] + FileWal.Before(rest, undeletable)
  {
    var todo := n.drainer.todo;
    var rest := FileWal.Reaped(todo[1..], n.drainer.now, x.c.maxAge.value);
    assert ([todo[0]] + rest)[1..] == rest;
  }

  /** A listing reaped file by file. */
  lemma {:induction false} ReapListSteps(x: Setting, undeletable: set<string>, n0: W.Node, log0: seq<W.Write>,
      es0: seq<W.Event>, n: W.Node, log: seq<W.Write>)
    returns (es: seq<W.Event>, n': W.Node)
    requires x.scope == OfDrainer && x.c.maxAge.Some? && Exec(x, n0, log0, es0) == Some((n, log)) && n.drainer.Reaping?
    ensures Exec(x, n0, log0, es) == Some((n', log)) && n'.drainer == W.Sleeping && es != []
    ensures var due := FileWal.Reaped(n.drainer.todo, n.drainer.now, x.c.maxAge.value);
      && n'.files == FileWal.Without(n.files, FileWal.Before(due, undeletable))
      && (Last(es) == W.ReapFails <==> FileWal.ReapResult(due, undeletable).Err?)
    decreases |n.drainer.todo|
  {
    var todo := n.drainer.todo;
    if todo == [] || Stops(x, n) {
      if todo != [] {
        ReapUnfolds(x, n, undeletable);
      }
      es, n' := ReapEnds(x, n0, log0, es0, n, log, false);
    } else {
      ReapUnfolds(x, n, undeletable);
      if ParseTs(todo[0]).Some? && todo[0] in undeletable {
        es, n' := ReapEnds(x, n0, log0, es0, n, log, true);
      } else {
        var n1;
        es, n1 := ReapOne(x, n0, log0, es0, n, log);
        es, n' := ReapListSteps(x, undeletable, n0, log0, es, n1, log);
        if ParseTs(todo[0]).Some? {
          WithoutFirst(n.files, todo[0], FileWal.Before(FileWal.Reaped(todo[1..], n.drainer.now, x.c.maxAge.value), undeletable));
        }
      }
    }
  }

  /**
   * A reap of a follower, uninterrupted, is a run of the machine that deletes what the sequential reaper deletes and
   * writes nothing, and ends in a failure exactly when that one returns an error.
   */
  lemma ReapSteps(x: Setting, n: W.Node, log: seq<W.Write>, now: nat, undeletable: set<string>)
    returns (es: seq<W.Event>, n': W.Node)
    requires x.scope == OfDrainer && !x.gate && x.c.maxAge.Some? && n.drainer == W.Sleeping && W.FilesOk(x.c, n)
    ensures Exec(x, n, log, es) == Some((n', log)) && n'.drainer == W.Sleeping && es != []
    ensures var due := FileWal.Reaped(Listing(FileWal.PendingIn(n.files)), now, x.c.maxAge.value);
      && n'.files == FileWal.Without(n.files, FileWal.Before(due, undeletable))
      && (Last(es) == W.ReapFails <==> FileWal.ReapResult(due, undeletable).Err?)
  {
    var list := Listing(FileWal.PendingIn(n.files));
    forall m | m in list ensures m in n.appended {
      assert m in FileWal.PendingIn(n.files);
      assert W.FileOk(x.c, n, m);
    }
    es := ReapStart(x, n, log, list, now);
    es, n' := ReapListSteps(x, undeletable, n, log, es, n.(drainer := W.Reaping(list, now), misread := {}), log);
  }

  lemma IdleSteps(x: Setting, n: W.Node)
    requires !x.gate && x.c.maxAge == None && n.drainer == W.Sleeping
    ensures var n1 := n.(drainer := W.Woken(false));
      && W.NodeNext(x.c, x.p, x.gate, x.held, n, W.Wake) == Some((n1, []))
      && W.NodeNext(x.c, x.p, x.gate, x.held, n1, W.ScanStart) == Some((n, []))
  {}

  /** A follower without a maximum age goes back to sleep. */
  lemma FollowerIdles(x: Setting, n: W.Node, log: seq<W.Write>)
    requires x.scope == OfDrainer && !x.gate && x.c.maxAge == None && n.drainer == W.Sleeping
    ensures Exec(x, n, log, [] + [W.Wake] + [W.ScanStart]) == Some((n, log))
  {
    var n1 := n.(drainer := W.Woken(false));
    assert log + [] == log && Exec(x, n, log, []) == Some((n, log));
    IdleSteps(x, n);
    Then(x, n, log, [], n, log, W.Wake, n1, []);
    Then(x, n, log, [] + [W.Wake], n1, log, W.ScanStart, n, []);
  }

  /** It does happen: a read fails on a good file, the cycle ends well, and the file has been set aside undelivered. */
  lemma MisreadCycleEndsWell(x: Setting, n: W.Node, log: seq<W.Write>, name: string)
    returns (es: seq<W.Event>, n': W.Node)
    requires x.scope == OfMisreadingDrainer && x.gate && n.drainer == W.Sleeping && W.FilesOk(x.c, n)
    requires FileWal.PendingIn(n.files) == {name} && !W.Delivered(log, x.p, n, name)
    ensures Exec(x, n, log, es) == Some((n', log)) && es != [] && Last(es) == W.DrainDone
    ensures name !in n'.files && n'.appended == n.appended && !W.Delivered(log, x.p, n', name)
    ensures IsPending(name) && CorruptName(name) in n'.files && n'.files[CorruptName(name)] == n.files[name]
  {
    assert name in FileWal.PendingIn(n.files) && W.FileOk(x.c, n, name);
    OtherNamesNotPending(name);
    es := StartRun(x, n, log, [name]);
    var n1 := n.(drainer := W.Draining({name}, [name]), misread := {});
    es, n' := MisreadSteps(x, n, log, es, n1, log);
    DoneStep(x, n');
    Then(x, n, log, es, n', log, W.DrainDone, n'.(drainer := W.Sleeping), []);
    assert log + [] == log;
    es, n' := es + [W.DrainDone], n'.(drainer := W.Sleeping);
  }

  lemma MisreadSteps(x: Setting, n0: W.Node, log0: seq<W.Write>, es0: seq<W.Event>, n: W.Node, log: seq<W.Write>)
    returns (es: seq<W.Event>, n': W.Node)
    requires x.scope == OfMisreadingDrainer && Exec(x, n0, log0, es0) == Some((n, log))
    requires n.drainer.Draining? && n.drainer.todo != [] && IsPending(n.drainer.todo[0]) && n.drainer.todo[0] in n.files
    ensures Exec(x, n0, log0, es) == Some((n', log))
    ensures n'.files == FileWal.Quarantined(n.files, n.drainer.todo[0]) && n'.appended == n.appended
    ensures n'.drainer == W.Draining(n.drainer.base, n.drainer.todo[1..])
  {
    var d := n.drainer;
    var n1 := n.(drainer := W.Unreadable(d.base, d.todo), misread := n.misread + {d.todo[0]});
    assert log + [] == log;
    MisreadStep(x, n);
    Then(x, n0, log0, es0, n, log, W.ReadError, n1, []);
    es, n' := AsideSteps(x, true, n0, log0, es0 + [W.ReadError], n1, log);
  }

  lemma MisreadStep(x: Setting, n: W.Node)
    requires n.drainer.Draining? && n.drainer.todo != []
    ensures W.NodeNext(x.c, x.p, x.gate, x.held, n, W.ReadError) ==
      Some((n.(drainer := W.Unreadable(n.drainer.base, n.drainer.todo), misread := n.misread + {n.drainer.todo[0]}), []))
  {}

  lemma DoneStep(x: Setting, n: W.Node)
    requires n.drainer.Draining? && n.drainer.todo == []
    ensures W.NodeNext(x.c, x.p, x.gate, x.held, n, W.DrainDone) == Some((n.(drainer := W.Sleeping), []))
  {}

  // Upserts

  /** The file is created, written, synced and renamed. */
  lemma AppendSteps(x: Setting, n: W.Node, log: seq<W.Write>, name: string, b: Batch)
    returns (es: seq<W.Event>, n': W.Node)
    requires x.scope == OfUpsert(name)
    requires W.Faithful(x.c) && IsPending(name) && name !in n.producers && name !in n.begun && b != []
    ensures Exec(x, n, log, es) == Some((n', log))
    ensures n'.appended == n.appended[name := b]
    ensures n'.files == WalBacked.Queued(n.files, name, x.c.image(b))
    ensures name in n'.producers && n'.producers[name] == W.Appended(b) && n'.acked == n.acked
  {
    var tmp := TmpName(name);
    n' := W.Put(n, name, W.Writing(FileWal.Created, b)).(files := n.files[tmp := x.c.written(FileWal.Created, b)], begun := n.begun + {name});
    es := [] + [W.Begin(name, b)];
    assert log + [] == log && Exec(x, n, log, []) == Some((n, log));
    Then(x, n, log, [], n, log, W.Begin(name, b), n', []);
    n' := StageStep(x, n, log, es, n', name, b, FileWal.Created);
    es := es + [W.Progress(name)];
    n' := StageStep(x, n, log, es, n', name, b, FileWal.MagicWritten);
    es := es + [W.Progress(name)];
    n' := StageStep(x, n, log, es, n', name, b, FileWal.CrcWritten);
    es := es + [W.Progress(name)];
    n' := StageStep(x, n, log, es, n', name, b, FileWal.PayloadWritten);
    es := es + [W.Progress(name)];
    n' := RenameStep(x, n, log, es, n', name, b);
    es := es + [W.Progress(name)];
  }

  lemma RenameStep(x: Setting, n: W.Node, log: seq<W.Write>, es: seq<W.Event>, n1: W.Node, name: string, b: Batch)
    returns (n': W.Node)
    requires x.scope == OfUpsert(name)
    requires W.Faithful(x.c)
    requires Exec(x, n, log, es) == Some((n1, log)) && Staged(x, n, n1, name, b, FileWal.Synced)
    ensures Exec(x, n, log, es + [W.Progress(name)]) == Some((n', log))
    ensures n'.appended == n.appended[name := b]
    ensures n'.files == WalBacked.Queued(n.files, name, x.c.image(b))
    ensures name in n'.producers && n'.producers[name] == W.Appended(b) && n'.acked == n.acked
  {
    var tmp := TmpName(name);
    n' := W.Put(n1, name, W.Appended(b)).(files := (n1.files - {tmp})[name := n1.files[tmp]], appended := n1.appended[name := b]);
    assert log + [] == log;
    Then(x, n, log, es, n1, log, W.Progress(name), n', []);
    assert n1.files - {tmp} == n.files - {tmp};
  }

  /** The file written so far, and nothing else of the directory touched. */
  predicate Staged(x: Setting, n: W.Node, n': W.Node, name: string, b: Batch, s: FileWal.Stage) {
    && name in n'.producers && n'.producers[name] == W.Writing(s, b)
    && n'.files == n.files[TmpName(name) := x.c.written(s, b)] && n'.acked == n.acked && n'.appended == n.appended
  }

  lemma StageStep(x: Setting, n: W.Node, log: seq<W.Write>, es: seq<W.Event>, n1: W.Node, name: string, b: Batch,
      s: FileWal.Stage)
    returns (n': W.Node)
    requires x.scope == OfUpsert(name)
    requires Exec(x, n, log, es) == Some((n1, log)) && s != FileWal.Synced && Staged(x, n, n1, name, b, s)
    ensures Exec(x, n, log, es + [W.Progress(name)]) == Some((n', log))
    ensures Staged(x, n, n', name, b, W.NextStage(s))
  {
    var s' := W.NextStage(s);
    n' := W.Put(n1, name, W.Writing(s', b)).(files := n1.files[TmpName(name) := x.c.written(s', b)]);
    assert log + [] == log;
    Then(x, n, log, es, n1, log, W.Progress(name), n', []);
  }

  /** The files and the rows after an upsert, by what the gate and the store said. */
  function Upserted(x: Setting, q: Drain.Queue, name: string, b: Batch, answer: Drain.Outcome): Drain.Queue {
    var queued := WalBacked.Queued(q.files, name, x.c.image(b));
    if !x.gate then Drain.Queue(queued, q.rows)
    else match answer
      case Accepted => Drain.Queue(queued - {name}, Upsert(q.rows, b))
      case Unacked => Drain.Queue(queued, Upsert(q.rows, b))
      case Refused(applied) => Drain.Queue(queued, Upsert(q.rows, Part(b, applied)))
  }

  /** An upsert, uninterrupted, is a run of the machine: append, gate, store, ack. */
  lemma UpsertSteps(x: Setting, n: W.Node, log: seq<W.Write>, name: string, b: Batch, answer: Drain.Outcome)
    returns (es: seq<W.Event>, n': W.Node, log': seq<W.Write>)
    requires x.scope == OfUpsert(name)
    requires W.Faithful(x.c) && IsPending(name) && name !in n.producers && name !in n.begun && b != []
    ensures Exec(x, n, log, es) == Some((n', log'))
    ensures n'.appended == n.appended[name := b]
    ensures x.gate && !answer.Refused? ==> W.Taken(log', x.p, name, b)
    ensures name !in n'.producers
    ensures QueueOf(n', log') == Upserted(x, QueueOf(n, log), name, b, answer)
  {
    var es0, n0 := AppendSteps(x, n, log, name, b);
    assert log + [] == log;
    if !x.gate {
      es, n', log' := es0 + [W.CheckGate(name)], W.Drop(n0, name), log;
      Then(x, n, log, es0, n0, log, W.CheckGate(name), n', []);
    } else {
      var n1 := W.Put(n0, name, W.Passed(b, x.held));
      Then(x, n, log, es0, n0, log, W.CheckGate(name), n1, []);
      es, n', log' := StoreSteps(x, n, log, es0 + [W.CheckGate(name)], n1, name, b, answer);
    }
  }

  lemma StoreSteps(x: Setting, n: W.Node, log: seq<W.Write>, es0: seq<W.Event>, n1: W.Node, name: string, b: Batch,
      answer: Drain.Outcome)
    returns (es: seq<W.Event>, n': W.Node, log': seq<W.Write>)
    requires x.scope == OfUpsert(name)
    requires Exec(x, n, log, es0) == Some((n1, log)) && name in n1.producers && n1.producers[name] == W.Passed(b, x.held)
    ensures Exec(x, n, log, es) == Some((n', log'))
    ensures name !in n'.producers && n'.appended == n1.appended
    ensures !answer.Refused? ==> W.Taken(log', x.p, name, b)
    ensures n'.files == if answer.Accepted? then n1.files - {name} else n1.files
    ensures HaSystem.RowsOf(log') == Upsert(HaSystem.RowsOf(log), if answer.Refused? then Part(b, answer.applied) else b)
  {
    if answer.Refused? {
      var w := W.Write(x.p, name, Part(b, answer.applied), false, x.held);
      Then(x, n, log, es0, n1, log, W.SomeRows(name, answer.applied), n1, [w]);
      RowsSnoc(log, w);
      n', log' := W.Drop(n1, name), log + [w];
      Then(x, n, log, es0 + [W.SomeRows(name, answer.applied)], n1, log', W.StoreErr(name), n', []);
      assert log' + [] == log';
      es := es0 + [W.SomeRows(name, answer.applied)] + [W.StoreErr(name)];
    } else {
      var w, n2 := W.Write(x.p, name, b, true, x.held), W.Put(n1, name, W.Accepted(b));
      Then(x, n, log, es0, n1, log, W.StoreOk(name), n2, [w]);
      RowsSnoc(log, w);
      log' := log + [w];
      W.NewEntryTaken(log, w);
      es, n' := ProducerAckSteps(x, answer.Accepted?, n, log, es0 + [W.StoreOk(name)], n2, log', name);
    }
  }

  lemma AckStep(x: Setting, n: W.Node, name: string)
    requires name in n.producers && n.producers[name].Accepted?
    ensures W.NodeNext(x.c, x.p, x.gate, x.held, n, W.Ack(name)) ==
      Some((W.Drop(n, name).(files := n.files - {name}, acked := n.acked + {name}), []))
    ensures W.NodeNext(x.c, x.p, x.gate, x.held, n, W.AckFails(name)) == Some((W.Drop(n, name), []))
  {}

  lemma ProducerAckSteps(x: Setting, acked: bool, n: W.Node, log: seq<W.Write>, es0: seq<W.Event>, n2: W.Node,
      log2: seq<W.Write>, name: string)
    returns (es: seq<W.Event>, n': W.Node)
    requires x.scope == OfUpsert(name)
    requires Exec(x, n, log, es0) == Some((n2, log2)) && name in n2.producers && n2.producers[name].Accepted?
    ensures Exec(x, n, log, es) == Some((n', log2))
    ensures name !in n'.producers && n'.appended == n2.appended && n'.files == if acked then n2.files - {name} else n2.files
  {
    assert log2 + [] == log2;
    AckStep(x, n2, name);
    if acked {
      n' := W.Drop(n2, name).(files := n2.files - {name}, acked := n2.acked + {name});
      Then(x, n, log, es0, n2, log2, W.Ack(name), n', []);
      es := es0 + [W.Ack(name)];
    } else {
      n' := W.Drop(n2, name);
      Then(x, n, log, es0, n2, log2, W.AckFails(name), n', []);
      es := es0 + [W.AckFails(name)];
    }
  }
}
