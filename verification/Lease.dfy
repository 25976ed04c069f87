/**
 * The leader lease: processes that run the supervisor loop against one expiring Redis key.
 *
 * A run is a sequence of atomic steps. A tick is three of them, split where the loop awaits: the command is
 * sent, Redis executes it, the outcome is stored. An error may strike before or after Redis executed the
 * command; in the first case the command is left behind as an orphan that Redis may still execute, at any
 * later time, for nobody. Time is in milliseconds and passes only in Advance steps.
 */
module Lease {
  import opened Base

  type ProcId = nat

  datatype Config = Config(ids: map<ProcId, string>, ttl: int)

  datatype Command = SetNx | Refresh

  datatype Pc =
    | Idle
    | Sent(cmd: Command)
    | Answered(cmd: Command, ok: bool, at: int)

  /** `grant` is a history variable: when Redis executed the command the raised flag rests on. */
  datatype Proc = Proc(isLeader: bool, pc: Pc, grant: int)

  /** `holder` is a history variable: the process whose SET NX created the key. */
  datatype Key = Key(owner: string, expiry: int, holder: ProcId)

  datatype Orphan = Orphan(sender: ProcId, cmd: Command)

  datatype State = State(now: int, key: Option<Key>, procs: map<ProcId, Proc>, orphans: multiset<Orphan>)

  datatype Event =
    | Advance(d: nat)
    | Send(p: ProcId)
    | Execute(p: ProcId)
    | Store(p: ProcId)
    | Fail(p: ProcId)
    | ExecuteOrphan(orphan: Orphan)
    | Crash(p: ProcId)

  /** Redis keeps a key until its expiry and not a moment longer. */
  predicate Live(s: State) {
    s.key.Some? && s.now < s.key.value.expiry
  }

  /** SET key id NX PX ttl, and the compare-and-PEXPIRE script. */
  function Redis(c: Config, s: State, p: ProcId, cmd: Command): (Option<Key>, bool)
    requires p in c.ids
  {
    match cmd
    case SetNx =>
      if Live(s) then (s.key, false) else (Some(Key(c.ids[p], s.now + c.ttl, p)), true)
    case Refresh =>
      if Live(s) && s.key.value.owner == c.ids[p]
      then (Some(s.key.value.(expiry := s.now + c.ttl)), true)
      else (s.key, false)
  }

  function WithProc(s: State, p: ProcId, q: Proc): State {
    s.(procs := s.procs[p := q])
  }

  /** A tick given up in state `pc`: the flag falls, and a command Redis has not executed yet stays behind. */
  function GiveUp(s: State, p: ProcId): State
    requires p in s.procs
  {
    var q := s.procs[p];
    var s' := WithProc(s, p, q.(isLeader := false, pc := Idle));
    if q.pc.Sent? then s'.(orphans := s.orphans + multiset{Orphan(p, q.pc.cmd)}) else s'
  }

  /** The state after an event, or None where the event cannot happen. */
  function Next(c: Config, s: State, e: Event): Option<State> {
    match e
    case Advance(d) => Some(s.(now := s.now + d))
    case Send(p) =>
      if p in s.procs && s.procs[p].pc.Idle?
      then Some(WithProc(s, p, s.procs[p].(pc := Sent(if s.procs[p].isLeader then Refresh else SetNx))))
      else None
    case Execute(p) =>
      if p in s.procs && p in c.ids && s.procs[p].pc.Sent? then
        var cmd := s.procs[p].pc.cmd;
        var (key, ok) := Redis(c, s, p, cmd);
        Some(WithProc(s.(key := key), p, s.procs[p].(pc := Answered(cmd, ok, s.now))))
      else None
    case Store(p) =>
      if p in s.procs && s.procs[p].pc.Answered? then
        var q := s.procs[p];
        Some(WithProc(s, p, Proc(q.pc.ok, Idle, if q.pc.ok then q.pc.at else q.grant)))
      else None
    case Fail(p) => if p in s.procs && !s.procs[p].pc.Idle? then Some(GiveUp(s, p)) else None
    case ExecuteOrphan(o) =>
      if o in s.orphans && o.sender in c.ids
      then Some(s.(key := Redis(c, s, o.sender, o.cmd).0, orphans := s.orphans - multiset{o}))
      else None
    case Crash(p) => if p in s.procs then Some(GiveUp(s, p)) else None
  }

  ghost predicate Init(c: Config, s: State) {
    && s.key == None
    && s.orphans == multiset{}
    && s.procs.Keys == c.ids.Keys
    && forall p :: p in s.procs ==> !s.procs[p].isLeader && s.procs[p].pc == Idle
  }

  predicate StepOk(c: Config, tr: seq<State>, es: seq<Event>, i: nat)
    requires |tr| == |es| + 1 && i < |es|
  {
    Next(c, tr[i], es[i]) == Some(tr[i + 1])
  }

  ghost predicate IsRun(c: Config, tr: seq<State>, es: seq<Event>) {
    && |tr| == |es| + 1
    && forall i {:trigger StepOk(c, tr, es, i)} :: 0 <= i < |es| ==> StepOk(c, tr, es, i)
  }

  /**
   * The timing assumption: while a flag is up, less than ttl has passed since Redis executed the command it
   * rests on. It holds when less than ttl separates that execution from storing the next tick's outcome.
   */
  ghost predicate Timely(c: Config, s: State) {
    forall p :: p in s.procs && s.procs[p].isLeader ==> s.now < s.procs[p].grant + c.ttl
  }

  ghost predicate TimelyRun(c: Config, tr: seq<State>) {
    forall i :: 0 <= i < |tr| ==> Timely(c, tr[i])
  }

  // The invariant

  /** Until `at + ttl`, the key is p's and lasts at least that long. */
  predicate Secured(c: Config, s: State, p: ProcId, at: int)
    requires p in c.ids
  {
    s.now < at + c.ttl ==>
      && s.key.Some? && s.key.value.holder == p && s.key.value.owner == c.ids[p]
      && at + c.ttl <= s.key.value.expiry
  }

  predicate ProcInv(c: Config, s: State, p: ProcId)
    requires p in s.procs && p in c.ids
  {
    var q := s.procs[p];
    && (q.isLeader ==> q.grant <= s.now && Secured(c, s, p, q.grant))
    && (q.pc.Answered? && q.pc.ok ==> q.pc.at <= s.now && Secured(c, s, p, q.pc.at))
    && (!q.pc.Idle? ==> (q.pc.cmd == Refresh <==> q.isLeader))
  }

  predicate KeyInv(c: Config, s: State) {
    s.key.Some? ==> s.key.value.holder in c.ids && s.key.value.owner == c.ids[s.key.value.holder]
  }

  ghost predicate Inv(c: Config, s: State) {
    && s.procs.Keys == c.ids.Keys
    && KeyInv(c, s)
    && (forall p :: p in s.procs ==> ProcInv(c, s, p))
  }

  /** Executing a command never shortens or takes away a lease that is still running. */
  lemma RedisKeepsSecured(c: Config, s: State, p: ProcId, cmd: Command, q: ProcId, at: int)
    requires p in c.ids && q in c.ids && at <= s.now && Secured(c, s, q, at)
    ensures Secured(c, s.(key := Redis(c, s, p, cmd).0), q, at)
  {}

  lemma RedisKeepsKeyInv(c: Config, s: State, p: ProcId, cmd: Command)
    requires p in c.ids && KeyInv(c, s)
    ensures KeyInv(c, s.(key := Redis(c, s, p, cmd).0))
  {}

  /** A process whose record does not change keeps its invariant when someone's command is executed. */
  lemma BystanderKeeps(c: Config, s: State, x: ProcId, cmd: Command, p: ProcId, s': State)
    requires x in c.ids && p in c.ids && p in s.procs && ProcInv(c, s, p)
    requires p in s'.procs && s'.procs[p] == s.procs[p] && s'.now == s.now && s'.key == Redis(c, s, x, cmd).0
    ensures ProcInv(c, s', p)
  {
    var q := s.procs[p];
    if q.isLeader {
      RedisKeepsSecured(c, s, x, cmd, p, q.grant);
    }
    if q.pc.Answered? && q.pc.ok {
      RedisKeepsSecured(c, s, x, cmd, p, q.pc.at);
    }
  }

  /** A successful command secures the key for its sender from now on. */
  lemma SenderSecured(c: Config, s: State, p: ProcId, s': State)
    requires 0 < c.ttl && Inv(c, s) && Timely(c, s)
    requires Next(c, s, Execute(p)) == Some(s')
    ensures ProcInv(c, s', p)
  {
    var q := s.procs[p];
    assert ProcInv(c, s, p);
    if q.isLeader {
      RedisKeepsSecured(c, s, p, q.pc.cmd, p, q.grant);
    }
  }

  lemma ExecuteKeepsInv(c: Config, s: State, p: ProcId, s': State)
    requires 0 < c.ttl && Inv(c, s) && Timely(c, s)
    requires Next(c, s, Execute(p)) == Some(s')
    ensures Inv(c, s')
  {
    RedisKeepsKeyInv(c, s, p, s.procs[p].pc.cmd);
    SenderSecured(c, s, p, s');
    forall x | x in s'.procs && x != p ensures ProcInv(c, s', x) {
      assert ProcInv(c, s, x);
      BystanderKeeps(c, s, p, s.procs[p].pc.cmd, x, s');
    }
  }

  lemma OrphanKeepsInv(c: Config, s: State, o: Orphan, s': State)
    requires Inv(c, s)
    requires Next(c, s, ExecuteOrphan(o)) == Some(s')
    ensures Inv(c, s')
  {
    RedisKeepsKeyInv(c, s, o.sender, o.cmd);
    forall x | x in s'.procs ensures ProcInv(c, s', x) {
      assert ProcInv(c, s, x);
      BystanderKeeps(c, s, o.sender, o.cmd, x, s');
    }
  }

  /** A process record that is idle, or only waits for Redis, rests on nothing but its flag. */
  lemma LocalKeepsInv(c: Config, s: State, p: ProcId, q: Proc, s': State)
    requires Inv(c, s) && p in s.procs
    requires s'.now == s.now && s'.key == s.key && s'.procs == s.procs[p := q]
    requires ProcInv(c, WithProc(s, p, q), p)
    ensures Inv(c, s')
  {
    forall x | x in s'.procs ensures ProcInv(c, s', x) {
      assert ProcInv(c, s, x);
    }
  }

  lemma AdvanceKeepsInv(c: Config, s: State, d: nat)
    requires Inv(c, s)
    ensures Inv(c, s.(now := s.now + d))
  {
    forall x | x in s.procs ensures ProcInv(c, s.(now := s.now + d), x) {
      assert ProcInv(c, s, x);
    }
  }

  lemma NextKeepsInv(c: Config, s: State, e: Event, s': State)
    requires 0 < c.ttl && Inv(c, s) && Timely(c, s)
    requires Next(c, s, e) == Some(s')
    ensures Inv(c, s')
  {
    match e
    case Execute(p) => ExecuteKeepsInv(c, s, p, s');
    case ExecuteOrphan(o) => OrphanKeepsInv(c, s, o, s');
    case Advance(d) => AdvanceKeepsInv(c, s, d);
    case Send(p) => assert ProcInv(c, s, p); LocalKeepsInv(c, s, p, s'.procs[p], s');
    case Store(p) => assert ProcInv(c, s, p); LocalKeepsInv(c, s, p, s'.procs[p], s');
    case Fail(p) => LocalKeepsInv(c, s, p, s'.procs[p], s');
    case Crash(p) => LocalKeepsInv(c, s, p, s'.procs[p], s');
  }

  lemma {:induction false} RunKeepsInv(c: Config, tr: seq<State>, es: seq<Event>, i: nat)
    requires 0 < c.ttl && IsRun(c, tr, es) && TimelyRun(c, tr) && Inv(c, tr[0])
    requires i < |tr|
    ensures Inv(c, tr[i])
  {
    if i > 0 {
      RunKeepsInv(c, tr, es, i - 1);
      assert StepOk(c, tr, es, i - 1);
      NextKeepsInv(c, tr[i - 1], es[i - 1], tr[i]);
    }
  }

  lemma InitInv(c: Config, s: State)
    requires Init(c, s)
    ensures Inv(c, s)
  {}

  // Main results

  ghost predicate LeaderHoldsKey(c: Config, s: State, p: ProcId) {
    p in s.procs && s.procs[p].isLeader ==>
      p in c.ids && Live(s) && s.key.value.owner == c.ids[p] && s.key.value.holder == p
  }

  /** At most one flag is up, and its process holds the unexpired key. */
  lemma MutualExclusion(c: Config, tr: seq<State>, es: seq<Event>, i: nat)
    requires 0 < c.ttl && IsRun(c, tr, es) && Init(c, tr[0]) && TimelyRun(c, tr)
    requires i < |tr|
    ensures forall p :: LeaderHoldsKey(c, tr[i], p)
    ensures forall p, q :: p in tr[i].procs && q in tr[i].procs && tr[i].procs[p].isLeader && tr[i].procs[q].isLeader ==> p == q
  {
    InitInv(c, tr[0]);
    RunKeepsInv(c, tr, es, i);
    forall p ensures LeaderHoldsKey(c, tr[i], p) {
      if p in tr[i].procs && tr[i].procs[p].isLeader {
        assert ProcInv(c, tr[i], p);
        assert Timely(c, tr[i]);
      }
    }
    forall p, q | p in tr[i].procs && q in tr[i].procs && tr[i].procs[p].isLeader && tr[i].procs[q].isLeader ensures p == q {
      assert LeaderHoldsKey(c, tr[i], p) && LeaderHoldsKey(c, tr[i], q);
    }
  }

  // A leader stays leader

  /** p stores the outcome of each tick within ttl of the command its flag rests on; others may be as late as they like. */
  predicate OnTime(c: Config, s: State, p: ProcId) {
    p in s.procs && s.procs[p].isLeader ==> s.now < s.procs[p].grant + c.ttl
  }

  ghost predicate OnTimeUntil(c: Config, tr: seq<State>, p: ProcId, i: nat)
    requires i < |tr|
  {
    forall k :: 0 <= k <= i ==> OnTime(c, tr[k], p)
  }

  predicate Leads(s: State, p: ProcId) {
    p in s.procs && s.procs[p].isLeader
  }

  predicate GivesUp(e: Event, p: ProcId) {
    e == Fail(p) || e == Crash(p)
  }

  /** A leader on time only ever gets the answer that it still owns the key. */
  predicate OwnInv(c: Config, s: State, p: ProcId) {
    && p in c.ids && p in s.procs && ProcInv(c, s, p)
    && (s.procs[p].isLeader && s.procs[p].pc.Answered? ==> s.procs[p].pc.ok)
  }

  lemma OthersKeepOwnInv(c: Config, s: State, e: Event, s': State, p: ProcId)
    requires OwnInv(c, s, p) && Next(c, s, e) == Some(s')
    requires e != Execute(p) && e != Send(p) && e != Store(p) && !GivesUp(e, p)
    ensures OwnInv(c, s', p) && s'.procs[p] == s.procs[p]
  {
    if e.Execute? {
      BystanderKeeps(c, s, e.p, s.procs[e.p].pc.cmd, p, s');
    } else if e.ExecuteOrphan? {
      BystanderKeeps(c, s, e.orphan.sender, e.orphan.cmd, p, s');
    }
  }

  lemma OwnExecuteKeeps(c: Config, s: State, s': State, p: ProcId)
    requires 0 < c.ttl && OwnInv(c, s, p) && OnTime(c, s, p) && Next(c, s, Execute(p)) == Some(s')
    ensures OwnInv(c, s', p) && Leads(s', p) == Leads(s, p)
  {
    if s.procs[p].isLeader {
      RedisKeepsSecured(c, s, p, s.procs[p].pc.cmd, p, s.procs[p].grant);
    }
  }

  /** Sending, storing and giving up change only the process's own record. */
  lemma OwnRecordKeeps(c: Config, s: State, e: Event, s': State, p: ProcId)
    requires OwnInv(c, s, p) && Next(c, s, e) == Some(s')
    requires e == Send(p) || e == Store(p) || GivesUp(e, p)
    ensures OwnInv(c, s', p)
    ensures Leads(s, p) ==> (Leads(s', p) <==> !GivesUp(e, p))
  {}

  lemma OwnStep(c: Config, s: State, e: Event, s': State, p: ProcId)
    requires 0 < c.ttl && OwnInv(c, s, p) && OnTime(c, s, p) && Next(c, s, e) == Some(s')
    ensures OwnInv(c, s', p)
    ensures Leads(s, p) ==> (Leads(s', p) <==> !GivesUp(e, p))
  {
    if e == Execute(p) {
      OwnExecuteKeeps(c, s, s', p);
    } else if e == Send(p) || e == Store(p) || GivesUp(e, p) {
      OwnRecordKeeps(c, s, e, s', p);
    } else {
      OthersKeepOwnInv(c, s, e, s', p);
    }
  }

  lemma {:induction false} RunKeepsOwnInv(c: Config, tr: seq<State>, es: seq<Event>, p: ProcId, i: nat)
    requires 0 < c.ttl && IsRun(c, tr, es) && Init(c, tr[0]) && p in c.ids && i < |tr| && OnTimeUntil(c, tr, p, i)
    ensures OwnInv(c, tr[i], p)
  {
    if i > 0 {
      RunKeepsOwnInv(c, tr, es, p, i - 1);
      assert StepOk(c, tr, es, i - 1);
      OwnStep(c, tr[i - 1], es[i - 1], tr[i], p);
    }
  }

  /**
   * In a run in which p is on time, its flag falls exactly where p crashes or a tick of its errs: every answered tick
   * finds the key still p's, whatever the other processes do and however late they are.
   */
  lemma FlagFallsIffGivenUp(c: Config, tr: seq<State>, es: seq<Event>, p: ProcId, i: nat)
    requires 0 < c.ttl && IsRun(c, tr, es) && Init(c, tr[0]) && p in c.ids && i < |es| && OnTimeUntil(c, tr, p, i)
    requires Leads(tr[i], p)
    ensures Leads(tr[i + 1], p) <==> !GivesUp(es[i], p)
  {
    RunKeepsOwnInv(c, tr, es, p, i);
    assert StepOk(c, tr, es, i);
    OwnStep(c, tr[i], es[i], tr[i + 1], p);
  }

  /** So a process on time that neither crashes nor errs leads in every state since it first did, and owns the live key. */
  lemma {:induction false} LeaderKeepsLeading(c: Config, tr: seq<State>, es: seq<Event>, p: ProcId, i: nat, j: nat)
    requires 0 < c.ttl && IsRun(c, tr, es) && Init(c, tr[0]) && p in c.ids && i <= j < |tr| && OnTimeUntil(c, tr, p, j)
    requires Leads(tr[i], p) && forall k :: i <= k < j ==> !GivesUp(es[k], p)
    ensures Leads(tr[j], p) && Live(tr[j]) && tr[j].key.value.owner == c.ids[p] && tr[j].key.value.holder == p
    decreases j - i
  {
    RunKeepsOwnInv(c, tr, es, p, j);
    if i < j {
      LeaderKeepsLeading(c, tr, es, p, i, j - 1);
      FlagFallsIffGivenUp(c, tr, es, p, j - 1);
    }
  }

  /** The process on whose behalf Redis executes a command in this event. */
  function Executor(e: Event): Option<ProcId> {
    match e
    case Execute(p) => Some(p)
    case ExecuteOrphan(o) => Some(o.sender)
    case _ => None
  }

  ghost predicate DistinctIds(c: Config) {
    forall p, q :: p in c.ids && q in c.ids && c.ids[p] == c.ids[q] ==> p == q
  }

  lemma StepKeepsKeyInv(c: Config, s: State, e: Event, s': State)
    requires KeyInv(c, s) && Next(c, s, e) == Some(s')
    ensures KeyInv(c, s')
  {
    match e
    case Execute(p) => RedisKeepsKeyInv(c, s, p, s.procs[p].pc.cmd);
    case ExecuteOrphan(o) => RedisKeepsKeyInv(c, s, o.sender, o.cmd);
    case _ =>
  }

  /** Who owns the key needs no timing. */
  lemma {:induction false} RunKeepsKeyInv(c: Config, tr: seq<State>, es: seq<Event>, i: nat)
    requires IsRun(c, tr, es) && KeyInv(c, tr[0]) && i < |tr|
    ensures KeyInv(c, tr[i])
  {
    if i > 0 {
      RunKeepsKeyInv(c, tr, es, i - 1);
      assert StepOk(c, tr, es, i - 1);
      StepKeepsKeyInv(c, tr[i - 1], es[i - 1], tr[i]);
    }
  }

  lemma LiveKeyStep(c: Config, s: State, e: Event, s': State)
    requires DistinctIds(c) && KeyInv(c, s)
    requires Live(s) && Next(c, s, e) == Some(s') && s'.key != s.key
    ensures Executor(e) == Some(s.key.value.holder)
    ensures s'.key == Some(s.key.value.(expiry := s.now + c.ttl))
  {
    match e
    case Execute(p) =>
    case ExecuteOrphan(o) =>
    case _ =>
  }

  /**
   * With distinct node ids, in every run, however late its processes are, a running lease is changed only by its own
   * holder, and only by renewing it.
   */
  lemma OnlyHolderRenews(c: Config, tr: seq<State>, es: seq<Event>, i: nat)
    requires DistinctIds(c) && IsRun(c, tr, es) && Init(c, tr[0])
    requires i < |es| && Live(tr[i]) && tr[i + 1].key != tr[i].key
    ensures Executor(es[i]) == Some(tr[i].key.value.holder)
    ensures tr[i + 1].key == Some(tr[i].key.value.(expiry := tr[i].now + c.ttl))
  {
    RunKeepsKeyInv(c, tr, es, i);
    assert StepOk(c, tr, es, i);
    LiveKeyStep(c, tr[i], es[i], tr[i + 1]);
  }

  // The leaderless window

  /** The event executes a SET NX that succeeds. */
  predicate Acquires(c: Config, s: State, e: Event) {
    && !Live(s)
    && match e
       case Execute(p) => p in s.procs && s.procs[p].pc == Sent(SetNx)
       case ExecuteOrphan(o) => o.cmd == SetNx
       case _ => false
  }

  /** The event executes a refresh that succeeds. */
  predicate Renews(c: Config, s: State, e: Event) {
    && Live(s)
    && match e
       case Execute(p) => p in s.procs && p in c.ids && s.procs[p].pc == Sent(Refresh) && s.key.value.owner == c.ids[p]
       case ExecuteOrphan(o) => o.cmd == Refresh && o.sender in c.ids && s.key.value.owner == c.ids[o.sender]
       case _ => false
  }

  /** Commands that neither acquire nor renew leave the key as it was. */
  lemma KeyChanges(c: Config, s: State, e: Event, s': State)
    requires Next(c, s, e) == Some(s')
    ensures !Acquires(c, s, e) && !Renews(c, s, e) ==> s'.key == s.key
    ensures Acquires(c, s, e) ==>
      Executor(e).Some? && Executor(e).value in c.ids
      && s'.key == Some(Key(c.ids[Executor(e).value], s.now + c.ttl, Executor(e).value))
    ensures s.now <= s'.now && (Executor(e).Some? ==> s'.now == s.now)
  {}

  /** In every interval of length T that the run covers, some live process has a command executed. */
  ghost predicate TicksEvery(tr: seq<State>, es: seq<Event>, T: nat)
    requires |tr| == |es| + 1
  {
    forall a :: tr[0].now <= a && a + T <= tr[|es|].now ==> TickWithin(tr, es, a, T)
  }

  ghost predicate TickWithin(tr: seq<State>, es: seq<Event>, a: int, T: nat)
    requires |tr| == |es| + 1
  {
    exists i :: 0 <= i < |es| && es[i].Execute? && a <= tr[i].now <= a + T
  }

  lemma {:induction false} TimeGrows(c: Config, tr: seq<State>, es: seq<Event>, i: nat, j: nat)
    requires IsRun(c, tr, es) && i <= j < |tr|
    ensures tr[i].now <= tr[j].now
    decreases j - i
  {
    if i < j {
      assert StepOk(c, tr, es, j - 1);
      KeyChanges(c, tr[j - 1], es[j - 1], tr[j]);
      TimeGrows(c, tr, es, i, j - 1);
    }
  }

  /** After expiry no flag is up, so a live process that gets a command executed tries to acquire. */
  lemma LateTickAcquires(c: Config, s: State, p: ProcId, s': State)
    requires Inv(c, s) && Timely(c, s) && !Live(s)
    requires Next(c, s, Execute(p)) == Some(s')
    ensures Acquires(c, s, Execute(p))
  {
    assert ProcInv(c, s, p);
  }

  predicate AcquiresAt(c: Config, tr: seq<State>, es: seq<Event>, j: nat)
    requires |tr| == |es| + 1 && j < |es|
  {
    Acquires(c, tr[j], es[j])
  }

  /** No SET NX succeeded in the first i events. */
  ghost predicate NoneAcquires(c: Config, tr: seq<State>, es: seq<Event>, i: nat)
    requires |tr| == |es| + 1 && i <= |es|
  {
    forall j {:trigger AcquiresAt(c, tr, es, j)} :: 0 <= j < i ==> !AcquiresAt(c, tr, es, j)
  }

  /** Event j is the last renewal before state i: the lease of state i rests on it. */
  ghost predicate LastRenewal(c: Config, tr: seq<State>, es: seq<Event>, j: nat, i: nat)
    requires |tr| == |es| + 1 && i <= |es|
  {
    && j < i && Renews(c, tr[j], es[j])
    && (forall m :: j < m <= i ==> tr[m].key == tr[i].key)
    && tr[i].key.Some? && tr[i].key.value.expiry == tr[j].now + c.ttl
  }

  predicate SameLease(k: Option<Key>, k': Option<Key>) {
    k.Some? && k'.Some? && k'.value == k.value.(expiry := k'.value.expiry)
  }

  lemma RenewalExtends(c: Config, s: State, e: Event, s': State)
    requires Next(c, s, e) == Some(s') && Renews(c, s, e)
    ensures SameLease(s.key, s'.key) && s'.key.value.expiry == s.now + c.ttl
  {}

  lemma KeyStep(c: Config, s: State, e: Event, s': State)
    requires Next(c, s, e) == Some(s') && s.key.Some? && !Acquires(c, s, e)
    ensures SameLease(s.key, s'.key)
    ensures if Renews(c, s, e) then s'.key.value.expiry == s.now + c.ttl else s'.key == s.key
  {
    if Renews(c, s, e) {
      RenewalExtends(c, s, e, s');
    } else {
      KeyChanges(c, s, e, s');
    }
  }

  lemma RunKeyStep(c: Config, tr: seq<State>, es: seq<Event>, i: nat)
    requires IsRun(c, tr, es) && i < |es| && tr[i].key.Some? && !AcquiresAt(c, tr, es, i)
    ensures SameLease(tr[i].key, tr[i + 1].key)
    ensures if Renews(c, tr[i], es[i]) then LastRenewal(c, tr, es, i, i + 1) else tr[i + 1].key == tr[i].key
  {
    assert StepOk(c, tr, es, i);
    KeyStep(c, tr[i], es[i], tr[i + 1]);
  }

  /** While nobody acquires it, the key changes only by renewals. */
  lemma {:induction false} KeyBetween(c: Config, tr: seq<State>, es: seq<Event>, m: nat, i: nat) returns (j: nat)
    requires IsRun(c, tr, es) && m <= i <= |es| && NoneAcquires(c, tr, es, i) && tr[m].key.Some?
    ensures SameLease(tr[m].key, tr[i].key)
    ensures tr[i].key == tr[m].key || (m <= j && LastRenewal(c, tr, es, j, i))
    decreases i - m
  {
    j := 0;
    if m < i {
      j := KeyBetween(c, tr, es, m, i - 1);
      RunKeyStep(c, tr, es, i - 1);
      if Renews(c, tr[i - 1], es[i - 1]) {
        j := i - 1;
      }
    }
  }

  /** A command executed for a live process once the lease of state i has run out acquires the key. */
  lemma LateCommandAcquires(c: Config, tr: seq<State>, es: seq<Event>, i: nat, m: nat)
    requires 0 < c.ttl && IsRun(c, tr, es) && Inv(c, tr[0]) && TimelyRun(c, tr)
    requires m <= i <= |es| && m < |es| && NoneAcquires(c, tr, es, i) && tr[m].key.Some? && tr[i].key.Some?
    requires es[m].Execute? && tr[i].key.value.expiry <= tr[m].now
    ensures AcquiresAt(c, tr, es, m)
  {
    var j := KeyBetween(c, tr, es, m, i);
    if tr[i].key != tr[m].key {
      TimeGrows(c, tr, es, m, j);
      assert false;
    }
    RunKeepsInv(c, tr, es, m);
    assert StepOk(c, tr, es, m);
    LateTickAcquires(c, tr[m], es[m].p, tr[m + 1]);
  }

  /**
   * Whoever crashes or gives up, and whatever becomes of commands left behind: until somebody acquires the key, the
   * run is never more than T past the expiry that the last effective command gave it, T being the longest time
   * without an executed tick.
   */
  lemma LeaderlessAtMostT(c: Config, tr: seq<State>, es: seq<Event>, T: nat, i: nat) returns (j: nat)
    requires 0 < c.ttl && IsRun(c, tr, es) && Inv(c, tr[0]) && TimelyRun(c, tr)
    requires tr[0].key.Some? && tr[0].now <= tr[0].key.value.expiry
    requires TicksEvery(tr, es, T) && i <= |es| && NoneAcquires(c, tr, es, i)
    ensures SameLease(tr[0].key, tr[i].key)
    ensures tr[i].key == tr[0].key || LastRenewal(c, tr, es, j, i)
    ensures tr[0].now <= tr[i].key.value.expiry
    ensures tr[i].now <= tr[i].key.value.expiry + T
  {
    j := KeyBetween(c, tr, es, 0, i);
    var from := tr[i].key.value.expiry;
    if tr[i].key != tr[0].key {
      TimeGrows(c, tr, es, 0, j);
    }
    if tr[i].now > from + T {
      TimeGrows(c, tr, es, i, |es|);
      assert TickWithin(tr, es, from, T);
      var m :| 0 <= m < |es| && es[m].Execute? && from <= tr[m].now <= from + T;
      if m >= i {
        TimeGrows(c, tr, es, i, m);
      }
      var j' := KeyBetween(c, tr, es, 0, m);
      LateCommandAcquires(c, tr, es, i, m);
    }
  }

  /** The holder of the key no longer leads, and has no answer on its way that would make it lead. */
  predicate Demoted(s: State) {
    s.key.Some? && s.key.value.holder in s.procs &&
    var q := s.procs[s.key.value.holder];
    !q.isLeader && !(q.pc.Answered? && q.pc.ok)
  }

  /** Refreshes left behind by the holder that Redis may still execute. */
  function Pending(s: State): nat
    requires s.key.Some?
  {
    s.orphans[Orphan(s.key.value.holder, Refresh)]
  }

  /** Nothing is left that could renew the key. */
  predicate Abandoned(s: State) {
    Demoted(s) && Pending(s) == 0
  }

  /**
   * A leader that crashes, or gives up on an error, is demoted at once; the key is abandoned unless a refresh of its
   * was left behind, now or before.
   */
  lemma GivingUpDemotes(c: Config, s: State, e: Event, s': State)
    requires Inv(c, s) && s.key.Some? && Next(c, s, e) == Some(s')
    requires e == Crash(s.key.value.holder) || e == Fail(s.key.value.holder)
    ensures Demoted(s') && s'.key == s.key
    ensures Pending(s') == Pending(s) + if s.procs[s.key.value.holder].pc == Sent(Refresh) then 1 else 0
    ensures Abandoned(s') <==> s.procs[s.key.value.holder].pc != Sent(Refresh) && Orphan(s.key.value.holder, Refresh) !in s.orphans
  {}

  lemma OnlyLeftoversRenew(c: Config, s: State, e: Event)
    requires DistinctIds(c) && Inv(c, s) && Demoted(s) && Renews(c, s, e)
    ensures e == ExecuteOrphan(Orphan(s.key.value.holder, Refresh))
  {
    assert KeyInv(c, s) && ProcInv(c, s, s.key.value.holder);
  }

  /** A follower leaves no refresh behind when it gives up. */
  lemma NoNewLeftovers(c: Config, s: State, e: Event, s': State)
    requires Inv(c, s) && Demoted(s) && Next(c, s, e) == Some(s')
    ensures s'.orphans[Orphan(s.key.value.holder, Refresh)] <= Pending(s)
  {
    assert ProcInv(c, s, s.key.value.holder);
  }

  lemma FlagStaysDown(c: Config, s: State, e: Event, s': State)
    requires Inv(c, s) && Demoted(s) && Next(c, s, e) == Some(s') && !Acquires(c, s, e)
    ensures var h := s.key.value.holder;
      h in s'.procs && !s'.procs[h].isLeader && !(s'.procs[h].pc.Answered? && s'.procs[h].pc.ok)
  {
    assert ProcInv(c, s, s.key.value.holder);
  }

  /** The key of a demoted holder is renewed only by executing a refresh it left behind, which uses that one up. */
  lemma DemotedStays(c: Config, s: State, e: Event, s': State)
    requires DistinctIds(c) && Inv(c, s) && Demoted(s)
    requires Next(c, s, e) == Some(s') && !Acquires(c, s, e)
    ensures Demoted(s') && s'.key.value.holder == s.key.value.holder
    ensures Renews(c, s, e) ==> e == ExecuteOrphan(Orphan(s.key.value.holder, Refresh)) && Pending(s') == Pending(s) - 1
    ensures !Renews(c, s, e) ==> s'.key == s.key && Pending(s') <= Pending(s)
  {
    NoNewLeftovers(c, s, e, s');
    FlagStaysDown(c, s, e, s');
    KeyStep(c, s, e, s');
    if Renews(c, s, e) {
      OnlyLeftoversRenew(c, s, e);
    }
  }

  /** Nobody renews an abandoned key, its holder included: it stays as it is until someone acquires it. */
  lemma AbandonedStays(c: Config, s: State, e: Event, s': State)
    requires DistinctIds(c) && Inv(c, s) && Abandoned(s)
    requires Next(c, s, e) == Some(s') && !Acquires(c, s, e)
    ensures !Renews(c, s, e) && s'.key == s.key && Abandoned(s')
  {
    DemotedStays(c, s, e, s');
  }

  /** By state i the demoted holder's lease has been stretched by at most ttl for every refresh used up. */
  ghost predicate Stretched(c: Config, tr: seq<State>, i: nat)
    requires i < |tr|
  {
    && tr[0].key.Some? && SameLease(tr[0].key, tr[i].key) && Demoted(tr[i])
    && Pending(tr[i]) <= Pending(tr[0])
    && tr[i].key.value.expiry <= tr[0].key.value.expiry + (Pending(tr[0]) - Pending(tr[i])) * c.ttl
  }

  lemma StretchStep(c: Config, tr: seq<State>, es: seq<Event>, i: nat)
    requires 0 < c.ttl && DistinctIds(c) && IsRun(c, tr, es) && i < |es| && Inv(c, tr[i])
    requires Stretched(c, tr, i) && !AcquiresAt(c, tr, es, i)
    ensures Stretched(c, tr, i + 1)
    ensures Renews(c, tr[i], es[i]) ==> es[i] == ExecuteOrphan(Orphan(tr[0].key.value.holder, Refresh)) && Pending(tr[0]) > 0
  {
    assert StepOk(c, tr, es, i);
    DemotedStays(c, tr[i], es[i], tr[i + 1]);
    RunKeyStep(c, tr, es, i);
    ExtraTime(Pending(tr[0]) - Pending(tr[i]), Pending(tr[0]) - Pending(tr[i + 1]), c.ttl);
    if Renews(c, tr[i], es[i]) {
      assert tr[i].now < tr[i].key.value.expiry;
    }
  }

  /** Using up one refresh more allows for ttl more. */
  lemma ExtraTime(used: nat, used': nat, ttl: int)
    requires 0 < ttl && used <= used'
    ensures used * ttl <= used' * ttl
    ensures used < used' ==> used * ttl + ttl <= used' * ttl
  {
    if used < used' {
      assert (used + 1) * ttl <= used' * ttl;
    }
  }

  /**
   * A leader that crashed or gave up leaves its key to expire: every SET NX fails until then, its own included, only
   * the refreshes it left behind can put the expiry off, once each, and somebody acquires the key within T of the
   * expiry, that is, within ttl + T of the last effective command.
   */
  lemma BoundedLeaderlessWindow(c: Config, tr: seq<State>, es: seq<Event>, T: nat) returns (i: nat, last: nat)
    requires 0 < c.ttl && DistinctIds(c) && IsRun(c, tr, es) && Inv(c, tr[0]) && TimelyRun(c, tr)
    requires Demoted(tr[0]) && tr[0].now <= tr[0].key.value.expiry
    requires TicksEvery(tr, es, T) && tr[0].key.value.expiry + Pending(tr[0]) * c.ttl + T <= tr[|es|].now
    ensures i < |es| && AcquiresAt(c, tr, es, i) && NoneAcquires(c, tr, es, i)
    ensures SameLease(tr[0].key, tr[i].key)
    ensures tr[i].key.value.expiry <= tr[i].now <= tr[i].key.value.expiry + T
    ensures tr[i].key.value.expiry <= tr[0].key.value.expiry + Pending(tr[0]) * c.ttl
    ensures tr[i].key == tr[0].key
      || (LastRenewal(c, tr, es, last, i) && es[last] == ExecuteOrphan(Orphan(tr[0].key.value.holder, Refresh)) && Pending(tr[0]) > 0)
    ensures tr[0].orphans == multiset{} && (forall j :: 0 <= j < i ==> !es[j].Fail? && !es[j].Crash?) ==> es[i].Execute?
  {
    i := FirstAcquisition(c, tr, es);
    last := LeaderlessAtMostT(c, tr, es, T, i);
    if i == |es| {
      EndIsLate(c, tr, es, T);
    }
    if tr[0].orphans == multiset{} && (forall j :: 0 <= j < i ==> !es[j].Fail? && !es[j].Crash?) {
      NoOrphans(c, tr, es, i);
      assert StepOk(c, tr, es, i);
    }
  }

  /** A run that reaches T past the expiry of its key has somebody acquire it. */
  lemma EndIsLate(c: Config, tr: seq<State>, es: seq<Event>, T: nat)
    requires 0 < c.ttl && IsRun(c, tr, es) && Inv(c, tr[0]) && TimelyRun(c, tr)
    requires tr[0].key.Some? && tr[0].now <= tr[0].key.value.expiry && TicksEvery(tr, es, T)
    requires tr[|es|].key.Some? && tr[|es|].key.value.expiry + T <= tr[|es|].now
    ensures !NoneAcquires(c, tr, es, |es|)
  {
    if NoneAcquires(c, tr, es, |es|) {
      var j := LeaderlessAtMostT(c, tr, es, T, |es|);
      var from := tr[|es|].key.value.expiry;
      assert TickWithin(tr, es, from, T);
      var m :| 0 <= m < |es| && es[m].Execute? && from <= tr[m].now <= from + T;
      j := KeyBetween(c, tr, es, 0, m);
      LateCommandAcquires(c, tr, es, |es|, m);
    }
  }

  /** The first acquisition, or the end of the run; up to it only refreshes left behind have renewed the key. */
  lemma FirstAcquisition(c: Config, tr: seq<State>, es: seq<Event>) returns (i: nat)
    requires 0 < c.ttl && DistinctIds(c) && IsRun(c, tr, es) && Inv(c, tr[0]) && TimelyRun(c, tr) && Demoted(tr[0])
    ensures i <= |es| && NoneAcquires(c, tr, es, i) && Stretched(c, tr, i)
    ensures i < |es| ==> AcquiresAt(c, tr, es, i)
    ensures forall j :: 0 <= j < i && Renews(c, tr[j], es[j]) ==>
      es[j] == ExecuteOrphan(Orphan(tr[0].key.value.holder, Refresh)) && Pending(tr[0]) > 0
  {
    i := 0;
    while i < |es| && !AcquiresAt(c, tr, es, i)
      invariant i <= |es| && NoneAcquires(c, tr, es, i) && Stretched(c, tr, i)
      invariant forall j :: 0 <= j < i && Renews(c, tr[j], es[j]) ==>
        es[j] == ExecuteOrphan(Orphan(tr[0].key.value.holder, Refresh)) && Pending(tr[0]) > 0
    {
      RunKeepsInv(c, tr, es, i);
      StretchStep(c, tr, es, i);
      i := i + 1;
    }
    assert (Pending(tr[0]) - Pending(tr[i])) * c.ttl <= Pending(tr[0]) * c.ttl;
  }

  lemma {:induction false} NoOrphans(c: Config, tr: seq<State>, es: seq<Event>, i: nat)
    requires IsRun(c, tr, es) && i < |tr| && tr[0].orphans == multiset{}
    requires forall j :: 0 <= j < i ==> !es[j].Fail? && !es[j].Crash?
    ensures tr[i].orphans == multiset{}
  {
    if i > 0 {
      NoOrphans(c, tr, es, i - 1);
      assert StepOk(c, tr, es, i - 1);
    }
  }

  // Why the timing assumption is there

  function Exec(c: Config, s: State, es: seq<Event>): Option<State>
    decreases |es|
  {
    if es == [] then Some(s)
    else match Next(c, s, es[0])
      case None => None
      case Some(s') => Exec(c, s', es[1..])
  }

  function AnsweredTick(p: ProcId): seq<Event> {
    [Send(p), Execute(p), Store(p)]
  }

  /** The flag an answered tick of an idle process leaves: up iff it still owns, or was able to take, the key. */
  predicate Won(c: Config, s: State, p: ProcId)
    requires p in c.ids && p in s.procs
  {
    if s.procs[p].isLeader then Live(s) && s.key.value.owner == c.ids[p] else !Live(s)
  }

  /** A tick that is answered changes one process and, if it is won, the key: renewed by a leader, created by a follower. */
  lemma AnsweredTickOutcome(c: Config, s: State, p: ProcId)
    requires p in c.ids && p in s.procs && s.procs[p].pc == Idle
    ensures var q, won := s.procs[p], Won(c, s, p);
      Exec(c, s, AnsweredTick(p)) == Some(s.(
        key := if !won then s.key
               else if q.isLeader then Some(s.key.value.(expiry := s.now + c.ttl))
               else Some(Key(c.ids[p], s.now + c.ttl, p)),
        procs := s.procs[p := Proc(won, Idle, if won then s.now else q.grant)]))
  {
    var q, won, es := s.procs[p], Won(c, s, p), AnsweredTick(p);
    var cmd := if q.isLeader then Refresh else SetNx;
    var s1 := WithProc(s, p, q.(pc := Sent(cmd)));
    var s2 := WithProc(s1.(key := Redis(c, s, p, cmd).0), p, q.(pc := Answered(cmd, won, s.now)));
    var s3 := WithProc(s2, p, Proc(won, Idle, if won then s.now else q.grant));
    assert es[1..] == [Execute(p), Store(p)] && es[1..][1..] == [Store(p)] && es[1..][1..][1..] == [];
    assert Next(c, s, es[0]) == Some(s1);
    assert Next(c, s1, Execute(p)) == Some(s2);
    assert Next(c, s2, Store(p)) == Some(s3);
    assert Exec(c, s2, [Store(p)]) == Some(s3);
    assert s3.procs == s.procs[p := Proc(won, Idle, if won then s.now else q.grant)];
  }

  /** A leader that owns the unexpired key leads on after an answered tick, with a lease that starts now. */
  lemma RefreshKeepsLeading(c: Config, s: State, p: ProcId)
    requires p in c.ids && p in s.procs && s.procs[p].pc == Idle && s.procs[p].isLeader
    ensures Exec(c, s, AnsweredTick(p)).Some?
    ensures var s' := Exec(c, s, AnsweredTick(p)).value;
      p in s'.procs &&
      if Live(s) && s.key.value.owner == c.ids[p]
      then s'.procs[p] == Proc(true, Idle, s.now) && s'.key == Some(s.key.value.(expiry := s.now + c.ttl))
      else !s'.procs[p].isLeader && s'.key == s.key
  {
    AnsweredTickOutcome(c, s, p);
  }

  /** From any state without a live key, an idle follower is leader three steps later. */
  lemma FollowerBecomesLeader(c: Config, s: State, p: ProcId)
    requires p in c.ids && p in s.procs && !Live(s)
    requires !s.procs[p].isLeader && s.procs[p].pc == Idle
    ensures Exec(c, s, AnsweredTick(p)) ==
      Some(s.(key := Some(Key(c.ids[p], s.now + c.ttl, p)), procs := s.procs[p := Proc(true, Idle, s.now)]))
  {
    AnsweredTickOutcome(c, s, p);
  }

  /** Redis does for a command left behind what it would have done had its sender still been waiting. */
  lemma LeftoverTakesEffect(c: Config, s: State, p: ProcId, cmd: Command)
    requires p in c.ids && p in s.procs && Orphan(p, cmd) in s.orphans
    ensures var waiting := WithProc(s, p, s.procs[p].(pc := Sent(cmd)));
      var left, lived := Next(c, s, ExecuteOrphan(Orphan(p, cmd))), Next(c, waiting, Execute(p));
      && left.Some? && lived.Some?
      && left.value == s.(key := lived.value.key, orphans := s.orphans - multiset{Orphan(p, cmd)})
  {}

  lemma {:induction false} ExecAppend(c: Config, s: State, es: seq<Event>, fs: seq<Event>)
    requires Exec(c, s, es).Some?
    ensures Exec(c, s, es + fs) == Exec(c, Exec(c, s, es).value, fs)
    decreases |es|
  {
    if es == [] {
      assert es + fs == fs;
    } else {
      assert (es + fs)[1..] == es[1..] + fs;
      ExecAppend(c, Next(c, s, es[0]).value, es[1..], fs);
    }
  }

  /**
   * A leader that stores nothing for exactly ttl (a stopped process) keeps its flag while another one raises its
   * own: the timing assumption cannot be relaxed by a millisecond.
   */
  lemma PauseBreaksExclusion(c: Config, s: State, p: ProcId, q: ProcId) returns (es: seq<Event>)
    requires 0 < c.ttl && Init(c, s) && p in c.ids && q in c.ids && p != q
    ensures Exec(c, s, es).Some?
    ensures var s' := Exec(c, s, es).value;
      && s'.procs.Keys == s.procs.Keys && s'.procs[p].isLeader && s'.procs[q].isLeader
      && s'.now == s'.procs[p].grant + c.ttl && s'.now == s'.procs[q].grant
  {
    FollowerBecomesLeader(c, s, p);
    var s1 := Exec(c, s, AnsweredTick(p)).value;
    var wait := [Advance(c.ttl)];
    var s2 := s1.(now := s1.now + c.ttl);
    assert wait[1..] == [];
    assert Exec(c, s1, wait) == Some(s2);
    FollowerBecomesLeader(c, s2, q);
    ExecAppend(c, s, AnsweredTick(p), wait);
    ExecAppend(c, s, AnsweredTick(p) + wait, AnsweredTick(q));
    es := AnsweredTick(p) + wait + AnsweredTick(q);
  }

  lemma ExecOne(c: Config, s: State, e: Event)
    ensures Exec(c, s, [e]) == Next(c, s, e)
  {
    assert [e][1..] == [];
  }

  /** Nobody leads and nobody waits for Redis. */
  ghost predicate Quiet(c: Config, s: State) {
    && s.procs.Keys == c.ids.Keys && s.orphans == multiset{}
    && forall x :: x in s.procs ==> !s.procs[x].isLeader && s.procs[x].pc == Idle
  }

  /** A leader comes up, crashes, and a millisecond is left of its lease. */
  function CrashAndWait(c: Config, p: ProcId): seq<Event>
    requires 0 < c.ttl
  {
    AnsweredTick(p) + [Crash(p)] + [Advance(c.ttl - 1)]
  }

  lemma LastMillisecond(c: Config, s: State, p: ProcId) returns (s': State)
    requires 0 < c.ttl && Init(c, s) && p in c.ids
    ensures Exec(c, s, CrashAndWait(c, p)) == Some(s')
    ensures Quiet(c, s') && s'.now == s.now + c.ttl - 1 && s'.key == Some(Key(c.ids[p], s.now + c.ttl, p))
  {
    FollowerBecomesLeader(c, s, p);
    var s1 := Exec(c, s, AnsweredTick(p)).value;
    ExecAppend(c, s, AnsweredTick(p), [Crash(p)]);
    ExecOne(c, s1, Crash(p));
    var s2 := GiveUp(s1, p);
    ExecAppend(c, s, AnsweredTick(p) + [Crash(p)], [Advance(c.ttl - 1)]);
    ExecOne(c, s2, Advance(c.ttl - 1));
    s' := s2.(now := s2.now + (c.ttl - 1));
  }

  function KnockEarlyAndLate(q: ProcId, T: nat): seq<Event> {
    [Send(q), Execute(q), Store(q), Advance(T + 1), Send(q), Execute(q)]
  }

  /** A standby that knocks a millisecond early and then T + 1 later. */
  lemma KnockRun(c: Config, s: State, q: ProcId, T: nat) returns (tr: seq<State>)
    requires 0 < c.ttl && Quiet(c, s) && q in c.ids && s.key.Some? && s.key.value.expiry == s.now + 1
    ensures IsRun(c, tr, KnockEarlyAndLate(q, T)) && tr[0] == s && TimelyRun(c, tr)
    ensures forall i :: 0 <= i <= 3 ==> tr[i].now == s.now
    ensures forall i :: 4 <= i <= 6 ==> tr[i].now == s.now + 1 + T
    ensures forall i :: 0 <= i <= 5 ==> tr[i].key == s.key
    ensures q in tr[5].procs && tr[5].procs[q].pc == Sent(SetNx)
  {
    var es := KnockEarlyAndLate(q, T);
    var f := s.procs[q];
    var s1 := WithProc(s, q, f.(pc := Sent(SetNx)));
    var s2 := WithProc(s1, q, f.(pc := Answered(SetNx, false, s.now)));
    var s4 := s.(now := s.now + (T + 1));
    var s5 := WithProc(s4, q, f.(pc := Sent(SetNx)));
    var s6 := WithProc(s5.(key := Some(Key(c.ids[q], s4.now + c.ttl, q))), q, f.(pc := Answered(SetNx, true, s4.now)));
    tr := [s, s1, s2, s, s4, s5, s6];
    assert s2.procs[q := f] == s.procs;
    assert StepOk(c, tr, es, 0) && StepOk(c, tr, es, 1) && StepOk(c, tr, es, 2);
    assert StepOk(c, tr, es, 3) && StepOk(c, tr, es, 4) && StepOk(c, tr, es, 5);
  }

  lemma KnocksTickEvery(tr: seq<State>, q: ProcId, T: nat, now: int)
    requires |tr| == 7
    requires forall i :: 0 <= i <= 3 ==> tr[i].now == now
    requires forall i :: 4 <= i <= 6 ==> tr[i].now == now + 1 + T
    ensures TicksEvery(tr, KnockEarlyAndLate(q, T), T)
  {
    var es := KnockEarlyAndLate(q, T);
    forall a | tr[0].now <= a && a + T <= tr[|es|].now ensures TickWithin(tr, es, a, T) {
      assert es[1].Execute? && es[5].Execute?;
      assert tr[1].now == now && tr[5].now == now + 1 + T;
      assert a == now || a == now + 1;
    }
  }

  /**
   * The bound is attained: a leader crashes, a standby's tick comes just before the expiry of its key, the next one T
   * after the expiry, and only then is the key acquired, ttl + T after the last effective command. The run meets
   * every hypothesis of the bound.
   */
  lemma WindowCanExceedTtl(c: Config, s: State, p: ProcId, q: ProcId, T: nat) returns (tr: seq<State>, es: seq<Event>)
    requires 0 < c.ttl && Init(c, s) && p in c.ids && q in c.ids
    ensures IsRun(c, tr, es) && Exec(c, s, CrashAndWait(c, p)) == Some(tr[0])
    ensures Inv(c, tr[0]) && TimelyRun(c, tr) && Demoted(tr[0]) && Pending(tr[0]) == 0 && TicksEvery(tr, es, T)
    ensures tr[0].key == Some(Key(c.ids[p], s.now + c.ttl, p)) && tr[0].now <= tr[0].key.value.expiry
    ensures es != [] && tr[0].key.value.expiry + T <= tr[|es|].now
    ensures AcquiresAt(c, tr, es, |es| - 1) && NoneAcquires(c, tr, es, |es| - 1)
    ensures tr[|es| - 1].now == s.now + c.ttl + T
  {
    var start := LastMillisecond(c, s, p);
    tr := KnockRun(c, start, q, T);
    es := KnockEarlyAndLate(q, T);
    KnocksTickEvery(tr, q, T, start.now);
    assert es[5] == Execute(q) && !Live(tr[5]) && Acquires(c, tr[5], es[5]);
    forall j | 0 <= j < 5 ensures !AcquiresAt(c, tr, es, j) {
      assert es[j].Execute? ==> j == 1;
    }
  }
}
