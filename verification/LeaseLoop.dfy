/** The supervisor loop as it is written: one tick against the Redis server, and the flag it leaves behind. */
module LeaseLoop {
  import opened Base
  import opened Lease

  /** What becomes of a command: answered, lost on its way to Redis, or executed with the answer lost. */
  datatype Fate = Replied | LostBefore | LostAfter

  class Server {
    var now: int
    var key: Option<Key>

    constructor (now: int)
      ensures this.now == now && key == None
    {
      this.now, key := now, None;
    }

    predicate Held()
      reads this
    {
      key.Some? && now < key.value.expiry
    }

    /** SET key id NX PX ttl. */
    method SetNx(p: ProcId, id: string, ttl: int) returns (ok: bool)
      modifies this`key
      ensures ok == !old(Held())
      ensures key == if ok then Some(Key(id, now + ttl, p)) else old(key)
    {
      ok := !Held();
      if ok {
        key := Some(Key(id, now + ttl, p));
      }
    }

    /** The script: compare the owner, then PEXPIRE; 1 when the lease was extended. */
    method RefreshIfOwned(id: string, ttl: int) returns (r: int)
      modifies this`key
      ensures r == if old(Held()) && old(key).value.owner == id then 1 else 0
      ensures key == if r == 1 then Some(old(key).value.(expiry := now + ttl)) else old(key)
    {
      r := 0;
      if Held() && key.value.owner == id {
        key, r := Some(key.value.(expiry := now + ttl)), 1;
      }
    }
  }

  /** The steps of the machine that one iteration takes. */
  function Steps(p: ProcId, fate: Fate): seq<Event> {
    match fate
    case Replied => [Send(p), Execute(p), Store(p)]
    case LostBefore => [Send(p), Fail(p)]
    case LostAfter => [Send(p), Execute(p), Fail(p)]
  }

  lemma ExecSteps(c: Config, s: State, p: ProcId, fate: Fate)
    ensures Exec(c, s, Steps(p, fate)) ==
      match Next(c, s, Send(p))
      case None => None
      case Some(s1) =>
        if fate == LostBefore then Next(c, s1, Fail(p))
        else match Next(c, s1, Execute(p))
          case None => None
          case Some(s2) => Next(c, s2, if fate == Replied then Store(p) else Fail(p))
  {
    var es := Steps(p, fate);
    var last := es[|es| - 1];
    assert es[1..][1..] == if fate == LostBefore then [] else [last];
    assert [last][1..] == [];
    assert forall t :: Exec(c, t, []) == Some(t);
    assert forall t :: Exec(c, t, [last]) == Next(c, t, last) by {
      forall t ensures Exec(c, t, [last]) == Next(c, t, last) {}
    }
  }

  class Supervisor {
    const p: ProcId
    const id: string
    const ttl: int
    var isLeader: bool
    ghost var grant: int

    constructor (p: ProcId, id: string, ttl: int)
      ensures this.p == p && this.id == id && this.ttl == ttl && !isLeader
    {
      this.p, this.id, this.ttl, isLeader := p, id, ttl, false;
    }

    /** The server and this supervisor are as state s of the machine has them. */
    ghost predicate Shows(server: Server, c: Config, s: State)
      reads this, server
    {
      && server.now == s.now && server.key == s.key
      && p in c.ids && c.ids[p] == id && c.ttl == ttl
      && p in s.procs && s.procs[p] == Proc(isLeader, Idle, grant)
    }

    /** Refresh when leading, try to acquire otherwise. */
    method Tick(server: Server, currentlyLeader: bool, fate: Fate) returns (r: Result<bool, ()>)
      modifies server`key
      ensures fate == LostBefore ==> server.key == old(server.key)
      ensures fate != LostBefore && !currentlyLeader ==>
        server.key == if old(server.Held()) then old(server.key) else Some(Key(id, server.now + ttl, p))
      ensures fate != LostBefore && currentlyLeader ==>
        server.key == if old(server.Held()) && old(server.key).value.owner == id
                      then Some(old(server.key).value.(expiry := server.now + ttl)) else old(server.key)
      ensures r == if fate != Replied then Err(())
                   else if currentlyLeader then Ok(old(server.Held()) && old(server.key).value.owner == id)
                   else Ok(!old(server.Held()))
    {
      if fate == LostBefore {
        return Err(());
      }
      var ok;
      if currentlyLeader {
        var refreshed := server.RefreshIfOwned(id, ttl);
        ok := refreshed == 1;
      } else {
        ok := server.SetNx(p, id, ttl);
      }
      r := if fate == Replied then Ok(ok) else Err(());
    }

    /** One round of the loop takes exactly the machine's steps for what became of the command. */
    method Iterate(server: Server, fate: Fate, ghost c: Config, ghost s: State) returns (ghost s': State)
      requires Shows(server, c, s)
      modifies this, server`key
      ensures Exec(c, s, Steps(p, fate)) == Some(s') && Shows(server, c, s')
      ensures fate != Replied ==> !isLeader && grant == old(grant)
      ensures fate == Replied ==>
        isLeader == if old(isLeader) then old(server.Held()) && old(server.key).value.owner == id else !old(server.Held())
      ensures fate == Replied && isLeader ==>
        && grant == server.now && server.key.Some? && server.key.value.owner == id
        && server.key.value.expiry == server.now + ttl
      ensures fate == Replied && !isLeader ==> grant == old(grant) && server.key == old(server.key)
    {
      ExecSteps(c, s, p, fate);
      s' := Exec(c, s, Steps(p, fate)).value;
      var held := isLeader;
      var outcome := Tick(server, held, fate);
      match outcome
      case Ok(newState) =>
        grant := if newState then server.now else grant;
        if newState != held {
          isLeader := newState;
        }
      case Err(_) =>
        if held {
          isLeader := false;
        }
    }
  }
}
