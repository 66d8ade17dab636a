/** The cache's methods as one goroutine executes them while nobody interferes, and the proof
    that the interleaved machine, left to that goroutine, does the same. */
module ConnManager {
  import opened Wrappers
  import opened ConnCache

  /** The connections a caller may observe: what the cache maps to and how each connection fares. */
  datatype Cached = Cached(conns: map<ConnId, Conn>, cache: map<TenantId, ConnId>, next: ConnId)

  predicate Live(v: Cached, t: TenantId) {
    t in v.cache && v.cache[t] in v.conns && v.conns[v.cache[t]].status == Connected
  }

  /** What a GetConn that runs alone leaves: a live entry is used, otherwise a successful
      connect replaces the entry and a failed one changes nothing. */
  function Fetched(v: Cached, t: TenantId, ok: bool): Cached {
    if Live(v, t) || !ok then v
    else Cached(v.conns[v.next := Conn(t, Connected, 0)], v.cache[t := v.next], v.next + 1)
  }

  function Fetch(v: Cached, t: TenantId, ok: bool): Option<ConnId> {
    if Live(v, t) then Some(v.cache[t]) else if ok then Some(v.next) else None
  }

  function Hung(k: Conn): Conn {
    if k.status == Closed then k else Conn(k.tenant, Closed, if k.status == Connected then k.drops + 1 else k.drops)
  }

  /** A closed-handler of tenant `t` has executed. */
  function Handled(v: Cached, t: TenantId): Cached {
    v.(cache := v.cache - {t})
  }

  /** A Close has executed: the cache is empty, what it mapped to is closed, the rest is as it was. */
  ghost predicate ClosedFrom(v: Cached, v': Cached) {
    && v'.cache == map[] && v'.next == v.next && v'.conns.Keys == v.conns.Keys
    && forall c | c in v'.conns :: v'.conns[c] == if c in v.cache.Values then Hung(v.conns[c]) else v.conns[c]
  }

  class Manager {
    var conns: map<ConnId, Conn>
    var cache: map<TenantId, ConnId>
    var next: ConnId

    constructor ()
      ensures View() == Cached(map[], map[], 0)
    {
      conns, cache, next := map[], map[], 0;
    }

    function View(): Cached
      reads this
    {
      Cached(conns, cache, next)
    }

    method IsConnected(c: ConnId) returns (yes: bool)
      ensures yes == (c in conns && conns[c].status == Connected)
    {
      yes := c in conns && conns[c].status == Connected;
    }

    /** Whatever the other goroutines leave behind before the write lock is won. */
    method Interfere(v: Cached)
      modifies this
      ensures View() == v
    {
      conns, cache, next := v.conns, v.cache, v.next;
    }

    /** `dials` is the outcome of the connect, should one be made; `meanwhile` is what the other
        goroutines make of the cache between the two looks at it. */
    method GetConn(t: TenantId, dials: bool, meanwhile: Cached) returns (result: Option<ConnId>)
      modifies this
      ensures View() == if Live(old(View()), t) then old(View()) else Fetched(meanwhile, t, dials)
      ensures result == if Live(old(View()), t) then Some(old(cache)[t]) else Fetch(meanwhile, t, dials)
    {
      var connected := false;
      if t in cache {
        connected := IsConnected(cache[t]);
      }
      if connected {
        return Some(cache[t]);
      }
      Interfere(meanwhile);
      if t in cache {
        connected := IsConnected(cache[t]);
      }
      if connected {
        return Some(cache[t]);
      }
      if !dials {
        return None;
      }
      var nc := next;
      conns, next := conns[nc := Conn(t, Connected, 0)], next + 1;
      cache := cache[t := nc];
      return Some(nc);
    }

    /** The closed-handler deletes by tenant, whichever of the tenant's connections closed. */
    method OnClosed(t: TenantId)
      modifies this
      ensures View() == Handled(old(View()), t)
    {
      cache := cache - {t};
    }

    method CloseConn(c: ConnId)
      requires c in conns
      modifies this`conns
      ensures conns == old(conns)[c := Hung(old(conns[c]))]
    {
      conns := conns[c := Hung(conns[c])];
    }

    /** Every cached connection ends up closed, every other one stays as it was, and the cache is empty. */
    method Close()
      requires forall t | t in cache :: cache[t] in conns
      modifies this
      ensures ClosedFrom(old(View()), View())
    {
      ghost var gone: set<ConnId> := {};
      while cache != map[]
        invariant forall t | t in cache :: t in old(cache) && cache[t] == old(cache)[t]
        invariant conns.Keys == old(conns).Keys && next == old(next)
        invariant forall t | t in old(cache) :: t in cache || old(cache)[t] in gone
        invariant gone <= old(cache).Values
        invariant forall c | c in conns :: conns[c] == if c in gone then Hung(old(conns)[c]) else old(conns)[c]
        decreases |cache|
      {
        var id :| id in cache;
        CloseConn(cache[id]);
        gone := gone + {cache[id]};
        assert |cache - {id}| < |cache| by { assert (cache - {id})[id := cache[id]] == cache; }
        cache := cache - {id};
      }
      assert gone == old(cache).Values;
    }
  }

  // ---------- the machine, left to one goroutine ----------

  function ViewOf(s: State): Cached {
    Cached(s.conns, s.cache, s.nextConn)
  }

  /** `n` statements of goroutine `g` in a row. */
  function Alone(s: State, g: Gid, ok: bool, n: nat): State {
    if n == 0 then s else Step(Alone(s, g, ok, n - 1), Run(g, ok, 0))
  }

  lemma AloneOnce(s: State, g: Gid, ok: bool, n: nat)
    requires CanMove(s, g) && InGetConn(s.threads[g])
    ensures Alone(s, g, ok, n + 1) == Alone(MoveGetConn(s, g, ok), g, ok, n)
  {
    hide MoveGetConn;
    if n > 0 {
      AloneOnce(s, g, ok, n - 1);
    }
  }

  lemma LocksForReading(s: State, g: Gid, t: TenantId, ok: bool, n: nat)
    requires g in s.threads && s.threads[g] == WantRead(t) && s.writer.None?
    ensures Alone(s, g, ok, n + 1) == Alone(At(s, g, Reading(t)).(readers := s.readers + {g}), g, ok, n)
  {
    AloneOnce(s, g, ok, n);
    hide Alone;
  }

  lemma Reads(s: State, g: Gid, t: TenantId, ok: bool, n: nat)
    requires g in s.threads && s.threads[g] == Reading(t)
    ensures Alone(s, g, ok, n + 1) == Alone(At(s, g, ReadUnlock(t, Lookup(s, t))), g, ok, n)
  {
    AloneOnce(s, g, ok, n);
    hide Alone;
  }

  lemma UnlocksReading(s: State, g: Gid, t: TenantId, ok: bool, n: nat)
    requires g in s.threads && s.threads[g] == ReadUnlock(t, Lookup(s, t))
    ensures Alone(s, g, ok, n + 1) == Alone(At(s, g, CheckFast(t, Lookup(s, t))).(readers := s.readers - {g}), g, ok, n)
  {
    AloneOnce(s, g, ok, n);
    hide Alone;
  }

  lemma Checks(s: State, g: Gid, t: TenantId, ok: bool)
    requires g in s.threads && s.threads[g] == CheckFast(t, Lookup(s, t))
    ensures Alone(s, g, ok, 1) == At(s, g, if Live(ViewOf(s), t) then Returned(t, Some(s.cache[t])) else WantWrite(t))
  {
    AloneOnce(s, g, ok, 0);
  }

  /** Under the read lock: what the goroutine sees, and the lock given back. */
  lemma ReadsCache(s: State, g: Gid, t: TenantId, ok: bool)
    requires g in s.threads && s.threads[g] == WantRead(t) && s.writer.None? && g !in s.readers
    ensures Alone(s, g, ok, 4) == Alone(At(s, g, CheckFast(t, Lookup(s, t))), g, ok, 1)
  {
    hide Alone;
    var s1 := At(s, g, Reading(t)).(readers := s.readers + {g});
    var s2 := At(s1, g, ReadUnlock(t, Lookup(s, t)));
    assert s1.readers - {g} == s.readers;
    LocksForReading(s, g, t, ok, 3);
    Reads(s1, g, t, ok, 2);
    UnlocksReading(s2, g, t, ok, 1);
    hide Lookup;
    assert s2.threads[g := CheckFast(t, Lookup(s, t))] == At(s, g, CheckFast(t, Lookup(s, t))).threads;
  }

  /** With nobody asking for the write lock in between, the first four statements return the
      cached connection exactly when it is connected, and leave everything else as it was. */
  lemma FastPath(s: State, g: Gid, t: TenantId, ok: bool)
    requires g in s.threads && s.threads[g] == WantRead(t) && s.writer.None? && g !in s.readers
    ensures var p := if Live(ViewOf(s), t) then Returned(t, Some(s.cache[t])) else WantWrite(t);
            Alone(s, g, ok, 4) == At(s, g, p)
  {
    hide Alone;
    var p := if Live(ViewOf(s), t) then Returned(t, Some(s.cache[t])) else WantWrite(t);
    var s3 := At(s, g, CheckFast(t, Lookup(s, t)));
    ReadsCache(s, g, t, ok);
    Checks(s3, g, t, ok);
    assert s3.threads[g := p] == s.threads[g := p];
  }

  function SlowLength(v: Cached, t: TenantId, ok: bool): nat {
    if Live(v, t) then 4 else if ok then 6 else 5
  }

  /** What the statements under the write lock leave of the state. */
  function Served(s: State, g: Gid, t: TenantId, ok: bool): State {
    var v := Fetched(ViewOf(s), t, ok);
    s.(conns := v.conns, cache := v.cache, nextConn := v.next,
       threads := s.threads[g := Returned(t, Fetch(ViewOf(s), t, ok))])
  }

  lemma WinsLock(s: State, g: Gid, t: TenantId, ok: bool, n: nat)
    requires g in s.threads && s.threads[g] == WantWrite(t) && s.writer.None? && s.readers == {}
    ensures Alone(s, g, ok, n + 1) == Alone(At(s, g, Rereading(t)).(writer := Some(g)), g, ok, n)
  {
    AloneOnce(s, g, ok, n);
    hide Alone;
  }

  lemma Rereads(s: State, g: Gid, t: TenantId, ok: bool, n: nat)
    requires g in s.threads && s.threads[g] == Rereading(t)
    ensures Alone(s, g, ok, n + 1) == Alone(At(s, g, CheckSlow(t, Lookup(s, t))), g, ok, n)
  {
    AloneOnce(s, g, ok, n);
    hide Alone;
  }

  lemma Rechecks(s: State, g: Gid, t: TenantId, ok: bool, n: nat)
    requires g in s.threads && s.threads[g] == CheckSlow(t, Lookup(s, t))
    ensures Alone(s, g, ok, n + 1)
      == Alone(At(s, g, if Live(ViewOf(s), t) then WriteUnlock(t, Some(s.cache[t])) else Connecting(t)), g, ok, n)
  {
    AloneOnce(s, g, ok, n);
    hide Alone;
  }

  lemma SlowStart(s: State, g: Gid, t: TenantId, ok: bool, n: nat)
    requires g in s.threads && s.threads[g] == WantWrite(t) && s.writer.None? && s.readers == {}
    ensures var p := if Live(ViewOf(s), t) then WriteUnlock(t, Some(s.cache[t])) else Connecting(t);
            Alone(s, g, ok, n + 3) == Alone(At(s, g, p).(writer := Some(g)), g, ok, n)
  {
    hide Alone;
    var p := if Live(ViewOf(s), t) then WriteUnlock(t, Some(s.cache[t])) else Connecting(t);
    var s1 := At(s, g, Rereading(t)).(writer := Some(g));
    var s2 := At(s1, g, CheckSlow(t, Lookup(s, t)));
    WinsLock(s, g, t, ok, n + 2);
    Rereads(s1, g, t, ok, n + 1);
    Rechecks(s2, g, t, ok, n);
    assert At(s2, g, p).threads == s.threads[g := p];
  }

  /** The last `Alone` statements one by one: each lemma adds the statement in front. */
  lemma Unlocks(s: State, g: Gid, t: TenantId, result: Option<ConnId>, ok: bool)
    requires g in s.threads && s.threads[g] == WriteUnlock(t, result)
    ensures Alone(s, g, ok, 1) == At(s, g, Returned(t, result)).(writer := None)
  {
    AloneOnce(s, g, ok, 0);
  }

  lemma Connects(s: State, g: Gid, t: TenantId)
    requires g in s.threads && s.threads[g] == Connecting(t)
    ensures Alone(s, g, true, 3) == At(s, g, Returned(t, Some(s.nextConn))).(writer := None,
              conns := s.conns[s.nextConn := Conn(t, Connected, 0)], cache := s.cache[t := s.nextConn],
                nextConn := s.nextConn + 1)
  {
    var s1 := MoveGetConn(s, g, true);
    var s2 := MoveGetConn(s1, g, true);
    assert s2.threads == s.threads[g := WriteUnlock(t, Some(s.nextConn))];
    assert s2.threads[g := Returned(t, Some(s.nextConn))] == s.threads[g := Returned(t, Some(s.nextConn))];
    AloneOnce(s, g, true, 2);
    AloneOnce(s1, g, true, 1);
    hide Alone;
    Unlocks(s2, g, t, Some(s.nextConn), true);
  }

  lemma ConnectFails(s: State, g: Gid, t: TenantId)
    requires g in s.threads && s.threads[g] == Connecting(t)
    ensures Alone(s, g, false, 2) == At(s, g, Returned(t, None)).(writer := None)
  {
    var s1 := MoveGetConn(s, g, false);
    assert s1.threads[g := Returned(t, None)] == s.threads[g := Returned(t, None)];
    AloneOnce(s, g, false, 1);
    hide Alone;
    Unlocks(s1, g, t, None, false);
  }

  /** From the request for the write lock on, an undisturbed goroutine serves the call as `Fetched` says. */
  lemma SlowPath(s: State, g: Gid, t: TenantId, ok: bool)
    requires g in s.threads && s.threads[g] == WantWrite(t) && s.writer.None? && s.readers == {}
    ensures Alone(s, g, ok, SlowLength(ViewOf(s), t, ok)) == Served(s, g, t, ok)
  {
    var p := if Live(ViewOf(s), t) then WriteUnlock(t, Some(s.cache[t])) else Connecting(t);
    var s3 := At(s, g, p).(writer := Some(g));
    SlowStart(s, g, t, ok, SlowLength(ViewOf(s), t, ok) - 3);
    hide Alone;
    assert s3.threads[g := Returned(t, Fetch(ViewOf(s), t, ok))] == Served(s, g, t, ok).threads;
    if Live(ViewOf(s), t) {
      Unlocks(s3, g, t, Some(s.cache[t]), ok);
    } else if ok {
      Connects(s3, g, t);
    } else {
      ConnectFails(s3, g, t);
    }
  }

  // ---------- the closed-handler and Close ----------

  lemma HandlerLocks(s: State, g: Gid, t: TenantId, ok: bool)
    requires g in s.threads && s.threads[g] == WantDelete(t) && s.writer.None? && s.readers == {}
    ensures Step(s, Run(g, ok, 0)) == At(s, g, Deleting(t)).(writer := Some(g))
  {
    hide MoveGetConn, Bump;
  }

  lemma HandlerDeletes(s: State, g: Gid, t: TenantId, ok: bool)
    requires g in s.threads && s.threads[g] == Deleting(t)
    ensures Step(s, Run(g, ok, 0)) == At(Evict(s, t), g, DeleteUnlock)
  {
    hide MoveGetConn, Evict;
  }

  lemma HandlerUnlocks(s: State, g: Gid, ok: bool)
    requires g in s.threads && s.threads[g] == DeleteUnlock
    ensures Step(s, Run(g, ok, 0)) == At(s, g, Finished).(writer := None)
  {
    hide MoveGetConn, Bump;
  }

  /** Undisturbed, the three statements of a closed-handler do what `OnClosed` does. */
  lemma HandlerPath(s: State, g: Gid, t: TenantId, ok: bool)
    requires g in s.threads && s.threads[g] == WantDelete(t) && s.writer.None? && s.readers == {}
    ensures var s' := Alone(s, g, ok, 3);
      && ViewOf(s') == Handled(ViewOf(s), t) && s'.threads == s.threads[g := Finished]
      && s'.writer == None && s'.readers == {}
  {
    hide Step, Bump;
    var s1 := At(s, g, Deleting(t)).(writer := Some(g));
    var s2 := At(Evict(s1, t), g, DeleteUnlock);
    assert t !in s.cache ==> s.cache - {t} == s.cache;
    assert Evict(s1, t) == s1.(cache := s.cache - {t}, deleted := Evict(s1, t).deleted);
    HandlerLocks(s, g, t, ok);
    HandlerDeletes(s1, g, t, ok);
    HandlerUnlocks(s2, g, ok);
    assert Alone(s, g, ok, 1) == s1;
    assert Alone(s, g, ok, 2) == s2;
    hide Evict;
    assert s2.threads[g := Finished] == s.threads[g := Finished];
  }

  /** The loop of Close, taking the entries in the order of `picks`. */
  function Drops(s: State, g: Gid, picks: seq<TenantId>): State
    decreases |picks|
  {
    if picks == [] then s else Drops(DropTurn(s, g, picks[0]), g, picks[1..])
  }

  /** One turn of the loop: close the connection, delete the entry. */
  function DropTurn(s: State, g: Gid, pick: TenantId): State {
    Step(Step(s, Run(g, true, pick)), Run(g, true, pick))
  }

  /** Close is inside its loop. */
  ghost predicate InLoop(s: State, g: Gid) {
    && LockOk(s) && g in s.threads && s.threads[g] == Closing && s.writer == Some(g)
    && forall t | t in s.cache :: s.cache[t] in s.conns
  }

  lemma DropsOne(s: State, g: Gid, pick: TenantId)
    requires InLoop(s, g) && pick in s.cache
    ensures var s' := DropTurn(s, g, pick);
      && InLoop(s', g) && s'.cache == s.cache - {pick} && s'.nextConn == s.nextConn
      && s'.conns == s.conns[s.cache[pick] := Hung(s.conns[s.cache[pick]])]
  {
    var e := Run(g, true, pick);
    var k := CloseConn(s, s.cache[pick]);
    assert g != s.nextGid;
    StepKeepsLock(s, e);
    assert k.conns == s.conns[s.cache[pick] := Hung(s.conns[s.cache[pick]])] && k.cache == s.cache
        && k.nextConn == s.nextConn && k.writer == s.writer && k.readers == s.readers by { hide Bump, LockOk; }
    var s1 := At(k, g, Dropping(pick));
    hide CloseConn, Leave, Spawn, MoveGetConn, LockOk, LockFollows;
    assert Step(s, e) == s1;
    StepKeepsLock(s1, e);
    assert Step(s1, e) == At(Evict(s1, pick), g, Closing);
    hide Step;
    assert s1.cache == s.cache;
  }

  lemma {:induction false} DropsAll(s: State, g: Gid, picks: seq<TenantId>)
    requires InLoop(s, g) && (forall t :: t in picks <==> t in s.cache)
    requires forall i, j | 0 <= i < j < |picks| :: picks[i] != picks[j]
    ensures InLoop(Drops(s, g, picks), g) && ClosedFrom(ViewOf(s), ViewOf(Drops(s, g, picks)))
    decreases |picks|
  {
    assert forall t | t in s.cache :: s.cache[t] in s.conns;
    hide DropTurn, InLoop;
    if picks == [] {
      assert forall t :: t !in s.cache;
      assert s.cache == map[];
    } else {
      var t, rest := picks[0], picks[1..];
      assert t in picks;
      DropsOne(s, g, t);
      var s1 := DropTurn(s, g, t);
      forall u ensures u in rest <==> u in s1.cache {
        if u in s1.cache { assert u in picks; }
      }
      DropsAll(s1, g, rest);
      ClosesOneMore(ViewOf(s), ViewOf(s1), ViewOf(Drops(s1, g, rest)), t);
    }
  }

  lemma ClosesOneMore(v: Cached, v1: Cached, v2: Cached, t: TenantId)
    requires t in v.cache && v.cache[t] in v.conns && v1.cache == v.cache - {t} && v1.next == v.next
    requires v1.conns == v.conns[v.cache[t] := Hung(v.conns[v.cache[t]])] && ClosedFrom(v1, v2)
    ensures ClosedFrom(v, v2)
  {
    forall c | c in v2.conns
      ensures v2.conns[c] == if c in v.cache.Values then Hung(v.conns[c]) else v.conns[c]
    {
      assert c in v.cache.Values <==> c == v.cache[t] || c in v1.cache.Values by {
        if c in v.cache.Values && c != v.cache[t] {
          var u :| u in v.cache && v.cache[u] == c;
          assert v1.cache[u] == c;
        }
        if c in v1.cache.Values {
          var u :| u in v1.cache && v1.cache[u] == c;
          assert v.cache[u] == c;
        }
      }
    }
  }

  /** Undisturbed, whatever the order in which the map yields its entries, Close does what the
      method does; only the closed-handlers it starts are left to execute. */
  lemma ClosePath(s: State, g: Gid, picks: seq<TenantId>)
    requires LockOk(s) && ConnsOk(s) && g in s.threads && s.threads[g] == WantClose && s.writer.None? && s.readers == {}
    requires forall t :: t in picks <==> t in s.cache
    requires forall i, j | 0 <= i < j < |picks| :: picks[i] != picks[j]
    ensures var s' := Alone(Drops(Step(s, Run(g, true, 0)), g, picks), g, true, 2);
      ClosedFrom(ViewOf(s), ViewOf(s')) && g in s'.threads && s'.threads[g] == Finished && s'.writer == None
  {
    var s1 := At(s, g, Closing).(writer := Some(g));
    StepKeepsLock(s, Run(g, true, 0));
    assert Step(s, Run(g, true, 0)) == s1;
    assert InLoop(s1, g) by { hide PcOk; }
    hide LockOk, ConnsOk;
    DropsAll(s1, g, picks);
    var s2 := Drops(s1, g, picks);
    hide MoveGetConn, Drops;
    CloseEnds(s2, g);
  }

  lemma CloseEnds(s: State, g: Gid)
    requires g in s.threads && s.threads[g] == Closing && s.writer == Some(g) && s.cache == map[]
    ensures var s' := Alone(s, g, true, 2);
      ViewOf(s') == ViewOf(s) && g in s'.threads && s'.threads[g] == Finished && s'.writer == None
  {
    hide MoveGetConn;
    assert Alone(s, g, true, 1) == At(s, g, CloseUnlock);
  }
}
