/** The per-tenant connection cache: double-checked locking over a read-write lock, with
    an asynchronous closed-handler and a Close that empties the cache. Any number of
    goroutines run interleaved with connections that drop, recover and die. */
module ConnCache {
  import opened Wrappers

  type TenantId = nat
  type ConnId = nat
  type Gid = nat

  datatype Status = Connected | Reconnecting | Closed

  /** A connection made for `tenant`; `drops` counts the times it stopped being connected. */
  datatype Conn = Conn(tenant: TenantId, status: Status, drops: nat)

  /** Where a goroutine stands: the constructor names the statement it will execute next. */
  datatype Pc =
    // GetConn
    | WantRead(t: TenantId)
    | Reading(t: TenantId)
    | ReadUnlock(t: TenantId, seen: Option<ConnId>)
    | CheckFast(t: TenantId, seen: Option<ConnId>)
    | WantWrite(t: TenantId)
    | Rereading(t: TenantId)
    | CheckSlow(t: TenantId, seen: Option<ConnId>)
    | Connecting(t: TenantId)
    | Storing(t: TenantId, made: ConnId)
    | WriteUnlock(t: TenantId, result: Option<ConnId>)
    | Returned(t: TenantId, result: Option<ConnId>)
    // the closed-handler of one connection
    | WantDelete(t: TenantId)
    | Deleting(t: TenantId)
    | DeleteUnlock
    // Close
    | WantClose
    | Closing
    | Dropping(t: TenantId)
    | CloseUnlock
    | Finished

  datatype State = State(
    conns: map<ConnId, Conn>,
    cache: map<TenantId, ConnId>,
    readers: set<Gid>,
    writer: Option<Gid>,
    threads: map<Gid, Pc>,
    nextConn: ConnId,
    nextGid: Gid,
    dropped: map<TenantId, nat>,
    deleted: map<TenantId, nat>)

  const INITIAL := State(map[], map[], {}, None, map[], 0, 0, map[], map[])

  function Count(m: map<TenantId, nat>, t: TenantId): nat {
    if t in m then m[t] else 0
  }

  function Bump(m: map<TenantId, nat>, t: TenantId): map<TenantId, nat> {
    m[t := Count(m, t) + 1]
  }

  /** `Run` lets one goroutine execute a statement; `ok` is the outcome of a connect and
      `pick` the key a range over the cache yields. The rest is the environment. */
  datatype Event =
    | CallGetConn(t: TenantId)
    | CallClose
    | Run(g: Gid, ok: bool, pick: TenantId)
    | Disconnect(c: ConnId)
    | Reconnect(c: ConnId)
    | Die(c: ConnId)

  predicate HoldsRead(p: Pc) {
    p.Reading? || p.ReadUnlock?
  }

  predicate HoldsWrite(p: Pc) {
    p.Rereading? || p.CheckSlow? || p.Connecting? || p.Storing? || p.WriteUnlock?
    || p.Deleting? || p.DeleteUnlock? || p.Closing? || p.Dropping? || p.CloseUnlock?
  }

  predicate AsksWrite(p: Pc) {
    p.WantWrite? || p.WantDelete? || p.WantClose?
  }

  predicate Ended(p: Pc) {
    p.Returned? || p.Finished?
  }

  function Lookup(s: State, t: TenantId): Option<ConnId> {
    if t in s.cache then Some(s.cache[t]) else None
  }

  predicate IsConnected(s: State, seen: Option<ConnId>) {
    seen.Some? && seen.value in s.conns && s.conns[seen.value].status == Connected
  }

  /** A goroutine may move unless it waits for the lock. */
  predicate CanMove(s: State, g: Gid) {
    && g in s.threads && !Ended(s.threads[g])
    && (s.threads[g].WantRead? ==> s.writer.None?)
    && (AsksWrite(s.threads[g]) ==> s.writer.None? && s.readers == {})
  }

  /** The same under the strictest admission rule: a new reader also yields to waiting writers. */
  predicate CanMoveStrictly(s: State, g: Gid) {
    && CanMove(s, g)
    && (s.threads[g].WantRead? ==> forall h | h in s.threads :: !AsksWrite(s.threads[h]))
  }

  predicate Enabled(s: State, e: Event) {
    match e
    case CallGetConn(_) => true
    case CallClose => true
    case Run(g, _, pick) => CanMove(s, g) && (s.threads[g].Closing? && s.cache != map[] ==> pick in s.cache)
    case Disconnect(c) => c in s.conns && s.conns[c].status == Connected
    case Reconnect(c) => c in s.conns && s.conns[c].status == Reconnecting
    case Die(c) => c in s.conns && s.conns[c].status != Closed
  }

  function Spawn(s: State, p: Pc): State {
    s.(threads := s.threads[s.nextGid := p], nextGid := s.nextGid + 1)
  }

  function At(s: State, g: Gid, p: Pc): State {
    s.(threads := s.threads[g := p])
  }

  /** The connection leaves `Connected`, if it was there, for `status`. */
  function Leave(s: State, c: ConnId, status: Status): State
    requires c in s.conns
  {
    var k := s.conns[c];
    if k.status == Connected then
      s.(conns := s.conns[c := Conn(k.tenant, status, k.drops + 1)], dropped := Bump(s.dropped, k.tenant))
    else
      s.(conns := s.conns[c := Conn(k.tenant, status, k.drops)])
  }

  /** Closing a connection that is still open schedules its closed-handler. */
  function CloseConn(s: State, c: ConnId): State
    requires c in s.conns
  {
    if s.conns[c].status == Closed then s else Spawn(Leave(s, c, Closed), WantDelete(s.conns[c].tenant))
  }

  function Evict(s: State, t: TenantId): State {
    if t in s.cache then s.(cache := s.cache - {t}, deleted := Bump(s.deleted, t)) else s
  }

  predicate InGetConn(p: Pc) {
    p.WantRead? || p.Reading? || p.ReadUnlock? || p.CheckFast? || p.WantWrite? || p.Rereading? || p.CheckSlow?
    || p.Connecting? || p.Storing? || p.WriteUnlock?
  }

  function MoveGetConn(s: State, g: Gid, ok: bool): State
    requires g in s.threads && InGetConn(s.threads[g])
  {
    match s.threads[g]
    case WantRead(t) => At(s, g, Reading(t)).(readers := s.readers + {g})
    case Reading(t) => At(s, g, ReadUnlock(t, Lookup(s, t)))
    case ReadUnlock(t, seen) => At(s, g, CheckFast(t, seen)).(readers := s.readers - {g})
    case CheckFast(t, seen) => At(s, g, if IsConnected(s, seen) then Returned(t, seen) else WantWrite(t))
    case WantWrite(t) => At(s, g, Rereading(t)).(writer := Some(g))
    case Rereading(t) => At(s, g, CheckSlow(t, Lookup(s, t)))
    case CheckSlow(t, seen) => At(s, g, if IsConnected(s, seen) then WriteUnlock(t, seen) else Connecting(t))
    case Connecting(t) =>
      if !ok then At(s, g, WriteUnlock(t, None))
      else At(s, g, Storing(t, s.nextConn)).(conns := s.conns[s.nextConn := Conn(t, Connected, 0)],
        nextConn := s.nextConn + 1)
    case Storing(t, c) => At(s, g, WriteUnlock(t, Some(c))).(cache := s.cache[t := c])
    case WriteUnlock(t, result) => At(s, g, Returned(t, result)).(writer := None)
  }

  function MoveOther(s: State, g: Gid, pick: TenantId): State
    requires g in s.threads && !InGetConn(s.threads[g]) && !Ended(s.threads[g])
  {
    match s.threads[g]
    case WantDelete(t) => At(s, g, Deleting(t)).(writer := Some(g))
    case Deleting(t) => At(Evict(s, t), g, DeleteUnlock)
    case DeleteUnlock => At(s, g, Finished).(writer := None)
    case WantClose => At(s, g, Closing).(writer := Some(g))
    case Closing =>
      if pick in s.cache && s.cache[pick] in s.conns then At(CloseConn(s, s.cache[pick]), g, Dropping(pick))
      else At(s, g, CloseUnlock)
    case Dropping(t) => At(Evict(s, t), g, Closing)
    case CloseUnlock => At(s, g, Finished).(writer := None)
  }

  function Move(s: State, g: Gid, ok: bool, pick: TenantId): State
    requires CanMove(s, g)
  {
    if InGetConn(s.threads[g]) then MoveGetConn(s, g, ok) else MoveOther(s, g, pick)
  }

  function Step(s: State, e: Event): State {
    if !Enabled(s, e) then s
    else
      match e
      case CallGetConn(t) => Spawn(s, WantRead(t))
      case CallClose => Spawn(s, WantClose)
      case Run(g, ok, pick) => Move(s, g, ok, pick)
      case Disconnect(c) => Leave(s, c, Reconnecting)
      case Reconnect(c) => s.(conns := s.conns[c := s.conns[c].(status := Connected)])
      case Die(c) => CloseConn(s, c)
  }

  function After(es: seq<Event>): State
    decreases |es|
  {
    if es == [] then INITIAL else Step(After(es[..|es| - 1]), es[|es| - 1])
  }

  // ---------- the lock ----------

  ghost predicate LockOk(s: State) {
    && (forall g | g in s.threads :: g < s.nextGid)
    && (forall g | g in s.readers :: g in s.threads && HoldsRead(s.threads[g]))
    && (forall g | g in s.threads && HoldsRead(s.threads[g]) :: g in s.readers)
    && (s.writer.Some? ==> s.writer.value in s.threads && HoldsWrite(s.threads[s.writer.value]))
    && (forall g | g in s.threads && HoldsWrite(s.threads[g]) :: s.writer == Some(g))
    && (s.writer.Some? ==> s.readers == {})
  }

  /** Goroutine `g` took a statement; at most one goroutine that holds nothing was spawned. */
  ghost predicate OneMoved(s: State, g: Gid, s': State) {
    && g in s.threads && g in s'.threads
    && s.nextGid <= s'.nextGid <= s.nextGid + 1
    && (forall h | h in s.threads :: h in s'.threads && (h != g ==> s'.threads[h] == s.threads[h]))
    && (forall h | h in s'.threads && h !in s.threads ::
          h == s.nextGid < s'.nextGid && !HoldsRead(s'.threads[h]) && !HoldsWrite(s'.threads[h]))
  }

  /** How the lock follows the goroutine that moved. */
  predicate LockFollows(s: State, g: Gid, p': Pc, s': State) {
    && s'.readers == (if HoldsRead(p') then s.readers + {g} else s.readers - {g})
    && s'.writer == (if HoldsWrite(p') then Some(g) else if s.writer == Some(g) then None else s.writer)
    && (HoldsRead(p') ==> s.writer.None?)
    && (HoldsWrite(p') && s.writer != Some(g) ==> s.writer.None? && s.readers == {})
  }

  lemma LockIsKept(s: State, g: Gid, s': State)
    requires LockOk(s) && OneMoved(s, g, s') && LockFollows(s, g, s'.threads[g], s')
    ensures LockOk(s')
  {
  }

  lemma MovedAlone(s: State, g: Gid, s': State)
    requires LockOk(s) && g in s.threads && g in s'.threads && s'.nextGid == s.nextGid
    requires s'.threads == s.threads[g := s'.threads[g]]
    ensures OneMoved(s, g, s')
  {
  }

  lemma MovedAndSpawned(s: State, g: Gid, p: Pc, s': State)
    requires LockOk(s) && g in s.threads && g in s'.threads && s'.nextGid == s.nextGid + 1
    requires !HoldsRead(p) && !HoldsWrite(p)
    requires s'.threads == s.threads[s.nextGid := p][g := s'.threads[g]]
    ensures OneMoved(s, g, s')
  {
    assert s.nextGid !in s.threads;
  }

  lemma GetConnMovesOne(s: State, g: Gid, ok: bool)
    requires LockOk(s) && CanMove(s, g) && InGetConn(s.threads[g])
    ensures OneMoved(s, g, MoveGetConn(s, g, ok))
  {
    var s' := MoveGetConn(s, g, ok);
    assert g in s'.threads && s'.threads == s.threads[g := s'.threads[g]] && s'.nextGid == s.nextGid by {
      hide LockOk, IsConnected, Lookup;
    }
    MovedAlone(s, g, s') by { hide *; }
    hide *;
  }

  predicate BeforeLock(p: Pc) {
    p.WantRead? || p.Reading? || p.ReadUnlock? || p.CheckFast?
  }

  lemma FastFollows(s: State, g: Gid, ok: bool)
    requires LockOk(s) && CanMove(s, g) && BeforeLock(s.threads[g])
    ensures var s' := MoveGetConn(s, g, ok); LockFollows(s, g, s'.threads[g], s')
  {
    hide IsConnected, Lookup;
    assert HoldsRead(s.threads[g]) <==> g in s.readers;
    assert s.writer != Some(g);
    assert g !in s.readers ==> s.readers - {g} == s.readers;
    assert g in s.readers ==> s.readers + {g} == s.readers;
    hide LockOk;
  }

  lemma SlowFollows(s: State, g: Gid, ok: bool)
    requires LockOk(s) && CanMove(s, g) && InGetConn(s.threads[g]) && !BeforeLock(s.threads[g])
    ensures var s' := MoveGetConn(s, g, ok); LockFollows(s, g, s'.threads[g], s')
  {
    hide IsConnected, Lookup;
    assert g !in s.readers;
    assert HoldsWrite(s.threads[g]) <==> s.writer == Some(g);
    assert s.readers - {g} == s.readers;
    hide LockOk;
  }

  lemma GetConnFollows(s: State, g: Gid, ok: bool)
    requires LockOk(s) && CanMove(s, g) && InGetConn(s.threads[g])
    ensures var s' := MoveGetConn(s, g, ok); OneMoved(s, g, s') && LockFollows(s, g, s'.threads[g], s')
  {
    hide MoveGetConn, LockOk, LockFollows, OneMoved;
    GetConnMovesOne(s, g, ok);
    if BeforeLock(s.threads[g]) { FastFollows(s, g, ok); } else { SlowFollows(s, g, ok); }
  }

  lemma OtherMovesOne(s: State, g: Gid, pick: TenantId)
    requires LockOk(s) && CanMove(s, g) && !InGetConn(s.threads[g])
    ensures OneMoved(s, g, MoveOther(s, g, pick))
  {
    var s' := MoveOther(s, g, pick);
    if s.threads[g].Closing? && s'.nextGid != s.nextGid {
      assert s'.threads == s.threads[s.nextGid := WantDelete(s.conns[s.cache[pick]].tenant)][g := s'.threads[g]] by {
        hide LockOk, Bump;
      }
      MovedAndSpawned(s, g, WantDelete(s.conns[s.cache[pick]].tenant), s');
    } else {
      assert g in s'.threads && s'.threads == s.threads[g := s'.threads[g]] && s'.nextGid == s.nextGid by {
        hide LockOk, Bump;
      }
      MovedAlone(s, g, s') by { hide *; }
    }
  }

  lemma OtherFollows(s: State, g: Gid, pick: TenantId)
    requires LockOk(s) && CanMove(s, g) && !InGetConn(s.threads[g])
    ensures var s' := MoveOther(s, g, pick); OneMoved(s, g, s') && LockFollows(s, g, s'.threads[g], s')
  {
    OtherMovesOne(s, g, pick);
    hide OneMoved, Bump;
    assert HoldsRead(s.threads[g]) <==> g in s.readers;
    assert HoldsWrite(s.threads[g]) <==> s.writer == Some(g);
    assert g !in s.readers ==> s.readers - {g} == s.readers;
    hide LockOk;
  }

  /** A newcomer asks for nothing yet. */
  lemma SpawnKeepsLock(s: State, p: Pc)
    requires LockOk(s) && !HoldsRead(p) && !HoldsWrite(p)
    ensures LockOk(Spawn(s, p))
  {
  }

  lemma MoveKeepsLock(s: State, g: Gid, ok: bool, pick: TenantId)
    requires LockOk(s) && CanMove(s, g)
    ensures LockOk(Move(s, g, ok, pick))
  {
    hide MoveGetConn, MoveOther, OneMoved, LockFollows, LockOk;
    if InGetConn(s.threads[g]) {
      GetConnFollows(s, g, ok);
      LockIsKept(s, g, MoveGetConn(s, g, ok));
    } else {
      OtherFollows(s, g, pick);
      LockIsKept(s, g, MoveOther(s, g, pick));
    }
  }

  lemma StepKeepsLock(s: State, e: Event)
    requires LockOk(s)
    ensures LockOk(Step(s, e))
  {
    hide Move, Spawn;
    match e
    case Run(g, ok, pick) => if Enabled(s, e) { MoveKeepsLock(s, g, ok, pick); }
    case CallGetConn(t) => SpawnKeepsLock(s, WantRead(t));
    case CallClose => SpawnKeepsLock(s, WantClose);
    case Disconnect(c) =>
    case Reconnect(c) =>
    case Die(c) => if Enabled(s, e) { SpawnKeepsLock(Leave(s, c, Closed), WantDelete(s.conns[c].tenant)); }
  }

  // ---------- connections ----------

  /** `c` was made by a connect for tenant `t`. */
  predicate MadeFor(s: State, c: ConnId, t: TenantId) {
    c in s.conns && s.conns[c].tenant == t
  }

  predicate SeenOk(s: State, seen: Option<ConnId>, t: TenantId) {
    seen.Some? ==> MadeFor(s, seen.value, t)
  }

  /** No cached connection of `t` is still in its first life. */
  predicate Spent(s: State, t: TenantId) {
    t in s.cache ==> s.cache[t] in s.conns && s.conns[s.cache[t]].drops > 0
  }

  ghost predicate PcOk(s: State, p: Pc) {
    match p
    case ReadUnlock(t, seen) => SeenOk(s, seen, t)
    case CheckFast(t, seen) => SeenOk(s, seen, t)
    case CheckSlow(t, seen) => SeenOk(s, seen, t) && seen == Lookup(s, t)
    case Connecting(t) => Spent(s, t)
    case Storing(t, c) => MadeFor(s, c, t) && Spent(s, t)
    case WriteUnlock(t, result) => SeenOk(s, result, t)
    case Returned(t, result) => SeenOk(s, result, t)
    case Dropping(t) => t in s.cache
    case _ => true
  }

  ghost predicate ConnsOk(s: State) {
    && (forall c | c in s.conns :: c < s.nextConn && (s.conns[c].status != Connected ==> s.conns[c].drops > 0))
    && (forall t | t in s.cache :: MadeFor(s, s.cache[t], t))
    && (forall g | g in s.threads :: PcOk(s, s.threads[g]))
  }

  /** Goroutine `g`'s statement, seen from everybody else: connections persist for their
      tenant and never lose drops. */
  ghost predicate Persist(s: State, s': State) {
    forall c | c in s.conns ::
      c in s'.conns && s'.conns[c].tenant == s.conns[c].tenant && s.conns[c].drops <= s'.conns[c].drops
  }

  lemma PcPersists(s: State, s': State, p: Pc)
    requires PcOk(s, p) && Persist(s, s') && (HoldsWrite(p) ==> s'.cache == s.cache)
    ensures PcOk(s', p)
  {
  }

  // ---------- the budget of connects ----------

  /** The connections made for tenant `t`: one per successful connect. */
  function ConnectsOf(conns: map<ConnId, Conn>, t: TenantId): set<ConnId> {
    set c | c in conns && conns[c].tenant == t
  }

  /** The connection the writer has made for `t` and not stored yet. */
  function InHand(s: State, t: TenantId): Option<ConnId> {
    if s.writer.Some? && s.writer.value in s.threads && s.threads[s.writer.value].Storing?
      && s.threads[s.writer.value].t == t
    then Some(s.threads[s.writer.value].made) else None
  }

  predicate FirstLife(s: State, c: Option<ConnId>) {
    c.Some? && c.value in s.conns && s.conns[c.value].drops == 0
  }

  /** One more connect has been made than drops and deletions account for, as long as the
      cached or just made connection is still in its first life. */
  function Credit(s: State, t: TenantId): nat {
    if FirstLife(s, Lookup(s, t)) || FirstLife(s, InHand(s, t)) then 1 else 0
  }

  predicate Budget(s: State, t: TenantId) {
    |ConnectsOf(s.conns, t)| <= Count(s.deleted, t) + Count(s.dropped, t) + Credit(s, t)
  }

  ghost predicate Inv(s: State) {
    LockOk(s) && ConnsOk(s) && forall t :: Budget(s, t)
  }

  /** Goroutine `g` moves to a statement it knows enough for; connections and cache stay. */
  lemma QuietMoveKeepsConns(s: State, g: Gid, p: Pc, readers: set<Gid>, writer: Option<Gid>)
    requires ConnsOk(s) && g in s.threads && PcOk(s, p)
    ensures ConnsOk(At(s, g, p).(readers := readers, writer := writer))
  {
    var s' := At(s, g, p).(readers := readers, writer := writer);
    forall h | h in s'.threads ensures PcOk(s', s'.threads[h]) {
      PcPersists(s, s', if h == g then p else s.threads[h]);
    }
  }

  lemma ConnectKeepsConns(s: State, g: Gid)
    requires LockOk(s) && ConnsOk(s) && g in s.threads && s.threads[g].Connecting?
    ensures ConnsOk(MoveGetConn(s, g, true))
  {
    var s' := MoveGetConn(s, g, true);
    assert PcOk(s, s.threads[g]);
    hide LockOk;
    forall h | h in s'.threads ensures PcOk(s', s'.threads[h]) {
      if h != g {
        PcPersists(s, s', s.threads[h]);
      }
    }
  }

  lemma StoreKeepsConns(s: State, g: Gid, ok: bool)
    requires LockOk(s) && ConnsOk(s) && g in s.threads && s.threads[g].Storing?
    ensures ConnsOk(MoveGetConn(s, g, ok))
  {
    var s' := MoveGetConn(s, g, ok);
    assert PcOk(s, s.threads[g]);
    forall h | h in s'.threads ensures PcOk(s', s'.threads[h]) {
      if h != g {
        PcPersists(s, s', s.threads[h]);
      }
    }
  }

  /** What the other statements leave behind, they know enough for. */
  lemma FastIsOk(s: State, g: Gid, ok: bool)
    requires ConnsOk(s) && g in s.threads && BeforeLock(s.threads[g])
    ensures var s' := MoveGetConn(s, g, ok);
            s' == At(s, g, s'.threads[g]).(readers := s'.readers, writer := s'.writer) && PcOk(s, s'.threads[g])
  {
    assert PcOk(s, s.threads[g]);
    hide IsConnected;
  }

  lemma SlowIsOk(s: State, g: Gid, ok: bool)
    requires ConnsOk(s) && g in s.threads && InGetConn(s.threads[g]) && !BeforeLock(s.threads[g])
    requires !s.threads[g].Storing? && !(s.threads[g].Connecting? && ok)
    ensures var s' := MoveGetConn(s, g, ok);
            s' == At(s, g, s'.threads[g]).(readers := s'.readers, writer := s'.writer) && PcOk(s, s'.threads[g])
  {
    assert PcOk(s, s.threads[g]);
    assert forall c | c in s.conns :: s.conns[c].status != Connected ==> s.conns[c].drops > 0;
  }

  lemma GetConnKeepsConns(s: State, g: Gid, ok: bool)
    requires LockOk(s) && ConnsOk(s) && CanMove(s, g) && InGetConn(s.threads[g])
    ensures ConnsOk(MoveGetConn(s, g, ok))
  {
    hide LockOk, ConnsOk, PcOk, MoveGetConn;
    var s' := MoveGetConn(s, g, ok);
    if s.threads[g].Storing? {
      StoreKeepsConns(s, g, ok);
    } else if s.threads[g].Connecting? && ok {
      ConnectKeepsConns(s, g);
    } else {
      if BeforeLock(s.threads[g]) { FastIsOk(s, g, ok); } else { SlowIsOk(s, g, ok); }
      QuietMoveKeepsConns(s, g, s'.threads[g], s'.readers, s'.writer);
    }
  }

  lemma LeaveKeepsConns(s: State, c: ConnId, status: Status)
    requires ConnsOk(s) && c in s.conns && status != Connected
    ensures ConnsOk(Leave(s, c, status)) && Persist(s, Leave(s, c, status))
  {
    var s' := Leave(s, c, status);
    assert Persist(s, s');
    forall h | h in s'.threads ensures PcOk(s', s'.threads[h]) {
      PcPersists(s, s', s.threads[h]);
    }
  }

  lemma SpawnKeepsConns(s: State, p: Pc)
    requires ConnsOk(s) && LockOk(s) && (p.WantRead? || p.WantDelete? || p.WantClose?)
    ensures ConnsOk(Spawn(s, p))
  {
    var s' := Spawn(s, p);
    forall h | h in s'.threads ensures PcOk(s', s'.threads[h]) {
      if h in s.threads && h != s.nextGid {
        PcPersists(s, s', s.threads[h]);
      }
    }
  }

  lemma CloseConnKeepsConns(s: State, c: ConnId)
    requires ConnsOk(s) && LockOk(s) && c in s.conns
    ensures ConnsOk(CloseConn(s, c)) && LockOk(CloseConn(s, c))
    ensures CloseConn(s, c).cache == s.cache && CloseConn(s, c).writer == s.writer
    ensures forall g | g in s.threads :: g in CloseConn(s, c).threads && CloseConn(s, c).threads[g] == s.threads[g]
  {
    hide ConnsOk;
    var k := Leave(s, c, Closed);
    LeaveKeepsConns(s, c, Closed) by { hide LockOk; }
    assert LockOk(k) by { hide Bump; }
    assert s.nextGid !in s.threads;
    hide LockOk, Leave;
    SpawnKeepsConns(k, WantDelete(s.conns[c].tenant));
    SpawnKeepsLock(k, WantDelete(s.conns[c].tenant));
    LeaveTouches(s, c, Closed);
  }

  lemma LeaveTouches(s: State, c: ConnId, status: Status)
    requires c in s.conns
    ensures var k := Leave(s, c, status);
            k == s.(conns := k.conns, dropped := k.dropped) && k.conns.Keys == s.conns.Keys
  {
  }

  /** The holder of the write lock forgets a cache entry, or moves on to a statement that carries nothing. */
  lemma WriterMoves(s: State, g: Gid, p: Pc, cache: map<TenantId, ConnId>, writer: Option<Gid>,
      deleted: map<TenantId, nat>)
    requires ConnsOk(s) && LockOk(s) && g in s.threads
    requires cache != s.cache ==> s.writer == Some(g) && forall t | t in cache :: t in s.cache && cache[t] == s.cache[t]
    requires !InGetConn(p) && !p.Returned? && (p.Dropping? ==> p.t in cache)
    ensures ConnsOk(At(s, g, p).(cache := cache, writer := writer, deleted := deleted))
  {
    var s' := At(s, g, p).(cache := cache, writer := writer, deleted := deleted);
    forall h | h in s'.threads ensures PcOk(s', s'.threads[h]) {
      if h != g {
        PcPersists(s, s', s.threads[h]);
      }
    }
  }

  lemma OtherKeepsConns(s: State, g: Gid, pick: TenantId)
    requires LockOk(s) && ConnsOk(s) && CanMove(s, g) && !InGetConn(s.threads[g])
    ensures ConnsOk(MoveOther(s, g, pick))
  {
    hide ConnsOk, LockOk, PcOk, Bump;
    match s.threads[g]
    case WantDelete(t) => WriterMoves(s, g, Deleting(t), s.cache, Some(g), s.deleted);
    case Deleting(t) => WriterEvicts(s, g, t, DeleteUnlock);
    case DeleteUnlock => WriterMoves(s, g, Finished, s.cache, None, s.deleted);
    case WantClose => WriterMoves(s, g, Closing, s.cache, Some(g), s.deleted);
    case Closing =>
      if pick in s.cache && s.cache[pick] in s.conns {
        CloseConnKeepsConns(s, s.cache[pick]);
        var k := CloseConn(s, s.cache[pick]);
        WriterMoves(k, g, Dropping(pick), k.cache, k.writer, k.deleted);
      } else {
        WriterMoves(s, g, CloseUnlock, s.cache, s.writer, s.deleted);
      }
    case Dropping(t) => WriterEvicts(s, g, t, Closing);
    case CloseUnlock => WriterMoves(s, g, Finished, s.cache, None, s.deleted);
  }

  lemma WriterEvicts(s: State, g: Gid, t: TenantId, p: Pc)
    requires LockOk(s) && ConnsOk(s) && g in s.threads && HoldsWrite(s.threads[g])
    requires p == DeleteUnlock || p == Closing
    ensures ConnsOk(At(Evict(s, t), g, p))
  {
    hide ConnsOk, PcOk, Bump;
    var k := Evict(s, t);
    WriterMoves(s, g, p, k.cache, s.writer, k.deleted);
    assert At(k, g, p) == At(s, g, p).(cache := k.cache, writer := s.writer, deleted := k.deleted);
  }

  lemma ReconnectKeepsConns(s: State, c: ConnId)
    requires ConnsOk(s) && Enabled(s, Reconnect(c))
    ensures ConnsOk(Step(s, Reconnect(c)))
  {
    var s' := Step(s, Reconnect(c));
    forall h | h in s'.threads ensures PcOk(s', s'.threads[h]) {
      PcPersists(s, s', s.threads[h]);
    }
  }

  lemma StepKeepsConns(s: State, e: Event)
    requires LockOk(s) && ConnsOk(s)
    ensures ConnsOk(Step(s, e))
  {
    hide LockOk, ConnsOk, PcOk, MoveGetConn, MoveOther, Spawn, Leave;
    if Enabled(s, e) {
      match e
      case Run(g, ok, pick) =>
        if InGetConn(s.threads[g]) { GetConnKeepsConns(s, g, ok); } else { OtherKeepsConns(s, g, pick); }
      case CallGetConn(t) => SpawnKeepsConns(s, WantRead(t));
      case CallClose => SpawnKeepsConns(s, WantClose);
      case Disconnect(c) => LeaveKeepsConns(s, c, Reconnecting);
      case Reconnect(c) => ReconnectKeepsConns(s, c);
      case Die(c) => CloseConnKeepsConns(s, c);
    }
  }

  // ---------- every step keeps the budget ----------

  lemma PlainMoveKeepsBudget(s: State, g: Gid, s': State, t: TenantId)
    requires LockOk(s) && LockOk(s') && OneMoved(s, g, s') && Budget(s, t)
    requires !s.threads[g].Storing? && !s'.threads[g].Storing?
    requires s'.conns == s.conns && s'.cache == s.cache && s'.dropped == s.dropped && s'.deleted == s.deleted
    ensures Budget(s', t)
  {
    assert InHand(s', t) == InHand(s, t);
  }

  lemma SpawnKeepsBudget(s: State, p: Pc, t: TenantId)
    requires LockOk(s) && Budget(s, t)
    ensures Budget(Spawn(s, p), t)
  {
    assert InHand(Spawn(s, p), t) == InHand(s, t);
  }

  /** What a connection loses in credit when it stops being connected, its drop makes up for. */
  lemma LeaveKeepsBudget(s: State, c: ConnId, status: Status, t: TenantId)
    requires LockOk(s) && ConnsOk(s) && c in s.conns && Budget(s, t)
    ensures Budget(Leave(s, c, status), t)
  {
    var s' := Leave(s, c, status);
    InHandIsOwn(s, t);
    hide LockOk, ConnsOk, PcOk, Spent;
    assert ConnectsOf(s'.conns, t) == ConnectsOf(s.conns, t);
    assert InHand(s', t) == InHand(s, t) && Lookup(s', t) == Lookup(s, t);
    hide InHand, Lookup, ConnectsOf;
  }

  lemma InHandIsOwn(s: State, t: TenantId)
    requires ConnsOk(s)
    ensures InHand(s, t).Some? ==> MadeFor(s, InHand(s, t).value, t) && Spent(s, t)
    ensures Lookup(s, t).Some? ==> MadeFor(s, Lookup(s, t).value, t)
  {
    if InHand(s, t).Some? {
      assert PcOk(s, s.threads[s.writer.value]);
    }
  }

  lemma CloseConnKeepsBudget(s: State, c: ConnId, t: TenantId)
    requires LockOk(s) && ConnsOk(s) && c in s.conns && Budget(s, t)
    ensures Budget(CloseConn(s, c), t)
  {
    hide ConnsOk, Budget;
    var k := Leave(s, c, Closed);
    LeaveKeepsBudget(s, c, Closed, t) by { hide LockOk; }
    LeaveTouches(s, c, Closed);
    assert LockOk(k) by { hide Leave; }
    hide LockOk, Leave;
    SpawnKeepsBudget(k, WantDelete(s.conns[c].tenant), t);
  }

  /** What the cache loses in credit when an entry goes, the deletion makes up for. */
  lemma EvictKeepsBudget(s: State, g: Gid, u: TenantId, p: Pc, t: TenantId)
    requires LockOk(s) && Budget(s, t) && g in s.threads && HoldsWrite(s.threads[g]) && !s.threads[g].Storing?
    requires !p.Storing?
    ensures Budget(At(Evict(s, u), g, p), t)
  {
    var s' := At(Evict(s, u), g, p);
    assert InHand(s', t) == None && InHand(s, t) == None;
  }

  /** A connect is made only when nothing of its tenant is in its first life, so it earns its own credit. */
  lemma ConnectKeepsBudget(s: State, g: Gid, t: TenantId)
    requires LockOk(s) && ConnsOk(s) && CanMove(s, g) && s.threads[g].Connecting? && Budget(s, t)
    ensures Budget(MoveGetConn(s, g, true), t)
  {
    var s' := MoveGetConn(s, g, true);
    var u := s.threads[g].t;
    assert PcOk(s, s.threads[g]);
    assert s.writer == Some(g) && s'.writer == Some(g);
    assert s.nextConn !in s.conns;
    if u == t {
      assert ConnectsOf(s'.conns, t) == ConnectsOf(s.conns, t) + {s.nextConn};
      assert Credit(s, t) == 0;
      assert InHand(s', t) == Some(s.nextConn) && FirstLife(s', InHand(s', t));
    } else {
      assert ConnectsOf(s'.conns, t) == ConnectsOf(s.conns, t);
      assert InHand(s', t) == None && InHand(s, t) == None;
      InHandIsOwn(s, t);
    }
  }

  lemma StoreKeepsBudget(s: State, g: Gid, ok: bool, t: TenantId)
    requires LockOk(s) && ConnsOk(s) && CanMove(s, g) && s.threads[g].Storing? && Budget(s, t)
    ensures Budget(MoveGetConn(s, g, ok), t)
  {
    var s' := MoveGetConn(s, g, ok);
    assert PcOk(s, s.threads[g]);
    assert s.writer == Some(g) && s'.writer == Some(g);
    assert s'.conns == s.conns;
    if s.threads[g].t == t {
      assert Lookup(s', t) == InHand(s, t);
    } else {
      assert Lookup(s', t) == Lookup(s, t);
    }
  }

  lemma GetConnKeepsBudget(s: State, g: Gid, ok: bool, t: TenantId)
    requires LockOk(s) && ConnsOk(s) && CanMove(s, g) && InGetConn(s.threads[g]) && Budget(s, t)
    ensures Budget(MoveGetConn(s, g, ok), t)
  {
    hide Budget, LockOk, ConnsOk, OneMoved, LockFollows;
    if s.threads[g].Storing? {
      StoreKeepsBudget(s, g, ok, t);
    } else if s.threads[g].Connecting? && ok {
      ConnectKeepsBudget(s, g, t);
    } else {
      MoveKeepsLock(s, g, ok, 0);
      GetConnMovesOne(s, g, ok);
      PlainMoveKeepsBudget(s, g, MoveGetConn(s, g, ok), t);
    }
  }

  lemma OtherKeepsBudget(s: State, g: Gid, pick: TenantId, t: TenantId)
    requires LockOk(s) && ConnsOk(s) && CanMove(s, g) && !InGetConn(s.threads[g]) && Budget(s, t)
    ensures Budget(MoveOther(s, g, pick), t)
  {
    hide Budget, LockOk, ConnsOk, OneMoved, LockFollows, Evict, CloseConn;
    if s.threads[g].Deleting? {
      EvictKeepsBudget(s, g, s.threads[g].t, DeleteUnlock, t);
    } else if s.threads[g].Dropping? {
      EvictKeepsBudget(s, g, s.threads[g].t, Closing, t);
    } else if s.threads[g].Closing? && pick in s.cache && s.cache[pick] in s.conns {
      var k := CloseConn(s, s.cache[pick]);
      CloseConnKeepsConns(s, s.cache[pick]);
      CloseConnKeepsBudget(s, s.cache[pick], t);
      MoveKeepsLock(s, g, true, pick);
      MovedAlone(k, g, At(k, g, Dropping(pick)));
      PlainMoveKeepsBudget(k, g, At(k, g, Dropping(pick)), t);
    } else {
      MoveKeepsLock(s, g, true, pick);
      OtherMovesOne(s, g, pick);
      PlainMoveKeepsBudget(s, g, MoveOther(s, g, pick), t);
    }
  }

  lemma ReconnectKeepsBudget(s: State, c: ConnId, t: TenantId)
    requires Budget(s, t) && Enabled(s, Reconnect(c))
    ensures Budget(Step(s, Reconnect(c)), t)
  {
    var s' := Step(s, Reconnect(c));
    assert ConnectsOf(s'.conns, t) == ConnectsOf(s.conns, t);
    assert InHand(s', t) == InHand(s, t);
  }

  lemma StepKeepsBudget(s: State, e: Event, t: TenantId)
    requires LockOk(s) && ConnsOk(s) && Budget(s, t)
    ensures Budget(Step(s, e), t)
  {
    hide LockOk, ConnsOk, Budget, MoveGetConn, MoveOther, Spawn, Leave;
    if Enabled(s, e) {
      match e
      case Run(g, ok, pick) =>
        if InGetConn(s.threads[g]) { GetConnKeepsBudget(s, g, ok, t); } else { OtherKeepsBudget(s, g, pick, t); }
      case CallGetConn(u) => SpawnKeepsBudget(s, WantRead(u), t);
      case CallClose => SpawnKeepsBudget(s, WantClose, t);
      case Disconnect(c) => LeaveKeepsBudget(s, c, Reconnecting, t);
      case Reconnect(c) => ReconnectKeepsBudget(s, c, t);
      case Die(c) => CloseConnKeepsBudget(s, c, t);
    }
  }

  lemma {:induction false} InvHolds(es: seq<Event>)
    ensures Inv(After(es))
    decreases |es|
  {
    if es == [] {
      assert forall t :: ConnectsOf(INITIAL.conns, t) == {};
    } else {
      var s, e := After(es[..|es| - 1]), es[|es| - 1];
      InvHolds(es[..|es| - 1]);
      hide LockOk, ConnsOk, Budget, Step;
      StepKeepsLock(s, e);
      StepKeepsConns(s, e);
      forall t ensures Budget(Step(s, e), t) {
        StepKeepsBudget(s, e, t);
      }
    }
  }

  // ---------- what every interleaving keeps ----------

  /** Goroutine `g` was handed connection `c` for tenant `t`. */
  predicate Handed(s: State, g: Gid, t: TenantId, c: ConnId) {
    g in s.threads && s.threads[g] == Returned(t, Some(c))
  }

  /** Connects for a tenant never exceed one plus its drops plus its deletions from the cache. */
  lemma ConnectsAreBounded(es: seq<Event>, t: TenantId)
    ensures var s := After(es); |ConnectsOf(s.conns, t)| <= 1 + Count(s.dropped, t) + Count(s.deleted, t)
  {
    InvHolds(es);
    assert Budget(After(es), t);
  }

  /** Whatever was returned or cached for a tenant was connected for that tenant. */
  lemma ConnectionsBelong(es: seq<Event>, t: TenantId, g: Gid, c: ConnId)
    requires var s := After(es); Handed(s, g, t, c) || (t in s.cache && s.cache[t] == c)
    ensures MadeFor(After(es), c, t)
  {
    InvHolds(es);
    var s := After(es);
    if Handed(s, g, t, c) {
      assert PcOk(s, s.threads[g]);
    }
  }

  /** Without drops or deletions all callers of a tenant share one connection, the cached one if any. */
  lemma CallersShare(es: seq<Event>, t: TenantId, g: Gid, h: Gid, c: ConnId, d: ConnId)
    requires var s := After(es); Count(s.dropped, t) == 0 && Count(s.deleted, t) == 0
    requires Handed(After(es), g, t, c)
    requires Handed(After(es), h, t, d) || (t in After(es).cache && After(es).cache[t] == d)
    ensures c == d
  {
    var s := After(es);
    ConnectionsBelong(es, t, g, c);
    ConnectionsBelong(es, t, h, d);
    ConnectsAreBounded(es, t);
    if c != d {
      assert {c, d} <= ConnectsOf(s.conns, t);
      SubsetIsSmaller({c, d}, ConnectsOf(s.conns, t));
    }
  }

  lemma {:induction false} SubsetIsSmaller(a: set<ConnId>, b: set<ConnId>)
    requires a <= b
    ensures |a| <= |b|
    decreases a
  {
    if a == {} {
    } else {
      var x :| x in a;
      SubsetIsSmaller(a - {x}, b - {x});
    }
  }

  predicate OnlyCalls(es: seq<Event>) {
    forall e | e in es :: e.CallGetConn? || e.Run?
  }

  ghost predicate Undisturbed(s: State) {
    && s.dropped == map[] && s.deleted == map[]
    && forall g | g in s.threads :: InGetConn(s.threads[g]) || s.threads[g].Returned?
  }

  lemma GetConnUndisturbed(s: State, g: Gid, ok: bool)
    requires LockOk(s) && Undisturbed(s) && CanMove(s, g)
    ensures Undisturbed(MoveGetConn(s, g, ok))
  {
    GetConnMovesOne(s, g, ok);
    hide LockOk, Lookup, IsConnected;
  }

  lemma {:induction false} CallsDoNotDisturb(es: seq<Event>)
    requires OnlyCalls(es)
    ensures Undisturbed(After(es))
    decreases |es|
  {
    if es == [] {
    } else {
      var s, e := After(es[..|es| - 1]), es[|es| - 1];
      assert e in es;
      CallsDoNotDisturb(es[..|es| - 1]);
      InvHolds(es[..|es| - 1]);
      if e.Run? && Enabled(s, e) {
        GetConnUndisturbed(s, e.g, e.ok) by { hide LockOk; }
      }
      hide LockOk, ConnsOk, MoveGetConn, MoveOther, Leave, CloseConn;
    }
  }

  /** While connections neither drop nor close, every GetConn call for a tenant returns the same connection. */
  lemma QuietCallersShare(es: seq<Event>, t: TenantId, g: Gid, h: Gid, c: ConnId, d: ConnId)
    requires OnlyCalls(es) && Handed(After(es), g, t, c) && Handed(After(es), h, t, d)
    ensures c == d
  {
    CallsDoNotDisturb(es);
    CallersShare(es, t, g, h, c, d);
  }

  /** A closed-handler deletes by tenant: whichever connection closed, it evicts the one cached
      now, which itself stays as it was. */
  lemma HandlerEvictsWhateverIsCached(es: seq<Event>, g: Gid, t: TenantId)
    requires var s := After(es);
             g in s.threads && s.threads[g] == WantDelete(t) && s.writer.None? && s.readers == {}
    ensures var s := After(es); var s' := Step(Step(s, Run(g, true, 0)), Run(g, true, 0));
            s'.cache == s.cache - {t} && s'.conns == s.conns
  {
    hide After, MoveGetConn;
    var s1 := MoveOther(After(es), g, 0);
    assert Step(After(es), Run(g, true, 0)) == s1;
    assert s1.cache == After(es).cache && s1.conns == After(es).conns && s1.threads[g] == Deleting(t);
    assert MoveOther(s1, g, 0).cache == s1.cache - {t} && MoveOther(s1, g, 0).conns == s1.conns;
  }

  /** The cache changes only at a statement of the goroutine that holds the write lock, while
      nobody else holds the lock in any mode. */
  lemma OnlyTheWriterWrites(es: seq<Event>, e: Event)
    requires Step(After(es), e).cache != After(es).cache
    ensures var s := After(es);
            e.Run? && e.g in s.threads && s.writer == Some(e.g) && s.readers == {}
            && forall h | h in s.threads && h != e.g :: !HoldsRead(s.threads[h]) && !HoldsWrite(s.threads[h])
  {
    InvHolds(es);
    assert LockOk(After(es));
    CacheWriters(After(es), e);
  }

  lemma CacheWriters(s: State, e: Event)
    requires Step(s, e).cache != s.cache
    ensures e.Run? && e.g in s.threads
      && (s.threads[e.g].Storing? || s.threads[e.g].Deleting? || s.threads[e.g].Dropping?)
  {
    hide Bump, MoveGetConn, MoveOther;
    if e.Run? {
      if InGetConn(s.threads[e.g]) {
        GetConnStores(s, e.g, e.ok);
      } else {
        hide InGetConn;
        OtherEvicts(s, e.g, e.pick);
      }
    }
  }

  lemma GetConnStores(s: State, g: Gid, ok: bool)
    requires g in s.threads && InGetConn(s.threads[g]) && MoveGetConn(s, g, ok).cache != s.cache
    ensures s.threads[g].Storing?
  {
    hide IsConnected, Lookup;
  }

  lemma OtherEvicts(s: State, g: Gid, pick: TenantId)
    requires g in s.threads && !InGetConn(s.threads[g]) && !Ended(s.threads[g])
    requires MoveOther(s, g, pick).cache != s.cache
    ensures s.threads[g].Deleting? || s.threads[g].Dropping?
  {
    hide Bump;
  }

  /** Nobody waits for the write lock while it holds the lock in any mode. */
  lemma NeverUpgrades(es: seq<Event>, g: Gid)
    requires g in After(es).threads && AsksWrite(After(es).threads[g])
    ensures g !in After(es).readers && After(es).writer != Some(g)
  {
    InvHolds(es);
  }

  /** While a call is unfinished some goroutine can take its next statement, even if new readers
      stand back for every waiting writer. */
  lemma SomebodyCanMove(es: seq<Event>, g: Gid) returns (h: Gid, pick: TenantId)
    requires g in After(es).threads && !Ended(After(es).threads[g])
    ensures h in After(es).threads && CanMoveStrictly(After(es), h)
    ensures forall ok :: Enabled(After(es), Run(h, ok, pick))
  {
    InvHolds(es);
    var s := After(es);
    assert LockOk(s);
    pick := 0;
    if s.writer.Some? {
      h := s.writer.value;
    } else if s.readers != {} {
      h :| h in s.readers;
    } else if w :| w in s.threads && AsksWrite(s.threads[w]) {
      h := w;
    } else {
      h := g;
    }
    if s.threads[h].Closing? && s.cache != map[] {
      pick :| pick in s.cache;
    }
  }

  // ---------- every call ends ----------

  /** An upper bound on the statements a goroutine still takes, leaving out what `Work` charges
      to the cache and to the connections. */
  function Rank(p: Pc): nat {
    match p
    case WantRead(_) => 16
    case Reading(_) => 15
    case ReadUnlock(_, _) => 14
    case CheckFast(_, _) => 13
    case WantWrite(_) => 12
    case Rereading(_) => 11
    case CheckSlow(_, _) => 10
    case Connecting(_) => 9
    case Storing(_, _) => 4
    case WriteUnlock(_, _) => 1
    case WantDelete(_) => 3
    case Deleting(_) => 2
    case DeleteUnlock => 1
    case WantClose => 3
    case Closing => 2
    case Dropping(_) => 1
    case CloseUnlock => 1
    case Returned(_, _) => 0
    case Finished => 0
  }

  function RankSum(threads: map<Gid, Pc>, n: nat): nat {
    if n == 0 then 0 else RankSum(threads, n - 1) + (if n - 1 in threads then Rank(threads[n - 1]) else 0)
  }

  function Open(conns: map<ConnId, Conn>): set<ConnId> {
    set c | c in conns && conns[c].status != Closed
  }

  /** An open connection may still start a closed-handler, a cache entry may still be dropped. */
  function Work(s: State): nat {
    RankSum(s.threads, s.nextGid) + 4 * |Open(s.conns)| + 2 * |s.cache|
  }

  lemma {:induction false} RankSumAt(threads: map<Gid, Pc>, n: nat, g: Gid, p: Pc)
    requires g in threads
    ensures RankSum(threads[g := p], n) + (if g < n then Rank(threads[g]) else 0)
         == RankSum(threads, n) + (if g < n then Rank(p) else 0)
  {
    if n == 0 {
    } else {
      RankSumAt(threads, n - 1, g, p);
    }
  }

  lemma {:induction false} RankSumBeyond(threads: map<Gid, Pc>, n: nat, g: Gid, p: Pc)
    requires n <= g
    ensures RankSum(threads[g := p], n) == RankSum(threads, n)
  {
    if n == 0 {
    } else {
      RankSumBeyond(threads, n - 1, g, p);
    }
  }

  lemma AtWork(s: State, g: Gid, p: Pc)
    requires LockOk(s) && g in s.threads
    ensures Work(At(s, g, p)) + Rank(s.threads[g]) == Work(s) + Rank(p)
  {
    RankSumAt(s.threads, s.nextGid, g, p);
  }

  lemma SpawnWork(s: State, p: Pc)
    ensures Work(Spawn(s, p)) == Work(s) + Rank(p)
  {
    RankSumBeyond(s.threads, s.nextGid, s.nextGid, p);
  }

  lemma OpenLosesOne(conns: map<ConnId, Conn>, c: ConnId, k: Conn)
    requires c in conns && conns[c].status != Closed && k.status == Closed
    ensures |Open(conns[c := k])| + 1 == |Open(conns)|
  {
    assert Open(conns[c := k]) == Open(conns) - {c};
  }

  lemma OpenGainsOne(conns: map<ConnId, Conn>, c: ConnId, k: Conn)
    requires c !in conns && k.status != Closed
    ensures |Open(conns[c := k])| == |Open(conns)| + 1
  {
    assert Open(conns[c := k]) == Open(conns) + {c};
  }

  lemma CloseConnWork(s: State, c: ConnId)
    requires c in s.conns
    ensures Work(CloseConn(s, c)) <= Work(s)
  {
    hide Open, RankSum, Bump;
    if s.conns[c].status != Closed {
      var k := Leave(s, c, Closed);
      OpenLosesOne(s.conns, c, k.conns[c]);
      SpawnWork(k, WantDelete(s.conns[c].tenant)) by { hide Work, Leave; }
      hide Spawn;
    }
  }

  lemma EvictWork(s: State, t: TenantId)
    ensures Work(Evict(s, t)) + (if t in s.cache then 2 else 0) == Work(s)
  {
    if t in s.cache {
      assert (s.cache - {t})[t := s.cache[t]] == s.cache;
    }
  }

  lemma ConnectWork(s: State, g: Gid)
    requires LockOk(s) && ConnsOk(s) && g in s.threads && s.threads[g].Connecting?
    ensures Work(MoveGetConn(s, g, true)) < Work(s)
  {
    var u := s.threads[g].t;
    AtWork(s, g, Storing(u, s.nextConn));
    assert s.nextConn !in s.conns;
    hide LockOk, ConnsOk, RankSum, Open, IsConnected, Lookup, InGetConn;
    OpenGainsOne(s.conns, s.nextConn, Conn(u, Connected, 0));
  }

  lemma CacheGrowsByOne(cache: map<TenantId, ConnId>, t: TenantId, c: ConnId)
    ensures |cache[t := c]| <= |cache| + 1
  {
    assert cache[t := c].Keys == cache.Keys + {t};
  }

  lemma StoreWork(s: State, g: Gid, ok: bool)
    requires LockOk(s) && g in s.threads && s.threads[g].Storing?
    ensures Work(MoveGetConn(s, g, ok)) < Work(s)
  {
    hide RankSum, Open, Lookup, IsConnected;
    var u, c := s.threads[g].t, s.threads[g].made;
    AtWork(s, g, WriteUnlock(u, Some(c))) by { hide Work; }
    hide LockOk;
    CacheGrowsByOne(s.cache, u, c);
  }

  lemma PlainWork(s: State, g: Gid, s': State)
    requires LockOk(s) && g in s.threads && g in s'.threads
    requires s'.threads == s.threads[g := s'.threads[g]] && s'.nextGid == s.nextGid
    requires s'.conns == s.conns && s'.cache == s.cache && Rank(s'.threads[g]) < Rank(s.threads[g])
    ensures Work(s') < Work(s)
  {
    hide Rank, LockOk, RankSum, Open;
    AtWork(s, g, s'.threads[g]);
  }

  lemma GetConnWorks(s: State, g: Gid, ok: bool)
    requires LockOk(s) && ConnsOk(s) && CanMove(s, g) && InGetConn(s.threads[g])
    ensures Work(MoveGetConn(s, g, ok)) < Work(s)
  {
    hide LockOk, ConnsOk, Work, Lookup, IsConnected;
    if s.threads[g].Connecting? && ok {
      ConnectWork(s, g);
    } else if s.threads[g].Storing? {
      StoreWork(s, g, ok);
    } else {
      PlainWork(s, g, MoveGetConn(s, g, ok));
    }
  }

  lemma EvictingWorks(s: State, g: Gid, t: TenantId, p: Pc)
    requires LockOk(s) && g in s.threads && Rank(p) < Rank(s.threads[g]) + (if t in s.cache then 2 else 0)
    ensures Work(At(Evict(s, t), g, p)) < Work(s)
  {
    EvictWork(s, t);
    var k := Evict(s, t);
    assert LockOk(k) by { hide Bump; }
    assert k.threads == s.threads;
    hide LockOk, Work, Evict, Rank;
    AtWork(k, g, p);
  }

  lemma ClosingWorks(s: State, g: Gid, pick: TenantId)
    requires LockOk(s) && ConnsOk(s) && g in s.threads && s.threads[g] == Closing
    requires pick in s.cache && s.cache[pick] in s.conns
    ensures Work(At(CloseConn(s, s.cache[pick]), g, Dropping(pick))) < Work(s)
  {
    hide LockOk, ConnsOk, Work, CloseConn;
    CloseConnKeepsConns(s, s.cache[pick]);
    CloseConnWork(s, s.cache[pick]);
    AtWork(CloseConn(s, s.cache[pick]), g, Dropping(pick));
  }

  lemma AtWorks(s: State, g: Gid, p: Pc, writer: Option<Gid>)
    requires LockOk(s) && g in s.threads && Rank(p) < Rank(s.threads[g])
    ensures Work(At(s, g, p).(writer := writer)) < Work(s)
  {
    hide Rank, LockOk, RankSum, Open;
    AtWork(s, g, p);
  }

  lemma OtherWorks(s: State, g: Gid, pick: TenantId)
    requires LockOk(s) && ConnsOk(s) && g in s.threads && !InGetConn(s.threads[g]) && !Ended(s.threads[g])
    requires s.threads[g].Dropping? ==> s.threads[g].t in s.cache
    requires pick in s.cache ==> s.cache[pick] in s.conns
    ensures Work(MoveOther(s, g, pick)) < Work(s)
  {
    hide LockOk, ConnsOk, Work, Evict, CloseConn, InGetConn;
    if s.threads[g].Deleting? {
      EvictingWorks(s, g, s.threads[g].t, DeleteUnlock);
    } else if s.threads[g].Dropping? {
      EvictingWorks(s, g, s.threads[g].t, Closing);
    } else if s.threads[g].Closing? && pick in s.cache {
      ClosingWorks(s, g, pick);
    } else if s.threads[g].WantDelete? {
      AtWorks(s, g, Deleting(s.threads[g].t), Some(g));
    } else if s.threads[g].WantClose? {
      AtWorks(s, g, Closing, Some(g));
    } else if s.threads[g].Closing? {
      AtWorks(s, g, CloseUnlock, s.writer);
    } else {
      AtWorks(s, g, Finished, None);
    }
  }

  /** Every statement a goroutine takes uses up some of the remaining work. */
  lemma RunWorks(s: State, e: Event)
    requires LockOk(s) && ConnsOk(s) && e.Run? && Enabled(s, e)
    ensures Work(Step(s, e)) < Work(s)
  {
    hide Work, MoveGetConn, MoveOther, LockOk;
    assert s.threads[e.g].Dropping? ==> PcOk(s, s.threads[e.g]);
    assert e.pick in s.cache ==> MadeFor(s, s.cache[e.pick], e.pick);
    hide ConnsOk;
    if InGetConn(s.threads[e.g]) {
      GetConnWorks(s, e.g, e.ok);
    } else {
      OtherWorks(s, e.g, e.pick);
    }
  }

  lemma LastWorks(es: seq<Event>, e: Event)
    requires e.Run? && Enabled(After(es), e)
    ensures Work(Step(After(es), e)) < Work(After(es))
  {
    hide Step, Work, Enabled, LockOk, ConnsOk;
    InvHolds(es);
    RunWorks(After(es), e);
  }

  /** `rs` is a schedule that the goroutines can follow from where `es` ends, one statement at a time. */
  ghost predicate Schedule(es: seq<Event>, rs: seq<Event>) {
    forall i | 0 <= i < |rs| :: rs[i].Run? && Enabled(After(es + rs[..i]), rs[i])
  }

  /** However the goroutines are scheduled once calls stop arriving and connections stop
      changing, only boundedly many statements remain; a schedule that cannot be extended has
      finished every call. */
  lemma {:induction false} EveryCallEnds(es: seq<Event>, rs: seq<Event>)
    requires Schedule(es, rs)
    ensures |rs| + Work(After(es + rs)) <= Work(After(es))
    ensures (forall r: Event | r.Run? :: !Enabled(After(es + rs), r))
            ==> forall g | g in After(es + rs).threads :: Ended(After(es + rs).threads[g])
    decreases |rs|
  {
    hide *;
    StuckIsFinished(es + rs);
    if rs == [] {
      assert es + rs == es;
    } else {
      var front, last := rs[..|rs| - 1], rs[|rs| - 1];
      ScheduleFront(es, rs);
      EveryCallEnds(es, front);
      LastWorks(es + front, last);
      AfterLast(es, rs);
    }
  }

  lemma ScheduleFront(es: seq<Event>, rs: seq<Event>)
    requires Schedule(es, rs) && rs != []
    ensures var front, last := rs[..|rs| - 1], rs[|rs| - 1];
      Schedule(es, front) && last.Run? && Enabled(After(es + front), last)
  {
    hide After, Enabled;
    var front := rs[..|rs| - 1];
    assert forall i | 0 <= i < |front| :: front[..i] == rs[..i] && front[i] == rs[i];
  }

  lemma AfterLast(es: seq<Event>, rs: seq<Event>)
    requires rs != []
    ensures After(es + rs) == Step(After(es + rs[..|rs| - 1]), rs[|rs| - 1])
  {
    hide Step;
    assert (es + rs)[..|es + rs| - 1] == es + rs[..|rs| - 1];
  }

  /** Where no goroutine can take a statement, every call has ended. */
  lemma StuckIsFinished(es: seq<Event>)
    ensures (forall r: Event | r.Run? :: !Enabled(After(es), r))
            ==> forall g | g in After(es).threads :: Ended(After(es).threads[g])
  {
    hide *;
    var s := After(es);
    forall g | g in s.threads && !Ended(s.threads[g])
      ensures exists r: Event :: r.Run? && Enabled(s, r)
    {
      var h, pick := SomebodyCanMove(es, g);
      assert Enabled(s, Run(h, true, pick));
    }
  }
}
