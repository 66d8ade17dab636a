/** The monitor's view of the NATS servers: every stats message overwrites the entry with its
    server's ID or appends a new one, so the list refines a last-writer-wins map. */
module Monitor {
  import opened Wrappers

  datatype ServerStats = ServerStats(
    name: string, id: string, connections: int, subscriptions: int,
    inMsgs: int, outMsgs: int, inBytes: int, outBytes: int, uptime: string)

  datatype AccountStats = AccountStats(accountId: string, connections: int, totalConns: int)

  /** A message on one of the two subscriptions; `Garbled` is one that does not parse. */
  datatype Message = Statsz(stats: ServerStats) | Conns(account: AccountStats) | Garbled

  /** The index of the first entry for `id`, or the length. */
  function IndexOf(servers: seq<ServerStats>, id: string): (i: nat)
    ensures i <= |servers|
    ensures forall j | 0 <= j < i :: servers[j].id != id
    ensures i < |servers| ==> servers[i].id == id
  {
    if servers == [] then 0
    else if servers[0].id == id then 0
    else 1 + IndexOf(servers[1..], id)
  }

  function Upsert(servers: seq<ServerStats>, s: ServerStats): seq<ServerStats> {
    var i := IndexOf(servers, s.id);
    if i < |servers| then servers[i := s] else servers + [s]
  }

  function AfterAll(ms: seq<Message>): seq<ServerStats>
    decreases |ms|
  {
    if ms == [] then []
    else
      var m := ms[|ms| - 1];
      var before := AfterAll(ms[..|ms| - 1]);
      if m.Statsz? then Upsert(before, m.stats) else before
  }

  // ---------- what the list should be, told without a list of entries ----------

  /** The stats of the last message about `id`. */
  function Last(ms: seq<Message>, id: string): Option<ServerStats>
    decreases |ms|
  {
    if ms == [] then None
    else if ms[|ms| - 1].Statsz? && ms[|ms| - 1].stats.id == id then Some(ms[|ms| - 1].stats)
    else Last(ms[..|ms| - 1], id)
  }

  /** The position of the first message about `id`, or the length. */
  function First(ms: seq<Message>, id: string): (k: nat)
    ensures k <= |ms|
    decreases |ms|
  {
    if ms == [] then 0
    else
      var k := First(ms[..|ms| - 1], id);
      if k < |ms| - 1 || (ms[|ms| - 1].Statsz? && ms[|ms| - 1].stats.id == id) then k else |ms|
  }

  lemma {:induction false} FirstIsFirst(ms: seq<Message>, id: string)
    ensures var k := First(ms, id);
            && (k < |ms| ==> ms[k].Statsz? && ms[k].stats.id == id)
            && (forall j | 0 <= j < k :: !(ms[j].Statsz? && ms[j].stats.id == id))
    decreases |ms|
  {
    if ms == [] {
    } else {
      FirstIsFirst(ms[..|ms| - 1], id);
    }
  }

  lemma {:induction false} LastIsLast(ms: seq<Message>, id: string)
    ensures Last(ms, id).None? <==> First(ms, id) == |ms|
    ensures Last(ms, id).Some? ==> exists k: nat :: LastAt(ms, id, k) && Last(ms, id).value == ms[k].stats
    decreases |ms|
  {
    if ms == [] {
    } else {
      var front := ms[..|ms| - 1];
      LastIsLast(front, id);
      if ms[|ms| - 1].Statsz? && ms[|ms| - 1].stats.id == id {
        assert LastAt(ms, id, |ms| - 1);
      } else if Last(front, id).Some? {
        var k: nat :| LastAt(front, id, k) && Last(front, id).value == front[k].stats;
        assert LastAt(ms, id, k);
      }
    }
  }

  /** Message `k` is about `id` and no later one is. */
  predicate LastAt(ms: seq<Message>, id: string, k: nat) {
    && k < |ms| && ms[k].Statsz? && ms[k].stats.id == id
    && forall j | k < j < |ms| :: !(ms[j].Statsz? && ms[j].stats.id == id)
  }

  ghost predicate HoldsLast(servers: seq<ServerStats>, ms: seq<Message>) {
    forall i | 0 <= i < |servers| :: Last(ms, servers[i].id) == Some(servers[i])
  }

  ghost predicate Covers(servers: seq<ServerStats>, ms: seq<Message>) {
    forall id: string :: Last(ms, id).Some? ==> IndexOf(servers, id) < |servers|
  }

  ghost predicate InOrder(servers: seq<ServerStats>, ms: seq<Message>) {
    forall i, j | 0 <= i < j < |servers| :: First(ms, servers[i].id) < First(ms, servers[j].id)
  }

  /** Each entry is the last stats of its server, every server heard of has one, and entries
      stand in order of first appearance. */
  ghost predicate Refines(servers: seq<ServerStats>, ms: seq<Message>) {
    HoldsLast(servers, ms) && Covers(servers, ms) && InOrder(servers, ms)
  }

  lemma OneMore(ms: seq<Message>, m: Message, id: string)
    ensures Last(ms + [m], id) == (if m.Statsz? && m.stats.id == id then Some(m.stats) else Last(ms, id))
    ensures First(ms + [m], id) ==
            if First(ms, id) < |ms| || (m.Statsz? && m.stats.id == id) then First(ms, id) else |ms| + 1
  {
    assert (ms + [m])[..|ms + [m]| - 1] == ms;
  }

  lemma UpsertHoldsLast(servers: seq<ServerStats>, ms: seq<Message>, s: ServerStats)
    requires Refines(servers, ms)
    ensures HoldsLast(Upsert(servers, s), ms + [Statsz(s)])
  {
    var servers' := Upsert(servers, s);
    hide Last;
    forall i | 0 <= i < |servers'| ensures Last(ms + [Statsz(s)], servers'[i].id) == Some(servers'[i]) {
      OneMore(ms, Statsz(s), servers'[i].id);
      // no other entry has the ID of `s`, for the two would share their first appearance
      assert i < |servers| && servers[i].id == s.id ==> !(IndexOf(servers, s.id) < i);
    }
  }

  lemma UpsertCovers(servers: seq<ServerStats>, ms: seq<Message>, s: ServerStats)
    requires Covers(servers, ms)
    ensures Covers(Upsert(servers, s), ms + [Statsz(s)])
  {
    var servers' := Upsert(servers, s);
    hide Last;
    forall id: string | Last(ms + [Statsz(s)], id).Some? ensures IndexOf(servers', id) < |servers'| {
      OneMore(ms, Statsz(s), id);
      if id == s.id {
        assert servers'[IndexOf(servers, id)].id == id;
      } else {
        assert servers'[IndexOf(servers, id)].id == id;
      }
    }
  }

  lemma UpsertInOrder(servers: seq<ServerStats>, ms: seq<Message>, s: ServerStats)
    requires Refines(servers, ms)
    ensures InOrder(Upsert(servers, s), ms + [Statsz(s)])
  {
    var servers' := Upsert(servers, s);
    var n := IndexOf(servers, s.id);
    forall i, j | 0 <= i < j < |servers'|
      ensures First(ms + [Statsz(s)], servers'[i].id) < First(ms + [Statsz(s)], servers'[j].id)
    {
      assert i < |servers| && servers'[i].id == servers[i].id;
      OneMore(ms, Statsz(s), servers'[i].id);
      OneMore(ms, Statsz(s), servers'[j].id);
      LastIsLast(ms, servers[i].id);
      if j < |servers| {
        LastIsLast(ms, servers[j].id);
        assert servers'[j].id == servers[j].id;
      } else {
        LastIsLast(ms, s.id);
      }
    }
  }

  lemma OtherRefines(servers: seq<ServerStats>, ms: seq<Message>, m: Message)
    requires Refines(servers, ms) && !m.Statsz?
    ensures Refines(servers, ms + [m])
  {
    hide Last, First;
    forall id: string ensures Last(ms + [m], id) == Last(ms, id) {
      OneMore(ms, m, id);
    }
    forall i, j | 0 <= i < j < |servers| ensures First(ms + [m], servers[i].id) < First(ms + [m], servers[j].id) {
      OneMore(ms, m, servers[i].id);
      OneMore(ms, m, servers[j].id);
      LastIsLast(ms, servers[i].id);
      LastIsLast(ms, servers[j].id);
    }
  }

  /** After any messages the list holds, for exactly the servers heard of, the last stats
      received, without duplicates and in order of first appearance. */
  lemma {:induction false} ListRefinesMap(ms: seq<Message>)
    ensures Refines(AfterAll(ms), ms)
    ensures forall i, j | 0 <= i < j < |AfterAll(ms)| :: AfterAll(ms)[i].id != AfterAll(ms)[j].id
    decreases |ms|
  {
    if ms == [] {
    } else {
      var front, m := ms[..|ms| - 1], ms[|ms| - 1];
      assert ms == front + [m];
      ListRefinesMap(front);
      if m.Statsz? {
        UpsertHoldsLast(AfterAll(front), front, m.stats);
        UpsertCovers(AfterAll(front), front, m.stats);
        UpsertInOrder(AfterAll(front), front, m.stats);
      } else {
        OtherRefines(AfterAll(front), front, m);
      }
    }
  }

  class Monitor {
    var servers: seq<ServerStats>
    var accounts: map<string, AccountStats>

    constructor ()
      ensures servers == AfterAll([]) && accounts == map[]
    {
      servers, accounts := [], map[];
    }

    /** The callback of the server subscription. */
    method OnStatsz(s: ServerStats)
      modifies this`servers
      ensures servers == Upsert(old(servers), s)
    {
      var found := false;
      var i := 0;
      while i < |servers|
        invariant 0 <= i <= |servers| && servers == old(servers) && !found
        invariant forall j | 0 <= j < i :: servers[j].id != s.id
      {
        if servers[i].id == s.id {
          servers := servers[i := s];
          found := true;
          assert IndexOf(old(servers), s.id) == i;
          break;
        }
        i := i + 1;
      }
      if !found {
        servers := servers + [s];
      }
    }

    /** The callback of the account subscription. */
    method OnConns(a: AccountStats)
      modifies this`accounts
      ensures accounts == old(accounts)[a.accountId := a]
    {
      accounts := accounts[a.accountId := a];
    }

    /** Whatever arrived before, one more message keeps the list what the messages make it. */
    method OnMessage(m: Message, ghost before: seq<Message>)
      requires servers == AfterAll(before)
      modifies this
      ensures servers == AfterAll(before + [m])
      ensures accounts == if m.Conns? then old(accounts)[m.account.accountId := m.account] else old(accounts)
    {
      assert (before + [m])[..|before + [m]| - 1] == before;
      if m.Statsz? {
        OnStatsz(m.stats);
      } else if m.Conns? {
        OnConns(m.account);
      }
    }

    /** The snapshot a caller gets says, of exactly the servers heard of, what was last heard. */
    method Servers(ghost before: seq<Message>) returns (out: seq<ServerStats>)
      requires servers == AfterAll(before)
      ensures Refines(out, before)
    {
      ListRefinesMap(before);
      out := servers;
    }
  }
}
