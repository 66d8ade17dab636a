/** ReconcileAll as a map override, and recovery of the resolver from the database. */
module Recovery {
  import opened Domain
  import opened Protocol
  import opened History
  import opened Revocations
  import opened StaleWrites
  import opened Alone

  type Entries = map<PublicKey, AccountJwt>

  function Entry(t: Tenant): Entries {
    map[t.accountJwt.claims.subject := t.accountJwt]
  }

  /** What the loop leaves at the resolver: the entries of the active rows whose push took effect. */
  function PushedBy(rows: seq<Tenant>, plan: seq<Choice>): Entries {
    if rows == [] then map[]
    else
      var first := if rows[0].status == Active && !Head(plan).outcome.Failed? then Entry(rows[0]) else map[];
      first + PushedBy(rows[1..], Tail(plan))
  }

  /** Active rows, and those among them whose push replied ok. */
  function ActiveCount(rows: seq<Tenant>): nat {
    if rows == [] then 0 else (if rows[0].status == Active then 1 else 0) + ActiveCount(rows[1..])
  }

  function OkCount(rows: seq<Tenant>, plan: seq<Choice>): nat {
    if rows == [] then 0
    else (if rows[0].status == Active && Head(plan).outcome.Ok? then 1 else 0) + OkCount(rows[1..], Tail(plan))
  }

  /** One turn of the loop. */
  lemma LoopTurn(cfg: Config, w: World, rows: seq<Tenant>, pushed: nat, failed: nat, c: Choice)
    requires cfg.resolver && rows != []
    ensures var n := Go(cfg, w, ReconcilePush(rows, pushed, failed), c);
      var push := rows[0].status == Active;
      && n.w == w.(clock := w.clock + c.delay,
                   resolver := w.resolver + if push && !c.outcome.Failed? then Entry(rows[0]) else map[])
      && n.l == ReconcilePush(rows[1..], pushed + (if push && c.outcome.Ok? then 1 else 0),
                              failed + (if push && !c.outcome.Ok? then 1 else 0))
  {
    hide Phase, CreateStep, LimitsStep, IssueStep, RevokeStep, StatusStep;
    assert w.resolver + map[] == w.resolver;
    assert w.resolver + Entry(rows[0]) == w.resolver[rows[0].accountJwt.claims.subject := rows[0].accountJwt];
  }

  /** What the loop over `rows` computes, from `w` and the counts so far. */
  predicate IsOverride(w: World, rows: seq<Tenant>, pushed: nat, failed: nat, plan: seq<Choice>, r: Conf) {
    && r.w == w.(clock := r.w.clock, resolver := w.resolver + PushedBy(rows, plan))
    && r.l.Done? && r.l.result.Reconciled?
    && r.l.result.pushed == pushed + OkCount(rows, plan)
    && r.l.result.pushed + r.l.result.failed == pushed + failed + ActiveCount(rows)
  }

  /** The loop overrides the resolver by what was pushed and counts every active row once. */
  lemma {:induction false} LoopIsOverride(cfg: Config, w: World, rows: seq<Tenant>, pushed: nat, failed: nat,
      plan: seq<Choice>)
    requires cfg.resolver
    ensures IsOverride(w, rows, pushed, failed, plan, Exec(cfg, w, ReconcilePush(rows, pushed, failed), plan))
    decreases |rows|
  {
    hide Exec, Go;
    if rows == [] {
      LoopEnd(cfg, w, pushed, failed, plan);
      assert w.resolver + map[] == w.resolver;
    } else {
      hide IsOverride;
      ExecStep(cfg, w, ReconcilePush(rows, pushed, failed), plan);
      LoopTurn(cfg, w, rows, pushed, failed, Head(plan));
      var n := Go(cfg, w, ReconcilePush(rows, pushed, failed), Head(plan));
      LoopIsOverride(cfg, n.w, rows[1..], n.l.pushed, n.l.failed, Tail(plan));
      OverrideExtends(w, rows, pushed, failed, plan, n, Exec(cfg, n.w, n.l, Tail(plan)));
    }
  }

  lemma OverrideExtends(w: World, rows: seq<Tenant>, pushed: nat, failed: nat, plan: seq<Choice>, n: Conf, r: Conf)
    requires rows != [] && n.l.ReconcilePush?
    requires
      var push := rows[0].status == Active;
      && n.w == w.(clock := n.w.clock,
                   resolver := w.resolver + if push && !Head(plan).outcome.Failed? then Entry(rows[0]) else map[])
      && n.l == ReconcilePush(rows[1..], pushed + (if push && Head(plan).outcome.Ok? then 1 else 0),
                              failed + (if push && !Head(plan).outcome.Ok? then 1 else 0))
    requires IsOverride(n.w, rows[1..], n.l.pushed, n.l.failed, Tail(plan), r)
    ensures IsOverride(w, rows, pushed, failed, plan, r)
  {
    LoopCounts(rows, plan);
    hide PushedBy, OkCount, ActiveCount, Head, Tail, Entry;
    var first := if rows[0].status == Active && !Head(plan).outcome.Failed? then Entry(rows[0]) else map[];
    OverrideAssociates(w.resolver, first, PushedBy(rows[1..], Tail(plan)));
  }

  lemma OverrideAssociates(a: Entries, b: Entries, c: Entries)
    ensures (a + b) + c == a + (b + c)
  {
  }

  lemma LoopCounts(rows: seq<Tenant>, plan: seq<Choice>)
    requires rows != []
    ensures PushedBy(rows, plan)
         == (if rows[0].status == Active && !Head(plan).outcome.Failed? then Entry(rows[0]) else map[])
           + PushedBy(rows[1..], Tail(plan))
    ensures OkCount(rows, plan) == (if rows[0].status == Active && Head(plan).outcome.Ok? then 1 else 0)
      + OkCount(rows[1..], Tail(plan))
    ensures ActiveCount(rows) == (if rows[0].status == Active then 1 else 0) + ActiveCount(rows[1..])
  {
  }

  lemma LoopEnd(cfg: Config, w: World, pushed: nat, failed: nat, plan: seq<Choice>)
    requires cfg.resolver
    ensures Exec(cfg, w, ReconcilePush([], pushed, failed), plan)
         == Conf(w.(clock := w.clock + Head(plan).delay), Done(Reconciled(pushed, failed)))
  {
    ExecStep(cfg, w, ReconcilePush([], pushed, failed), plan);
    hide Exec, Phase, CreateStep, LimitsStep, IssueStep, RevokeStep, StatusStep;
    ExecEnd(cfg, w.(clock := w.clock + Head(plan).delay), Reconciled(pushed, failed), Tail(plan));
  }

  // ---------- the override, key by key ----------

  /** Different rows are different accounts. */
  predicate Distinct(rows: seq<Tenant>) {
    forall i, j | 0 <= i < j < |rows| :: rows[i].accountJwt.claims.subject != rows[j].accountJwt.claims.subject
  }

  /** The outcome of the push of row `i`. */
  function PushOutcome(plan: seq<Choice>, i: nat): Outcome {
    if i < |plan| then plan[i].outcome else Ok
  }

  /** Whose token the loop leaves at `key`: the active row with that subject, if its push
      took effect; for any other key there is no entry. */
  lemma {:induction false} PushedAt(rows: seq<Tenant>, plan: seq<Choice>, key: PublicKey)
    requires Distinct(rows)
    ensures forall i | 0 <= i < |rows| && rows[i].accountJwt.claims.subject == key ::
      if rows[i].status == Active && !PushOutcome(plan, i).Failed?
      then key in PushedBy(rows, plan) && PushedBy(rows, plan)[key] == rows[i].accountJwt
      else key !in PushedBy(rows, plan)
    ensures (forall i | 0 <= i < |rows| :: rows[i].accountJwt.claims.subject != key) ==> key !in PushedBy(rows, plan)
    decreases |rows|
  {
    if rows == [] {
    } else {
      PushedAt(rows[1..], Tail(plan), key);
      assert forall i | 0 < i < |rows| ::
        rows[i] == rows[1..][i - 1] && PushOutcome(plan, i) == PushOutcome(Tail(plan), i - 1);
    }
  }

  /** Both lists hold the same rows, and every row meets the same outcome in either order. */
  ghost predicate Reordered(rows: seq<Tenant>, plan: seq<Choice>, rows': seq<Tenant>, plan': seq<Choice>) {
    && Distinct(rows) && Distinct(rows')
    && (forall t :: t in rows <==> t in rows')
    && (forall i, j | 0 <= i < |rows| && 0 <= j < |rows'| && rows[i] == rows'[j] ::
       PushOutcome(plan, i) == PushOutcome(plan', j))
  }

  lemma PushedSubset(rows: seq<Tenant>, plan: seq<Choice>, rows': seq<Tenant>, plan': seq<Choice>)
    requires Reordered(rows, plan, rows', plan')
    ensures forall key | key in PushedBy(rows, plan) ::
      key in PushedBy(rows', plan') && PushedBy(rows', plan')[key] == PushedBy(rows, plan)[key]
  {
    forall key | key in PushedBy(rows, plan)
      ensures key in PushedBy(rows', plan') && PushedBy(rows', plan')[key] == PushedBy(rows, plan)[key]
    {
      PushedAt(rows, plan, key);
      PushedAt(rows', plan', key);
      var i :| 0 <= i < |rows| && rows[i].accountJwt.claims.subject == key;
      assert rows[i] in rows';
      var j :| 0 <= j < |rows'| && rows'[j] == rows[i];
    }
  }

  /** The active rows whose push replied ok, as a set. */
  ghost function OkSet(rows: seq<Tenant>, plan: seq<Choice>): set<Tenant> {
    set i | 0 <= i < |rows| && rows[i].status == Active && PushOutcome(plan, i).Ok? :: rows[i]
  }

  lemma OkSetTurn(rows: seq<Tenant>, plan: seq<Choice>)
    requires rows != [] && Distinct(rows)
    ensures rows[0] !in OkSet(rows[1..], Tail(plan))
    ensures OkSet(rows, plan)
         == OkSet(rows[1..], Tail(plan))
           + (if rows[0].status == Active && Head(plan).outcome.Ok? then {rows[0]} else {})
  {
    var rest, after := rows[1..], Tail(plan);
    assert forall i | 0 <= i < |rest| :: rest[i] == rows[i + 1] && rest[i] != rows[0];
    assert forall i: nat :: PushOutcome(after, i) == PushOutcome(plan, i + 1);
    assert PushOutcome(plan, 0) == Head(plan).outcome;
    hide PushOutcome, Head, Tail;
    forall t | t in OkSet(rows, plan) && t != rows[0] ensures t in OkSet(rest, after) {
      var i :| 0 <= i < |rows| && rows[i] == t && rows[i].status == Active && PushOutcome(plan, i).Ok?;
      assert rest[i - 1] == t && PushOutcome(after, i - 1).Ok?;
    }
    forall t | t in OkSet(rest, after) ensures t in OkSet(rows, plan) {
      var i :| 0 <= i < |rest| && rest[i] == t && rest[i].status == Active && PushOutcome(after, i).Ok?;
      assert rows[i + 1] == t && PushOutcome(plan, i + 1).Ok?;
    }
  }

  lemma {:induction false} OkCountIsSize(rows: seq<Tenant>, plan: seq<Choice>)
    requires Distinct(rows)
    ensures OkCount(rows, plan) == |OkSet(rows, plan)|
    decreases |rows|
  {
    if rows == [] {
      assert OkSet(rows, plan) == {};
    } else {
      OkSetTurn(rows, plan);
      OkCountIsSize(rows[1..], Tail(plan));
      hide OkSet;
    }
  }

  /** Whatever pushes fail or lose their reply, the order of the rows does not matter: when every
      row meets the same outcome, the loop leaves the same entries and reports the same counts. */
  lemma OrderIsIrrelevant(cfg: Config, w: World, rows: seq<Tenant>, plan: seq<Choice>, rows': seq<Tenant>,
      plan': seq<Choice>)
    requires cfg.resolver && Reordered(rows, plan, rows', plan')
    ensures var r := Exec(cfg, w, ReconcilePush(rows, 0, 0), plan);
      var r' := Exec(cfg, w, ReconcilePush(rows', 0, 0), plan');
      r'.w == r.w.(clock := r'.w.clock) && r'.l == r.l
  {
    hide Exec, ActiveCount, OkCount;
    LoopIsOverride(cfg, w, rows, 0, 0, plan);
    LoopIsOverride(cfg, w, rows', 0, 0, plan');
    SameEntries(rows, plan, rows', plan');
    SameCounts(rows, plan, rows', plan');
  }

  lemma SameEntries(rows: seq<Tenant>, plan: seq<Choice>, rows': seq<Tenant>, plan': seq<Choice>)
    requires Reordered(rows, plan, rows', plan')
    ensures PushedBy(rows, plan) == PushedBy(rows', plan')
  {
    PushedSubset(rows, plan, rows', plan');
    PushedSubset(rows', plan', rows, plan);
  }

  lemma SameOkCount(rows: seq<Tenant>, plan: seq<Choice>, rows': seq<Tenant>, plan': seq<Choice>)
    requires Reordered(rows, plan, rows', plan')
    ensures OkCount(rows, plan) == OkCount(rows', plan')
  {
    OkCountIsSize(rows, plan);
    OkCountIsSize(rows', plan');
    OkSubset(rows, plan, rows', plan');
    OkSubset(rows', plan', rows, plan);
    hide OkSet, OkCount;
    assert OkSet(rows, plan) == OkSet(rows', plan');
  }

  lemma OkSubset(rows: seq<Tenant>, plan: seq<Choice>, rows': seq<Tenant>, plan': seq<Choice>)
    requires Reordered(rows, plan, rows', plan')
    ensures OkSet(rows, plan) <= OkSet(rows', plan')
  {
    hide PushOutcome;
    forall t | t in OkSet(rows, plan) ensures t in OkSet(rows', plan') {
      var i :| 0 <= i < |rows| && rows[i] == t && rows[i].status == Active && PushOutcome(plan, i).Ok?;
      assert t in rows';
      var j :| 0 <= j < |rows'| && rows'[j] == t;
    }
  }

  /** The active rows are those that a loop in which nothing fails would push. */
  lemma SameCounts(rows: seq<Tenant>, plan: seq<Choice>, rows': seq<Tenant>, plan': seq<Choice>)
    requires Reordered(rows, plan, rows', plan')
    ensures ActiveCount(rows) == ActiveCount(rows') && OkCount(rows, plan) == OkCount(rows', plan')
  {
    SameOkCount(rows, plan, rows', plan');
    assert Reordered(rows, [], rows', []);
    SameOkCount(rows, [], rows', []);
    CleanCountsAll(rows, []);
    CleanCountsAll(rows', []);
  }

  // ---------- reachable states ----------

  lemma {:induction false} ListingIsDistinct(cfg: Config, w: World, H: set<Holding>, n: nat)
    requires WorldOk(cfg, w, H)
    ensures Distinct(Listing(w.tenants, n))
    decreases n
  {
    hide WorldOk;
    if n == 0 {
    } else {
      ListingIsDistinct(cfg, w, H, n - 1);
      var rest := Listing(w.tenants, n - 1);
      if n - 1 in w.tenants && w.tenants[n - 1].status != Deleted {
        forall k | 0 <= k < |rest|
          ensures rest[k].accountJwt.claims.subject != w.tenants[n - 1].accountJwt.claims.subject
        {
          assert rest[k] in rest;
          ListingMember(w.tenants, n - 1, rest[k]);
          var id: Id :| id < n - 1 && id in w.tenants && w.tenants[id] == rest[k];
          DifferentRows(cfg, w, H, id, n - 1);
        }
      }
    }
  }

  lemma DifferentRows(cfg: Config, w: World, H: set<Holding>, i: Id, j: Id)
    requires WorldOk(cfg, w, H) && i in w.tenants && j in w.tenants && i != j
    ensures w.tenants[i].accountJwt.claims.subject == w.tenants[i].accountKey
    ensures w.tenants[i].accountJwt.claims.subject != w.tenants[j].accountJwt.claims.subject
  {
    RowFacts(cfg, w, H, i);
    RowFacts(cfg, w, H, j);
  }

  ghost function ActiveIds(tenants: map<Id, Tenant>): set<Id> {
    set id | id in tenants && tenants[id].status == Active
  }

  lemma {:induction false} ListingCounts(tenants: map<Id, Tenant>, n: nat)
    ensures ActiveCount(Listing(tenants, n)) == |set id | id in ActiveIds(tenants) && id < n|
    decreases n
  {
    var upTo := set id | id in ActiveIds(tenants) && id < n;
    if n == 0 {
      assert upTo == {};
    } else {
      ListingCounts(tenants, n - 1);
      var fewer := set id | id in ActiveIds(tenants) && id < n - 1;
      if n - 1 in ActiveIds(tenants) {
        assert upTo == fewer + {n - 1};
      } else {
        assert upTo == fewer;
      }
    }
  }

  /** ReconcileAll begun on `w`: the listing is read, then the loop runs over it. */
  lemma ListingIsRead(cfg: Config, w: World, plan: seq<Choice>)
    requires cfg.resolver && Head(plan).outcome.Ok?
    ensures Exec(cfg, w, ReconcileList, plan)
         == Exec(cfg, w.(clock := w.clock + Head(plan).delay), ReconcilePush(Listing(w.tenants, w.next), 0, 0),
           Tail(plan))
  {
    ExecStep(cfg, w, ReconcileList, plan);
    hide Exec, Phase, Listing, CreateStep, LimitsStep, IssueStep, RevokeStep, StatusStep;
  }

  /** `key` has the entry it had, or still none. */
  predicate Untouched(before: Entries, after: Entries, key: PublicKey) {
    (key in before <==> key in after) && (key in before && key in after ==> before[key] == after[key])
  }

  /** ReconcileAll over any reachable state, any of its pushes failing or losing its reply:
      an active tenant whose push took effect ends with its row's token, every other key is
      untouched, and every active tenant is counted exactly once, as pushed only on a good reply. */
  lemma ReconcileRefinesOverride(cfg: Config, es: seq<Event>, plan: seq<Choice>)
    requires cfg.resolver && Head(plan).outcome.Ok?
    ensures var w := Run(cfg, es).w; var rows := Listing(w.tenants, w.next);
      var r := Exec(cfg, w, ReconcileList, plan);
      && r.w == w.(clock := r.w.clock, resolver := r.w.resolver)
      && r.l.Done? && r.l.result.Reconciled?
      && r.l.result.pushed == OkCount(rows, Tail(plan))
      && r.l.result.pushed + r.l.result.failed == |ActiveIds(w.tenants)|
      && (forall i | 0 <= i < |rows| && rows[i].status == Active ::
            if PushOutcome(Tail(plan), i).Failed? then Untouched(w.resolver, r.w.resolver, rows[i].accountKey)
            else rows[i].accountKey in r.w.resolver && r.w.resolver[rows[i].accountKey] == rows[i].accountJwt)
      && (forall key | (forall id | id in ActiveIds(w.tenants) :: w.tenants[id].accountKey != key) ::
            Untouched(w.resolver, r.w.resolver, key))
  {
    var w := Run(cfg, es).w;
    var rows := Listing(w.tenants, w.next);
    RunKeeps(cfg, es);
    var H := HeldUpTo(cfg, es);
    hide WorldOk, Exec, Run, HeldUpTo, Listing, PushedBy, OkCount, ActiveCount;
    ListingIsRead(cfg, w, plan);
    LoopIsOverride(cfg, w.(clock := w.clock + Head(plan).delay), rows, 0, 0, Tail(plan));
    ListingIsDistinct(cfg, w, H, w.next);
    ListingCounts(w.tenants, w.next);
    AllIdsBelowNext(cfg, w, H);
    RowsNameTheirKey(cfg, w, H);
    forall i | 0 <= i < |rows| && rows[i].status == Active
      ensures
        var r := Exec(cfg, w, ReconcileList, plan);
        if PushOutcome(Tail(plan), i).Failed? then Untouched(w.resolver, r.w.resolver, rows[i].accountKey)
        else rows[i].accountKey in r.w.resolver && r.w.resolver[rows[i].accountKey] == rows[i].accountJwt
    {
      PushedAt(rows, Tail(plan), rows[i].accountKey);
    }
    forall key | forall id | id in ActiveIds(w.tenants) :: w.tenants[id].accountKey != key
      ensures key !in PushedBy(rows, Tail(plan))
    {
      PushedAt(rows, Tail(plan), key);
    }
  }

  lemma AllIdsBelowNext(cfg: Config, w: World, H: set<Holding>)
    requires WorldOk(cfg, w, H)
    ensures (set id | id in ActiveIds(w.tenants) && id < w.next) == ActiveIds(w.tenants)
  {
    RowIdsAreTaken(cfg, w, H);
    hide WorldOk;
  }

  /** Every listed row is a visible row of the table, and its token's subject is its key. */
  lemma RowsNameTheirKey(cfg: Config, w: World, H: set<Holding>)
    requires WorldOk(cfg, w, H)
    ensures var rows := Listing(w.tenants, w.next);
      forall i | 0 <= i < |rows| ::
        rows[i].accountJwt.claims.subject == rows[i].accountKey && rows[i].id in w.tenants
          && w.tenants[rows[i].id] == rows[i]
    ensures forall id | id in ActiveIds(w.tenants) :: w.tenants[id] in Listing(w.tenants, w.next)
  {
    hide WorldOk, Listing;
    var rows := Listing(w.tenants, w.next);
    forall i | 0 <= i < |rows|
      ensures rows[i].accountJwt.claims.subject == rows[i].accountKey && rows[i].id in w.tenants
        && w.tenants[rows[i].id] == rows[i]
    {
      assert rows[i] in rows;
      ListingMember(w.tenants, w.next, rows[i]);
      var id: Id :| id in w.tenants && w.tenants[id] == rows[i];
      RowFacts(cfg, w, H, id);
    }
    forall id | id in ActiveIds(w.tenants) ensures w.tenants[id] in rows {
      RowFacts(cfg, w, H, id);
      ListingMember(w.tenants, w.next, w.tenants[id]);
    }
  }

  /** The resolver holds the current token of every active tenant. */
  ghost predicate HoldsActive(w: World) {
    forall id | id in ActiveIds(w.tenants) ::
      w.tenants[id].accountKey in w.resolver && w.resolver[w.tenants[id].accountKey] == w.tenants[id].accountJwt
  }

  /** A failure-free ReconcileAll, from any reachable state, brings the resolver up to date,
      whatever it held: pushed counts every active tenant and no push failed. */
  lemma CleanReconcileRestores(cfg: Config, es: seq<Event>, plan: seq<Choice>)
    requires cfg.resolver && Clean(plan)
    ensures var w := Run(cfg, es).w; var r := Exec(cfg, w, ReconcileList, plan);
      && r.w == w.(clock := r.w.clock, resolver := r.w.resolver)
      && r.l == Done(Reconciled(|ActiveIds(w.tenants)|, 0))
      && HoldsActive(r.w)
  {
    var w := Run(cfg, es).w;
    var rows := Listing(w.tenants, w.next);
    CleanTail(plan);
    hide Exec, Run, HeldUpTo, Listing, Untouched, OkCount, ActiveCount, Inv;
    ReconcileRefinesOverride(cfg, es, plan);
    CleanReconcilePlan(cfg, es, plan);
    var r := Exec(cfg, w, ReconcileList, plan);
    forall id | id in ActiveIds(w.tenants)
      ensures w.tenants[id].accountKey in r.w.resolver
        && r.w.resolver[w.tenants[id].accountKey] == w.tenants[id].accountJwt
    {
      var i :| 0 <= i < |rows| && rows[i] == w.tenants[id];
    }
  }

  lemma CleanReconcilePlan(cfg: Config, es: seq<Event>, plan: seq<Choice>)
    requires Clean(plan)
    ensures var w := Run(cfg, es).w; var rows := Listing(w.tenants, w.next);
      && OkCount(rows, Tail(plan)) == |ActiveIds(w.tenants)|
      && (forall i | 0 <= i < |rows| :: PushOutcome(Tail(plan), i).Ok?)
      && (forall id | id in ActiveIds(w.tenants) :: w.tenants[id] in rows)
  {
    var w := Run(cfg, es).w;
    CleanTail(plan);
    RunKeeps(cfg, es);
    hide Exec, Run, HeldUpTo, Listing, WorldOk, OkCount, ActiveCount;
    RowsNameTheirKey(cfg, w, HeldUpTo(cfg, es));
    ListingCounts(w.tenants, w.next);
    AllIdsBelowNext(cfg, w, HeldUpTo(cfg, es));
    CleanCountsAll(Listing(w.tenants, w.next), Tail(plan));
  }

  lemma {:induction false} CleanCountsAll(rows: seq<Tenant>, plan: seq<Choice>)
    requires Clean(plan)
    ensures OkCount(rows, plan) == ActiveCount(rows)
  {
    if rows == [] {
    } else {
      CleanCountsAll(rows[1..], Tail(plan));
    }
  }

  /** The resolver rejects every user of an active tenant whose credential is marked as revoked. */
  ghost predicate RejectsMarked(w: World) {
    forall cid | cid in w.creds && w.creds[cid].revokedAt.Some? && w.creds[cid].tenantId in ActiveIds(w.tenants) ::
      var key := w.creds[cid].userJwt.issuerAccount;
      key in w.resolver && Rejects(w.resolver[key], w.creds[cid].userJwt)
  }

  /** End-to-end recovery. Take any run, with failures, lost replies, crashes and a resolver
      that loses entries, in which no token write-back did harm. After one failure-free
      ReconcileAll the resolver holds every active tenant's current token, and it rejects
      every user of an active tenant whose credential is marked as revoked. */
  lemma Recovers(cfg: Config, es: seq<Event>, plan: seq<Choice>)
    requires cfg.resolver && Clean(plan) && MarksKept(cfg, es)
    ensures HoldsActive(Exec(cfg, Run(cfg, es).w, ReconcileList, plan).w)
    ensures RejectsMarked(Exec(cfg, Run(cfg, es).w, ReconcileList, plan).w)
  {
    CleanReconcileRestores(cfg, es, plan);
    assert MarkedAreRejected(Run(cfg, es).w) by {
      RejectedAt(cfg, es, |es|);
      assert es[..|es|] == es;
    }
    SigningChain(cfg, es);
    hide Exec, Run, Rejects, Clean, MarksKept;
  }

  /** A second failure-free ReconcileAll finds nothing to change. */
  lemma SecondReconcileChangesNothing(cfg: Config, es: seq<Event>, i: Id, first: seq<Choice>, second: seq<Choice>)
    requires cfg.resolver && Clean(first) && Clean(second) && i !in Run(cfg, es).ops
    ensures var w1 := Exec(cfg, Run(cfg, es).w, ReconcileList, first).w;
      var w2 := Exec(cfg, w1, ReconcileList, second).w; w2 == w1.(clock := w2.clock)
  {
    var m := Run(cfg, es);
    var served := [Begin(i, ReconcileAll)] + Script(cfg, m.w, ReconcileList, i, first);
    hide Exec, RunFrom, HoldsActive, Script, Clean;
    CleanReconcileRestores(cfg, es, first);
    ServedAlone(cfg, m, i, ReconcileAll, first);
    RunFromCat(cfg, EMPTY, es, served);
    ReconcileKeepsCurrent(cfg, es + served, second);
  }

  /** A failure-free ReconcileAll over an up-to-date resolver changes nothing; over an empty
      one it leaves exactly the active tenants. */
  lemma ReconcileKeepsCurrent(cfg: Config, es: seq<Event>, plan: seq<Choice>)
    requires cfg.resolver && Clean(plan)
    ensures var w := Run(cfg, es).w; var r := Exec(cfg, w, ReconcileList, plan).w;
      && (HoldsActive(w) ==> r == w.(clock := r.clock))
      && (w.resolver == map[] ==> forall key | key in r.resolver ::
            exists id :: id in ActiveIds(w.tenants) && w.tenants[id].accountKey == key)
  {
    var w := Run(cfg, es).w;
    var r := Exec(cfg, w, ReconcileList, plan).w;
    CleanTail(plan);
    ReconcileRefinesOverride(cfg, es, plan);
    CleanReconcileRestores(cfg, es, plan);
    hide Exec, Run;
    forall key | HoldsActive(w) ensures Untouched(w.resolver, r.resolver, key) {
      if id: Id :| id in ActiveIds(w.tenants) && w.tenants[id].accountKey == key {
        assert HoldsActive(r);
      }
    }
    if HoldsActive(w) {
      forall key: PublicKey ensures (key in w.resolver <==> key in r.resolver)
                                 && (key in w.resolver ==> w.resolver[key] == r.resolver[key])
      {
        assert Untouched(w.resolver, r.resolver, key);
      }
      assert w.resolver == r.resolver;
    }
    if w.resolver == map[] {
      forall key | key in r.resolver
        ensures exists id :: id in ActiveIds(w.tenants) && w.tenants[id].accountKey == key
      {
        assert (forall id | id in ActiveIds(w.tenants) :: w.tenants[id].accountKey != key)
           ==> Untouched(w.resolver, r.resolver, key);
      }
    }
  }
}
