/** Create and its compensation: when it is all or nothing to Get and List, and the name
    and slug a failed attempt keeps. */
module Creation {
  import opened Wrappers
  import opened Domain
  import opened Protocol
  import opened Effects
  import opened History
  import opened Revocations
  import opened Alone
  import opened Races
  import Slug

  function OutcomeAt(plan: seq<Choice>, k: nat): Outcome {
    if k < |plan| then plan[k].outcome else Ok
  }

  /** The row is inserted: a slug, a fresh name and slug, and an INSERT that takes effect. */
  predicate Inserts(w: World, req: CreateRequest, plan: seq<Choice>) {
    && Slug.MatchString(req.slug) && OutcomeAt(plan, 0).Ok?
    && Insertable(w, req.name, req.slug) && !OutcomeAt(plan, 1).Failed?
  }

  /** After the insertion, every statement replies ok. */
  predicate Finishes(cfg: Config, plan: seq<Choice>) {
    OutcomeAt(plan, 1).Ok? && OutcomeAt(plan, 2).Ok? && (cfg.resolver ==> OutcomeAt(plan, 3).Ok?)
  }

  /** The INSERT replied ok and a later statement did not; the soft delete that follows, the
      statement after the failing one, took effect. */
  predicate Compensates(cfg: Config, plan: seq<Choice>) {
    && OutcomeAt(plan, 1).Ok? && !Finishes(cfg, plan)
    && !OutcomeAt(plan, if OutcomeAt(plan, 2).Ok? then 4 else 3).Failed?
  }

  /** What Get and List see. */
  function VisibleRows(w: World): map<Id, Tenant> {
    map id | id in w.tenants && w.tenants[id].status != Deleted :: w.tenants[id]
  }

  /** `r` is the end of a Create that had inserted `t` into `w`. */
  predicate Ended(cfg: Config, w: World, t: Tenant, seed: Seed, done: bool, undone: bool, r: Conf) {
    && r.w.tenants == w.tenants[t.id := if undone then t.(status := Deleted) else t]
    && r.w.creds == w.creds
    && r.l == Done(if done then Created(t, seed) else Failure(Internal))
  }

  predicate HasSeed(cfg: Config, w: World, id: Id, seed: Seed) {
    id in w.seeds && Decrypt(cfg.master, w.seeds[id].encryptedSeed, w.seeds[id].nonce) == Some(seed)
  }

  /** With a resolver, the token of `t` is what `w'` adds to the entries of `w`. */
  predicate IsPushed(cfg: Config, w: World, t: Tenant, w': World) {
    w'.resolver == if cfg.resolver then w.resolver[t.accountJwt.claims.subject := t.accountJwt] else w.resolver
  }

  lemma UndoEnds(cfg: Config, w: World, t: Tenant, plan: seq<Choice>)
    requires t.id in w.tenants && w.tenants[t.id] == t
    ensures Ended(cfg, w, t, 0, false, !OutcomeAt(plan, 0).Failed?, Exec(cfg, w, CreateUndo(t.id), plan))
  {
    hide Exec, Go;
    ExecStep(cfg, w, CreateUndo(t.id), plan);
    CreateGoes(cfg, w, CreateUndo(t.id), Head(plan));
    var n := Go(cfg, w, CreateUndo(t.id), Head(plan));
    ExecEnd(cfg, n.w, Failure(Internal), Tail(plan));
    assert w.tenants[t.id := t] == w.tenants;
  }

  lemma PushEnds(cfg: Config, w: World, t: Tenant, seed: Seed, plan: seq<Choice>)
    requires t.id in w.tenants && w.tenants[t.id] == t
    ensures var done := cfg.resolver ==> OutcomeAt(plan, 0).Ok?;
      var r := Exec(cfg, w, CreatePush(t, seed), plan);
      && Ended(cfg, w, t, seed, done, !done && !OutcomeAt(plan, 1).Failed?, r)
      && (done ==> r.w.seeds == w.seeds && IsPushed(cfg, w, t, r.w))
  {
    hide Exec, Go;
    ExecStep(cfg, w, CreatePush(t, seed), plan);
    CreateGoes(cfg, w, CreatePush(t, seed), Head(plan));
    var n := Go(cfg, w, CreatePush(t, seed), Head(plan));
    if n.l.Done? {
      ExecEnd(cfg, n.w, n.l.result, Tail(plan));
      assert w.tenants[t.id := t] == w.tenants;
    } else {
      assert OutcomeAt(Tail(plan), 0) == OutcomeAt(plan, 1);
      UndoEnds(cfg, n.w, t, Tail(plan));
    }
  }

  lemma SaveEnds(cfg: Config, w: World, t: Tenant, seed: Seed, plan: seq<Choice>)
    requires t.id in w.tenants && w.tenants[t.id] == t
    ensures var done := OutcomeAt(plan, 0).Ok? && (cfg.resolver ==> OutcomeAt(plan, 1).Ok?);
      var r := Exec(cfg, w, CreateSave(t, seed), plan);
      && Ended(cfg, w, t, seed, done, !done && !OutcomeAt(plan, if OutcomeAt(plan, 0).Ok? then 2 else 1).Failed?, r)
      && (done ==> HasSeed(cfg, r.w, t.id, seed) && IsPushed(cfg, w, t, r.w))
  {
    hide Exec, Go;
    ExecStep(cfg, w, CreateSave(t, seed), plan);
    CreateGoes(cfg, w, CreateSave(t, seed), Head(plan));
    var n := Go(cfg, w, CreateSave(t, seed), Head(plan));
    assert OutcomeAt(Tail(plan), 0) == OutcomeAt(plan, 1) && OutcomeAt(Tail(plan), 1) == OutcomeAt(plan, 2);
    if n.l.CreateUndo? {
      UndoEnds(cfg, n.w, t, Tail(plan));
    } else {
      PushEnds(cfg, n.w, t, seed, Tail(plan));
    }
  }

  /** The row Create is about to insert. */
  function NewRow(cfg: Config, w: World, req: CreateRequest, plan: seq<Choice>): Tenant {
    var now := w.clock + Head(plan).delay;
    var key := PublicKeyOf(w.next);
    Tenant(w.next + 1, req.name, req.slug, key, SignAccountClaims(cfg.operator, CreateClaims(req, key, now), now),
      req.columns, Active)
  }

  /** Everything about the end `r` of a Create begun on `w`, from the outcomes alone. */
  predicate CreateResult(cfg: Config, w: World, req: CreateRequest, plan: seq<Choice>, r: Conf) {
    var t := NewRow(cfg, w, req, plan);
    if Inserts(w, req, plan) then
      && Ended(cfg, w, t, w.next, Finishes(cfg, plan), Compensates(cfg, plan), r)
      && (Finishes(cfg, plan) ==> HasSeed(cfg, r.w, t.id, w.next) && IsPushed(cfg, w, t, r.w))
    else
      r.l.Done? && r.l.result.Failure? && r.w == w.(clock := r.w.clock, next := r.w.next)
  }

  lemma CreateEnds(cfg: Config, w: World, req: CreateRequest, plan: seq<Choice>)
    requires w.next + 1 !in w.tenants
    ensures CreateResult(cfg, w, req, plan, Exec(cfg, w, CreateCheck(req), plan))
  {
    hide Exec, Go, Insertable, Slug.MatchString;
    ExecStep(cfg, w, CreateCheck(req), plan);
    CreateGoes(cfg, w, CreateCheck(req), Head(plan));
    var n := Go(cfg, w, CreateCheck(req), Head(plan));
    if n.l.Done? {
      hide HasSeed, Ended, IsPushed, NewRow;
      ExecEnd(cfg, n.w, n.l.result, Tail(plan));
    } else {
      hide HasSeed, Ended, IsPushed, CreateResult;
      InsertEnds(cfg, w, req, plan, n);
    }
  }

  lemma InsertEnds(cfg: Config, w: World, req: CreateRequest, plan: seq<Choice>, n: Conf)
    requires w.next + 1 !in w.tenants && Slug.MatchString(req.slug) && OutcomeAt(plan, 0).Ok?
    requires n == Conf(w.(clock := w.clock + Head(plan).delay, next := w.next + 1),
                       CreateInsert(req, w.next, NewRow(cfg, w, req, plan).accountJwt))
    ensures CreateResult(cfg, w, req, plan, Exec(cfg, n.w, n.l, Tail(plan)))
  {
    hide Exec, Go, Insertable, Slug.MatchString;
    var p1 := Tail(plan);
    SameInsertable(w, n.w, req);
    LaterInsertable(n.w, Head(p1).delay, req);
    assert OutcomeAt(plan, 1) == Head(p1).outcome;
    ExecStep(cfg, n.w, n.l, p1);
    CreateGoes(cfg, n.w, n.l, Head(p1));
    var n2 := Go(cfg, n.w, n.l, Head(p1));
    if Inserts(w, req, plan) {
      hide HasSeed, Ended, IsPushed;
      InsertedEnds(cfg, w, req, plan, n2, Tail(p1));
    } else {
      hide HasSeed, Ended, IsPushed, NewRow;
      ExecEnd(cfg, n2.w, n2.l.result, Tail(p1));
    }
  }

  lemma InsertedEnds(cfg: Config, w: World, req: CreateRequest, plan: seq<Choice>, n: Conf, rest: seq<Choice>)
    requires Inserts(w, req, plan) && rest == Tail(Tail(plan))
    requires var t := NewRow(cfg, w, req, plan);
      && n.w == w.(clock := n.w.clock, next := w.next + 2, tenants := w.tenants[t.id := t])
      && n.l == if OutcomeAt(plan, 1).Ok? then CreateSave(t, w.next) else Done(Failure(Internal))
    ensures CreateResult(cfg, w, req, plan, Exec(cfg, n.w, n.l, rest))
  {
    hide Exec, Inserts, HasSeed, NewRow, Head, Tail, OutcomeAt;
    var t := NewRow(cfg, w, req, plan);
    OutcomesShift(plan);
    if n.l.Done? {
      hide IsPushed;
      ExecEnd(cfg, n.w, Failure(Internal), rest);
    } else {
      SaveEnds(cfg, n.w, t, w.next, rest);
      assert n.w.tenants[t.id := t] == w.tenants[t.id := t];
      assert n.w.tenants[t.id := t.(status := Deleted)] == w.tenants[t.id := t.(status := Deleted)];
    }
  }

  // ---------- what it means to callers ----------

  lemma IdIsNew(cfg: Config, es: seq<Event>)
    ensures var w := Run(cfg, es).w; w.next + 1 !in w.tenants
  {
    RunKeeps(cfg, es);
    RowIdsAreTaken(cfg, Run(cfg, es).w, HeldUpTo(cfg, es));
  }

  /** The limits of a new account: a connection or subscription column that is not positive means
      no limit, which the token writes as minus one. */
  predicate FirstLimits(limits: AccountLimits, c: Columns) {
    && limits.jetStream == JetStreamLimits(c.memory, c.disk, c.streams, c.consumers)
    && limits.conn == (if c.connections > 0 then c.connections else -1)
    && limits.subs == (if c.subscriptions > 0 then c.subscriptions else -1)
  }

  /** A Create that reports success has made exactly one tenant: active, its sealed seed
      opening to the seed of its key, its token at the resolver when there is one, and no
      other row or credential touched. */
  lemma CreatedIsComplete(cfg: Config, es: seq<Event>, req: CreateRequest, plan: seq<Choice>)
    requires Exec(cfg, Run(cfg, es).w, CreateCheck(req), plan).l.result.Created?
    ensures var w := Run(cfg, es).w; var r := Exec(cfg, w, CreateCheck(req), plan);
      var t, seed := r.l.result.tenant, r.l.result.seed;
      && Slug.IsSlug(req.slug) && t.name == req.name && t.slug == req.slug && t.columns == req.columns
      && t.id !in w.tenants && r.w.tenants == w.tenants[t.id := t] && r.w.creds == w.creds
      && t.status == Active && t.accountKey == PublicKeyOf(seed) && t.accountJwt.claims.subject == t.accountKey
      && RowLimitsMatch(t) && HasSeed(cfg, r.w, t.id, seed) && IsPushed(cfg, w, t, r.w)
      && t.accountJwt.claims.name == req.name && t.accountJwt.claims.revocations == map[]
      && w.clock <= t.accountJwt.claims.issuedAt
      && t.accountJwt.claims.expires == t.accountJwt.claims.issuedAt + 31_536_000
      && FirstLimits(t.accountJwt.claims.limits, req.columns)
  {
    IdIsNew(cfg, es);
    CreateEnds(cfg, Run(cfg, es).w, req, plan);
    Slug.PatternAcceptsExactlySlugs(req.slug);
    hide Exec, Run, Slug.MatchString, Slug.IsSlug, HasSeed, IsPushed;
  }

  /** Exactly when a Create that does not finish leaves Get and List as they were: its
      INSERT had no effect, or the INSERT replied ok and the soft delete took effect. */
  lemma FailedCreateIsInvisible(cfg: Config, es: seq<Event>, req: CreateRequest, plan: seq<Choice>)
    requires !(Inserts(Run(cfg, es).w, req, plan) && Finishes(cfg, plan))
    ensures var w := Run(cfg, es).w; var r := Exec(cfg, w, CreateCheck(req), plan);
      && r.l.result.Failure?
      && (VisibleRows(r.w) == VisibleRows(w) <==> !Inserts(w, req, plan) || Compensates(cfg, plan))
  {
    var w := Run(cfg, es).w;
    IdIsNew(cfg, es);
    CreateEnds(cfg, w, req, plan);
    hide Exec, Run, Inserts, Finishes, Compensates, HasSeed, IsPushed;
    var t := NewRow(cfg, w, req, plan);
    assert t.id !in VisibleRows(w);
  }

  // ---------- cut off anywhere ----------

  /** The tenants after `k` statements from the one at `l`, which has inserted `t`: the row as it
      is, or soft-deleted. */
  predicate LeavesRow(cfg: Config, w: World, t: Tenant, l: Local, plan: seq<Choice>, k: nat, undone: bool) {
    ExecFor(cfg, w, l, plan, k).w.tenants == if undone then w.tenants[t.id := t.(status := Deleted)] else w.tenants
  }

  lemma UndoCut(cfg: Config, w: World, t: Tenant, plan: seq<Choice>, k: nat)
    requires t.id in w.tenants && w.tenants[t.id] == t
    ensures LeavesRow(cfg, w, t, CreateUndo(t.id), plan, k, k >= 1 && !OutcomeAt(plan, 0).Failed?)
  {
    hide ExecFor, Go;
    ExecForStands(cfg, w, CreateUndo(t.id), plan, 0);
    if k >= 1 {
      ExecForStep(cfg, w, CreateUndo(t.id), plan, k - 1);
      CreateGoes(cfg, w, CreateUndo(t.id), Head(plan));
      var n := Go(cfg, w, CreateUndo(t.id), Head(plan));
      ExecForStands(cfg, n.w, n.l, Tail(plan), k - 1);
    }
  }

  lemma PushCut(cfg: Config, w: World, t: Tenant, seed: Seed, plan: seq<Choice>, k: nat)
    requires t.id in w.tenants && w.tenants[t.id] == t
    ensures LeavesRow(cfg, w, t, CreatePush(t, seed), plan, k,
              k >= 2 && cfg.resolver && !OutcomeAt(plan, 0).Ok? && !OutcomeAt(plan, 1).Failed?)
  {
    hide ExecFor, Go, Pushed;
    ExecForStands(cfg, w, CreatePush(t, seed), plan, 0);
    if k >= 1 {
      ExecForStep(cfg, w, CreatePush(t, seed), plan, k - 1);
      CreateGoes(cfg, w, CreatePush(t, seed), Head(plan));
      var n := Go(cfg, w, CreatePush(t, seed), Head(plan));
      if n.l.Done? {
        ExecForStands(cfg, n.w, n.l, Tail(plan), k - 1);
      } else {
        assert OutcomeAt(Tail(plan), 0) == OutcomeAt(plan, 1);
        UndoCut(cfg, n.w, t, Tail(plan), k - 1);
      }
    }
  }

  lemma SaveCut(cfg: Config, w: World, t: Tenant, seed: Seed, plan: seq<Choice>, k: nat)
    requires t.id in w.tenants && w.tenants[t.id] == t
    ensures LeavesRow(cfg, w, t, CreateSave(t, seed), plan, k,
              if OutcomeAt(plan, 0).Ok?
              then k >= 3 && cfg.resolver && !OutcomeAt(plan, 1).Ok? && !OutcomeAt(plan, 2).Failed?
              else k >= 2 && !OutcomeAt(plan, 1).Failed?)
  {
    hide ExecFor, Go, SeedSet;
    ExecForStands(cfg, w, CreateSave(t, seed), plan, 0);
    if k >= 1 {
      ExecForStep(cfg, w, CreateSave(t, seed), plan, k - 1);
      CreateGoes(cfg, w, CreateSave(t, seed), Head(plan));
      var n := Go(cfg, w, CreateSave(t, seed), Head(plan));
      assert OutcomeAt(Tail(plan), 0) == OutcomeAt(plan, 1) && OutcomeAt(Tail(plan), 1) == OutcomeAt(plan, 2);
      if n.l.CreateUndo? {
        UndoCut(cfg, n.w, t, Tail(plan), k - 1);
      } else {
        PushCut(cfg, n.w, t, seed, Tail(plan), k - 1);
      }
    }
  }

  /** The INSERT has taken effect within `k` statements; so has the soft delete. */
  predicate InsertedBy(w: World, req: CreateRequest, plan: seq<Choice>, k: nat) {
    k >= 2 && Inserts(w, req, plan)
  }

  predicate UndoneBy(cfg: Config, plan: seq<Choice>, k: nat) {
    Compensates(cfg, plan) && k >= if OutcomeAt(plan, 2).Ok? then 5 else 4
  }

  /** What a Create has left of the tenants after `k` statements. */
  predicate CutResult(cfg: Config, w: World, req: CreateRequest, plan: seq<Choice>, k: nat, tenants: map<Id, Tenant>) {
    var t := NewRow(cfg, w, req, plan);
    tenants == if !InsertedBy(w, req, plan, k) then w.tenants
               else w.tenants[t.id := if UndoneBy(cfg, plan, k) then t.(status := Deleted) else t]
  }

  lemma InsertCut(cfg: Config, w: World, req: CreateRequest, plan: seq<Choice>, n: Conf, k: nat)
    requires w.next + 1 !in w.tenants && Slug.MatchString(req.slug) && OutcomeAt(plan, 0).Ok?
    requires n == Conf(w.(clock := w.clock + Head(plan).delay, next := w.next + 1),
                       CreateInsert(req, w.next, NewRow(cfg, w, req, plan).accountJwt))
    ensures CutResult(cfg, w, req, plan, k + 1, ExecFor(cfg, n.w, n.l, Tail(plan), k).w.tenants)
  {
    hide ExecFor, Go, Insertable, Slug.MatchString;
    var p1 := Tail(plan);
    var t := NewRow(cfg, w, req, plan);
    ExecForStands(cfg, n.w, n.l, p1, 0);
    if k >= 1 {
      SameInsertable(w, n.w, req);
      assert OutcomeAt(plan, 1) == Head(p1).outcome;
      ExecForStep(cfg, n.w, n.l, p1, k - 1);
      CreateGoes(cfg, n.w, n.l, Head(p1));
      LaterInsertable(n.w, Head(p1).delay, req);
      var n2, p2 := Go(cfg, n.w, n.l, Head(p1)), Tail(p1);
      if n2.l.Done? {
        ExecForStands(cfg, n2.w, n2.l, p2, k - 1);
      } else {
        hide NewRow;
        OutcomesShift(plan);
        SaveCut(cfg, n2.w, t, w.next, p2, k - 1);
        assert n2.w.tenants[t.id := t.(status := Deleted)] == w.tenants[t.id := t.(status := Deleted)];
      }
    }
  }

  lemma SameInsertable(w: World, w': World, req: CreateRequest)
    requires w'.tenants == w.tenants
    ensures Insertable(w', req.name, req.slug) == Insertable(w, req.name, req.slug)
  {
  }

  lemma LaterInsertable(w: World, delay: nat, req: CreateRequest)
    ensures Insertable(w.(clock := w.clock + delay), req.name, req.slug) == Insertable(w, req.name, req.slug)
  {
  }

  lemma OutcomesShift(plan: seq<Choice>)
    ensures forall k: nat :: OutcomeAt(Tail(Tail(plan)), k) == OutcomeAt(plan, k + 2)
  {
  }

  lemma CreateCut(cfg: Config, w: World, req: CreateRequest, plan: seq<Choice>, k: nat)
    requires w.next + 1 !in w.tenants
    ensures CutResult(cfg, w, req, plan, k, ExecFor(cfg, w, CreateCheck(req), plan, k).w.tenants)
  {
    hide ExecFor, Go, Insertable, Slug.MatchString;
    ExecForStands(cfg, w, CreateCheck(req), plan, 0);
    if k >= 1 {
      ExecForStep(cfg, w, CreateCheck(req), plan, k - 1);
      CreateGoes(cfg, w, CreateCheck(req), Head(plan));
      var n := Go(cfg, w, CreateCheck(req), Head(plan));
      if n.l.Done? {
        ExecForStands(cfg, n.w, n.l, Tail(plan), k - 1);
      } else {
        hide CutResult;
        InsertCut(cfg, w, req, plan, n, k - 1);
      }
    }
  }

  /** Exactly when a Create leaves Get and List as they were, however its statements fare and
      wherever it is cut off: its INSERT has not taken effect, or its soft delete has. */
  lemma CutCreateIsInvisible(cfg: Config, es: seq<Event>, req: CreateRequest, plan: seq<Choice>, k: nat)
    ensures var w := Run(cfg, es).w; var r := ExecFor(cfg, w, CreateCheck(req), plan, k);
      VisibleRows(r.w) == VisibleRows(w) <==> !InsertedBy(w, req, plan, k) || UndoneBy(cfg, plan, k)
  {
    hide Run, ExecFor, InsertedBy, UndoneBy;
    var w := Run(cfg, es).w;
    IdIsNew(cfg, es);
    CreateCut(cfg, w, req, plan, k);
    var t := NewRow(cfg, w, req, plan);
    assert t.id !in VisibleRows(w);
  }

  // ---------- names are never reused ----------

  lemma {:induction false} RowsPersist(cfg: Config, es: seq<Event>, j: nat, id: Id)
    requires j <= |es| && id in Run(cfg, es[..j]).w.tenants
    ensures id in Run(cfg, es).w.tenants && SameIdentity(Run(cfg, es[..j]).w.tenants[id], Run(cfg, es).w.tenants[id])
    decreases |es|
  {
    hide Step, Inv;
    if j == |es| {
      assert es[..j] == es;
    } else {
      var before := es[..|es| - 1];
      assert before[..j] == es[..j];
      RowsPersist(cfg, before, j, id);
      RunKeeps(cfg, before);
      StepKeeps(cfg, Run(cfg, before), HeldUpTo(cfg, before), es[|es| - 1]);
    }
  }

  /** Once any row has taken a name or slug, were it soft-deleted by its own failed Create
      at once, no later Create with that name or slug ever succeeds or inserts a row: a
      compensated Create cannot be retried. */
  lemma TakenNamesStayTaken(cfg: Config, es: seq<Event>, j: nat, id: Id, req: CreateRequest, plan: seq<Choice>)
    requires j <= |es| && id in Run(cfg, es[..j]).w.tenants
    requires var t := Run(cfg, es[..j]).w.tenants[id]; t.name == req.name || t.slug == req.slug
    ensures var r := Exec(cfg, Run(cfg, es).w, CreateCheck(req), plan);
      r.l.result.Failure? && r.w.tenants == Run(cfg, es).w.tenants
  {
    RowsPersist(cfg, es, j, id);
    IdIsNew(cfg, es);
    CreateEnds(cfg, Run(cfg, es).w, req, plan);
    hide Exec, Run, Finishes, Compensates, Ended;
    assert !Inserts(Run(cfg, es).w, req, plan);
  }

  // ---------- the order of creation ----------

  lemma StepInserts(cfg: Config, m: Machine, e: Event, id: Id)
    requires id in Step(cfg, m, e).w.tenants && id !in m.w.tenants
    ensures m.w.next <= id
  {
    if e.Advance? && e.i in m.ops && !m.ops[e.i].Done? {
      TenantsEffect(cfg, m.w, m.ops[e.i], e.choice);
      hide Go;
    }
  }

  /** A row inserted after a moment has a higher id than every row of that moment. */
  lemma {:induction false} LaterRowsAreHigher(cfg: Config, es: seq<Event>, j: nat, first: Id, id: Id)
    requires j < |es| && first in Run(cfg, es[..j]).w.tenants
    requires id in Run(cfg, es).w.tenants && id !in Run(cfg, es[..j]).w.tenants
    ensures first < id
    decreases |es|
  {
    hide Step, WorldOk, LocalOk;
    var before := es[..|es| - 1];
    assert before[..j] == es[..j];
    if id in Run(cfg, before).w.tenants {
      LaterRowsAreHigher(cfg, before, j, first, id);
    } else {
      RowsPersist(cfg, before, j, first);
      RunKeeps(cfg, before);
      RowIdsAreTaken(cfg, Run(cfg, before).w, HeldUpTo(cfg, before));
      StepInserts(cfg, Run(cfg, before), es[|es| - 1], id);
    }
  }

  lemma {:induction false} ListingDescends(tenants: map<Id, Tenant>, n: nat)
    requires forall id | id in tenants :: tenants[id].id == id
    ensures forall t | t in Listing(tenants, n) :: t.id < n && t.id in tenants && tenants[t.id] == t
    ensures forall a, b | 0 <= a < b < |Listing(tenants, n)| :: Listing(tenants, n)[a].id > Listing(tenants, n)[b].id
  {
    if n == 0 {
    } else {
      ListingDescends(tenants, n - 1);
    }
  }

  /** List returns every visible row once, newest first: of two rows in it, the earlier one was
      not there before the later one was. */
  lemma ListIsNewestFirst(cfg: Config, es: seq<Event>)
    ensures var w := Run(cfg, es).w; var rows := Listing(w.tenants, w.next);
      && (forall t :: t in rows <==> t.id in w.tenants && w.tenants[t.id] == t && t.status != Deleted)
      && (forall a, b | 0 <= a < b < |rows| :: rows[a].id > rows[b].id)
      && (forall a, b, j: nat | 0 <= a < b < |rows| && j <= |es| ::
            rows[a].id in Run(cfg, es[..j]).w.tenants ==> rows[b].id in Run(cfg, es[..j]).w.tenants)
  {
    var w := Run(cfg, es).w;
    RunKeeps(cfg, es);
    RowIdsAreTaken(cfg, w, HeldUpTo(cfg, es));
    hide Inv, WorldOk, Run;
    ListingDescends(w.tenants, w.next);
    var rows := Listing(w.tenants, w.next);
    forall t ensures t in rows <==> t.id in w.tenants && w.tenants[t.id] == t && t.status != Deleted {
      ListingMember(w.tenants, w.next, t);
    }
    forall a, b, j: nat | 0 <= a < b < |rows| && j <= |es| && rows[a].id in Run(cfg, es[..j]).w.tenants
      ensures rows[b].id in Run(cfg, es[..j]).w.tenants
    {
      assert rows[b] in rows && es[..|es|] == es;
      if rows[b].id !in Run(cfg, es[..j]).w.tenants {
        LaterRowsAreHigher(cfg, es, j, rows[a].id, rows[b].id);
      }
    }
  }
}
