/** Suspension: how long it stays in force. */
module Lifecycle {
  import opened Wrappers
  import opened Domain
  import opened Protocol
  import Slug
  import opened History
  import opened Effects
  import opened Revocations
  import opened Alone

  // ---------- suspension ----------

  /** Requests that may put the tenant back at the resolver or make it active. */
  predicate Targets(r: Request, id: Id) {
    match r
    case UpdateLimits(i, _) => i == id
    case Activate(i) => i == id
    case Revoke(i, _) => i == id
    case Reseed(i) => i == id
    case _ => false
  }

  /** In-flight operations that still may. */
  predicate Threatens(l: Local, id: Id) {
    match l
    case CreateSave(t, _) => t.id == id
    case CreatePush(t, _) => t.id == id
    case LimitsRead(i, _) => i == id
    case LimitsSign(t, _) => t.id == id
    case LimitsWrite(t, _, _) => t.id == id
    case LimitsPush(t) => t.id == id
    case ActivateRead(i) => i == id
    case ActivatePush(i, _) => i == id
    case MarkStatus(i, status) => i == id && status == Active
    case RevokeFind(i, _) => i == id
    case RevokeVisible(i, _, _) => i == id
    case RevokeRead(i, _, _) => i == id
    case RevokeSign(i, _, _, _) => i == id
    case RevokeWrite(i, _, _, _) => i == id
    case RevokeMark(i, _, _) => i == id
    case ReconcilePush(todo, _, _) => exists k | 0 <= k < |todo| :: todo[k].id == id && todo[k].status == Active
    case ReseedRead(i) => i == id
    case PushAccountJwt(i, _) => i == id
    case _ => false
  }

  /** The tenant is not active and its account is absent from the resolver. */
  predicate Barred(w: World, id: Id) {
    id in w.tenants && w.tenants[id].status != Active && w.tenants[id].accountKey !in w.resolver
  }

  predicate Quiet(m: Machine, id: Id) {
    Barred(m.w, id) && forall i | i in m.ops :: !Threatens(m.ops[i], id)
  }

  lemma GoStaysHarmless(cfg: Config, w: World, l: Local, c: Choice, id: Id)
    requires !l.Done? && !Threatens(l, id) && id < w.next && id in w.tenants && w.tenants[id].status != Active
    requires forall j | j in w.tenants :: w.tenants[j].id == j
    ensures !Threatens(Go(cfg, w, l, c).l, id)
  {
    hide *;
    GoesSomehow(l);
    var w1 := w.(clock := w.clock + c.delay);
    if InReconcile(l) {
      ReconcileGoes(cfg, w, l, c);
      ReconcileStaysHarmless(cfg, w1, l, c.outcome, id);
    } else if InCreate(l) {
      CreateGoes(cfg, w, l, c);
      CreateStaysHarmless(cfg, w1, l, c.outcome, id);
    } else if InLimits(l) {
      LimitsGoes(cfg, w, l, c);
      LimitsStayHarmless(cfg, w1, l, c.outcome, id);
    } else if InIssue(l) {
      IssueGoes(cfg, w, l, c);
      IssueStaysHarmless(cfg, w1, l, c.outcome, id);
    } else if InRevoke(l) {
      RevokeGoes(cfg, w, l, c);
      RevokeStaysHarmless(cfg, w1, l, c.outcome, id);
    } else {
      StatusGoes(cfg, w, l, c);
      StatusStaysHarmless(cfg, w1, l, c.outcome, id);
    }
  }

  lemma CreateStaysHarmless(cfg: Config, w: World, l: Local, o: Outcome, id: Id)
    requires InCreate(l) && !Threatens(l, id) && id < w.next
    ensures !Threatens(CreateStep(cfg, w, l, o).l, id)
  {
    hide Slug.MatchString, Insertable;
  }

  lemma LimitsStayHarmless(cfg: Config, w: World, l: Local, o: Outcome, id: Id)
    requires InLimits(l) && !Threatens(l, id) && forall j | j in w.tenants :: w.tenants[j].id == j
    ensures !Threatens(LimitsStep(cfg, w, l, o).l, id)
  {
  }

  lemma IssueStaysHarmless(cfg: Config, w: World, l: Local, o: Outcome, id: Id)
    requires InIssue(l) && !Threatens(l, id)
    ensures !Threatens(IssueStep(cfg, w, l, o).l, id)
  {
    hide CredentialInsertable;
  }

  lemma RevokeStaysHarmless(cfg: Config, w: World, l: Local, o: Outcome, id: Id)
    requires InRevoke(l) && !Threatens(l, id)
    ensures !Threatens(RevokeStep(cfg, w, l, o).l, id)
  {
  }

  lemma StatusStaysHarmless(cfg: Config, w: World, l: Local, o: Outcome, id: Id)
    requires InStatus(l) && !Threatens(l, id)
    ensures !Threatens(StatusStep(cfg, w, l, o).l, id)
  {
  }

  lemma ReconcileStaysHarmless(cfg: Config, w: World, l: Local, o: Outcome, id: Id)
    requires InReconcile(l) && !Threatens(l, id) && id in w.tenants && w.tenants[id].status != Active
    requires forall j | j in w.tenants :: w.tenants[j].id == j
    ensures !Threatens(ReconcileStep(cfg, w, l, o).l, id)
  {
    hide Listing;
    var n := ReconcileStep(cfg, w, l, o);
    if l.ReconcileList? {
      if n.l.ReconcilePush? { ListedAsIs(w, id, n.l.todo); }
    } else if l.ReconcilePush? {
      assert forall k | 0 <= k < |l.todo| - 1 :: l.todo[1..][k] == l.todo[k + 1];
    }
  }

  lemma ListedAsIs(w: World, id: Id, rows: seq<Tenant>)
    requires rows == Listing(w.tenants, w.next) && id in w.tenants && w.tenants[id].status != Active
    requires forall j | j in w.tenants :: w.tenants[j].id == j
    ensures forall k | 0 <= k < |rows| :: rows[k].id == id ==> rows[k].status != Active
  {
    forall k | 0 <= k < |rows| && rows[k].id == id ensures rows[k].status != Active {
      assert rows[k] in rows;
      ListingMember(w.tenants, w.next, rows[k]);
    }
  }

  /** The token, with the tenant it was issued for, that the next statement sends to the resolver. */
  function Sends(l: Local): Option<Holding> {
    match l
    case CreatePush(t, _) => Some(Holding(t.id, t.accountJwt))
    case LimitsPush(t) => Some(Holding(t.id, t.accountJwt))
    case ActivatePush(i, jwt) => Some(Holding(i, jwt))
    case PushAccountJwt(i, jwt) => Some(Holding(i, jwt))
    case ReconcilePush(todo, _, _) =>
      if todo != [] && todo[0].status == Active then Some(Holding(todo[0].id, todo[0].accountJwt)) else None
    case _ => None
  }

  lemma SendsWhatWasHeld(cfg: Config, w: World, H: set<Holding>, l: Local, id: Id)
    requires LocalOk(cfg, w, H, l) && !Threatens(l, id) && Sends(l).Some?
    ensures Sends(l).value in H && Sends(l).value.id != id
  {
    hide WorldOk;
  }

  lemma OnlySendsArrive(cfg: Config, w: World, l: Local, o: Outcome, key: PublicKey)
    requires key !in w.resolver && (Sends(l).Some? ==> Sends(l).value.jwt.claims.subject != key)
    ensures key !in ResolverAfter(cfg, w, l, o)
  {
  }

  /** No statement of an operation that does not threaten the tenant pushes its account. */
  lemma HarmlessPush(cfg: Config, w: World, H: set<Holding>, l: Local, o: Outcome, id: Id)
    requires WorldOk(cfg, w, H) && LocalOk(cfg, w, H, l) && !Threatens(l, id) && Barred(w, id)
    ensures w.tenants[id].accountKey !in ResolverAfter(cfg, w, l, o)
  {
    hide WorldOk, LocalOk, Threatens, Sends, ResolverAfter;
    if Sends(l).Some? {
      SendsWhatWasHeld(cfg, w, H, l, id);
      HoldingFacts(cfg, w, H, Sends(l).value.id, Sends(l).value.jwt);
      DistinctFacts(cfg, w, H, Sends(l).value.id, id);
    }
    OnlySendsArrive(cfg, w, l, o, w.tenants[id].accountKey);
  }

  lemma DistinctFacts(cfg: Config, w: World, H: set<Holding>, i: Id, j: Id)
    requires WorldOk(cfg, w, H) && i in w.tenants && j in w.tenants && i != j
    ensures w.tenants[i].accountKey != w.tenants[j].accountKey
  {
  }

  lemma StatusIsKept(w: World, l: Local, o: Outcome, id: Id)
    requires id in w.tenants && w.tenants[id].status != Active && !Threatens(l, id) && w.next !in w.tenants
    ensures id in TenantsAfter(w, l, o) && TenantsAfter(w, l, o)[id].status != Active
    ensures TenantsAfter(w, l, o)[id].accountKey == w.tenants[id].accountKey
  {
    hide Insertable;
  }

  lemma StepStaysQuiet(cfg: Config, m: Machine, H: set<Holding>, e: Event, id: Id)
    requires Inv(cfg, m, H) && Quiet(m, id) && (e.Begin? ==> !Targets(e.request, id))
    ensures Quiet(Step(cfg, m, e), id)
  {
    hide Go, LocalOk, MintedOk, Threatens;
    RowIdsAreTaken(cfg, m.w, H);
    if e.Begin? {
      assert !Threatens(Start(e.request), id) by { StartIsHarmless(e.request, id); }
    } else if e.Advance? && e.i in m.ops && !m.ops[e.i].Done? {
      var l, n := m.ops[e.i], Go(cfg, m.w, m.ops[e.i], e.choice);
      hide TenantsAfter, ResolverAfter;
      GoStaysHarmless(cfg, m.w, l, e.choice, id);
      TenantsEffect(cfg, m.w, l, e.choice);
      ResolverEffect(cfg, m.w, l, e.choice);
      StatusIsKept(m.w, l, e.choice.outcome, id);
      HarmlessPush(cfg, m.w, H, l, e.choice.outcome, id);
    }
  }

  lemma StartIsHarmless(r: Request, id: Id)
    requires !Targets(r, id)
    ensures !Threatens(Start(r), id)
  {
  }

  /** Suspension stays in force in every interleaving. Once a tenant is not active, absent
      from the resolver, and no operation in flight threatens it, then through any further
      events, failures, other requests, resolver losses and reconciliations included, it
      stays absent until a request to activate it, update its limits, revoke one of its
      credentials or reseed it is admitted. */
  lemma {:induction false} SuspensionHolds(cfg: Config, es: seq<Event>, more: seq<Event>, id: Id)
    requires Quiet(Run(cfg, es), id)
    requires forall k | 0 <= k < |more| && more[k].Begin? :: !Targets(more[k].request, id)
    ensures Quiet(Run(cfg, es + more), id)
    decreases |more|
  {
    hide Quiet, Step, Inv, Targets;
    if more == [] {
      assert es + more == es;
    } else {
      var n := |more| - 1;
      assert (es + more)[..|es + more| - 1] == es + more[..n];
      SuspensionHolds(cfg, es, more[..n], id);
      RunKeeps(cfg, es + more[..n]);
      StepStaysQuiet(cfg, Run(cfg, es + more[..n]), HeldUpTo(cfg, es + more[..n]), more[n], id);
    }
  }

  /** A Suspend that reports success has barred the tenant. */
  lemma SuspendBars(cfg: Config, w: World, id: Id, plan: seq<Choice>)
    requires cfg.resolver && Exec(cfg, w, SuspendRead(id), plan).l == Done(Completed)
    ensures var w' := Exec(cfg, w, SuspendRead(id), plan).w;
      && Visible(w, id)
      && w' == w.(clock := w'.clock, resolver := w.resolver - {w.tenants[id].accountKey},
                  tenants := w.tenants[id := w.tenants[id].(status := Suspended)])
  {
    hide Exec, Go, Head, Tail;
    ExecStep(cfg, w, SuspendRead(id), plan);
    StatusGoes(cfg, w, SuspendRead(id), Head(plan));
    var n1, p1 := Go(cfg, w, SuspendRead(id), Head(plan)), Tail(plan);
    if n1.l.Done? {
      ExecEnd(cfg, n1.w, n1.l.result, p1);
    } else {
      ExecStep(cfg, n1.w, n1.l, p1);
      StatusGoes(cfg, n1.w, n1.l, Head(p1));
      var n2, p2 := Go(cfg, n1.w, n1.l, Head(p1)), Tail(p1);
      if n2.l.Done? {
        ExecEnd(cfg, n2.w, n2.l.result, p2);
      } else {
        ExecStep(cfg, n2.w, n2.l, p2);
        StatusGoes(cfg, n2.w, n2.l, Head(p2));
        var n3 := Go(cfg, n2.w, n2.l, Head(p2));
        ExecEnd(cfg, n3.w, n3.l.result, Tail(p2));
      }
    }
  }

  /** The two together: with nothing else in flight, after a Suspend that reports success the
      account stays out of the resolver, and the tenant inactive, through everything that
      follows until the next request that targets it. */
  lemma SuspendedStaysOut(cfg: Config, es: seq<Event>, i: Id, id: Id, plan: seq<Choice>, more: seq<Event>)
    requires cfg.resolver && Run(cfg, es).ops == map[]
    requires Exec(cfg, Run(cfg, es).w, SuspendRead(id), plan).l == Done(Completed)
    requires forall k | 0 <= k < |more| && more[k].Begin? :: !Targets(more[k].request, id)
    ensures var suspend := [Begin(i, Suspend(id))] + Script(cfg, Run(cfg, es).w, SuspendRead(id), i, plan);
            Barred(Run(cfg, es + suspend + more).w, id)
  {
    hide Exec, Script, Targets, RunFrom;
    var m := Run(cfg, es);
    var suspend := [Begin(i, Suspend(id))] + Script(cfg, m.w, SuspendRead(id), i, plan);
    ServedAlone(cfg, m, i, Suspend(id), plan);
    RunFromCat(cfg, EMPTY, es, suspend);
    SuspendBars(cfg, m.w, id, plan);
    assert Quiet(Run(cfg, es + suspend), id);
    SuspensionHolds(cfg, es + suspend, more, id);
  }
}
