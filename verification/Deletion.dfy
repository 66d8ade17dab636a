/** Deletion: in every interleaving, what keeps a deleted tenant deleted, its data as they were
    and its account absent, and exactly which operations in flight can bring it back. */
module Deletion {
  import opened Domain
  import opened Protocol
  import Slug
  import opened History
  import opened Effects
  import opened Revocations
  import opened Alone
  import opened Lifecycle

  predicate IsDeleted(w: World, id: Id) {
    id in w.tenants && w.tenants[id].status == Deleted
  }

  // ---------- operations past their visibility check ----------

  /** The operation will set the tenant's status to something other than deleted. */
  predicate Revives(l: Local, id: Id) {
    match l
    case SuspendRemove(i, _) => i == id
    case ActivatePush(i, _) => i == id
    case MarkStatus(i, status) => i == id && status != Deleted
    case _ => false
  }

  /** It may still write the tenant's row, seed or credentials. */
  predicate Writes(l: Local, id: Id) {
    match l
    case CreateSave(t, _) => t.id == id
    case LimitsSign(t, _) => t.id == id
    case LimitsWrite(t, _, _) => t.id == id
    case IssueUnseal(i, _, _) => i == id
    case IssueSign(i, _, _, _) => i == id
    case IssueInsert(c) => c.tenantId == id
    case RevokeRead(i, _, _) => i == id
    case RevokeSign(i, _, _, _) => i == id
    case RevokeWrite(i, _, _, _) => i == id
    case RevokeMark(i, _, _) => i == id
    case _ => Revives(l, id)
  }

  /** It will change something if it gets the chance: a write-back that repeats the row and an
      Issue that the constraints refuse, or that finds no seed, will not. */
  ghost predicate Alters(w: World, l: Local, id: Id)
    requires id in w.tenants
  {
    match l
    case LimitsWrite(t, columns, jwt) =>
      t.id == id && (jwt != w.tenants[id].accountJwt || columns != w.tenants[id].columns)
    case IssueUnseal(i, name, _) => i == id && id in w.seeds && CredentialInsertable(w, id, name)
    case IssueSign(i, name, _, _) => i == id && CredentialInsertable(w, id, name)
    case IssueInsert(c) => c.tenantId == id && CredentialInsertable(w, id, c.name)
    case _ => Writes(l, id)
  }

  /** It may still push the tenant's account. */
  predicate Pushes(l: Local, id: Id) {
    match l
    case CreateSave(t, _) => t.id == id
    case CreatePush(t, _) => t.id == id
    case LimitsSign(t, _) => t.id == id
    case LimitsWrite(t, _, _) => t.id == id
    case LimitsPush(t) => t.id == id
    case ActivatePush(i, _) => i == id
    case RevokeRead(i, _, _) => i == id
    case RevokeSign(i, _, _, _) => i == id
    case RevokeWrite(i, _, _, _) => i == id
    case RevokeMark(i, _, _) => i == id
    case ReconcilePush(todo, _, _) => exists k | 0 <= k < |todo| :: todo[k].id == id && todo[k].status == Active
    case PushAccountJwt(i, _) => i == id
    case _ => false
  }

  /** An operation that had not passed the check before does not pass it for a deleted tenant. */
  predicate StaysOut(l: Local, l': Local, id: Id) {
    && (Revives(l', id) ==> Revives(l, id))
    && (Writes(l', id) ==> Writes(l, id))
    && (Pushes(l', id) ==> Pushes(l, id))
  }

  lemma CreateStaysOut(cfg: Config, w: World, l: Local, o: Outcome, id: Id)
    requires InCreate(l) && id < w.next
    ensures StaysOut(l, CreateStep(cfg, w, l, o).l, id)
  {
    hide Slug.MatchString, Insertable;
  }

  lemma LimitsStayOut(cfg: Config, w: World, l: Local, o: Outcome, id: Id)
    requires InLimits(l) && IsDeleted(w, id) && forall j | j in w.tenants :: w.tenants[j].id == j
    ensures StaysOut(l, LimitsStep(cfg, w, l, o).l, id)
  {
  }

  lemma StatusStaysOut(cfg: Config, w: World, l: Local, o: Outcome, id: Id)
    requires InStatus(l) && IsDeleted(w, id)
    ensures StaysOut(l, StatusStep(cfg, w, l, o).l, id)
  {
    hide Remove, Push, SetStatus;
  }

  lemma IssueStaysOut(cfg: Config, w: World, l: Local, o: Outcome, id: Id)
    requires InIssue(l) && IsDeleted(w, id)
    ensures StaysOut(l, IssueStep(cfg, w, l, o).l, id)
  {
    hide CredentialInsertable, Decrypt;
  }

  lemma RevokeStaysOut(cfg: Config, w: World, l: Local, o: Outcome, id: Id)
    requires InRevoke(l) && IsDeleted(w, id)
    ensures StaysOut(l, RevokeStep(cfg, w, l, o).l, id)
  {
    hide SetJwt, SetRevokedAt, SignAccountClaims, WithRevocation;
  }

  lemma ReconcileStaysOut(cfg: Config, w: World, l: Local, o: Outcome, id: Id)
    requires InReconcile(l) && IsDeleted(w, id) && forall j | j in w.tenants :: w.tenants[j].id == j
    ensures StaysOut(l, ReconcileStep(cfg, w, l, o).l, id)
  {
    hide Listing;
    var n := ReconcileStep(cfg, w, l, o);
    if l.ReconcileList? {
      if n.l.ReconcilePush? { ListedAsIs(w, id, n.l.todo); }
    } else if l.ReconcilePush? {
      assert forall k | 0 <= k < |l.todo| - 1 :: l.todo[1..][k] == l.todo[k + 1];
    }
  }

  lemma GoStaysOut(cfg: Config, w: World, l: Local, c: Choice, id: Id)
    requires !l.Done? && IsDeleted(w, id) && id < w.next && forall j | j in w.tenants :: w.tenants[j].id == j
    ensures StaysOut(l, Go(cfg, w, l, c).l, id)
  {
    hide *;
    GoesSomehow(l);
    var w1 := w.(clock := w.clock + c.delay);
    assert IsDeleted(w1, id) by { LaterIsDeleted(w, c.delay, id); }
    if InReconcile(l) {
      ReconcileGoes(cfg, w, l, c);
      ReconcileStaysOut(cfg, w1, l, c.outcome, id);
    } else if InCreate(l) {
      CreateGoes(cfg, w, l, c);
      CreateStaysOut(cfg, w1, l, c.outcome, id);
    } else if InLimits(l) {
      LimitsGoes(cfg, w, l, c);
      LimitsStayOut(cfg, w1, l, c.outcome, id);
    } else if InIssue(l) {
      IssueGoes(cfg, w, l, c);
      IssueStaysOut(cfg, w1, l, c.outcome, id);
    } else if InRevoke(l) {
      RevokeGoes(cfg, w, l, c);
      RevokeStaysOut(cfg, w1, l, c.outcome, id);
    } else {
      StatusGoes(cfg, w, l, c);
      StatusStaysOut(cfg, w1, l, c.outcome, id);
    }
  }

  lemma LaterIsDeleted(w: World, delay: nat, id: Id)
    requires IsDeleted(w, id)
    ensures IsDeleted(w.(clock := w.clock + delay), id)
  {
  }

  lemma StartIsOut(r: Request, id: Id)
    ensures !Revives(Start(r), id) && !Writes(Start(r), id) && !Pushes(Start(r), id)
  {
  }

  // ---------- one statement ----------

  /** Row, seed and credentials of tenant `id` are the same in both. */
  ghost predicate SameFor(w: World, w': World, id: Id) {
    && id in w.tenants && id in w'.tenants && w'.tenants[id] == w.tenants[id]
    && (id in w.seeds <==> id in w'.seeds) && (id in w.seeds ==> w'.seeds[id] == w.seeds[id])
    && (forall cid | cid in w.creds && w.creds[cid].tenantId == id :: cid in w'.creds && w'.creds[cid] == w.creds[cid])
    && (forall cid | cid in w'.creds && w'.creds[cid].tenantId == id :: cid in w.creds && w.creds[cid].tenantId == id)
  }

  lemma StatusIsDeleted(w: World, l: Local, o: Outcome, id: Id)
    requires IsDeleted(w, id) && !Revives(l, id) && w.next !in w.tenants
    ensures var tenants := TenantsAfter(w, l, o);
      id in tenants && tenants[id].status == Deleted && tenants[id].accountKey == w.tenants[id].accountKey
  {
    hide TenantAllowed;
  }

  lemma RowIsSame(w: World, l: Local, o: Outcome, id: Id)
    requires IsDeleted(w, id) && !Alters(w, l, id) && w.next !in w.tenants
    ensures id in TenantsAfter(w, l, o) && TenantsAfter(w, l, o)[id] == w.tenants[id]
  {
    hide TenantAllowed, CredentialAllowed;
  }

  lemma CredentialsAreSame(w: World, l: Local, c: Choice, id: Id)
    requires id in w.tenants && !Alters(w, l, id) && w.next !in w.creds
    requires l.RevokeMark? ==> l.cid in w.creds && w.creds[l.cid].tenantId == l.id
    ensures forall cid | cid in w.creds && w.creds[cid].tenantId == id ::
      cid in CredsAfter(w, l, c) && CredsAfter(w, l, c)[cid] == w.creds[cid]
    ensures forall cid | cid in CredsAfter(w, l, c) && CredsAfter(w, l, c)[cid].tenantId == id ::
      cid in w.creds && w.creds[cid].tenantId == id
  {
    hide CredentialAllowed, Revives;
  }

  /** A statement of an operation that will change nothing changes nothing. */
  lemma DeletedIsUntouched(cfg: Config, w: World, l: Local, c: Choice, id: Id)
    requires !l.Done? && IsDeleted(w, id) && !Alters(w, l, id) && w.next !in w.tenants && w.next !in w.creds
    requires l.RevokeMark? ==> l.cid in w.creds && w.creds[l.cid].tenantId == l.id
    ensures SameFor(w, Go(cfg, w, l, c).w, id)
  {
    hide Go, TenantsAfter, CredsAfter, CredentialAllowed;
    TenantsEffect(cfg, w, l, c);
    CredsEffect(cfg, w, l, c);
    SeedsEffect(cfg, w, l, c);
    RowIsSame(w, l, c.outcome, id);
    CredentialsAreSame(w, l, c, id);
    var w' := Go(cfg, w, l, c).w;
    assert id !in SeedsTouched(l);
    assert id in w'.seeds <==> id in w'.seeds - SeedsTouched(l);
    assert id in w.seeds <==> id in w.seeds - SeedsTouched(l);
  }

  /** What an operation will change depends on the tenant's own data only. */
  lemma AltersAlike(w: World, w': World, l: Local, id: Id)
    requires SameFor(w, w', id) && !Alters(w, l, id)
    ensures !Alters(w', l, id)
  {
  }

  lemma UnalteringStays(cfg: Config, w: World, l: Local, c: Choice, id: Id)
    requires !l.Done? && IsDeleted(w, id) && !Alters(w, l, id) && id < w.next
    requires forall j | j in w.tenants :: w.tenants[j].id == j
    ensures !Alters(w, Go(cfg, w, l, c).l, id)
  {
    var n := Go(cfg, w, l, c);
    hide Go, CredentialInsertable;
    if !Writes(l, id) {
      GoStaysOut(cfg, w, l, c, id);
    } else if l.LimitsWrite? {
      hide SetJwtAndLimits;
      LimitsGoes(cfg, w, l, c);
    } else {
      IssueGoes(cfg, w, l, c);
      hide Decrypt;
    }
  }

  lemma OthersSend(cfg: Config, w: World, H: set<Holding>, l: Local, id: Id)
    requires LocalOk(cfg, w, H, l) && !Pushes(l, id) && Sends(l).Some?
    ensures Sends(l).value in H && Sends(l).value.id != id
  {
    hide WorldOk;
  }

  /** A statement of an operation that does not push the tenant's account leaves it absent. */
  lemma AbsentIsKept(cfg: Config, w: World, H: set<Holding>, l: Local, o: Outcome, id: Id)
    requires WorldOk(cfg, w, H) && LocalOk(cfg, w, H, l) && !Pushes(l, id)
    requires id in w.tenants && w.tenants[id].accountKey !in w.resolver
    ensures w.tenants[id].accountKey !in ResolverAfter(cfg, w, l, o)
  {
    hide WorldOk, LocalOk, Pushes, Sends, ResolverAfter;
    if Sends(l).Some? {
      OthersSend(cfg, w, H, l, id);
      HoldingFacts(cfg, w, H, Sends(l).value.id, Sends(l).value.jwt);
      DistinctFacts(cfg, w, H, Sends(l).value.id, id);
    }
    OnlySendsArrive(cfg, w, l, o, w.tenants[id].accountKey);
  }

  // ---------- one event ----------

  ghost predicate NoneRevives(m: Machine, id: Id) {
    forall i | i in m.ops :: !Revives(m.ops[i], id)
  }

  ghost predicate NoneAlters(m: Machine, id: Id)
    requires id in m.w.tenants
  {
    forall i | i in m.ops :: !Alters(m.w, m.ops[i], id)
  }

  ghost predicate NonePushes(m: Machine, id: Id) {
    forall i | i in m.ops :: !Pushes(m.ops[i], id)
  }

  lemma StepStaysOut(cfg: Config, m: Machine, H: set<Holding>, e: Event, id: Id)
    requires Inv(cfg, m, H) && IsDeleted(m.w, id)
    ensures var m' := Step(cfg, m, e);
      && (NoneRevives(m, id) ==> NoneRevives(m', id) && IsDeleted(m'.w, id))
      && (NoneRevives(m, id) ==> m'.w.tenants[id].accountKey == m.w.tenants[id].accountKey)
      && (NonePushes(m, id) ==> NonePushes(m', id))
  {
    hide Go, LocalOk, MintedOk, Revives, Writes, Pushes;
    RowIdsAreTaken(cfg, m.w, H);
    hide WorldOk;
    if e.Begin? {
      StartIsOut(e.request, id);
    } else if e.Advance? && e.i in m.ops && !m.ops[e.i].Done? {
      hide TenantsAfter;
      GoStaysOut(cfg, m.w, m.ops[e.i], e.choice, id);
      TenantsEffect(cfg, m.w, m.ops[e.i], e.choice);
      if !Revives(m.ops[e.i], id) { StatusIsDeleted(m.w, m.ops[e.i], e.choice.outcome, id); }
    }
  }

  lemma StepFreezes(cfg: Config, m: Machine, H: set<Holding>, e: Event, id: Id)
    requires Inv(cfg, m, H) && IsDeleted(m.w, id) && NoneAlters(m, id)
    ensures var m' := Step(cfg, m, e); SameFor(m.w, m'.w, id) && NoneAlters(m', id)
  {
    hide Go, LocalOk, MintedOk, Alters, Writes;
    RowIdsAreTaken(cfg, m.w, H);
    var m' := Step(cfg, m, e);
    if e.Advance? && e.i in m.ops && !m.ops[e.i].Done? {
      assert LocalOk(cfg, m.w, H, m.ops[e.i]);
      if m.ops[e.i].RevokeMark? { MarkIsOwn(cfg, m.w, H, m.ops[e.i]); }
      hide WorldOk;
      DeletedIsUntouched(cfg, m.w, m.ops[e.i], e.choice, id);
      UnalteringStays(cfg, m.w, m.ops[e.i], e.choice, id);
    } else if e.Begin? {
      StartIsOut(e.request, id);
      OutsidersDoNotAlter(m.w, Start(e.request), id);
    }
    forall i | i in m'.ops ensures !Alters(m'.w, m'.ops[i], id) {
      AltersAlike(m.w, m'.w, m'.ops[i], id);
    }
  }

  lemma OutsidersDoNotAlter(w: World, l: Local, id: Id)
    requires id in w.tenants && !Writes(l, id)
    ensures !Alters(w, l, id)
  {
  }

  lemma MarkIsOwn(cfg: Config, w: World, H: set<Holding>, l: Local)
    requires LocalOk(cfg, w, H, l) && l.RevokeMark?
    ensures l.cid in w.creds && w.creds[l.cid].tenantId == l.id
  {
  }

  lemma StepKeepsAbsent(cfg: Config, m: Machine, H: set<Holding>, e: Event, id: Id)
    requires Inv(cfg, m, H) && id in m.w.tenants && m.w.tenants[id].accountKey !in m.w.resolver && NonePushes(m, id)
    ensures m.w.tenants[id].accountKey !in Step(cfg, m, e).w.resolver
  {
    hide Go, LocalOk, MintedOk, Pushes, WorldOk;
    if e.Advance? && e.i in m.ops && !m.ops[e.i].Done? {
      hide ResolverAfter;
      ResolverEffect(cfg, m.w, m.ops[e.i], e.choice);
      AbsentIsKept(cfg, m.w, H, m.ops[e.i], e.choice.outcome, id);
    }
  }

  // ---------- every interleaving ----------

  lemma NextRun(cfg: Config, es: seq<Event>, more: seq<Event>)
    requires more != []
    ensures Run(cfg, es + more) == Step(cfg, Run(cfg, es + more[..|more| - 1]), more[|more| - 1])
  {
    hide Step;
    assert (es + more)[..|es + more| - 1] == es + more[..|more| - 1];
  }

  /** A deleted tenant stays deleted through whatever follows, unless an operation past its
      visibility check was in flight to set its status. */
  lemma {:induction false} DeletedStaysDeleted(cfg: Config, es: seq<Event>, more: seq<Event>, id: Id)
    requires IsDeleted(Run(cfg, es).w, id) && NoneRevives(Run(cfg, es), id)
    ensures IsDeleted(Run(cfg, es + more).w, id) && NoneRevives(Run(cfg, es + more), id)
    ensures Run(cfg, es + more).w.tenants[id].accountKey == Run(cfg, es).w.tenants[id].accountKey
    decreases |more|
  {
    hide Step, Inv, NoneRevives, NonePushes, Run;
    if more == [] {
      assert es + more == es;
    } else {
      var before := es + more[..|more| - 1];
      DeletedStaysDeleted(cfg, es, more[..|more| - 1], id);
      RunKeeps(cfg, before);
      NextRun(cfg, es, more);
      StepStaysOut(cfg, Run(cfg, before), HeldUpTo(cfg, before), more[|more| - 1], id);
    }
  }

  /** An operation that revives carries on until it has. */
  lemma RevivalSucceeds(cfg: Config, m: Machine, i: Id, id: Id) returns (more: seq<Event>)
    requires IsDeleted(m.w, id) && i in m.ops && Revives(m.ops[i], id)
    ensures Visible(RunFrom(cfg, m, more).w, id)
  {
    hide Go, RunFrom;
    StatusGoes(cfg, m.w, m.ops[i], CALM);
    var m1 := Step(cfg, m, Advance(i, CALM));
    RunOne(cfg, m, Advance(i, CALM));
    if m.ops[i].MarkStatus? {
      more := [Advance(i, CALM)];
    } else {
      StatusGoes(cfg, m1.w, m1.ops[i], CALM);
      RunOne(cfg, m1, Advance(i, CALM));
      RunFromCat(cfg, m, [Advance(i, CALM)], [Advance(i, CALM)]);
      more := [Advance(i, CALM)] + [Advance(i, CALM)];
    }
  }

  /** Exactly when deletion lasts: a deleted tenant can become visible again if and only if an
      operation that read it earlier is in flight to set its status. */
  lemma RevivalIff(cfg: Config, es: seq<Event>, id: Id)
    requires IsDeleted(Run(cfg, es).w, id)
    ensures (exists more :: Visible(Run(cfg, es + more).w, id)) <==> !NoneRevives(Run(cfg, es), id)
  {
    var m := Run(cfg, es);
    hide Run, Revives;
    if NoneRevives(m, id) {
      forall more: seq<Event> ensures !Visible(Run(cfg, es + more).w, id) {
        DeletedStaysDeleted(cfg, es, more, id);
      }
    } else {
      var i :| i in m.ops && Revives(m.ops[i], id);
      var more := RevivalSucceeds(cfg, m, i, id);
      RunExtends(cfg, es, more);
      assert Visible(Run(cfg, es + more).w, id);
    }
  }

  lemma RunExtends(cfg: Config, es: seq<Event>, more: seq<Event>)
    ensures Run(cfg, es + more) == RunFrom(cfg, Run(cfg, es), more)
  {
    hide RunFrom;
    RunFromCat(cfg, EMPTY, es, more);
  }

  lemma SameForTransitive(a: World, b: World, c: World, id: Id)
    requires SameFor(a, b, id) && SameFor(b, c, id)
    ensures SameFor(a, c, id)
  {
  }

  /** A deleted tenant's row, its token included, its seed and its credentials never change
      again, unless an operation past its visibility check was in flight to change them. */
  lemma {:induction false} DeletedIsFrozen(cfg: Config, es: seq<Event>, more: seq<Event>, id: Id)
    requires IsDeleted(Run(cfg, es).w, id) && NoneAlters(Run(cfg, es), id)
    ensures SameFor(Run(cfg, es).w, Run(cfg, es + more).w, id) && NoneAlters(Run(cfg, es + more), id)
    decreases |more|
  {
    hide Step, Inv, NoneAlters, Run;
    if more == [] {
      assert es + more == es;
    } else {
      var before := es + more[..|more| - 1];
      DeletedIsFrozen(cfg, es, more[..|more| - 1], id);
      RunKeeps(cfg, before);
      NextRun(cfg, es, more);
      StepFreezes(cfg, Run(cfg, before), HeldUpTo(cfg, before), more[|more| - 1], id);
      SameForTransitive(Run(cfg, es).w, Run(cfg, before).w, Run(cfg, es + more).w, id);
    }
  }

  /** A deleted tenant that is absent from the resolver stays absent, whatever is requested for
      it afterwards, unless an operation past its visibility check was in flight. */
  lemma {:induction false} DeletedStaysAbsent(cfg: Config, es: seq<Event>, more: seq<Event>, id: Id)
    requires IsDeleted(Run(cfg, es).w, id) && NoneRevives(Run(cfg, es), id) && NonePushes(Run(cfg, es), id)
    requires Run(cfg, es).w.tenants[id].accountKey !in Run(cfg, es).w.resolver
    ensures NonePushes(Run(cfg, es + more), id)
    ensures Run(cfg, es).w.tenants[id].accountKey !in Run(cfg, es + more).w.resolver
    decreases |more|
  {
    hide Step, Inv, NoneRevives, NonePushes, Run;
    if more == [] {
      assert es + more == es;
    } else {
      var before := es + more[..|more| - 1];
      DeletedStaysDeleted(cfg, es, more[..|more| - 1], id);
      DeletedStaysAbsent(cfg, es, more[..|more| - 1], id);
      RunKeeps(cfg, before);
      NextRun(cfg, es, more);
      StepStaysOut(cfg, Run(cfg, before), HeldUpTo(cfg, before), more[|more| - 1], id);
      StepKeepsAbsent(cfg, Run(cfg, before), HeldUpTo(cfg, before), more[|more| - 1], id);
    }
  }

  // ---------- serial runs ----------

  /** The tenants an operation has seen as visible and may still write for. */
  predicate Alive(w: World, l: Local) {
    match l
    case CreateSave(t, _) => Visible(w, t.id)
    case CreatePush(t, _) => Visible(w, t.id)
    case CreateUndo(id) => Visible(w, id)
    case LimitsSign(t, _) => Visible(w, t.id)
    case LimitsWrite(t, _, _) => Visible(w, t.id)
    case SuspendRemove(id, _) => Visible(w, id)
    case ActivatePush(id, _) => Visible(w, id)
    case MarkStatus(id, _) => Visible(w, id)
    case DeleteRemove(id, _) => Visible(w, id)
    case DeleteMark(id) => Visible(w, id)
    case IssueUnseal(id, _, _) => Visible(w, id)
    case IssueSign(id, _, _, _) => Visible(w, id)
    case IssueInsert(c) => Visible(w, c.tenantId)
    case RevokeRead(id, _, _) => Visible(w, id)
    case RevokeSign(id, _, _, _) => Visible(w, id)
    case RevokeWrite(id, _, _, _) => Visible(w, id)
    case RevokeMark(id, cid, _) => Visible(w, id) && cid in w.creds && w.creds[cid].tenantId == id
    case _ => true
  }

  predicate AliveAt(n: Conf) {
    Alive(n.w, n.l)
  }

  lemma GoStaysAlive(cfg: Config, w: World, l: Local, c: Choice)
    requires !l.Done? && Alive(w.(clock := w.clock + c.delay), l)
    requires l.RevokeWrite? ==> l.cid in w.creds && w.creds[l.cid].tenantId == l.id
    requires forall j | j in w.tenants :: w.tenants[j].id == j
    ensures AliveAt(Go(cfg, w, l, c))
  {
    hide *;
    GoesSomehow(l);
    var w1 := w.(clock := w.clock + c.delay);
    if InRevoke(l) {
      RevokeGoes(cfg, w, l, c);
      RevokeStaysAlive(cfg, w1, l, c.outcome);
    } else if InCreate(l) {
      CreateGoes(cfg, w, l, c);
      CreateStaysAlive(cfg, w1, l, c.outcome);
    } else if InLimits(l) {
      LimitsGoes(cfg, w, l, c);
      LimitsStayAlive(cfg, w1, l, c.outcome);
    } else if InIssue(l) {
      IssueGoes(cfg, w, l, c);
      IssueStaysAlive(cfg, w1, l, c.outcome);
    } else if InStatus(l) {
      StatusGoes(cfg, w, l, c);
      StatusStaysAlive(cfg, w1, l, c.outcome);
    } else {
      ReconcileGoes(cfg, w, l, c);
      ReconcileStaysAlive(cfg, w1, l, c.outcome);
    }
  }

  lemma AliveLater(cfg: Config, w: World, H: set<Holding>, l: Local, delay: nat)
    requires Alive(w, l) && LocalOk(cfg, w, H, l)
    ensures Alive(w.(clock := w.clock + delay), l)
    ensures l.RevokeWrite? ==> l.cid in w.creds && w.creds[l.cid].tenantId == l.id
  {
    hide TokenOk, CredentialOk;
  }

  lemma CreateStaysAlive(cfg: Config, w: World, l: Local, o: Outcome)
    requires InCreate(l) && Alive(w, l)
    ensures AliveAt(CreateStep(cfg, w, l, o))
  {
    hide Slug.MatchString, Insertable;
  }

  lemma LimitsStayAlive(cfg: Config, w: World, l: Local, o: Outcome)
    requires InLimits(l) && Alive(w, l) && forall j | j in w.tenants :: w.tenants[j].id == j
    ensures AliveAt(LimitsStep(cfg, w, l, o))
  {
  }

  lemma IssueStaysAlive(cfg: Config, w: World, l: Local, o: Outcome)
    requires InIssue(l) && Alive(w, l)
    ensures AliveAt(IssueStep(cfg, w, l, o))
  {
    hide CredentialInsertable, Decrypt;
  }

  lemma StatusStaysAlive(cfg: Config, w: World, l: Local, o: Outcome)
    requires InStatus(l) && Alive(w, l)
    ensures AliveAt(StatusStep(cfg, w, l, o))
  {
  }

  lemma ReconcileStaysAlive(cfg: Config, w: World, l: Local, o: Outcome)
    requires InReconcile(l) && Alive(w, l)
    ensures AliveAt(ReconcileStep(cfg, w, l, o))
  {
    hide Listing;
  }

  lemma RevokeStaysAlive(cfg: Config, w: World, l: Local, o: Outcome)
    requires InRevoke(l) && Alive(w, l)
    requires l.RevokeWrite? ==> l.cid in w.creds && w.creds[l.cid].tenantId == l.id
    ensures AliveAt(RevokeStep(cfg, w, l, o))
  {
  }

  lemma {:induction false} SerialIsAlive(cfg: Config, es: seq<Event>)
    requires Serial(cfg, es)
    ensures var m := Run(cfg, es); AtMostOne(m) && forall i | i in m.ops :: Alive(m.w, m.ops[i])
    decreases |es|
  {
    SerialRunsOneAtATime(cfg, es);
    hide Go, Alive, Inv, AtMostOne;
    if es == [] {
    } else {
      var before, e := es[..|es| - 1], es[|es| - 1];
      SerialPrefix(cfg, es, |es| - 1);
      SerialIsAlive(cfg, before);
      SerialStepIsAlive(cfg, before, e);
    }
  }

  lemma SerialStepIsAlive(cfg: Config, es: seq<Event>, e: Event)
    requires AtMostOne(Run(cfg, es)) && (e.Begin? ==> Run(cfg, es).ops == map[])
    requires forall i | i in Run(cfg, es).ops :: Alive(Run(cfg, es).w, Run(cfg, es).ops[i])
    ensures var m := Step(cfg, Run(cfg, es), e); forall i | i in m.ops :: Alive(m.w, m.ops[i])
  {
    var m := Run(cfg, es);
    RunKeeps(cfg, es);
    hide Run, HeldUpTo;
    if e.Advance? && e.i in m.ops && !m.ops[e.i].Done? {
      hide Inv, Alive;
      AdvanceIsAlive(cfg, m, HeldUpTo(cfg, es), e.i, e.choice);
    } else {
      hide Inv, Go;
    }
  }

  lemma AdvanceIsAlive(cfg: Config, m: Machine, H: set<Holding>, i: Id, c: Choice)
    requires Inv(cfg, m, H) && i in m.ops && !m.ops[i].Done? && Alive(m.w, m.ops[i]) && AtMostOne(m)
    ensures var m' := Settle(m, i, Go(cfg, m.w, m.ops[i], c)); forall j | j in m'.ops :: Alive(m'.w, m'.ops[j])
  {
    hide Go, LocalOk, MintedOk, Alive;
    RowIdsAreTaken(cfg, m.w, H);
    hide WorldOk;
    AliveLater(cfg, m.w, H, m.ops[i], c.delay);
    GoStaysAlive(cfg, m.w, m.ops[i], c);
  }

  /** An operation that has found its tenants visible is past its check for no deleted one. */
  lemma AliveWritesNothingDeleted(w: World, l: Local, id: Id)
    requires Alive(w, l) && IsDeleted(w, id)
    ensures !Writes(l, id)
  {
  }

  /** In serial runs, whatever fails and wherever requests are cut off, nothing past its check is
      ever in flight for a deleted tenant, so its row, seed and credentials never change again. */
  lemma FrozenInSerialRuns(cfg: Config, es: seq<Event>, j: nat, id: Id)
    requires Serial(cfg, es) && j <= |es| && IsDeleted(Run(cfg, es[..j]).w, id)
    ensures SameFor(Run(cfg, es[..j]).w, Run(cfg, es).w, id)
  {
    hide Run, Alive, Writes;
    SerialPrefix(cfg, es, j);
    SerialIsAlive(cfg, es[..j]);
    var m := Run(cfg, es[..j]);
    hide Alters;
    forall i | i in m.ops ensures !Alters(m.w, m.ops[i], id) {
      AliveWritesNothingDeleted(m.w, m.ops[i], id);
      OutsidersDoNotAlter(m.w, m.ops[i], id);
    }
    DeletedIsFrozen(cfg, es[..j], es[j..], id);
    assert es[..j] + es[j..] == es;
  }

  /** A Delete in which nothing fails removes the entry and hides the row. */
  lemma CleanDelete(cfg: Config, w: World, id: Id)
    requires Visible(w, id)
    ensures Exec(cfg, w, DeleteRead(id), [])
         == Conf(SetStatus(if cfg.resolver then Remove(w, w.tenants[id].accountKey, Ok) else w, id, Deleted, Ok),
           Done(Completed))
  {
    hide Exec, Go, SetStatus, Remove;
    var key := w.tenants[id].accountKey;
    var w1 := if cfg.resolver then Remove(w, key, Ok) else w;
    ExecStep(cfg, w, DeleteRead(id), []);
    StatusGoes(cfg, w, DeleteRead(id), CALM);
    ExecStep(cfg, w, DeleteRemove(id, key), []);
    StatusGoes(cfg, w, DeleteRemove(id, key), CALM);
    ExecStep(cfg, w1, DeleteMark(id), []);
    StatusGoes(cfg, w1, DeleteMark(id), CALM);
    ExecEnd(cfg, SetStatus(w1, id, Deleted, Ok), Completed, []);
  }
}
