/** What an operation in flight can still do to a deleted tenant, and so the exact conditions
    under which its data stay as they are and its account stays absent. */
module Undeletion {
  import opened Domain
  import opened Protocol
  import opened History
  import opened Revocations
  import opened Alone
  import opened Deletion

  // ---------- its data ----------

  /** The environment's choice under which the next statement brings a change nearer: time has
      passed the row's token, or the old mark of the credential. */
  function Hastening(w: World, l: Local, id: Id): Choice
    requires id in w.tenants
  {
    match l
    case LimitsSign(_, _) => Choice(Ok, w.tenants[id].accountJwt.claims.issuedAt + 1)
    case RevokeMark(_, cid, _) =>
      Choice(Ok, if cid in w.creds && w.creds[cid].revokedAt.Some? then w.creds[cid].revokedAt.value + 1 else 0)
    case _ => CALM
  }

  /** The operation will change something of the deleted tenant. */
  ghost predicate AboutTo(w: World, l: Local, id: Id) {
    IsDeleted(w, id) && Alters(w, l, id)
  }

  /** The tenant's data have changed, or the operation is one statement nearer to changing them. */
  ghost predicate Nearer(w: World, n: Conf, id: Id) {
    SameFor(w, n.w, id) ==> !n.l.Done? && Alters(n.w, n.l, id)
  }

  lemma CreateComesNearer(cfg: Config, w: World, l: Local, id: Id)
    requires l.CreateSave? && l.t.id == id
    ensures Nearer(w, CreateStep(cfg, w, l, Ok), id)
  {
  }

  lemma LimitsComeNearer(cfg: Config, w: World, l: Local, delay: nat, id: Id)
    requires InLimits(l) && AboutTo(w, l, id)
    requires l.LimitsSign? ==> w.tenants[id].accountJwt.claims.issuedAt < delay
    ensures var w1 := w.(clock := w.clock + delay); Nearer(w, LimitsStep(cfg, w1, l, Ok), id)
  {
  }

  lemma StatusComesNearer(cfg: Config, w: World, l: Local, id: Id)
    requires InStatus(l) && AboutTo(w, l, id)
    ensures Nearer(w, StatusStep(cfg, w, l, Ok), id)
  {
  }

  lemma IssueComesNearer(cfg: Config, w: World, l: Local, id: Id)
    requires InIssue(l) && AboutTo(w, l, id) && w.next !in w.creds
    requires id in w.seeds ==> SeedOk(cfg, w, id)
    ensures Nearer(w, IssueStep(cfg, w, l, Ok), id)
  {
    hide CredentialAllowed;
  }

  lemma RevokeComesNearer(cfg: Config, w: World, l: Local, delay: nat, id: Id)
    requires InRevoke(l) && AboutTo(w, l, id)
    requires l.RevokeMark? ==> l.cid in w.creds && w.creds[l.cid].tenantId == l.id
    requires l.RevokeMark? && w.creds[l.cid].revokedAt.Some? ==> w.creds[l.cid].revokedAt.value < delay
    ensures var w1 := w.(clock := w.clock + delay); Nearer(w, RevokeStep(cfg, w1, l, Ok), id)
  {
    hide SignAccountClaims, WithRevocation;
  }

  lemma HasteningIs(w: World, l: Local, id: Id)
    requires id in w.tenants
    ensures var c := Hastening(w, l, id);
      && c.outcome.Ok?
      && (l.LimitsSign? ==> w.tenants[id].accountJwt.claims.issuedAt < c.delay)
      && (l.RevokeMark? && l.cid in w.creds && w.creds[l.cid].revokedAt.Some?
          ==> w.creds[l.cid].revokedAt.value < c.delay)
      && (!l.LimitsSign? && !l.RevokeMark? ==> c == CALM && w.(clock := w.clock + c.delay) == w)
  {
  }

  /** What the invariant says of an operation about to change the tenant's data. */
  lemma NearerFacts(cfg: Config, w: World, H: set<Holding>, l: Local, id: Id)
    requires WorldOk(cfg, w, H) && LocalOk(cfg, w, H, l)
    ensures w.next !in w.creds
    ensures id in w.seeds ==> SeedOk(cfg, w, id)
    ensures l.RevokeMark? ==> l.cid in w.creds && w.creds[l.cid].tenantId == l.id
  {
    hide *;
    if l.RevokeMark? { MarkIsOwn(cfg, w, H, l); }
    RowIdsAreTaken(cfg, w, H);
    if id in w.seeds { SeedFacts(cfg, w, H, id); }
  }

  lemma GoesNearer(cfg: Config, w: World, H: set<Holding>, l: Local, id: Id)
    requires WorldOk(cfg, w, H) && LocalOk(cfg, w, H, l) && !l.Done? && AboutTo(w, l, id)
    ensures Nearer(w, Go(cfg, w, l, Hastening(w, l, id)), id)
  {
    hide *;
    AltersSomewhere(w, l, id);
    var c := Hastening(w, l, id);
    HasteningIs(w, l, id);
    NearerFacts(cfg, w, H, l, id);
    if l.CreateSave? && l.t.id == id {
      CreateStarts(l);
      CreateGoes(cfg, w, l, c);
      CreateComesNearer(cfg, w, l, id);
    } else if InLimits(l) {
      LimitsGoes(cfg, w, l, c);
      LimitsComeNearer(cfg, w, l, c.delay, id);
    } else if InStatus(l) {
      InOneFamily(l);
      StatusGoes(cfg, w, l, c);
      StatusComesNearer(cfg, w, l, id);
    } else if InIssue(l) {
      InOneFamily(l);
      IssueGoes(cfg, w, l, c);
      IssueComesNearer(cfg, w, l, id);
    } else {
      RevokeGoes(cfg, w, l, c);
      RevokeComesNearer(cfg, w, l, c.delay, id);
    }
  }

  lemma DeletedIsARow(w: World, id: Id)
    requires IsDeleted(w, id)
    ensures id in w.tenants
  {
  }

  lemma CreateStarts(l: Local)
    requires l.CreateSave?
    ensures InCreate(l)
  {
  }

  lemma InOneFamily(l: Local)
    ensures InStatus(l) || InIssue(l) ==> !l.LimitsSign? && !l.RevokeMark?
  {
  }

  lemma AltersSomewhere(w: World, l: Local, id: Id)
    requires AboutTo(w, l, id)
    ensures id in w.tenants && w.tenants[id].status == Deleted
    ensures (l.CreateSave? && l.t.id == id) || InLimits(l) || InStatus(l) || InIssue(l) || InRevoke(l)
    ensures !l.Done?
  {
  }

  lemma SameForSymmetric(w: World, w': World, id: Id)
    requires SameFor(w, w', id)
    ensures SameFor(w', w, id)
  {
  }

  lemma InvLocal(cfg: Config, m: Machine, H: set<Holding>, i: Id)
    requires Inv(cfg, m, H) && i in m.ops
    ensures WorldOk(cfg, m.w, H) && LocalOk(cfg, m.w, H, m.ops[i])
  {
    hide WorldOk, LocalOk;
  }

  lemma AdvanceIs(cfg: Config, m: Machine, i: Id, c: Choice)
    requires i in m.ops && !m.ops[i].Done?
    ensures var n := Go(cfg, m.w, m.ops[i], c); var m' := Step(cfg, m, Advance(i, c));
      && m' == Settle(m, i, n) && m'.w == n.w
      && (!n.l.Done? ==> i in m'.ops && m'.ops[i] == n.l)
      && (n.l.Done? ==> i !in m'.ops)
      && (Phase(n.l) < Phase(m.ops[i]) || (Phase(n.l) == Phase(m.ops[i]) && Remaining(n.l) < Remaining(m.ops[i])))
  {
    hide Go, Phase;
  }

  /** An operation that will change the tenant's data carries on until it has. */
  lemma {:induction false} AlterationSucceeds(cfg: Config, m: Machine, H: set<Holding>, i: Id, id: Id)
    returns (more: seq<Event>)
    requires Inv(cfg, m, H) && i in m.ops && AboutTo(m.w, m.ops[i], id)
    ensures !SameFor(m.w, RunFrom(cfg, m, more).w, id)
    decreases Phase(m.ops[i]), Remaining(m.ops[i])
  {
    hide *;
    var l := m.ops[i];
    AltersSomewhere(m.w, l, id);
    var c := Hastening(m.w, l, id);
    var e := Advance(i, c);
    var m' := Step(cfg, m, e);
    InvLocal(cfg, m, H, i);
    GoesNearer(cfg, m.w, H, l, id);
    AdvanceIs(cfg, m, i, c);
    RunOne(cfg, m, e);
    if SameFor(m.w, m'.w, id) {
      NearerMeans(m.w, l, Go(cfg, m.w, l, c), id);
      AdvanceKeeps(cfg, m, H, i, c);
      var rest := AlterationSucceeds(cfg, m', After(H, m'.w), i, id);
      more := [e] + rest;
      RunFromCat(cfg, m, [e], rest);
      if SameFor(m.w, RunFrom(cfg, m, more).w, id) {
        SameForSymmetric(m.w, m'.w, id);
        SameForTransitive(m'.w, m.w, RunFrom(cfg, m, more).w, id);
      }
    } else {
      more := [e];
    }
  }

  lemma NearerMeans(w: World, l: Local, n: Conf, id: Id)
    requires Nearer(w, n, id) && SameFor(w, n.w, id) && AboutTo(w, l, id)
    ensures !n.l.Done? && AboutTo(n.w, n.l, id)
  {
    hide Alters;
  }

  /** Exactly when a deleted tenant's data are left alone: its row with its token, its seed and
      its credentials never change again, whatever follows, if and only if no operation in
      flight is about to change them. */
  lemma FrozenIff(cfg: Config, es: seq<Event>, id: Id)
    requires IsDeleted(Run(cfg, es).w, id)
    ensures (forall more :: SameFor(Run(cfg, es).w, Run(cfg, es + more).w, id)) <==> NoneAlters(Run(cfg, es), id)
  {
    var m := Run(cfg, es);
    RunKeeps(cfg, es);
    hide Run, Alters, Inv, SameFor, HeldUpTo;
    if NoneAlters(m, id) {
      forall more: seq<Event> ensures SameFor(m.w, Run(cfg, es + more).w, id) {
        DeletedIsFrozen(cfg, es, more, id);
      }
    } else {
      var i :| i in m.ops && Alters(m.w, m.ops[i], id);
      assert AboutTo(m.w, m.ops[i], id);
      var more := AlterationSucceeds(cfg, m, HeldUpTo(cfg, es), i, id);
      RunExtends(cfg, es, more);
      assert !SameFor(m.w, Run(cfg, es + more).w, id);
    }
  }

  // ---------- its account ----------

  /** The tenant's account is at the resolver, or the operation is nearer to pushing it. */
  ghost predicate Approaches(key: PublicKey, n: Conf, id: Id) {
    key in n.w.resolver || (!n.l.Done? && Pushes(n.l, id))
  }

  lemma PushArrives(w: World, jwt: AccountJwt)
    ensures jwt.claims.subject in Push(w, jwt, Ok).resolver
  {
  }

  /** What a pushing operation holds of the tenant names the tenant's account. */
  lemma HeldNamesAccount(cfg: Config, w: World, H: set<Holding>, id: Id, jwt: AccountJwt)
    requires WorldOk(cfg, w, H) && Holding(id, jwt) in H
    ensures id in w.tenants && jwt.claims.subject == w.tenants[id].accountKey
  {
    hide WorldOk;
    HoldingFacts(cfg, w, H, id, jwt);
  }

  lemma CreateApproaches(cfg: Config, w: World, H: set<Holding>, l: Local, id: Id)
    requires cfg.resolver && WorldOk(cfg, w, H) && LocalOk(cfg, w, H, l) && InCreate(l) && Pushes(l, id)
    ensures id in w.tenants && Approaches(w.tenants[id].accountKey, CreateStep(cfg, w, l, Ok), id)
  {
    hide WorldOk, Push;
    HeldNamesAccount(cfg, w, H, id, l.t.accountJwt);
    PushArrives(w, l.t.accountJwt);
  }

  lemma LimitsApproach(cfg: Config, w: World, H: set<Holding>, l: Local, id: Id)
    requires cfg.resolver && WorldOk(cfg, w, H) && LocalOk(cfg, w, H, l) && InLimits(l) && Pushes(l, id)
    ensures id in w.tenants && Approaches(w.tenants[id].accountKey, LimitsStep(cfg, w, l, Ok), id)
  {
    hide WorldOk, Push, SetJwtAndLimits, SignAccountClaims;
    HeldNamesAccount(cfg, w, H, id, l.t.accountJwt);
    PushArrives(w, l.t.accountJwt);
  }

  lemma ActivateApproaches(cfg: Config, w: World, H: set<Holding>, l: Local, id: Id)
    requires cfg.resolver && WorldOk(cfg, w, H) && LocalOk(cfg, w, H, l) && l.ActivatePush? && l.id == id
    ensures id in w.tenants && Approaches(w.tenants[id].accountKey, StatusStep(cfg, w, l, Ok), id)
  {
    hide WorldOk, Push;
    HeldNamesAccount(cfg, w, H, id, l.jwt);
    PushArrives(w, l.jwt);
  }

  lemma RevokeApproaches(cfg: Config, w: World, H: set<Holding>, l: Local, id: Id)
    requires WorldOk(cfg, w, H) && LocalOk(cfg, w, H, l) && InRevoke(l) && Pushes(l, id)
    ensures id in w.tenants && Approaches(w.tenants[id].accountKey, RevokeStep(cfg, w, l, Ok), id)
  {
    hide WorldOk, SetJwt, SetRevokedAt, SignAccountClaims, WithRevocation;
    if l.RevokeSign? || l.RevokeWrite? {
      HeldNamesAccount(cfg, w, H, id, l.was);
    } else if l.RevokeMark? {
      HeldNamesAccount(cfg, w, H, id, l.jwt);
    }
  }

  lemma ReconcileApproaches(cfg: Config, w: World, H: set<Holding>, l: Local, id: Id)
    requires cfg.resolver && WorldOk(cfg, w, H) && LocalOk(cfg, w, H, l) && InReconcile(l) && Pushes(l, id)
    ensures id in w.tenants && Approaches(w.tenants[id].accountKey, ReconcileStep(cfg, w, l, Ok), id)
  {
    hide WorldOk, Push;
    if l.PushAccountJwt? {
      HeldNamesAccount(cfg, w, H, id, l.jwt);
      PushArrives(w, l.jwt);
    } else {
      var k :| 0 <= k < |l.todo| && l.todo[k].id == id && l.todo[k].status == Active;
      assert l.todo[k] in l.todo;
      HeldNamesAccount(cfg, w, H, id, l.todo[k].accountJwt);
      if k == 0 {
        PushArrives(w, l.todo[0].accountJwt);
      } else {
        assert l.todo[1..][k - 1] == l.todo[k];
      }
    }
  }

  lemma GoApproaches(cfg: Config, w: World, H: set<Holding>, l: Local, id: Id)
    requires cfg.resolver && WorldOk(cfg, w, H) && LocalOk(cfg, w, H, l) && !l.Done? && Pushes(l, id)
    ensures id in w.tenants && Approaches(w.tenants[id].accountKey, Go(cfg, w, l, CALM), id)
  {
    hide Go, WorldOk, LocalOk, Approaches;
    assert w.(clock := w.clock + CALM.delay) == w;
    if InCreate(l) {
      CreateGoes(cfg, w, l, CALM);
      CreateApproaches(cfg, w, H, l, id);
    } else if InLimits(l) {
      LimitsGoes(cfg, w, l, CALM);
      LimitsApproach(cfg, w, H, l, id);
    } else if InStatus(l) {
      StatusGoes(cfg, w, l, CALM);
      ActivateApproaches(cfg, w, H, l, id);
    } else if InRevoke(l) {
      RevokeGoes(cfg, w, l, CALM);
      RevokeApproaches(cfg, w, H, l, id);
    } else {
      ReconcileGoes(cfg, w, l, CALM);
      ReconcileApproaches(cfg, w, H, l, id);
    }
  }

  /** An operation that will push the tenant's account carries on until it has. */
  lemma {:induction false} PushSucceeds(cfg: Config, m: Machine, H: set<Holding>, i: Id, id: Id)
    returns (more: seq<Event>)
    requires cfg.resolver && Inv(cfg, m, H) && i in m.ops && Pushes(m.ops[i], id)
    ensures id in m.w.tenants && m.w.tenants[id].accountKey in RunFrom(cfg, m, more).w.resolver
    decreases Phase(m.ops[i]), Remaining(m.ops[i])
  {
    hide *;
    var l := m.ops[i];
    DoneDoesNotPush(l, id);
    var e := Advance(i, CALM);
    var m' := Step(cfg, m, e);
    InvLocal(cfg, m, H, i);
    GoApproaches(cfg, m.w, H, l, id);
    AdvanceIs(cfg, m, i, CALM);
    RunOne(cfg, m, e);
    var key := m.w.tenants[id].accountKey;
    if key in m'.w.resolver {
      more := [e];
    } else {
      ApproachesMeans(key, Go(cfg, m.w, l, CALM), id);
      AdvanceKeeps(cfg, m, H, i, CALM);
      KeyEvolves(m.w, H, m'.w, After(H, m'.w), id);
      var rest := PushSucceeds(cfg, m', After(H, m'.w), i, id);
      more := [e] + rest;
      RunFromCat(cfg, m, [e], rest);
    }
  }

  lemma ApproachesMeans(key: PublicKey, n: Conf, id: Id)
    requires Approaches(key, n, id) && key !in n.w.resolver
    ensures !n.l.Done? && Pushes(n.l, id)
  {
    hide Pushes;
  }

  lemma KeyEvolves(w: World, H: set<Holding>, w': World, H': set<Holding>, id: Id)
    requires Evolves(w, H, w', H') && id in w.tenants
    ensures id in w'.tenants && w'.tenants[id].accountKey == w.tenants[id].accountKey
  {
  }

  lemma DoneDoesNotPush(l: Local, id: Id)
    ensures Pushes(l, id) ==> !l.Done?
  {
  }

  /** A revived tenant can be reseeded. */
  lemma ReseedSucceeds(cfg: Config, es: seq<Event>, id: Id) returns (more: seq<Event>)
    requires cfg.resolver && id in Run(cfg, es).w.tenants && Visible(Run(cfg, es).w, id)
    ensures Run(cfg, es).w.tenants[id].accountKey in Run(cfg, es + more).w.resolver
  {
    hide *;
    var admitted := [Crash(0), Begin(0, Reseed(id)), Advance(0, CALM)];
    var m := Run(cfg, es);
    ReseedStands(cfg, m, id);
    RunExtends(cfg, es, admitted);
    var m1 := Run(cfg, es + admitted);
    RunKeeps(cfg, es + admitted);
    LastPushPushes(id, m.w.tenants[id].accountJwt);
    var rest := PushSucceeds(cfg, m1, HeldUpTo(cfg, es + admitted), 0, id);
    RunExtends(cfg, es + admitted, rest);
    more := admitted + rest;
    assert es + admitted + rest == es + more;
  }

  lemma LastPushPushes(id: Id, jwt: AccountJwt)
    ensures Pushes(PushAccountJwt(id, jwt), id)
  {
  }

  lemma ReseedReads(cfg: Config, w: World, id: Id)
    requires Visible(w, id)
    ensures Go(cfg, w, ReseedRead(id), CALM) == Conf(w, PushAccountJwt(id, w.tenants[id].accountJwt))
  {
    ReconcileGoes(cfg, w, ReseedRead(id), CALM);
    hide Go;
  }

  lemma ReseedStands(cfg: Config, m: Machine, id: Id)
    requires Visible(m.w, id)
    ensures RunFrom(cfg, m, [Crash(0), Begin(0, Reseed(id)), Advance(0, CALM)])
         == Machine(m.w, m.ops[0 := PushAccountJwt(id, m.w.tenants[id].accountJwt)])
  {
    hide Go, RunFrom;
    ReseedReads(cfg, m.w, id);
    var m1 := Machine(m.w, m.ops - {0});
    var m2 := Machine(m.w, m1.ops[0 := ReseedRead(id)]);
    RunOne(cfg, m, Crash(0));
    RunOne(cfg, m1, Begin(0, Reseed(id)));
    RunOne(cfg, m2, Advance(0, CALM));
    RunFromCat(cfg, m, [Crash(0)], [Begin(0, Reseed(id))]);
    RunFromCat(cfg, m, [Crash(0)] + [Begin(0, Reseed(id))], [Advance(0, CALM)]);
    assert [Crash(0)] + [Begin(0, Reseed(id))] + [Advance(0, CALM)]
        == [Crash(0), Begin(0, Reseed(id)), Advance(0, CALM)];
    var l := PushAccountJwt(id, m.w.tenants[id].accountJwt);
    assert m2.ops[0 := l] == m.ops[0 := l];
  }

  /** Exactly when a deleted tenant's account stays absent: it can come back to the resolver if
      and only if an operation in flight will push it or will set the tenant's status. */
  lemma ReappearanceIff(cfg: Config, es: seq<Event>, id: Id)
    requires cfg.resolver && IsDeleted(Run(cfg, es).w, id)
    requires Run(cfg, es).w.tenants[id].accountKey !in Run(cfg, es).w.resolver
    ensures (exists more :: Run(cfg, es).w.tenants[id].accountKey in Run(cfg, es + more).w.resolver)
       <==> !NonePushes(Run(cfg, es), id) || !NoneRevives(Run(cfg, es), id)
  {
    hide *;
    var m := Run(cfg, es);
    DeletedIsARow(m.w, id);
    if NonePushes(m, id) && NoneRevives(m, id) {
      forall more: seq<Event> ensures m.w.tenants[id].accountKey !in Run(cfg, es + more).w.resolver {
        DeletedStaysAbsent(cfg, es, more, id);
      }
    } else {
      var more := ReappearanceSucceeds(cfg, es, id);
      assert m.w.tenants[id].accountKey in Run(cfg, es + more).w.resolver;
    }
  }

  lemma ReappearanceSucceeds(cfg: Config, es: seq<Event>, id: Id) returns (more: seq<Event>)
    requires cfg.resolver && IsDeleted(Run(cfg, es).w, id)
    requires !NonePushes(Run(cfg, es), id) || !NoneRevives(Run(cfg, es), id)
    ensures Run(cfg, es).w.tenants[id].accountKey in Run(cfg, es + more).w.resolver
  {
    hide Run, Revives, Pushes, RunFrom;
    var m := Run(cfg, es);
    if i :| i in m.ops && Pushes(m.ops[i], id) {
      hide *;
      RunKeeps(cfg, es);
      more := PushSucceeds(cfg, m, HeldUpTo(cfg, es), i, id);
      RunExtends(cfg, es, more);
    } else {
      var i :| i in m.ops && Revives(m.ops[i], id);
      hide *;
      DeletedIsARow(m.w, id);
      var revival := RevivalSucceeds(cfg, m, i, id);
      RunExtends(cfg, es, revival);
      KeyPersists(cfg, es, revival, id);
      var reseed := ReseedSucceeds(cfg, es + revival, id);
      more := revival + reseed;
      assert es + revival + reseed == es + more;
    }
  }

  lemma {:induction false} KeyPersists(cfg: Config, es: seq<Event>, more: seq<Event>, id: Id)
    requires id in Run(cfg, es).w.tenants
    ensures id in Run(cfg, es + more).w.tenants
    ensures Run(cfg, es + more).w.tenants[id].accountKey == Run(cfg, es).w.tenants[id].accountKey
    decreases |more|
  {
    hide Step, Inv, Run, HeldUpTo;
    if more == [] {
      assert es + more == es;
    } else {
      var before := es + more[..|more| - 1];
      KeyPersists(cfg, es, more[..|more| - 1], id);
      RunKeeps(cfg, before);
      NextRun(cfg, es, more);
      StepKeeps(cfg, Run(cfg, before), HeldUpTo(cfg, before), more[|more| - 1]);
    }
  }
}
