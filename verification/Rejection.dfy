/** How long a user stays shut out. The NATS server asks the resolver, whose entry can be older
    than the row: an operation in flight may still push, or write back, a token it took before.
    This is the exact condition under which row and resolver reject a user for good. */
module Rejection {
  import opened Domain
  import opened Protocol
  import Slug
  import opened History
  import opened Effects
  import opened Revocations
  import opened Alone
  import opened Lifecycle
  import opened Deletion
  import opened Undeletion
  import opened Replies

  /** The row's token rejects the user, and so does the resolver's entry if there is one. */
  predicate ShutOut(w: World, id: Id, user: UserJwt) {
    && id in w.tenants && Rejects(w.tenants[id].accountJwt, user)
    && (w.tenants[id].accountKey in w.resolver ==> Rejects(w.resolver[w.tenants[id].accountKey], user))
  }

  /** The operation will yet write or push a token of the tenant that does not reject the user.
      A Revoke that has not signed yet adds its own user. */
  ghost predicate Releases(cfg: Config, l: Local, id: Id, user: UserJwt) {
    match l
    case CreateSave(t, _) => cfg.resolver && t.id == id && !Rejects(t.accountJwt, user)
    case CreatePush(t, _) => cfg.resolver && t.id == id && !Rejects(t.accountJwt, user)
    case LimitsSign(t, _) => t.id == id && !Rejects(t.accountJwt, user)
    case LimitsWrite(t, _, jwt) => t.id == id && !Rejects(jwt, user)
    case LimitsPush(t) => cfg.resolver && t.id == id && !Rejects(t.accountJwt, user)
    case ActivatePush(i, jwt) => cfg.resolver && i == id && !Rejects(jwt, user)
    case RevokeSign(i, _, key, was) => i == id && key != user.subject && !Rejects(was, user)
    case RevokeWrite(i, _, _, jwt) => i == id && !Rejects(jwt, user)
    case RevokeMark(i, _, jwt) => cfg.resolver && i == id && !Rejects(jwt, user)
    case PushAccountJwt(i, jwt) => cfg.resolver && i == id && !Rejects(jwt, user)
    case ReconcilePush(todo, _, _) =>
      exists k | 0 <= k < |todo| :: todo[k].id == id && todo[k].status == Active && !Rejects(todo[k].accountJwt, user)
    case _ => false
  }

  ghost predicate NoneReleases(cfg: Config, m: Machine, id: Id, user: UserJwt) {
    forall i | i in m.ops :: !Releases(cfg, m.ops[i], id, user)
  }

  // ---------- what one statement leaves in hand ----------

  ghost predicate StaysHeld(cfg: Config, w: World, l: Local, id: Id, user: UserJwt) {
    ShutOut(w, id, user) && user.issuedAt <= w.clock && !Releases(cfg, l, id, user)
  }

  lemma SigningRejects(cfg: Config, was: AccountJwt, key: PublicKey, now: nat, user: UserJwt)
    requires user.issuedAt <= now
    ensures var jwt := SignAccountClaims(cfg.operator, WithRevocation(was.claims, key, now), now);
      Rejects(jwt, user) <==> key == user.subject || Rejects(was, user)
  {
  }

  lemma ResigningRejects(cfg: Config, was: AccountJwt, columns: Columns, now: nat, user: UserJwt)
    ensures Rejects(SignAccountClaims(cfg.operator, WithLimits(was.claims, columns), now), user) <==> Rejects(was, user)
  {
  }

  lemma CreateStaysHeld(cfg: Config, w: World, l: Local, o: Outcome, id: Id, user: UserJwt)
    requires InCreate(l) && StaysHeld(cfg, w, l, id, user) && id < w.next
    ensures !Releases(cfg, CreateStep(cfg, w, l, o).l, id, user)
  {
    hide Slug.MatchString, Insertable, Rejects, CreateClaims, SignAccountClaims;
  }

  lemma LimitsStayHeld(cfg: Config, w: World, l: Local, o: Outcome, id: Id, user: UserJwt)
    requires InLimits(l) && StaysHeld(cfg, w, l, id, user) && forall j | j in w.tenants :: w.tenants[j].id == j
    ensures !Releases(cfg, LimitsStep(cfg, w, l, o).l, id, user)
  {
    hide Rejects, SignAccountClaims, WithLimits, Push, SetJwtAndLimits;
    if l.LimitsSign? { ResigningRejects(cfg, l.t.accountJwt, l.columns, w.clock, user); }
  }

  lemma StatusStaysHeld(cfg: Config, w: World, l: Local, o: Outcome, id: Id, user: UserJwt)
    requires InStatus(l) && StaysHeld(cfg, w, l, id, user)
    ensures !Releases(cfg, StatusStep(cfg, w, l, o).l, id, user)
  {
    hide Rejects, Push, Remove, SetStatus;
  }

  lemma IssueStaysHeld(cfg: Config, w: World, l: Local, o: Outcome, id: Id, user: UserJwt)
    requires InIssue(l)
    ensures !Releases(cfg, IssueStep(cfg, w, l, o).l, id, user)
  {
    hide Rejects, CredentialInsertable, Decrypt;
  }

  lemma RevokeStaysHeld(cfg: Config, w: World, l: Local, o: Outcome, id: Id, user: UserJwt)
    requires InRevoke(l) && StaysHeld(cfg, w, l, id, user)
    ensures !Releases(cfg, RevokeStep(cfg, w, l, o).l, id, user)
  {
    hide Rejects, SignAccountClaims, WithRevocation, SetJwt, SetRevokedAt;
    if l.RevokeSign? { SigningRejects(cfg, l.was, l.key, w.clock, user); }
  }

  lemma ReconcileStaysHeld(cfg: Config, w: World, l: Local, o: Outcome, id: Id, user: UserJwt)
    requires InReconcile(l) && StaysHeld(cfg, w, l, id, user) && forall j | j in w.tenants :: w.tenants[j].id == j
    ensures !Releases(cfg, ReconcileStep(cfg, w, l, o).l, id, user)
  {
    hide Rejects, Listing, Push;
    var n := ReconcileStep(cfg, w, l, o);
    if l.ReconcileList? {
      if n.l.ReconcilePush? { ListedRejects(w, id, user, n.l.todo); }
    } else if l.ReconcilePush? {
      assert forall k | 0 <= k < |l.todo| - 1 :: l.todo[1..][k] == l.todo[k + 1];
    }
  }

  lemma ListedRejects(w: World, id: Id, user: UserJwt, rows: seq<Tenant>)
    requires rows == Listing(w.tenants, w.next) && ShutOut(w, id, user)
    requires forall j | j in w.tenants :: w.tenants[j].id == j
    ensures forall k | 0 <= k < |rows| && rows[k].id == id :: Rejects(rows[k].accountJwt, user)
  {
    hide Rejects, Listing;
    forall k | 0 <= k < |rows| && rows[k].id == id ensures Rejects(rows[k].accountJwt, user) {
      assert rows[k] in rows;
      ListingMember(w.tenants, w.next, rows[k]);
    }
  }

  lemma HeldLater(cfg: Config, w: World, l: Local, delay: nat, id: Id, user: UserJwt)
    requires StaysHeld(cfg, w, l, id, user)
    ensures StaysHeld(cfg, w.(clock := w.clock + delay), l, id, user)
  {
    hide Rejects;
  }

  lemma GoStaysHeld(cfg: Config, w: World, l: Local, c: Choice, id: Id, user: UserJwt)
    requires !l.Done? && StaysHeld(cfg, w, l, id, user) && id < w.next
    requires forall j | j in w.tenants :: w.tenants[j].id == j
    ensures !Releases(cfg, Go(cfg, w, l, c).l, id, user)
  {
    hide *;
    var w1, o := w.(clock := w.clock + c.delay), c.outcome;
    HeldLater(cfg, w, l, c.delay, id, user);
    GoesSomehow(l);
    if InCreate(l) { CreateGoes(cfg, w, l, c); CreateStaysHeld(cfg, w1, l, o, id, user); }
    else if InLimits(l) { LimitsGoes(cfg, w, l, c); LimitsStayHeld(cfg, w1, l, o, id, user); }
    else if InStatus(l) { StatusGoes(cfg, w, l, c); StatusStaysHeld(cfg, w1, l, o, id, user); }
    else if InIssue(l) { IssueGoes(cfg, w, l, c); IssueStaysHeld(cfg, w1, l, o, id, user); }
    else if InRevoke(l) { RevokeGoes(cfg, w, l, c); RevokeStaysHeld(cfg, w1, l, o, id, user); }
    else { ReconcileGoes(cfg, w, l, c); ReconcileStaysHeld(cfg, w1, l, o, id, user); }
  }

  // ---------- what it does to the stores ----------

  lemma RowStaysShut(cfg: Config, w: World, l: Local, o: Outcome, id: Id, user: UserJwt)
    requires ShutOut(w, id, user) && !Releases(cfg, l, id, user) && w.next !in w.tenants
    ensures var tenants := TenantsAfter(w, l, o);
      id in tenants && Rejects(tenants[id].accountJwt, user) && tenants[id].accountKey == w.tenants[id].accountKey
  {
    hide Rejects, TenantAllowed;
  }

  lemma SentRejects(cfg: Config, w: World, l: Local, o: Outcome, id: Id, user: UserJwt)
    requires !Releases(cfg, l, id, user) && ResolverAfter(cfg, w, l, o) != w.resolver
    ensures Sends(l).Some? && Sends(l).value.id == id ==> Rejects(Sends(l).value.jwt, user)
  {
    hide Rejects, Pushed, Removed;
  }

  /** The entry of a key after one statement is what the statement sends, or what it was. */
  lemma EntryAfter(cfg: Config, w: World, l: Local, o: Outcome, key: PublicKey)
    requires key in ResolverAfter(cfg, w, l, o)
    ensures var entry := ResolverAfter(cfg, w, l, o)[key];
      || (key in w.resolver && entry == w.resolver[key])
      || (Sends(l).Some? && Sends(l).value.jwt.claims.subject == key && entry == Sends(l).value.jwt)
  {
  }

  lemma SendsWhatItHolds(cfg: Config, w: World, H: set<Holding>, l: Local)
    requires LocalOk(cfg, w, H, l) && Sends(l).Some?
    ensures Sends(l).value in H
  {
    hide WorldOk;
  }

  lemma EntryStaysShut(cfg: Config, w: World, H: set<Holding>, l: Local, o: Outcome, id: Id, user: UserJwt)
    requires WorldOk(cfg, w, H) && LocalOk(cfg, w, H, l) && ShutOut(w, id, user) && !Releases(cfg, l, id, user)
    ensures var key := w.tenants[id].accountKey; var entries := ResolverAfter(cfg, w, l, o);
      key in entries ==> Rejects(entries[key], user)
  {
    hide WorldOk, LocalOk, Rejects, Releases, Sends, ResolverAfter;
    var key := w.tenants[id].accountKey;
    var entries := ResolverAfter(cfg, w, l, o);
    if key in entries && entries != w.resolver {
      EntryAfter(cfg, w, l, o, key);
      SentRejects(cfg, w, l, o, id, user);
      if Sends(l).Some? && Sends(l).value.jwt.claims.subject == key {
        var h := Sends(l).value;
        SendsWhatItHolds(cfg, w, H, l);
        HoldingFacts(cfg, w, H, h.id, h.jwt);
        if h.id != id { DistinctFacts(cfg, w, H, h.id, id); }
      }
    }
  }

  // ---------- every interleaving ----------

  /** Both stores turn the user away, and nothing in flight can bring the user back. */
  ghost predicate Lasting(cfg: Config, m: Machine, id: Id, user: UserJwt) {
    ShutOut(m.w, id, user) && user.issuedAt <= m.w.clock && NoneReleases(cfg, m, id, user)
  }

  lemma AdvanceLasts(cfg: Config, m: Machine, H: set<Holding>, i: Id, c: Choice, id: Id, user: UserJwt)
    requires Inv(cfg, m, H) && i in m.ops && !m.ops[i].Done? && Lasting(cfg, m, id, user)
    ensures Lasting(cfg, Settle(m, i, Go(cfg, m.w, m.ops[i], c)), id, user)
  {
    hide Go, Inv, WorldOk, LocalOk, MintedOk, Rejects, Releases, TenantsAfter, ResolverAfter;
    var l := m.ops[i];
    InvLocal(cfg, m, H, i);
    RowIdsAreTaken(cfg, m.w, H);
    GoStaysHeld(cfg, m.w, l, c, id, user);
    TenantsEffect(cfg, m.w, l, c);
    ResolverEffect(cfg, m.w, l, c);
    ClockAdvances(cfg, m, H, i, c);
    RowStaysShut(cfg, m.w, l, c.outcome, id, user);
    EntryStaysShut(cfg, m.w, H, l, c.outcome, id, user);
  }

  lemma ClockAdvances(cfg: Config, m: Machine, H: set<Holding>, i: Id, c: Choice)
    requires Inv(cfg, m, H) && i in m.ops && !m.ops[i].Done?
    ensures m.w.clock <= Go(cfg, m.w, m.ops[i], c).w.clock
  {
    hide Go, Inv, WorldOk, LocalOk, MintedOk;
    AdvanceKeeps(cfg, m, H, i, c);
  }

  lemma StepLasts(cfg: Config, m: Machine, H: set<Holding>, e: Event, id: Id, user: UserJwt)
    requires Inv(cfg, m, H) && Lasting(cfg, m, id, user)
    ensures Lasting(cfg, Step(cfg, m, e), id, user)
  {
    hide Go, Inv, Rejects, Releases;
    if e.Advance? && e.i in m.ops && !m.ops[e.i].Done? {
      hide Lasting;
      AdvanceLasts(cfg, m, H, e.i, e.choice, id, user);
    } else if e.Begin? {
      StartReleasesNobody(cfg, e.request, id, user);
    }
  }

  lemma StartReleasesNobody(cfg: Config, r: Request, id: Id, user: UserJwt)
    ensures !Releases(cfg, Start(r), id, user)
  {
    hide Rejects;
  }

  /** From then on row and resolver reject the user, whatever is requested and whatever fails. */
  lemma {:induction false} RejectionLasts(cfg: Config, es: seq<Event>, more: seq<Event>, id: Id, user: UserJwt)
    requires Lasting(cfg, Run(cfg, es), id, user)
    ensures Lasting(cfg, Run(cfg, es + more), id, user)
    decreases |more|
  {
    hide Step, Inv, Lasting, Run;
    if more == [] {
      assert es + more == es;
    } else {
      var before := es + more[..|more| - 1];
      RejectionLasts(cfg, es, more[..|more| - 1], id, user);
      RunKeeps(cfg, before);
      NextRun(cfg, es, more);
      StepLasts(cfg, Run(cfg, before), HeldUpTo(cfg, before), more[|more| - 1], id, user);
    }
  }

  // ---------- the converse ----------

  /** The user is let in by row or resolver, or the operation is nearer to that. */
  ghost predicate LetsIn(cfg: Config, n: Conf, id: Id, user: UserJwt) {
    ShutOut(n.w, id, user) ==> !n.l.Done? && Releases(cfg, n.l, id, user)
  }

  lemma PushLetsIn(w: World, id: Id, jwt: AccountJwt, user: UserJwt)
    requires id in w.tenants && jwt.claims.subject == w.tenants[id].accountKey && !Rejects(jwt, user)
    ensures !ShutOut(Push(w, jwt, Ok), id, user)
  {
    hide Rejects;
  }

  lemma CreateLetsIn(cfg: Config, w: World, H: set<Holding>, l: Local, id: Id, user: UserJwt)
    requires WorldOk(cfg, w, H) && LocalOk(cfg, w, H, l) && InCreate(l) && Releases(cfg, l, id, user)
    ensures LetsIn(cfg, CreateStep(cfg, w, l, Ok), id, user)
  {
    hide WorldOk, Push, Rejects, ShutOut;
    HeldNamesAccount(cfg, w, H, id, l.t.accountJwt);
    PushLetsIn(w, id, l.t.accountJwt, user);
  }

  lemma WriteLetsIn(w: World, id: Id, jwt: AccountJwt, columns: Columns, user: UserJwt)
    requires id in w.tenants && !Rejects(jwt, user)
    ensures !ShutOut(SetJwtAndLimits(w, id, jwt, columns, Ok), id, user) && !ShutOut(SetJwt(w, id, jwt, Ok), id, user)
  {
    hide Rejects;
  }

  lemma LimitsLetIn(cfg: Config, w: World, H: set<Holding>, l: Local, id: Id, user: UserJwt)
    requires WorldOk(cfg, w, H) && LocalOk(cfg, w, H, l) && InLimits(l) && Releases(cfg, l, id, user)
    ensures LetsIn(cfg, LimitsStep(cfg, w, l, Ok), id, user)
  {
    hide WorldOk, Push, SetJwtAndLimits, SignAccountClaims, WithLimits, Rejects, ShutOut;
    HeldNamesAccount(cfg, w, H, id, l.t.accountJwt);
    if l.LimitsSign? {
      ResigningRejects(cfg, l.t.accountJwt, l.columns, w.clock, user);
    } else if l.LimitsWrite? {
      WriteLetsIn(w, id, l.jwt, l.columns, user);
    } else {
      PushLetsIn(w, id, l.t.accountJwt, user);
    }
  }

  lemma ActivateLetsIn(cfg: Config, w: World, H: set<Holding>, l: Local, id: Id, user: UserJwt)
    requires WorldOk(cfg, w, H) && LocalOk(cfg, w, H, l) && InStatus(l) && Releases(cfg, l, id, user)
    ensures LetsIn(cfg, StatusStep(cfg, w, l, Ok), id, user)
  {
    hide WorldOk, Push, Rejects, ShutOut;
    HeldNamesAccount(cfg, w, H, id, l.jwt);
    PushLetsIn(w, id, l.jwt, user);
  }

  lemma RevokeLetsIn(cfg: Config, w: World, H: set<Holding>, l: Local, id: Id, user: UserJwt)
    requires WorldOk(cfg, w, H) && LocalOk(cfg, w, H, l) && InRevoke(l) && Releases(cfg, l, id, user)
    requires user.issuedAt <= w.clock
    ensures LetsIn(cfg, RevokeStep(cfg, w, l, Ok), id, user)
  {
    hide WorldOk, SetJwt, SetRevokedAt, SignAccountClaims, WithRevocation, Rejects, ShutOut;
    if l.RevokeSign? {
      SigningRejects(cfg, l.was, l.key, w.clock, user);
    } else if l.RevokeWrite? {
      HeldNamesAccount(cfg, w, H, id, l.was);
      WriteLetsIn(w, id, l.jwt, w.tenants[id].columns, user);
    }
  }

  lemma ReconcileLetsIn(cfg: Config, w: World, H: set<Holding>, l: Local, id: Id, user: UserJwt)
    requires WorldOk(cfg, w, H) && LocalOk(cfg, w, H, l) && InReconcile(l) && Releases(cfg, l, id, user)
    ensures LetsIn(cfg, ReconcileStep(cfg, w, l, Ok), id, user)
  {
    hide WorldOk, Push, Rejects, ShutOut;
    if l.PushAccountJwt? {
      HeldNamesAccount(cfg, w, H, id, l.jwt);
      PushLetsIn(w, id, l.jwt, user);
    } else {
      var k :| 0 <= k < |l.todo| && l.todo[k].id == id && l.todo[k].status == Active
        && !Rejects(l.todo[k].accountJwt, user);
      assert l.todo[k] in l.todo;
      HeldNamesAccount(cfg, w, H, id, l.todo[k].accountJwt);
      if k == 0 {
        PushLetsIn(w, id, l.todo[0].accountJwt, user);
      } else {
        assert l.todo[1..][k - 1] == l.todo[k];
      }
    }
  }

  lemma ReleasesSomewhere(cfg: Config, l: Local, id: Id, user: UserJwt)
    requires Releases(cfg, l, id, user)
    ensures !l.Done? && !InIssue(l)
  {
    hide Rejects;
  }

  lemma CalmIsNow(w: World)
    ensures CALM.outcome == Ok && w.(clock := w.clock + CALM.delay) == w
  {
  }

  lemma GoLetsIn(cfg: Config, w: World, H: set<Holding>, l: Local, id: Id, user: UserJwt)
    requires WorldOk(cfg, w, H) && LocalOk(cfg, w, H, l) && !l.Done? && Releases(cfg, l, id, user)
    requires user.issuedAt <= w.clock
    ensures LetsIn(cfg, Go(cfg, w, l, CALM), id, user)
  {
    hide *;
    CalmIsNow(w);
    ReleasesSomewhere(cfg, l, id, user);
    GoesSomehow(l);
    if InCreate(l) { CreateGoes(cfg, w, l, CALM); CreateLetsIn(cfg, w, H, l, id, user); }
    else if InLimits(l) { LimitsGoes(cfg, w, l, CALM); LimitsLetIn(cfg, w, H, l, id, user); }
    else if InStatus(l) { StatusGoes(cfg, w, l, CALM); ActivateLetsIn(cfg, w, H, l, id, user); }
    else if InRevoke(l) { RevokeGoes(cfg, w, l, CALM); RevokeLetsIn(cfg, w, H, l, id, user); }
    else { ReconcileGoes(cfg, w, l, CALM); ReconcileLetsIn(cfg, w, H, l, id, user); }
  }

  lemma LetsInMeans(cfg: Config, n: Conf, id: Id, user: UserJwt)
    requires LetsIn(cfg, n, id, user) && ShutOut(n.w, id, user)
    ensures !n.l.Done? && Releases(cfg, n.l, id, user)
  {
    hide Releases, ShutOut;
  }

  /** An operation that will write or push a token letting the user in carries on until it has. */
  lemma {:induction false} ReleaseSucceeds(cfg: Config, m: Machine, H: set<Holding>, i: Id, id: Id, user: UserJwt)
    returns (more: seq<Event>)
    requires Inv(cfg, m, H) && i in m.ops && Releases(cfg, m.ops[i], id, user) && user.issuedAt <= m.w.clock
    ensures !ShutOut(RunFrom(cfg, m, more).w, id, user)
    decreases Phase(m.ops[i]), Remaining(m.ops[i])
  {
    hide *;
    var l := m.ops[i];
    ReleasesSomewhere(cfg, l, id, user);
    var e := Advance(i, CALM);
    var m' := Step(cfg, m, e);
    InvLocal(cfg, m, H, i);
    GoLetsIn(cfg, m.w, H, l, id, user);
    AdvanceIs(cfg, m, i, CALM);
    RunOne(cfg, m, e);
    if ShutOut(m'.w, id, user) {
      LetsInMeans(cfg, Go(cfg, m.w, l, CALM), id, user);
      ClockAdvances(cfg, m, H, i, CALM);
      AdvanceKeeps(cfg, m, H, i, CALM);
      var rest := ReleaseSucceeds(cfg, m', After(H, m'.w), i, id, user);
      more := [e] + rest;
      RunFromCat(cfg, m, [e], rest);
    } else {
      more := [e];
    }
  }

  /** Exactly when a user is shut out for good: row and resolver reject the user through
      whatever follows if and only if they do now and no operation in flight will write or push
      a token of the tenant that does not reject the user. */
  lemma ShutOutForGoodIff(cfg: Config, es: seq<Event>, id: Id, user: UserJwt)
    requires user.issuedAt <= Run(cfg, es).w.clock
    ensures (forall more :: ShutOut(Run(cfg, es + more).w, id, user))
       <==> ShutOut(Run(cfg, es).w, id, user) && NoneReleases(cfg, Run(cfg, es), id, user)
  {
    hide Run, ShutOut, Releases, Inv, HeldUpTo, RunFrom;
    var m := Run(cfg, es);
    assert es + [] == es;
    if ShutOut(m.w, id, user) && NoneReleases(cfg, m, id, user) {
      forall more: seq<Event> ensures ShutOut(Run(cfg, es + more).w, id, user) {
        RejectionLasts(cfg, es, more, id, user);
      }
    } else if !ShutOut(m.w, id, user) {
      assert !ShutOut(Run(cfg, es + []).w, id, user);
    } else {
      var i :| i in m.ops && Releases(cfg, m.ops[i], id, user);
      RunKeeps(cfg, es);
      var more := ReleaseSucceeds(cfg, m, HeldUpTo(cfg, es), i, id, user);
      RunExtends(cfg, es, more);
      assert !ShutOut(Run(cfg, es + more).w, id, user);
    }
  }

  /** So a Revoke that succeeds while nothing else is in flight is final: whatever is requested
      afterwards, and whatever fails, neither row nor resolver accepts the user again. */
  lemma RevokedForGood(cfg: Config, es: seq<Event>, i: Id, id: Id, cid: Id, plan: seq<Choice>, more: seq<Event>)
    requires Run(cfg, es).ops == map[]
    requires cid in Run(cfg, es).w.creds && Run(cfg, es).w.creds[cid].revokedAt.None?
    requires Exec(cfg, Run(cfg, es).w, RevokeFind(id, cid), plan).l == Done(Completed)
    ensures var revoke := [Begin(i, Revoke(id, cid))] + Script(cfg, Run(cfg, es).w, RevokeFind(id, cid), i, plan);
      ShutOut(Run(cfg, es + revoke + more).w, id, Run(cfg, es).w.creds[cid].userJwt)
  {
    hide Exec, Script, RunFrom, Run, Rejects, Releases, OnlyRevokes;
    var m := Run(cfg, es);
    var revoke := [Begin(i, Revoke(id, cid))] + Script(cfg, m.w, RevokeFind(id, cid), i, plan);
    assert Start(Revoke(id, cid)) == RevokeFind(id, cid);
    ServedAlone(cfg, m, i, Revoke(id, cid), plan);
    RunExtends(cfg, es, revoke);
    RevokedIsOut(cfg, es, id, cid, plan);
    UserIsOlder(cfg, es, cid);
    assert Lasting(cfg, Run(cfg, es + revoke), id, m.w.creds[cid].userJwt);
    RejectionLasts(cfg, es + revoke, more, id, m.w.creds[cid].userJwt);
  }

  lemma UserIsOlder(cfg: Config, es: seq<Event>, cid: Id)
    requires cid in Run(cfg, es).w.creds
    ensures Run(cfg, es).w.creds[cid].userJwt.issuedAt <= Run(cfg, es).w.clock
  {
    hide Run, HeldUpTo, WorldOk;
    RunKeeps(cfg, es);
    CredentialFacts(cfg, Run(cfg, es).w, HeldUpTo(cfg, es), cid);
  }
}
