/** What a success reply means: for each operation served alone from any reachable state, the
    whole change it has made to both stores, told without its program. */
module Replies {
  import opened Wrappers
  import opened Domain
  import opened Protocol
  import opened History
  import opened Revocations
  import opened Alone
  import opened Creation
  import opened Spared

  /** The limits a server enforces are the columns asked for, one by one. */
  predicate Enforces(limits: AccountLimits, c: Columns) {
    && limits.jetStream.memory == c.memory && limits.jetStream.disk == c.disk
    && limits.jetStream.streams == c.streams && limits.jetStream.consumers == c.consumers
    && limits.conn == c.connections && limits.subs == c.subscriptions
  }

  /** `jwt` is `was` but for its limits and its time of signing. */
  predicate OnlyLimitsDiffer(was: AccountJwt, jwt: AccountJwt) {
    && jwt.claims.subject == was.claims.subject && jwt.claims.name == was.claims.name
    && jwt.claims.expires == was.claims.expires && jwt.claims.revocations == was.claims.revocations
  }

  function Served(cfg: Config, w: World, t: Tenant): map<PublicKey, AccountJwt> {
    if cfg.resolver then w.resolver[t.accountKey := t.accountJwt] else w.resolver
  }

  predicate LimitsInForce(cfg: Config, w: World, id: Id, columns: Columns, r: Conf)
    requires r.l.Done? && r.l.result.Updated?
  {
    var t := r.l.result.tenant;
    && Visible(w, id)
    && t == w.tenants[id].(columns := columns, accountJwt := t.accountJwt)
    && Enforces(t.accountJwt.claims.limits, columns) && OnlyLimitsDiffer(w.tenants[id].accountJwt, t.accountJwt)
    && r.w == w.(clock := r.w.clock, tenants := w.tenants[id := t], resolver := Served(cfg, w, t))
  }

  /** An UpdateLimits that succeeds has the new columns in the row, a token that enforces
      exactly them and keeps every revocation, and that token at the resolver. */
  lemma UpdatedIsInForce(cfg: Config, es: seq<Event>, id: Id, columns: Columns, plan: seq<Choice>)
    requires Exec(cfg, Run(cfg, es).w, LimitsRead(id, columns), plan).l.result.Updated?
    ensures LimitsInForce(cfg, Run(cfg, es).w, id, columns, Exec(cfg, Run(cfg, es).w, LimitsRead(id, columns), plan))
  {
    var w := Run(cfg, es).w;
    RunKeeps(cfg, es);
    if id in w.tenants { RowFacts(cfg, w, HeldUpTo(cfg, es), id); }
    hide Run, Inv, LimitsInForce;
    UpdateEnds(cfg, w, id, columns, plan);
  }

  lemma UpdateEnds(cfg: Config, w: World, id: Id, columns: Columns, plan: seq<Choice>)
    requires id in w.tenants
      ==> w.tenants[id].id == id && w.tenants[id].accountJwt.claims.subject == w.tenants[id].accountKey
    requires Exec(cfg, w, LimitsRead(id, columns), plan).l.result.Updated?
    ensures LimitsInForce(cfg, w, id, columns, Exec(cfg, w, LimitsRead(id, columns), plan))
  {
    hide Exec, Go, Head, Tail, LimitsInForce;
    Turn(cfg, w, LimitsRead(id, columns), plan, Go(cfg, w, LimitsRead(id, columns), Head(plan)));
    LimitsGoes(cfg, w, LimitsRead(id, columns), Head(plan));
    var w1 := w.(clock := w.clock + Head(plan).delay);
    WriteEnds(cfg, w, w1, id, columns, Tail(plan));
  }

  lemma WriteEnds(cfg: Config, w: World, w1: World, id: Id, columns: Columns, plan: seq<Choice>)
    requires Visible(w, id) && w1 == w.(clock := w1.clock)
    requires w.tenants[id].id == id && w.tenants[id].accountJwt.claims.subject == w.tenants[id].accountKey
    requires Exec(cfg, w1, LimitsSign(w.tenants[id], columns), plan).l.result.Updated?
    ensures LimitsInForce(cfg, w, id, columns, Exec(cfg, w1, LimitsSign(w.tenants[id], columns), plan))
  {
    hide Exec, Go, Head, Tail;
    var l1 := LimitsSign(w.tenants[id], columns);
    Turn(cfg, w1, l1, plan, Go(cfg, w1, l1, Head(plan)));
    LimitsGoes(cfg, w1, l1, Head(plan));
    var n2, p2 := Go(cfg, w1, l1, Head(plan)), Tail(plan);
    Turn(cfg, n2.w, n2.l, p2, Go(cfg, n2.w, n2.l, Head(p2)));
    LimitsGoes(cfg, n2.w, n2.l, Head(p2));
    var n3, p3 := Go(cfg, n2.w, n2.l, Head(p2)), Tail(p2);
    Turn(cfg, n3.w, n3.l, p3, Go(cfg, n3.w, n3.l, Head(p3)));
    LimitsGoes(cfg, n3.w, n3.l, Head(p3));
  }

  predicate ActivationInForce(cfg: Config, w: World, id: Id, r: Conf) {
    && Visible(w, id)
    && r.w == w.(clock := r.w.clock, resolver := Served(cfg, w, w.tenants[id]),
                 tenants := w.tenants[id := w.tenants[id].(status := Active)])
  }

  /** An Activate that succeeds has made the tenant active and its row's token served, and nothing else. */
  lemma ActivatedIsServed(cfg: Config, es: seq<Event>, id: Id, plan: seq<Choice>)
    requires Exec(cfg, Run(cfg, es).w, ActivateRead(id), plan).l == Done(Completed)
    ensures ActivationInForce(cfg, Run(cfg, es).w, id, Exec(cfg, Run(cfg, es).w, ActivateRead(id), plan))
  {
    var w := Run(cfg, es).w;
    RunKeeps(cfg, es);
    if id in w.tenants { RowFacts(cfg, w, HeldUpTo(cfg, es), id); }
    hide Run, Inv, ActivationInForce;
    ActivateEnds(cfg, w, id, plan);
  }

  lemma ActivateEnds(cfg: Config, w: World, id: Id, plan: seq<Choice>)
    requires id in w.tenants ==> w.tenants[id].accountJwt.claims.subject == w.tenants[id].accountKey
    requires Exec(cfg, w, ActivateRead(id), plan).l == Done(Completed)
    ensures ActivationInForce(cfg, w, id, Exec(cfg, w, ActivateRead(id), plan))
  {
    hide Exec, Go, Head, Tail;
    Turn(cfg, w, ActivateRead(id), plan, Go(cfg, w, ActivateRead(id), Head(plan)));
    StatusGoes(cfg, w, ActivateRead(id), Head(plan));
    var n1, p1 := Go(cfg, w, ActivateRead(id), Head(plan)), Tail(plan);
    Turn(cfg, n1.w, n1.l, p1, Go(cfg, n1.w, n1.l, Head(p1)));
    StatusGoes(cfg, n1.w, n1.l, Head(p1));
    var n2, p2 := Go(cfg, n1.w, n1.l, Head(p1)), Tail(p1);
    Turn(cfg, n2.w, n2.l, p2, Go(cfg, n2.w, n2.l, Head(p2)));
    StatusGoes(cfg, n2.w, n2.l, Head(p2));
  }

  /** A Delete that succeeds has hidden exactly this tenant, and has removed the account
      unless the removal, whose error is dropped, had no effect. */
  lemma DeletedIsHidden(cfg: Config, w: World, id: Id, plan: seq<Choice>)
    requires Exec(cfg, w, DeleteRead(id), plan).l == Done(Completed)
    ensures var r := Exec(cfg, w, DeleteRead(id), plan);
      && Visible(w, id) && VisibleRows(r.w) == VisibleRows(w) - {id}
      && r.w == w.(clock := r.w.clock, tenants := w.tenants[id := w.tenants[id].(status := Deleted)],
                   resolver := if !cfg.resolver || OutcomeAt(plan, 1).Failed? then w.resolver
                               else w.resolver - {w.tenants[id].accountKey})
  {
    hide Exec, OutcomeAt;
    DeleteEnds(cfg, w, id, plan);
  }

  lemma SecondOutcome(plan: seq<Choice>)
    ensures OutcomeAt(plan, 1) == Head(Tail(plan)).outcome
  {
  }

  lemma DeleteEnds(cfg: Config, w: World, id: Id, plan: seq<Choice>)
    requires Exec(cfg, w, DeleteRead(id), plan).l == Done(Completed)
    ensures var r := Exec(cfg, w, DeleteRead(id), plan);
      && Visible(w, id)
      && r.w == w.(clock := r.w.clock, tenants := w.tenants[id := w.tenants[id].(status := Deleted)],
                   resolver := if !cfg.resolver || OutcomeAt(plan, 1).Failed? then w.resolver
                               else w.resolver - {w.tenants[id].accountKey})
  {
    hide Exec, Go, Head, Tail, OutcomeAt;
    SecondOutcome(plan);
    Turn(cfg, w, DeleteRead(id), plan, Go(cfg, w, DeleteRead(id), Head(plan)));
    StatusGoes(cfg, w, DeleteRead(id), Head(plan));
    var n1, p1 := Go(cfg, w, DeleteRead(id), Head(plan)), Tail(plan);
    if !n1.l.Done? {
      Turn(cfg, n1.w, n1.l, p1, Go(cfg, n1.w, n1.l, Head(p1)));
      StatusGoes(cfg, n1.w, n1.l, Head(p1));
      var n2, p2 := Go(cfg, n1.w, n1.l, Head(p1)), Tail(p1);
      Turn(cfg, n2.w, n2.l, p2, Go(cfg, n2.w, n2.l, Head(p2)));
      StatusGoes(cfg, n2.w, n2.l, Head(p2));
    }
  }

  // ---------- credentials ----------

  ghost predicate IssueInForce(cfg: Config, w: World, id: Id, name: string, expires: Option<nat>, r: Conf)
    requires r.l.Done? && r.l.result.Issued?
  {
    var c := r.l.result.credential;
    && Visible(w, id)
    && r.w == w.(clock := r.w.clock, next := r.w.next, creds := w.creds[c.id := c])
    && c.tenantId == id && c.name == name && c.revokedAt.None?
    && c.userJwt.name == name && c.userJwt.expires == expires && w.clock <= c.userJwt.issuedAt <= r.w.clock
    && w.next <= c.id && w.next <= c.userKey.seed
    && CredentialOk(cfg, r.w, c)
  }

  /** An Issue that succeeds has added one credential under a fresh id and key, signed by and
      naming the tenant's own account, and the tenant's token does not reject it. */
  lemma IssuedIsUsable(cfg: Config, es: seq<Event>, id: Id, name: string, expires: Option<nat>, plan: seq<Choice>)
    requires Exec(cfg, Run(cfg, es).w, IssueRead(id, name, expires), plan).l.result.Issued?
    ensures var w := Run(cfg, es).w; var r := Exec(cfg, w, IssueRead(id, name, expires), plan);
      && IssueInForce(cfg, w, id, name, expires, r)
      && r.l.result.credential.id !in w.creds
      && !Rejects(r.w.tenants[id].accountJwt, r.l.result.credential.userJwt)
  {
    var w := Run(cfg, es).w;
    var r := Exec(cfg, w, IssueRead(id, name, expires), plan);
    RunKeeps(cfg, es);
    RunKeepsKeys(cfg, es);
    if id in w.seeds { SeedFacts(cfg, w, HeldUpTo(cfg, es), id); }
    if id in w.tenants { RowFacts(cfg, w, HeldUpTo(cfg, es), id); }
    hide Run, Inv, WorldOk;
    IssueEnds(cfg, w, id, name, expires, plan);
    assert !IsUserKey(w, id, r.l.result.credential.userKey);
  }

  lemma IssueEnds(cfg: Config, w: World, id: Id, name: string, expires: Option<nat>, plan: seq<Choice>)
    requires id in w.seeds ==> SeedOk(cfg, w, id)
    requires Exec(cfg, w, IssueRead(id, name, expires), plan).l.result.Issued?
    ensures IssueInForce(cfg, w, id, name, expires, Exec(cfg, w, IssueRead(id, name, expires), plan))
  {
    hide Exec, Go, Head, Tail, CredentialInsertable, IssueInForce;
    Turn(cfg, w, IssueRead(id, name, expires), plan, Go(cfg, w, IssueRead(id, name, expires), Head(plan)));
    IssueGoes(cfg, w, IssueRead(id, name, expires), Head(plan));
    var n1, p1 := Go(cfg, w, IssueRead(id, name, expires), Head(plan)), Tail(plan);
    Turn(cfg, n1.w, n1.l, p1, Go(cfg, n1.w, n1.l, Head(p1)));
    IssueGoes(cfg, n1.w, n1.l, Head(p1));
    var n2, p2 := Go(cfg, n1.w, n1.l, Head(p1)), Tail(p1);
    SignedEnds(cfg, w, n2.w, id, name, expires, p2);
  }

  lemma SignedEnds(cfg: Config, w: World, w2: World, id: Id, name: string, expires: Option<nat>, plan: seq<Choice>)
    requires Visible(w, id) && w2 == w.(clock := w2.clock) && w.clock <= w2.clock
    requires var l := IssueSign(id, name, expires, w.tenants[id].accountKey.seed);
      Exec(cfg, w2, l, plan).l.result.Issued?
    ensures var l := IssueSign(id, name, expires, w.tenants[id].accountKey.seed);
            IssueInForce(cfg, w, id, name, expires, Exec(cfg, w2, l, plan))
  {
    hide Exec, Go, Head, Tail, CredentialInsertable;
    var l2 := IssueSign(id, name, expires, w.tenants[id].accountKey.seed);
    Turn(cfg, w2, l2, plan, Go(cfg, w2, l2, Head(plan)));
    IssueGoes(cfg, w2, l2, Head(plan));
    var n3, p3 := Go(cfg, w2, l2, Head(plan)), Tail(plan);
    Turn(cfg, n3.w, n3.l, p3, Go(cfg, n3.w, n3.l, Head(p3)));
    IssueGoes(cfg, n3.w, n3.l, Head(p3));
  }

  /** `jwt` revokes what `was` revokes, the user `key` as of `at`, and differs in nothing else. */
  predicate OnlyRevokes(was: AccountJwt, jwt: AccountJwt, key: PublicKey, at: nat) {
    && jwt.claims.subject == was.claims.subject && jwt.claims.name == was.claims.name
    && jwt.claims.expires == was.claims.expires && jwt.claims.limits == was.claims.limits
    && Grown(was, jwt) && key in jwt.claims.revocations && at <= jwt.claims.revocations[key]
    && forall k | k in jwt.claims.revocations && k != key ::
         k in was.claims.revocations && jwt.claims.revocations[k] == was.claims.revocations[k]
  }

  predicate RevocationInForce(cfg: Config, w: World, id: Id, cid: Id, r: Conf)
    requires cid in w.creds
  {
    && Visible(w, id) && w.creds[cid].tenantId == id && cfg.resolver
    && id in r.w.tenants && cid in r.w.creds && r.w.creds[cid].revokedAt.Some?
    && w.clock <= r.w.creds[cid].revokedAt.value <= r.w.clock
    && r.w == w.(clock := r.w.clock,
                 creds := w.creds[cid := w.creds[cid].(revokedAt := r.w.creds[cid].revokedAt)],
                 tenants := w.tenants[id := w.tenants[id].(accountJwt := r.w.tenants[id].accountJwt)],
                 resolver := w.resolver[w.tenants[id].accountKey := r.w.tenants[id].accountJwt])
    && OnlyRevokes(w.tenants[id].accountJwt, r.w.tenants[id].accountJwt, w.creds[cid].userKey, w.clock)
  }

  /** A Revoke that succeeds on an unmarked credential has marked it, and both the row's token
      and the resolver now reject its user and everybody they rejected before, nobody else. */
  lemma RevokedIsOut(cfg: Config, es: seq<Event>, id: Id, cid: Id, plan: seq<Choice>)
    requires cid in Run(cfg, es).w.creds && Run(cfg, es).w.creds[cid].revokedAt.None?
    requires Exec(cfg, Run(cfg, es).w, RevokeFind(id, cid), plan).l == Done(Completed)
    ensures var w := Run(cfg, es).w; var r := Exec(cfg, w, RevokeFind(id, cid), plan);
      && RevocationInForce(cfg, w, id, cid, r)
      && Rejects(r.w.resolver[w.tenants[id].accountKey], w.creds[cid].userJwt)
  {
    var w := Run(cfg, es).w;
    RunKeeps(cfg, es);
    CredentialFacts(cfg, w, HeldUpTo(cfg, es), cid);
    if id in w.tenants { RowFacts(cfg, w, HeldUpTo(cfg, es), id); }
    hide Run, Inv, WorldOk;
    RevokeEnds(cfg, w, id, cid, plan);
  }

  lemma RevokeEnds(cfg: Config, w: World, id: Id, cid: Id, plan: seq<Choice>)
    requires id in w.tenants ==> w.tenants[id].accountJwt.claims.subject == w.tenants[id].accountKey
    requires cid in w.creds && w.creds[cid].revokedAt.None?
    requires Exec(cfg, w, RevokeFind(id, cid), plan).l == Done(Completed)
    ensures RevocationInForce(cfg, w, id, cid, Exec(cfg, w, RevokeFind(id, cid), plan))
  {
    hide Exec, Go, Head, Tail, RevocationInForce;
    Turn(cfg, w, RevokeFind(id, cid), plan, Go(cfg, w, RevokeFind(id, cid), Head(plan)));
    RevokeGoes(cfg, w, RevokeFind(id, cid), Head(plan));
    var n1, p1 := Go(cfg, w, RevokeFind(id, cid), Head(plan)), Tail(plan);
    Turn(cfg, n1.w, n1.l, p1, Go(cfg, n1.w, n1.l, Head(p1)));
    RevokeGoes(cfg, n1.w, n1.l, Head(p1));
    var n2, p2 := Go(cfg, n1.w, n1.l, Head(p1)), Tail(p1);
    Turn(cfg, n2.w, n2.l, p2, Go(cfg, n2.w, n2.l, Head(p2)));
    RevokeGoes(cfg, n2.w, n2.l, Head(p2));
    var n3, p3 := Go(cfg, n2.w, n2.l, Head(p2)), Tail(p2);
    SignedRevocationEnds(cfg, w, n3.w, id, cid, p3);
  }

  lemma SignedRevocationEnds(cfg: Config, w: World, w3: World, id: Id, cid: Id, plan: seq<Choice>)
    requires Visible(w, id) && w3 == w.(clock := w3.clock) && w.clock <= w3.clock
    requires cid in w.creds && w.creds[cid].tenantId == id
    requires w.tenants[id].accountJwt.claims.subject == w.tenants[id].accountKey
    requires var l := RevokeSign(id, cid, w.creds[cid].userKey, w.tenants[id].accountJwt);
      Exec(cfg, w3, l, plan).l == Done(Completed)
    ensures var l := RevokeSign(id, cid, w.creds[cid].userKey, w.tenants[id].accountJwt);
            RevocationInForce(cfg, w, id, cid, Exec(cfg, w3, l, plan))
  {
    hide Exec, Go, Head, Tail, RevocationInForce;
    var l3 := RevokeSign(id, cid, w.creds[cid].userKey, w.tenants[id].accountJwt);
    Turn(cfg, w3, l3, plan, Go(cfg, w3, l3, Head(plan)));
    RevokeGoes(cfg, w3, l3, Head(plan));
    var n4, p4 := Go(cfg, w3, l3, Head(plan)), Tail(plan);
    WrittenRevocationEnds(cfg, w, n4.w, id, cid, n4.w.clock, p4);
  }

  lemma WrittenRevocationEnds(cfg: Config, w: World, w4: World, id: Id, cid: Id, at: nat, plan: seq<Choice>)
    requires Visible(w, id) && w4 == w.(clock := w4.clock) && w.clock <= at <= w4.clock
    requires cid in w.creds && w.creds[cid].tenantId == id
    requires w.tenants[id].accountJwt.claims.subject == w.tenants[id].accountKey
    requires var was := w.tenants[id].accountJwt;
      var jwt := SignAccountClaims(cfg.operator, WithRevocation(was.claims, w.creds[cid].userKey, at), at);
      Exec(cfg, w4, RevokeWrite(id, cid, was, jwt), plan).l == Done(Completed)
    ensures var was := w.tenants[id].accountJwt;
      var jwt := SignAccountClaims(cfg.operator, WithRevocation(was.claims, w.creds[cid].userKey, at), at);
      RevocationInForce(cfg, w, id, cid, Exec(cfg, w4, RevokeWrite(id, cid, was, jwt), plan))
  {
    hide Exec, Go, Head, Tail;
    var was := w.tenants[id].accountJwt;
    var jwt := SignAccountClaims(cfg.operator, WithRevocation(was.claims, w.creds[cid].userKey, at), at);
    assert OnlyRevokes(was, jwt, w.creds[cid].userKey, w.clock);
    hide OnlyRevokes, SignAccountClaims, WithRevocation;
    var l4 := RevokeWrite(id, cid, was, jwt);
    Turn(cfg, w4, l4, plan, Go(cfg, w4, l4, Head(plan)));
    RevokeGoes(cfg, w4, l4, Head(plan));
    var n5, p5 := Go(cfg, w4, l4, Head(plan)), Tail(plan);
    Turn(cfg, n5.w, n5.l, p5, Go(cfg, n5.w, n5.l, Head(p5)));
    RevokeGoes(cfg, n5.w, n5.l, Head(p5));
    var n6, p6 := Go(cfg, n5.w, n5.l, Head(p5)), Tail(p5);
    Turn(cfg, n6.w, n6.l, p6, Go(cfg, n6.w, n6.l, Head(p6)));
    ReconcileGoes(cfg, n6.w, n6.l, Head(p6));
  }
}
