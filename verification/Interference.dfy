/** What overlapping requests on one tenant undo. Each lemma gives, for every idle state, two
    requests that both succeed, the second served whole while the first stands between its read
    and its write, and what they leave. */
module Interference {
  import opened Domain
  import opened Protocol
  import opened History
  import opened Revocations
  import opened Alone
  import opened Races
  import opened RevokeRetry
  import opened Deletion
  import opened Spared

  // ---------- where the first request stands ----------

  lemma EmptyPlan()
    ensures Head([]) == CALM && Tail([]) == []
  {
  }

  /** One more calm statement. */
  lemma ExecForNext(cfg: Config, w: World, l: Local, k: nat, n: Conf)
    requires !l.Done? && Go(cfg, w, l, CALM) == n
    ensures ExecFor(cfg, w, l, [], k + 1) == ExecFor(cfg, n.w, n.l, [], k)
    ensures ExecFor(cfg, w, l, [], 0) == Conf(w, l)
  {
    hide Go;
  }

  lemma LimitsStands(cfg: Config, w: World, id: Id, columns: Columns)
    requires Visible(w, id)
    ensures ExecFor(cfg, w, LimitsRead(id, columns), [], 1) == Conf(w, LimitsSign(w.tenants[id], columns))
    ensures forall j: nat | j <= 1 :: !ExecFor(cfg, w, LimitsRead(id, columns), [], j).l.Done?
  {
    LimitsGoes(cfg, w, LimitsRead(id, columns), CALM);
    hide Go, ExecFor;
    ExecForNext(cfg, w, LimitsRead(id, columns), 0, Conf(w, LimitsSign(w.tenants[id], columns)));
    ExecForStands(cfg, w, LimitsSign(w.tenants[id], columns), [], 0);
  }

  lemma RevokeStands(cfg: Config, w: World, id: Id, cid: Id)
    requires Live(w, id, cid)
    ensures ExecFor(cfg, w, RevokeFind(id, cid), [], 3)
         == Conf(w, RevokeSign(id, cid, w.creds[cid].userKey, w.tenants[id].accountJwt))
    ensures forall j: nat | j <= 3 :: !ExecFor(cfg, w, RevokeFind(id, cid), [], j).l.Done?
  {
    var key, was := w.creds[cid].userKey, w.tenants[id].accountJwt;
    var l1, l2, l3 := RevokeVisible(id, cid, key), RevokeRead(id, cid, key), RevokeSign(id, cid, key, was);
    RevokeGoes(cfg, w, RevokeFind(id, cid), CALM);
    RevokeGoes(cfg, w, l1, CALM);
    RevokeGoes(cfg, w, l2, CALM);
    hide Go, ExecFor;
    forall j: nat | j <= 2 ensures ExecFor(cfg, w, RevokeFind(id, cid), [], j + 1) == ExecFor(cfg, w, l1, [], j) {
      ExecForNext(cfg, w, RevokeFind(id, cid), j, Conf(w, l1));
    }
    ExecForNext(cfg, w, l1, 0, Conf(w, l2));
    ExecForNext(cfg, w, l1, 1, Conf(w, l2));
    ExecForNext(cfg, w, l2, 0, Conf(w, l3));
    ExecForStands(cfg, w, RevokeFind(id, cid), [], 0);
    ExecForStands(cfg, w, l3, [], 0);
  }

  lemma SuspendStands(cfg: Config, w: World, id: Id)
    requires Visible(w, id)
    ensures var w' := if cfg.resolver then Remove(w, w.tenants[id].accountKey, Ok) else w;
            ExecFor(cfg, w, SuspendRead(id), [], 2) == Conf(w', MarkStatus(id, Suspended))
    ensures forall j: nat | j <= 2 :: !ExecFor(cfg, w, SuspendRead(id), [], j).l.Done?
  {
    var l1 := SuspendRemove(id, w.tenants[id].accountKey);
    var w' := if cfg.resolver then Remove(w, w.tenants[id].accountKey, Ok) else w;
    StatusGoes(cfg, w, SuspendRead(id), CALM);
    StatusGoes(cfg, w, l1, CALM);
    hide Go, ExecFor, Remove;
    ExecForNext(cfg, w, SuspendRead(id), 0, Conf(w, l1));
    ExecForNext(cfg, w, SuspendRead(id), 1, Conf(w, l1));
    ExecForNext(cfg, w, l1, 0, Conf(w', MarkStatus(id, Suspended)));
    ExecForStands(cfg, w', MarkStatus(id, Suspended), [], 0);
  }

  // ---------- how it carries on ----------

  lemma WriteBackTurns(cfg: Config, w: World, t: Tenant, columns: Columns, jwt: AccountJwt)
    requires cfg.resolver && t.id in w.tenants
    requires jwt == SignAccountClaims(cfg.operator, WithLimits(t.accountJwt.claims, columns), w.clock)
    ensures Go(cfg, w, LimitsSign(t, columns), CALM) == Conf(w, LimitsWrite(t, columns, jwt))
    ensures Go(cfg, w, LimitsWrite(t, columns, jwt), CALM)
         == Conf(SetJwtAndLimits(w, t.id, jwt, columns, Ok), LimitsPush(t.(accountJwt := jwt, columns := columns)))
  {
    LimitsGoes(cfg, w, LimitsSign(t, columns), CALM);
    LimitsGoes(cfg, w, LimitsWrite(t, columns, jwt), CALM);
    hide Go, SignAccountClaims, WithLimits, SetJwtAndLimits;
  }

  lemma PushTurn(cfg: Config, w: World, t: Tenant)
    requires cfg.resolver
    ensures Go(cfg, w, LimitsPush(t), CALM) == Conf(Push(w, t.accountJwt, Ok), Done(Updated(t)))
  {
    LimitsGoes(cfg, w, LimitsPush(t), CALM);
    hide Go, Push;
  }

  /** UpdateLimits carrying on from the row it has read, nothing failing. */
  lemma CleanWriteBack(cfg: Config, w: World, t: Tenant, columns: Columns)
    requires cfg.resolver && t.id in w.tenants
    ensures var jwt := SignAccountClaims(cfg.operator, WithLimits(t.accountJwt.claims, columns), w.clock);
      Exec(cfg, w, LimitsSign(t, columns), []).w == Push(SetJwtAndLimits(w, t.id, jwt, columns, Ok), jwt, Ok)
  {
    hide *;
    var jwt := SignAccountClaims(cfg.operator, WithLimits(t.accountJwt.claims, columns), w.clock);
    var w1 := SetJwtAndLimits(w, t.id, jwt, columns, Ok);
    var t1 := t.(accountJwt := jwt, columns := columns);
    EmptyPlan();
    WriteBackTurns(cfg, w, t, columns, jwt);
    ExecStep(cfg, w, LimitsSign(t, columns), []);
    ExecStep(cfg, w, LimitsWrite(t, columns, jwt), []);
    PushTurn(cfg, w1, t1);
    ExecStep(cfg, w1, LimitsPush(t1), []);
    ExecEnd(cfg, Push(w1, jwt, Ok), Updated(t1), []);
  }

  /** A whole UpdateLimits, nothing failing. */
  lemma CleanUpdate(cfg: Config, w: World, id: Id, columns: Columns)
    requires cfg.resolver && Visible(w, id) && w.tenants[id].id == id
    ensures var jwt := SignAccountClaims(cfg.operator, WithLimits(w.tenants[id].accountJwt.claims, columns), w.clock);
      Exec(cfg, w, LimitsRead(id, columns), []).w == Push(SetJwtAndLimits(w, id, jwt, columns, Ok), jwt, Ok)
  {
    LimitsGoes(cfg, w, LimitsRead(id, columns), CALM);
    hide Go, Exec, SignAccountClaims, WithLimits, Push, SetJwtAndLimits;
    EmptyPlan();
    ExecStep(cfg, w, LimitsRead(id, columns), []);
    CleanWriteBack(cfg, w, w.tenants[id], columns);
  }

  // ---------- what is lost ----------

  /** The row, and the resolver, accept a user whose credential is marked as revoked. */
  predicate Forgotten(w: World, id: Id, cid: Id) {
    && id in w.tenants && cid in w.creds && w.creds[cid].revokedAt.Some?
    && !Rejects(w.tenants[id].accountJwt, w.creds[cid].userJwt)
    && w.tenants[id].accountKey in w.resolver
    && w.resolver[w.tenants[id].accountKey] == w.tenants[id].accountJwt
  }

  /** What the invariant says of a row and of a credential. */
  lemma RowNamesItsKey(cfg: Config, es: seq<Event>, id: Id)
    requires id in Run(cfg, es).w.tenants
    ensures var t := Run(cfg, es).w.tenants[id]; t.id == id && t.accountJwt.claims.subject == t.accountKey
  {
    RunKeeps(cfg, es);
    hide Run, HeldUpTo, WorldOk;
    RowFacts(cfg, Run(cfg, es).w, HeldUpTo(cfg, es), id);
  }

  predicate NamesItsKey(t: Tenant, id: Id) {
    t.id == id && t.accountJwt.claims.subject == t.accountKey
  }

  /** An UpdateLimits that straddles a Revoke: the credential ends up marked as revoked and yet
      accepted, by the row's token and by the resolver alike. */
  lemma RaceForgetsRevocation(cfg: Config, es: seq<Event>, id: Id, cid: Id, columns: Columns)
    requires cfg.resolver && Run(cfg, es).ops == map[] && Live(Run(cfg, es).w, id, cid)
    requires !Rejects(Run(cfg, es).w.tenants[id].accountJwt, Run(cfg, es).w.creds[cid].userJwt)
    ensures var m := Run(cfg, es + Straddle(cfg, Run(cfg, es).w, UpdateLimits(id, columns), 1, Revoke(id, cid)));
      m.ops == map[] && Forgotten(m.w, id, cid)
  {
    RowNamesItsKey(cfg, es, id);
    LimitsStands(cfg, Run(cfg, es).w, id, columns);
    hide Straddle, Straddled, Forgotten, Run, Rejects, ExecFor;
    StraddleRuns(cfg, es, UpdateLimits(id, columns), 1, Revoke(id, cid));
    UpdateForgets(cfg, Run(cfg, es).w, id, cid, columns);
  }

  lemma LateUpdateForgets(cfg: Config, w: World, id: Id, cid: Id, columns: Columns, t: Times, now: nat)
    requires cfg.resolver && Live(w, id, cid) && NamesItsKey(w.tenants[id], id)
    requires !Rejects(w.tenants[id].accountJwt, w.creds[cid].userJwt)
    ensures id in RevokeEffect(cfg, w, id, cid, t).tenants
    ensures var jwt := SignAccountClaims(cfg.operator, WithLimits(w.tenants[id].accountJwt.claims, columns), now);
      Forgotten(Push(SetJwtAndLimits(RevokeEffect(cfg, w, id, cid, t), id, jwt, columns, Ok), jwt, Ok), id, cid)
  {
  }

  lemma UpdateForgets(cfg: Config, w: World, id: Id, cid: Id, columns: Columns)
    requires cfg.resolver && Live(w, id, cid) && NamesItsKey(w.tenants[id], id)
    requires !Rejects(w.tenants[id].accountJwt, w.creds[cid].userJwt)
    ensures Forgotten(Straddled(cfg, w, UpdateLimits(id, columns), 1, Revoke(id, cid)), id, cid)
  {
    hide Exec, ExecFor, Straddled, Forgotten, Rejects, Push, SetJwtAndLimits, SignAccountClaims, WithLimits,
      RevokeEffect;
    LimitsStands(cfg, w, id, columns);
    StraddledIs(cfg, w, UpdateLimits(id, columns), 1, Revoke(id, cid), Conf(w, LimitsSign(w.tenants[id], columns)));
    var times := CleanRevoke(cfg, w, id, cid, []);
    var w1 := RevokeEffect(cfg, w, id, cid, times);
    LateUpdateForgets(cfg, w, id, cid, columns, times, w1.clock);
    CleanWriteBack(cfg, w1, w.tenants[id], columns);
  }

  /** Where an UpdateLimits stands when its row is written and its push is to come. */
  function AtPush(cfg: Config, w: World, id: Id, columns: Columns): Conf
    requires id in w.tenants
  {
    var t := w.tenants[id];
    var jwt := SignAccountClaims(cfg.operator, WithLimits(t.accountJwt.claims, columns), w.clock);
    Conf(SetJwtAndLimits(w, id, jwt, columns, Ok), LimitsPush(t.(accountJwt := jwt, columns := columns)))
  }

  lemma LimitsStandsAtPush(cfg: Config, w: World, id: Id, columns: Columns)
    requires cfg.resolver && Visible(w, id) && NamesItsKey(w.tenants[id], id)
    ensures ExecFor(cfg, w, LimitsRead(id, columns), [], 3) == AtPush(cfg, w, id, columns)
    ensures forall j: nat | j <= 3 :: !ExecFor(cfg, w, LimitsRead(id, columns), [], j).l.Done?
  {
    hide Go, ExecFor, SignAccountClaims, WithLimits, SetJwtAndLimits;
    var t := w.tenants[id];
    var jwt := SignAccountClaims(cfg.operator, WithLimits(t.accountJwt.claims, columns), w.clock);
    var l1, l2 := LimitsSign(t, columns), LimitsWrite(t, columns, jwt);
    var n3 := AtPush(cfg, w, id, columns);
    LimitsReads(cfg, w, id, columns);
    WriteBackTurns(cfg, w, t, columns, jwt);
    forall j: nat | j <= 2 ensures ExecFor(cfg, w, LimitsRead(id, columns), [], j + 1) == ExecFor(cfg, w, l1, [], j) {
      ExecForNext(cfg, w, LimitsRead(id, columns), j, Conf(w, l1));
    }
    ExecForNext(cfg, w, l1, 0, Conf(w, l2));
    ExecForNext(cfg, w, l1, 1, Conf(w, l2));
    ExecForNext(cfg, w, l2, 0, n3);
    ExecForStands(cfg, w, LimitsRead(id, columns), [], 0);
    ExecForStands(cfg, n3.w, n3.l, [], 0);
  }

  lemma LimitsReads(cfg: Config, w: World, id: Id, columns: Columns)
    requires Visible(w, id)
    ensures Go(cfg, w, LimitsRead(id, columns), CALM) == Conf(w, LimitsSign(w.tenants[id], columns))
  {
    LimitsGoes(cfg, w, LimitsRead(id, columns), CALM);
    hide Go;
  }

  /** The row rejects the user, the resolver accepts the user. */
  predicate ServedStale(w: World, id: Id, cid: Id) {
    && id in w.tenants && cid in w.creds && w.creds[cid].revokedAt.Some?
    && Rejects(w.tenants[id].accountJwt, w.creds[cid].userJwt)
    && w.tenants[id].accountKey in w.resolver
    && !Rejects(w.resolver[w.tenants[id].accountKey], w.creds[cid].userJwt)
  }

  /** No write-back need be stale: an UpdateLimits that has written its row, with its push to
      come, straddles a whole successful Revoke; the late push serves the older token, and the
      resolver accepts the revoked user although the row rejects the user. */
  lemma LatePushServesRevoked(cfg: Config, es: seq<Event>, id: Id, cid: Id, columns: Columns)
    requires cfg.resolver && Run(cfg, es).ops == map[] && Live(Run(cfg, es).w, id, cid)
    requires !Rejects(Run(cfg, es).w.tenants[id].accountJwt, Run(cfg, es).w.creds[cid].userJwt)
    ensures var m := Run(cfg, es + Straddle(cfg, Run(cfg, es).w, UpdateLimits(id, columns), 3, Revoke(id, cid)));
      m.ops == map[] && ServedStale(m.w, id, cid)
  {
    RowNamesItsKey(cfg, es, id);
    UserFacts(cfg, es, cid);
    LimitsStandsAtPush(cfg, Run(cfg, es).w, id, columns);
    hide Straddle, Straddled, ServedStale, Run, Rejects, ExecFor;
    StraddleRuns(cfg, es, UpdateLimits(id, columns), 3, Revoke(id, cid));
    PushServesStale(cfg, Run(cfg, es).w, id, cid, columns);
  }

  lemma PushServesStale(cfg: Config, w: World, id: Id, cid: Id, columns: Columns)
    requires cfg.resolver && Live(w, id, cid) && NamesItsKey(w.tenants[id], id) && NamesItsUser(w, w.creds[cid])
    requires !Rejects(w.tenants[id].accountJwt, w.creds[cid].userJwt)
    ensures ServedStale(Straddled(cfg, w, UpdateLimits(id, columns), 3, Revoke(id, cid)), id, cid)
  {
    hide Exec, ExecFor, Straddled, ServedStale, Rejects, Push, AtPush, RevokeEffect;
    LimitsStandsAtPush(cfg, w, id, columns);
    var n := AtPush(cfg, w, id, columns);
    StraddledIs(cfg, w, UpdateLimits(id, columns), 3, Revoke(id, cid), n);
    LateIsLive(cfg, w, id, cid, columns);
    var times := CleanRevoke(cfg, n.w, id, cid, []);
    var w2 := RevokeEffect(cfg, n.w, id, cid, times);
    LatePushServes(cfg, w, id, cid, columns, times);
    CleanPush(cfg, w2, n.l.t);
  }

  lemma LateIsLive(cfg: Config, w: World, id: Id, cid: Id, columns: Columns)
    requires Live(w, id, cid)
    ensures var n := AtPush(cfg, w, id, columns); n.l.LimitsPush? && Live(n.w, id, cid) && n.w.clock == w.clock
  {
  }

  lemma CleanPush(cfg: Config, w: World, t: Tenant)
    requires cfg.resolver
    ensures Exec(cfg, w, LimitsPush(t), []).w == Push(w, t.accountJwt, Ok)
  {
    hide *;
    EmptyPlan();
    PushTurn(cfg, w, t);
    ExecStep(cfg, w, LimitsPush(t), []);
    ExecEnd(cfg, Push(w, t.accountJwt, Ok), Updated(t), []);
  }

  lemma LatePushServes(cfg: Config, w: World, id: Id, cid: Id, columns: Columns, t: Times)
    requires cfg.resolver && Live(w, id, cid) && NamesItsKey(w.tenants[id], id) && NamesItsUser(w, w.creds[cid])
    requires !Rejects(w.tenants[id].accountJwt, w.creds[cid].userJwt) && w.clock <= t.signed
    ensures var n := AtPush(cfg, w, id, columns);
      && n.l.LimitsPush? && Live(n.w, id, cid)
      && ServedStale(Push(RevokeEffect(cfg, n.w, id, cid, t), n.l.t.accountJwt, Ok), id, cid)
  {
  }

  /** No UpdateLimits is needed: a Revoke that straddles the Revoke of another credential of the
      tenant brings that other user back. */
  lemma RevokesForgetEachOther(cfg: Config, es: seq<Event>, id: Id, outer: Id, inner: Id)
    requires cfg.resolver && Run(cfg, es).ops == map[] && outer != inner
    requires Live(Run(cfg, es).w, id, outer) && Live(Run(cfg, es).w, id, inner)
    requires !Rejects(Run(cfg, es).w.tenants[id].accountJwt, Run(cfg, es).w.creds[inner].userJwt)
    ensures var m := Run(cfg, es + Straddle(cfg, Run(cfg, es).w, Revoke(id, outer), 3, Revoke(id, inner)));
      m.ops == map[] && BroughtBack(m.w, id, outer, inner)
  {
    var w := Run(cfg, es).w;
    RowNamesItsKey(cfg, es, id);
    UserFacts(cfg, es, outer);
    UserFacts(cfg, es, inner);
    assert w.creds[outer].userKey != w.creds[inner].userKey by {
      if w.creds[outer].userKey == w.creds[inner].userKey { UserKeysAreDistinct(cfg, es, outer, inner); }
    }
    RevokeStands(cfg, w, id, outer);
    hide Straddle, Straddled, Run, Rejects, ExecFor, BroughtBack;
    StraddleRuns(cfg, es, Revoke(id, outer), 3, Revoke(id, inner));
    RevokeForgets(cfg, w, id, outer, inner);
  }

  lemma UserFacts(cfg: Config, es: seq<Event>, cid: Id)
    requires cid in Run(cfg, es).w.creds
    ensures var w := Run(cfg, es).w;
      w.creds[cid].userJwt.subject == w.creds[cid].userKey && w.creds[cid].userJwt.issuedAt <= w.clock
  {
    RunKeeps(cfg, es);
    hide Run, HeldUpTo, WorldOk;
    CredentialFacts(cfg, Run(cfg, es).w, HeldUpTo(cfg, es), cid);
  }

  predicate NamesItsUser(w: World, c: Credential) {
    c.userJwt.subject == c.userKey && c.userJwt.issuedAt <= w.clock
  }

  predicate BroughtBack(w: World, id: Id, outer: Id, inner: Id) {
    && Forgotten(w, id, inner) && outer in w.creds && w.creds[outer].revokedAt.Some?
    && Rejects(w.tenants[id].accountJwt, w.creds[outer].userJwt)
  }

  /** One Revoke after the other, both computed from the token that `w` had. */
  lemma SecondRevokeForgets(cfg: Config, w: World, id: Id, outer: Id, inner: Id, first: Times, second: Times)
    requires cfg.resolver && outer != inner && Live(w, id, outer) && Live(w, id, inner)
    requires NamesItsKey(w.tenants[id], id) && NamesItsUser(w, w.creds[outer]) && NamesItsUser(w, w.creds[inner])
    requires w.creds[outer].userKey != w.creds[inner].userKey && w.clock <= second.signed
    requires !Rejects(w.tenants[id].accountJwt, w.creds[inner].userJwt)
    ensures var w1 := RevokeEffect(cfg, w, id, inner, first);
      && id in w1.tenants && outer in w1.creds && w1.creds[outer].userKey == w.creds[outer].userKey
      && BroughtBack(RevokeEffectFrom(cfg, w1, id, outer, w.tenants[id].accountJwt, second), id, outer, inner)
  {
  }

  lemma StraddledIs(cfg: Config, w: World, outer: Request, k: nat, inner: Request, n: Conf)
    requires ExecFor(cfg, w, Start(outer), [], k) == n
    ensures Straddled(cfg, w, outer, k, inner) == Exec(cfg, Exec(cfg, n.w, Start(inner), []).w, n.l, []).w
  {
    hide Exec, ExecFor;
  }

  lemma RevokeForgets(cfg: Config, w: World, id: Id, outer: Id, inner: Id)
    requires cfg.resolver && outer != inner && Live(w, id, outer) && Live(w, id, inner)
    requires NamesItsKey(w.tenants[id], id) && NamesItsUser(w, w.creds[outer]) && NamesItsUser(w, w.creds[inner])
    requires w.creds[outer].userKey != w.creds[inner].userKey
    requires !Rejects(w.tenants[id].accountJwt, w.creds[inner].userJwt)
    ensures BroughtBack(Straddled(cfg, w, Revoke(id, outer), 3, Revoke(id, inner)), id, outer, inner)
  {
    hide Exec, ExecFor, Straddled, RevokeEffect, RevokeEffectFrom, BroughtBack, Rejects;
    var was := w.tenants[id].accountJwt;
    RevokeStands(cfg, w, id, outer);
    StraddledIs(cfg, w, Revoke(id, outer), 3, Revoke(id, inner),
      Conf(w, RevokeSign(id, outer, w.creds[outer].userKey, was)));
    var first := CleanRevoke(cfg, w, id, inner, []);
    var w1 := RevokeEffect(cfg, w, id, inner, first);
    EffectTimes(cfg, w, id, inner, first);
    SecondRevokeForgets(cfg, w, id, outer, inner, first, Times(w1.clock, 0, 0));
    var second := CleanRevokeWrites(cfg, w1, id, outer, was, []);
    SecondRevokeForgets(cfg, w, id, outer, inner, first, second);
  }

  lemma EffectTimes(cfg: Config, w: World, id: Id, cid: Id, t: Times)
    requires id in w.tenants && cid in w.creds && w.clock <= t.end
    ensures RevokeEffect(cfg, w, id, cid, t).clock >= w.clock
  {
  }

  /** A Revoke that straddles an UpdateLimits puts the old limits back under the new columns: the
      row is consistent afterwards only if the old limits happen to match the new columns. */
  lemma RevokeRestoresLimits(cfg: Config, es: seq<Event>, id: Id, cid: Id, columns: Columns)
    requires cfg.resolver && Run(cfg, es).ops == map[] && Live(Run(cfg, es).w, id, cid)
    ensures var w := Run(cfg, es).w;
      var m := Run(cfg, es + Straddle(cfg, w, Revoke(id, cid), 3, UpdateLimits(id, columns)));
      && m.ops == map[] && id in m.w.tenants && m.w.tenants[id].columns == columns
      && m.w.tenants[id].accountJwt.claims.limits == w.tenants[id].accountJwt.claims.limits
      && (RowLimitsMatch(m.w.tenants[id]) <==> LimitsMatch(w.tenants[id].accountJwt.claims.limits, columns))
  {
    RowNamesItsKey(cfg, es, id);
    RevokeStands(cfg, Run(cfg, es).w, id, cid);
    hide Straddle, Straddled, Run, LimitsMatch, ExecFor;
    StraddleRuns(cfg, es, Revoke(id, cid), 3, UpdateLimits(id, columns));
    RevokeRestores(cfg, Run(cfg, es).w, id, cid, columns);
  }

  /** A Revoke computed from the token of `w`, after an UpdateLimits. */
  lemma LateRevokeRestores(cfg: Config, w: World, id: Id, cid: Id, columns: Columns, jwt: AccountJwt, t: Times)
    requires Live(w, id, cid)
    ensures var w1 := Push(SetJwtAndLimits(w, id, jwt, columns, Ok), jwt, Ok);
      && id in w1.tenants && cid in w1.creds && w1.creds[cid] == w.creds[cid]
      && var w2 := RevokeEffectFrom(cfg, w1, id, cid, w.tenants[id].accountJwt, t);
         && id in w2.tenants && w2.tenants[id].columns == columns
         && w2.tenants[id].accountJwt.claims.limits == w.tenants[id].accountJwt.claims.limits
  {
  }

  lemma RevokeRestores(cfg: Config, w: World, id: Id, cid: Id, columns: Columns)
    requires cfg.resolver && Live(w, id, cid) && NamesItsKey(w.tenants[id], id)
    ensures var w' := Straddled(cfg, w, Revoke(id, cid), 3, UpdateLimits(id, columns));
      && id in w'.tenants && w'.tenants[id].columns == columns
      && w'.tenants[id].accountJwt.claims.limits == w.tenants[id].accountJwt.claims.limits
  {
    hide Exec, ExecFor, Straddled, RevokeEffectFrom, Push, SetJwtAndLimits, SignAccountClaims, WithLimits;
    var was := w.tenants[id].accountJwt;
    RevokeStands(cfg, w, id, cid);
    StraddledIs(cfg, w, Revoke(id, cid), 3, UpdateLimits(id, columns),
      Conf(w, RevokeSign(id, cid, w.creds[cid].userKey, was)));
    CleanUpdate(cfg, w, id, columns);
    var jwt := SignAccountClaims(cfg.operator, WithLimits(was.claims, columns), w.clock);
    LateRevokeRestores(cfg, w, id, cid, columns, jwt, Times(0, 0, 0));
    var times := CleanRevokeWrites(cfg, Exec(cfg, w, LimitsRead(id, columns), []).w, id, cid, was, []);
    LateRevokeRestores(cfg, w, id, cid, columns, jwt, times);
  }

  /** A Suspend that straddles a Delete makes the deleted tenant visible again. */
  lemma SuspendRevivesDeleted(cfg: Config, es: seq<Event>, id: Id)
    requires Run(cfg, es).ops == map[] && Visible(Run(cfg, es).w, id)
    ensures var m := Run(cfg, es + Straddle(cfg, Run(cfg, es).w, Suspend(id), 2, Delete(id)));
      m.ops == map[] && Visible(m.w, id) && m.w.tenants[id].status == Suspended
  {
    SuspendStands(cfg, Run(cfg, es).w, id);
    hide Straddle, Straddled, Run, ExecFor;
    StraddleRuns(cfg, es, Suspend(id), 2, Delete(id));
    SuspendRevives(cfg, Run(cfg, es).w, id);
  }

  lemma CleanMark(cfg: Config, w: World, id: Id, status: Status)
    ensures Exec(cfg, w, MarkStatus(id, status), []) == Conf(SetStatus(w, id, status, Ok), Done(Completed))
  {
    StatusGoes(cfg, w, MarkStatus(id, status), CALM);
    hide Go, Exec, SetStatus;
    EmptyPlan();
    ExecStep(cfg, w, MarkStatus(id, status), []);
    ExecEnd(cfg, SetStatus(w, id, status, Ok), Completed, []);
  }

  lemma SuspendRevives(cfg: Config, w: World, id: Id)
    requires Visible(w, id)
    ensures var w' := Straddled(cfg, w, Suspend(id), 2, Delete(id));
      Visible(w', id) && w'.tenants[id].status == Suspended
  {
    hide Exec, ExecFor, Straddled;
    SuspendStands(cfg, w, id);
    var w0 := if cfg.resolver then Remove(w, w.tenants[id].accountKey, Ok) else w;
    StraddledIs(cfg, w, Suspend(id), 2, Delete(id), Conf(w0, MarkStatus(id, Suspended)));
    CleanDelete(cfg, w0, id);
    CleanMark(cfg, Exec(cfg, w0, DeleteRead(id), []).w, id, Suspended);
  }

  /** An UpdateLimits that straddles a Delete rewrites the deleted row and serves its account again. */
  lemma UpdateServesDeleted(cfg: Config, es: seq<Event>, id: Id, columns: Columns)
    requires cfg.resolver && Run(cfg, es).ops == map[] && Visible(Run(cfg, es).w, id)
    ensures var w := Run(cfg, es).w;
      var m := Run(cfg, es + Straddle(cfg, w, UpdateLimits(id, columns), 1, Delete(id)));
      m.ops == map[] && ServedThoughDeleted(m.w, id, columns)
  {
    RowNamesItsKey(cfg, es, id);
    LimitsStands(cfg, Run(cfg, es).w, id, columns);
    hide Straddle, Straddled, Run, ExecFor, ServedThoughDeleted;
    StraddleRuns(cfg, es, UpdateLimits(id, columns), 1, Delete(id));
    UpdateServes(cfg, Run(cfg, es).w, id, columns);
  }

  /** A deleted row with new columns, and a token with those limits that the resolver serves. */
  predicate ServedThoughDeleted(w: World, id: Id, columns: Columns) {
    && id in w.tenants && w.tenants[id].status == Deleted && w.tenants[id].columns == columns
    && LimitsMatch(w.tenants[id].accountJwt.claims.limits, columns)
    && w.tenants[id].accountKey in w.resolver
    && w.resolver[w.tenants[id].accountKey] == w.tenants[id].accountJwt
  }

  lemma UpdateServes(cfg: Config, w: World, id: Id, columns: Columns)
    requires cfg.resolver && Visible(w, id) && NamesItsKey(w.tenants[id], id)
    ensures ServedThoughDeleted(Straddled(cfg, w, UpdateLimits(id, columns), 1, Delete(id)), id, columns)
  {
    LimitsStands(cfg, w, id, columns);
    hide Exec, ExecFor;
    CleanDelete(cfg, w, id);
    CleanWriteBack(cfg, Exec(cfg, w, DeleteRead(id), []).w, w.tenants[id], columns);
  }
}
