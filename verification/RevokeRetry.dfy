/** Revoking a credential: what one undisturbed Revoke does, and why retrying a cut-off one
    converges to it. */
module RevokeRetry {
  import opened Wrappers
  import opened Domain
  import opened Protocol
  import opened Alone
  import opened Races

  /** A credential of a visible tenant, not marked as revoked. */
  predicate Live(w: World, id: Id, cid: Id) {
    Visible(w, id) && cid in w.creds && w.creds[cid].tenantId == id && w.creds[cid].revokedAt.None?
  }

  /** When a Revoke signed the new token, when it marked the row, and when it ended. */
  datatype Times = Times(signed: nat, marked: nat, end: nat)

  function RevokedToken(cfg: Config, jwt: AccountJwt, key: PublicKey, at: nat): AccountJwt {
    SignAccountClaims(cfg.operator, WithRevocation(jwt.claims, key, at), at)
  }

  function WithToken(w: World, id: Id, jwt: AccountJwt): map<Id, Tenant>
    requires id in w.tenants
  {
    w.tenants[id := w.tenants[id].(accountJwt := jwt)]
  }

  /** A Revoke that has read `was` and carried on: the row has `was` with the user added, the
      credential is marked, and the resolver has the row's token; nothing else differs. */
  function RevokeEffectFrom(cfg: Config, w: World, id: Id, cid: Id, was: AccountJwt, t: Times): World
    requires id in w.tenants && cid in w.creds
  {
    var jwt := RevokedToken(cfg, was, w.creds[cid].userKey, t.signed);
    w.(tenants := WithToken(w, id, jwt),
       creds := w.creds[cid := w.creds[cid].(revokedAt := Some(t.marked))],
       resolver := if cfg.resolver then w.resolver[jwt.claims.subject := jwt] else w.resolver,
       clock := t.end)
  }

  /** One complete Revoke with nobody else at work. */
  function RevokeEffect(cfg: Config, w: World, id: Id, cid: Id, t: Times): World
    requires id in w.tenants && cid in w.creds
  {
    RevokeEffectFrom(cfg, w, id, cid, w.tenants[id].accountJwt, t)
  }

  function RevokeResult(cfg: Config): Result {
    if cfg.resolver then Completed else Failure(Unreachable)
  }

  /** The read half: up to the token in hand, nothing but time changes. */
  lemma CleanRevokeReads(cfg: Config, w: World, id: Id, cid: Id, plan: seq<Choice>)
    returns (w': World, rest: seq<Choice>)
    requires Live(w, id, cid) && Clean(plan)
    ensures Clean(rest) && w' == w.(clock := w'.clock) && w.clock <= w'.clock
    ensures Exec(cfg, w, RevokeFind(id, cid), plan)
         == Exec(cfg, w', RevokeSign(id, cid, w.creds[cid].userKey, w.tenants[id].accountJwt), rest)
  {
    hide Exec, Go, Clean, Head, Tail;
    var key := w.creds[cid].userKey;
    CleanTail(plan);
    ExecStep(cfg, w, RevokeFind(id, cid), plan);
    RevokeGoes(cfg, w, RevokeFind(id, cid), Head(plan));
    var w1, p1 := w.(clock := w.clock + Head(plan).delay), Tail(plan);
    CleanTail(p1);
    ExecStep(cfg, w1, RevokeVisible(id, cid, key), p1);
    RevokeGoes(cfg, w1, RevokeVisible(id, cid, key), Head(p1));
    var w2, p2 := w1.(clock := w1.clock + Head(p1).delay), Tail(p1);
    CleanTail(p2);
    ExecStep(cfg, w2, RevokeRead(id, cid, key), p2);
    RevokeGoes(cfg, w2, RevokeRead(id, cid, key), Head(p2));
    w', rest := w2.(clock := w2.clock + Head(p2).delay), Tail(p2);
  }

  /** The write half, whatever token was read: token, mark, push. */
  lemma CleanRevokeWrites(cfg: Config, w: World, id: Id, cid: Id, was: AccountJwt, plan: seq<Choice>)
    returns (t: Times)
    requires id in w.tenants && cid in w.creds && Clean(plan)
    ensures w.clock <= t.signed <= t.marked <= t.end
    ensures Exec(cfg, w, RevokeSign(id, cid, w.creds[cid].userKey, was), plan)
         == Conf(RevokeEffectFrom(cfg, w, id, cid, was, t), Done(RevokeResult(cfg)))
  {
    hide Exec, Go, Clean, Head, Tail;
    var key := w.creds[cid].userKey;
    CleanTail(plan);
    ExecStep(cfg, w, RevokeSign(id, cid, key, was), plan);
    RevokeGoes(cfg, w, RevokeSign(id, cid, key, was), Head(plan));
    var w1, p1 := w.(clock := w.clock + Head(plan).delay), Tail(plan);
    var jwt := RevokedToken(cfg, was, key, w1.clock);
    CleanTail(p1);
    ExecStep(cfg, w1, RevokeWrite(id, cid, was, jwt), p1);
    RevokeGoes(cfg, w1, RevokeWrite(id, cid, was, jwt), Head(p1));
    var w2, p2 := w1.(clock := w1.clock + Head(p1).delay, tenants := WithToken(w, id, jwt)), Tail(p1);
    CleanTail(p2);
    ExecStep(cfg, w2, RevokeMark(id, cid, jwt), p2);
    RevokeGoes(cfg, w2, RevokeMark(id, cid, jwt), Head(p2));
    var marked := w2.clock + Head(p2).delay;
    var w3, p3 := w2.(clock := marked, creds := w.creds[cid := w.creds[cid].(revokedAt := Some(marked))]), Tail(p2);
    CleanTail(p3);
    ExecStep(cfg, w3, PushAccountJwt(id, jwt), p3);
    ReconcileGoes(cfg, w3, PushAccountJwt(id, jwt), Head(p3));
    t := Times(w1.clock, marked, w3.clock + Head(p3).delay);
    ExecEnd(cfg, RevokeEffectFrom(cfg, w, id, cid, was, t), RevokeResult(cfg), Tail(p3));
  }

  /** A Revoke of a live credential in which nothing fails. */
  lemma CleanRevoke(cfg: Config, w: World, id: Id, cid: Id, plan: seq<Choice>) returns (t: Times)
    requires Live(w, id, cid) && Clean(plan)
    ensures w.clock <= t.signed <= t.marked <= t.end
    ensures Exec(cfg, w, RevokeFind(id, cid), plan) == Conf(RevokeEffect(cfg, w, id, cid, t), Done(RevokeResult(cfg)))
  {
    hide Exec;
    var w', rest := CleanRevokeReads(cfg, w, id, cid, plan);
    t := CleanRevokeWrites(cfg, w', id, cid, w'.tenants[id].accountJwt, rest);
  }

  // ---------- cut off and retried ----------

  /** The stores a Revoke of `w` may have left behind without marking the credential:
      untouched, or with the token already written. */
  ghost predicate LeftBehind(cfg: Config, w: World, id: Id, cid: Id, w': World)
    requires id in w.tenants && cid in w.creds
  {
    && w.clock <= w'.clock
    && (w' == w.(clock := w'.clock)
        || exists at: nat :: w.clock <= at <= w'.clock
             && w' == w.(clock := w'.clock,
                tenants := WithToken(w, id, RevokedToken(cfg, w.tenants[id].accountJwt, w.creds[cid].userKey, at))))
  }

  ghost predicate Unmarked(cfg: Config, w: World, id: Id, cid: Id, x: Conf)
    requires id in w.tenants && cid in w.creds
  {
    var key, was := w.creds[cid].userKey, w.tenants[id].accountJwt;
    LeftBehind(cfg, w, id, cid, x.w) &&
    match x.l
    case RevokeFind(i, c) => i == id && c == cid && x.w == w.(clock := x.w.clock)
    case RevokeVisible(i, c, k) => i == id && c == cid && k == key && x.w == w.(clock := x.w.clock)
    case RevokeRead(i, c, k) => i == id && c == cid && k == key && x.w == w.(clock := x.w.clock)
    case RevokeSign(i, c, k, j) => i == id && c == cid && k == key && j == was && x.w == w.(clock := x.w.clock)
    case RevokeWrite(i, c, j, jwt) =>
      i == id && c == cid && x.w == w.(clock := x.w.clock)
      && exists at: nat :: w.clock <= at <= x.w.clock && jwt == RevokedToken(cfg, was, key, at)
    case RevokeMark(i, c, _) => i == id && c == cid
    case Done(_) => true
    case _ => false
  }

  predicate Marked(cid: Id, x: Conf) {
    && cid in x.w.creds && x.w.creds[cid].revokedAt.Some?
    && (x.l.PushAccountJwt? || x.l.Done?)
  }

  lemma CutStep(cfg: Config, w: World, id: Id, cid: Id, x: Conf, c: Choice)
    requires Live(w, id, cid) && !x.l.Done? && (Unmarked(cfg, w, id, cid, x) || Marked(cid, x))
    ensures var n := Go(cfg, x.w, x.l, c); Unmarked(cfg, w, id, cid, n) || Marked(cid, n)
  {
    hide Go, Unmarked, LeftBehind;
    if Marked(cid, x) {
      ReconcileGoes(cfg, x.w, x.l, c);
    } else {
      UnmarkedIsRevoking(cfg, w, id, cid, x);
      RevokeGoes(cfg, x.w, x.l, c);
      hide RevokeStep, Marked;
      if x.l.RevokeWrite? {
        CutAtWrite(cfg, w, id, cid, x, c);
      } else if x.l.RevokeMark? {
        CutAtMark(cfg, w, id, cid, x, c);
      } else {
        CutEarly(cfg, w, id, cid, x, c);
      }
    }
  }

  lemma UnmarkedIsRevoking(cfg: Config, w: World, id: Id, cid: Id, x: Conf)
    requires Live(w, id, cid) && !x.l.Done? && Unmarked(cfg, w, id, cid, x)
    ensures InRevoke(x.l)
  {
    hide LeftBehind;
  }

  lemma CutEarly(cfg: Config, w: World, id: Id, cid: Id, x: Conf, c: Choice)
    requires Live(w, id, cid) && Unmarked(cfg, w, id, cid, x)
    requires x.l.RevokeFind? || x.l.RevokeVisible? || x.l.RevokeRead? || x.l.RevokeSign?
    ensures Unmarked(cfg, w, id, cid, RevokeStep(cfg, x.w.(clock := x.w.clock + c.delay), x.l, c.outcome))
  {
    var now := x.w.clock + c.delay;
    assert x.l.RevokeSign? ==>
        RevokedToken(cfg, x.l.was, x.l.key, now)
        == SignAccountClaims(cfg.operator, WithRevocation(x.l.was.claims, x.l.key, now), now);
    hide WithRevocation, SignAccountClaims;
  }

  lemma CutAtWrite(cfg: Config, w: World, id: Id, cid: Id, x: Conf, c: Choice)
    requires Live(w, id, cid) && x.l.RevokeWrite? && Unmarked(cfg, w, id, cid, x)
    ensures Unmarked(cfg, w, id, cid, RevokeStep(cfg, x.w.(clock := x.w.clock + c.delay), x.l, c.outcome))
  {
    var at: nat :| w.clock <= at <= x.w.clock
      && x.l.jwt == RevokedToken(cfg, w.tenants[id].accountJwt, w.creds[cid].userKey, at);
    hide RevokedToken;
    var w' := RevokeStep(cfg, x.w.(clock := x.w.clock + c.delay), x.l, c.outcome).w;
    assert c.outcome.Failed? || w' == w.(clock := w'.clock, tenants := WithToken(w, id, x.l.jwt));
  }

  lemma CutAtMark(cfg: Config, w: World, id: Id, cid: Id, x: Conf, c: Choice)
    requires Live(w, id, cid) && x.l.RevokeMark? && Unmarked(cfg, w, id, cid, x)
    ensures var n := RevokeStep(cfg, x.w.(clock := x.w.clock + c.delay), x.l, c.outcome);
      Unmarked(cfg, w, id, cid, n) || Marked(cid, n)
  {
    hide RevokedToken;
    if c.outcome.Failed? {
      LeftBehindLater(cfg, w, id, cid, x.w, c.delay);
    }
  }

  lemma LeftBehindLater(cfg: Config, w: World, id: Id, cid: Id, w': World, delay: nat)
    requires Live(w, id, cid) && LeftBehind(cfg, w, id, cid, w')
    ensures LeftBehind(cfg, w, id, cid, w'.(clock := w'.clock + delay))
  {
    hide RevokedToken;
    var later := w'.(clock := w'.clock + delay);
    if w' != w.(clock := w'.clock) {
      var at: nat :| w.clock <= at <= w'.clock
        && w' == w.(clock := w'.clock,
           tenants := WithToken(w, id, RevokedToken(cfg, w.tenants[id].accountJwt, w.creds[cid].userKey, at)));
      assert at <= later.clock;
      var jwt := RevokedToken(cfg, w.tenants[id].accountJwt, w.creds[cid].userKey, at);
      assert later == w.(clock := later.clock, tenants := WithToken(w, id, jwt));
    }
  }

  lemma {:induction false} CutAnywhere(cfg: Config, w: World, id: Id, cid: Id, x: Conf, plan: seq<Choice>, k: nat)
    requires Live(w, id, cid) && (Unmarked(cfg, w, id, cid, x) || Marked(cid, x))
    ensures var y := ExecFor(cfg, x.w, x.l, plan, k); Unmarked(cfg, w, id, cid, y) || Marked(cid, y)
    decreases k
  {
    hide Go, Unmarked, Marked;
    if k == 0 || x.l.Done? {
    } else {
      CutStep(cfg, w, id, cid, x, Head(plan));
      CutAnywhere(cfg, w, id, cid, Go(cfg, x.w, x.l, Head(plan)), Tail(plan), k - 1);
    }
  }

  /** Revoke converges under retry. Whatever went wrong in a first attempt and wherever it
      was cut off, as long as it had not marked the credential, a clean retry leaves the
      stores a single clean Revoke would have left, up to the times recorded. */
  lemma RetryConverges(cfg: Config, w: World, id: Id, cid: Id, plan: seq<Choice>, k: nat, retry: seq<Choice>)
    returns (t: Times)
    requires Live(w, id, cid) && Clean(retry)
    requires var w1 := ExecFor(cfg, w, RevokeFind(id, cid), plan, k).w; cid in w1.creds && w1.creds[cid].revokedAt.None?
    ensures Exec(cfg, ExecFor(cfg, w, RevokeFind(id, cid), plan, k).w, RevokeFind(id, cid), retry)
         == Conf(RevokeEffect(cfg, w, id, cid, t), Done(RevokeResult(cfg)))
  {
    CutAnywhere(cfg, w, id, cid, Conf(w, RevokeFind(id, cid)), plan, k);
    var w1 := ExecFor(cfg, w, RevokeFind(id, cid), plan, k).w;
    hide Exec, ExecFor, Clean;
    t := CleanRevoke(cfg, w1, id, cid, retry);
    if w1 != w.(clock := w1.clock) {
      SecondWriteWins(cfg, w, id, cid, w1, t);
    }
  }

  lemma SecondWriteWins(cfg: Config, w: World, id: Id, cid: Id, w1: World, t: Times)
    requires Live(w, id, cid) && LeftBehind(cfg, w, id, cid, w1) && w1 != w.(clock := w1.clock) && w1.clock <= t.signed
    ensures id in w1.tenants && cid in w1.creds
    ensures RevokeEffect(cfg, w1, id, cid, t) == RevokeEffect(cfg, w, id, cid, t)
  {
    var key, was := w.creds[cid].userKey, w.tenants[id].accountJwt;
    var at: nat :| w.clock <= at <= w1.clock && w1.tenants == WithToken(w, id, RevokedToken(cfg, was, key, at));
    AddRevocationTwice(was.claims.revocations, key, at, t.signed);
    hide AddRevocation;
    assert RevokedToken(cfg, RevokedToken(cfg, was, key, at), key, t.signed) == RevokedToken(cfg, was, key, t.signed);
    assert WithToken(w1, id, RevokedToken(cfg, was, key, t.signed))
      == WithToken(w, id, RevokedToken(cfg, was, key, t.signed));
  }

  /** Once the credential is marked, revoking it again changes nothing, so it does not
      repeat a push that was lost. */
  lemma RevokingAgainDoesNothing(cfg: Config, w: World, id: Id, cid: Id, plan: seq<Choice>)
    requires cid in w.creds && w.creds[cid].tenantId == id && w.creds[cid].revokedAt.Some?
    ensures var r := Exec(cfg, w, RevokeFind(id, cid), plan);
      r.w == w.(clock := r.w.clock) && r.l == Done(if Head(plan).outcome.Ok? then Completed else Failure(NotFound))
  {
    hide Exec, Go;
    ExecStep(cfg, w, RevokeFind(id, cid), plan);
    RevokeGoes(cfg, w, RevokeFind(id, cid), Head(plan));
    var n := Go(cfg, w, RevokeFind(id, cid), Head(plan));
    ExecEnd(cfg, n.w, n.l.result, Tail(plan));
  }
}
