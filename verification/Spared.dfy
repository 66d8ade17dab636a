/** Revocation strikes nobody else: user keys never collide, and a token rejects a user only
    if the revocation of that very credential was asked for. */
module Spared {
  import opened Wrappers
  import opened Domain
  import opened Protocol
  import opened Effects
  import opened History

  // ---------- user keys ----------

  predicate IsInserting(m: Machine, i: Id, key: PublicKey) {
    i in m.ops && m.ops[i].IssueInsert? && m.ops[i].credential.userKey == key
  }

  /** Stored user keys and those about to be stored are all different, and minted already. */
  ghost predicate UserKeysOk(m: Machine) {
    && (forall c | c in m.w.creds :: c < m.w.next && m.w.creds[c].userKey.seed < m.w.next)
    && (forall c, d | c in m.w.creds && d in m.w.creds && c != d :: m.w.creds[c].userKey != m.w.creds[d].userKey)
    && (forall i, key | IsInserting(m, i, key) :: key.seed < m.w.next)
    && (forall i, key, c | IsInserting(m, i, key) && c in m.w.creds :: m.w.creds[c].userKey != key)
    && (forall i, j, key | IsInserting(m, i, key) && IsInserting(m, j, key) :: i == j)
  }

  /** What a statement does to user keys: at most one new key is minted or one minted key stored. */
  ghost predicate KeysFollow(w: World, l: Local, n: Conf) {
    && w.next <= n.w.next
    && (n.l.IssueInsert?
       ==> n.l.credential.userKey == PublicKeyOf(w.next) && w.next < n.w.next && n.w.creds.Keys == w.creds.Keys)
    && (forall c | c in w.creds :: c in n.w.creds && n.w.creds[c].userKey == w.creds[c].userKey)
    && (forall c | c in n.w.creds && c !in w.creds ::
          c == w.next < n.w.next && l.IssueInsert? && n.w.creds[c].userKey == l.credential.userKey)
  }

  lemma IssueFollows(cfg: Config, w: World, l: Local, o: Outcome)
    requires InIssue(l) && w.next !in w.creds
    ensures KeysFollow(w, l, IssueStep(cfg, w, l, o))
  {
    hide CredentialAllowed;
  }

  lemma GoFollows(cfg: Config, w: World, l: Local, c: Choice)
    requires !l.Done? && w.next !in w.creds
    ensures KeysFollow(w, l, Go(cfg, w, l, c))
  {
    hide Go;
    if InIssue(l) {
      hide KeysFollow;
      IssueGoes(cfg, w, l, c);
      var w1 := w.(clock := w.clock + c.delay);
      IssueFollows(cfg, w1, l, c.outcome);
      SameCredsFollow(w1, w, l, IssueStep(cfg, w1, l, c.outcome));
    } else {
      Succession(cfg, w, l, c);
      CredsEffect(cfg, w, l, c);
    }
  }

  lemma SameCredsFollow(w1: World, w: World, l: Local, n: Conf)
    requires KeysFollow(w1, l, n) && w1.creds == w.creds && w1.next == w.next
    ensures KeysFollow(w, l, n)
  {
  }

  lemma AdvanceKeepsKeys(m: Machine, i: Id, n: Conf)
    requires UserKeysOk(m) && i in m.ops && KeysFollow(m.w, m.ops[i], n)
    ensures UserKeysOk(Settle(m, i, n))
  {
    var m' := Settle(m, i, n);
    assert m.ops[i].IssueInsert? ==> IsInserting(m, i, m.ops[i].credential.userKey);
    forall k, key | IsInserting(m', k, key)
      ensures IsInserting(m, k, key) || (k == i && n.l.IssueInsert? && key == PublicKeyOf(m.w.next))
    {
    }
  }

  lemma StepKeepsKeys(cfg: Config, m: Machine, e: Event)
    requires UserKeysOk(m)
    ensures UserKeysOk(Step(cfg, m, e))
  {
    hide Go, KeysFollow;
    var m' := Step(cfg, m, e);
    if e.Advance? && e.i in m.ops && !m.ops[e.i].Done? {
      assert m.w.next !in m.w.creds;
      GoFollows(cfg, m.w, m.ops[e.i], e.choice);
      AdvanceKeepsKeys(m, e.i, Go(cfg, m.w, m.ops[e.i], e.choice));
    } else {
      assert forall k, key :: IsInserting(m', k, key) ==> IsInserting(m, k, key);
    }
  }

  lemma {:induction false} RunKeepsKeys(cfg: Config, es: seq<Event>)
    ensures UserKeysOk(Run(cfg, es))
    decreases |es|
  {
    hide UserKeysOk, Step;
    if es == [] {
      assert UserKeysOk(EMPTY) by { EmptyKeys(); }
    } else {
      RunKeepsKeys(cfg, es[..|es| - 1]);
      StepKeepsKeys(cfg, Run(cfg, es[..|es| - 1]), es[|es| - 1]);
    }
  }

  lemma EmptyKeys()
    ensures UserKeysOk(EMPTY)
  {
  }

  /** In every interleaving no two credentials, of whatever tenants, share a user key. */
  lemma UserKeysAreDistinct(cfg: Config, es: seq<Event>, c: Id, d: Id)
    requires c in Run(cfg, es).w.creds && d in Run(cfg, es).w.creds
    requires Run(cfg, es).w.creds[c].userKey == Run(cfg, es).w.creds[d].userKey
    ensures c == d
  {
    hide Run;
    RunKeepsKeys(cfg, es);
  }

  // ---------- who asked ----------

  /** Among the events is a request to revoke credential `cid`. */
  predicate Asked(es: seq<Event>, cid: Id) {
    exists k :: 0 <= k < |es| && es[k].Begin? && es[k].request.Revoke? && es[k].request.credentialId == cid
  }

  ghost predicate KeyAsked(w: World, es: seq<Event>, key: PublicKey) {
    exists cid :: cid in w.creds && w.creds[cid].userKey == key && Asked(es, cid)
  }

  ghost predicate TokenAsked(w: World, es: seq<Event>, jwt: AccountJwt) {
    forall key | key in jwt.claims.revocations :: KeyAsked(w, es, key)
  }

  /** The credential an operation is revoking. */
  function Revoking(l: Local): Option<Id> {
    match l
    case RevokeFind(_, cid) => Some(cid)
    case RevokeVisible(_, cid, _) => Some(cid)
    case RevokeRead(_, cid, _) => Some(cid)
    case RevokeSign(_, cid, _, _) => Some(cid)
    case RevokeWrite(_, cid, _, _) => Some(cid)
    case RevokeMark(_, cid, _) => Some(cid)
    case _ => None
  }

  ghost predicate OpAsked(es: seq<Event>, l: Local) {
    Revoking(l).Some? ==> Asked(es, Revoking(l).value)
  }

  ghost predicate AllAsked(m: Machine, H: set<Holding>, es: seq<Event>) {
    && (forall h | h in H :: TokenAsked(m.w, es, h.jwt))
    && (forall i | i in m.ops :: OpAsked(es, m.ops[i]))
  }

  lemma RevokeKeepsTarget(cfg: Config, w: World, l: Local, o: Outcome)
    requires InRevoke(l)
    ensures var n := RevokeStep(cfg, w, l, o); Revoking(n.l).Some? ==> Revoking(n.l) == Revoking(l)
  {
    hide SetJwt, SetRevokedAt, SignAccountClaims, WithRevocation;
  }

  lemma CreateAndIssueDoNotRevoke(cfg: Config, w: World, l: Local, o: Outcome)
    ensures InCreate(l) ==> Revoking(CreateStep(cfg, w, l, o).l).None?
    ensures InIssue(l) ==> Revoking(IssueStep(cfg, w, l, o).l).None?
  {
    hide Insertable, CredentialInsertable;
  }

  lemma OthersDoNotRevoke(cfg: Config, w: World, l: Local, o: Outcome)
    ensures InLimits(l) ==> Revoking(LimitsStep(cfg, w, l, o).l).None?
    ensures InReconcile(l) ==> Revoking(ReconcileStep(cfg, w, l, o).l).None?
    ensures InStatus(l) ==> Revoking(StatusStep(cfg, w, l, o).l).None?
  {
    hide Listing, Push, Remove, SetStatus, SetJwtAndLimits;
  }

  lemma GoKeepsTarget(cfg: Config, w: World, l: Local, c: Choice)
    requires !l.Done?
    ensures var n := Go(cfg, w, l, c); Revoking(n.l).Some? ==> Revoking(n.l) == Revoking(l)
  {
    hide *;
    var w1, o := w.(clock := w.clock + c.delay), c.outcome;
    GoesSomehow(l);
    CreateAndIssueDoNotRevoke(cfg, w1, l, o);
    OthersDoNotRevoke(cfg, w1, l, o);
    if InRevoke(l) { RevokeGoes(cfg, w, l, c); RevokeKeepsTarget(cfg, w1, l, o); }
    else if InCreate(l) { CreateGoes(cfg, w, l, c); }
    else if InLimits(l) { LimitsGoes(cfg, w, l, c); }
    else if InIssue(l) { IssueGoes(cfg, w, l, c); }
    else if InReconcile(l) { ReconcileGoes(cfg, w, l, c); }
    else { StatusGoes(cfg, w, l, c); }
  }

  lemma KeyStaysAsked(w: World, w': World, es: seq<Event>, e: Event, key: PublicKey)
    requires KeyAsked(w, es, key)
    requires forall c | c in w.creds :: c in w'.creds && w'.creds[c].userKey == w.creds[c].userKey
    ensures KeyAsked(w', es + [e], key)
  {
    var cid :| cid in w.creds && w.creds[cid].userKey == key && Asked(es, cid);
    AskedStays(es, e, cid);
  }

  lemma AskedStays(es: seq<Event>, e: Event, cid: Id)
    requires Asked(es, cid)
    ensures Asked(es + [e], cid)
  {
    var k :| 0 <= k < |es| && es[k].Begin? && es[k].request.Revoke? && es[k].request.credentialId == cid;
    assert (es + [e])[k] == es[k];
  }

  lemma LimitsAreAsked(cfg: Config, w: World, H: set<Holding>, es: seq<Event>, l: Local)
    requires l.LimitsWrite? && LocalOk(cfg, w, H, l)
    requires forall h | h in H :: TokenAsked(w, es, h.jwt)
    ensures TokenAsked(w, es, l.jwt)
  {
    hide KeyAsked;
    assert TokenAsked(w, es, Holding(l.t.id, l.t.accountJwt).jwt);
  }

  lemma RevocationIsAsked(cfg: Config, w: World, H: set<Holding>, es: seq<Event>, l: Local)
    requires l.RevokeWrite? && LocalOk(cfg, w, H, l) && OpAsked(es, l)
    requires forall h | h in H :: TokenAsked(w, es, h.jwt)
    ensures TokenAsked(w, es, l.jwt)
  {
    hide Asked;
    assert TokenAsked(w, es, Holding(l.id, l.was).jwt);
    forall key | key in l.jwt.claims.revocations ensures KeyAsked(w, es, key) {
      if key !in l.was.claims.revocations {
        assert key == w.creds[l.cid].userKey;
      }
    }
  }

  /** The token a statement writes into a row revokes only what was asked for. */
  lemma WrittenIsAsked(cfg: Config, w: World, H: set<Holding>, es: seq<Event>, l: Local, o: Outcome, id: Id)
    requires WorldOk(cfg, w, H) && LocalOk(cfg, w, H, l) && OpAsked(es, l)
    requires forall h | h in H :: TokenAsked(w, es, h.jwt)
    requires id in TenantsAfter(w, l, o)
    ensures TokenAsked(w, es, TenantsAfter(w, l, o)[id].accountJwt)
  {
    hide WorldOk, LocalOk, OpAsked, KeyAsked, TokenAsked;
    if id in w.tenants {
      RowFacts(cfg, w, H, id);
      assert TokenAsked(w, es, Holding(id, w.tenants[id].accountJwt).jwt);
    }
    if l.LimitsWrite? {
      LimitsAreAsked(cfg, w, H, es, l);
    } else if l.RevokeWrite? {
      RevocationIsAsked(cfg, w, H, es, l);
    } else if l.CreateInsert? {
      NewTokenIsAsked(cfg, w, H, es, l);
    }
  }

  lemma NewTokenIsAsked(cfg: Config, w: World, H: set<Holding>, es: seq<Event>, l: Local)
    requires l.CreateInsert? && LocalOk(cfg, w, H, l)
    ensures TokenAsked(w, es, l.jwt)
  {
  }

  lemma TokenStaysAsked(w: World, w': World, es: seq<Event>, e: Event, jwt: AccountJwt)
    requires TokenAsked(w, es, jwt)
    requires forall c | c in w.creds :: c in w'.creds && w'.creds[c].userKey == w.creds[c].userKey
    ensures TokenAsked(w', es + [e], jwt)
  {
    hide KeyAsked;
    forall key | key in jwt.claims.revocations ensures KeyAsked(w', es + [e], key) {
      KeyStaysAsked(w, w', es, e, key);
    }
  }

  lemma OpStaysAsked(es: seq<Event>, e: Event, l: Local)
    requires OpAsked(es, l)
    ensures OpAsked(es + [e], l)
  {
    hide Asked;
    if Revoking(l).Some? { AskedStays(es, e, Revoking(l).value); }
  }

  lemma AdvanceKeepsAsked(cfg: Config, m: Machine, H: set<Holding>, es: seq<Event>, i: Id, c: Choice)
    requires Inv(cfg, m, H) && AllAsked(m, H, es) && UserKeysOk(m) && i in m.ops && !m.ops[i].Done?
    ensures var n := Go(cfg, m.w, m.ops[i], c); var m' := Settle(m, i, n);
            AllAsked(m', After(H, m'.w), es + [Advance(i, c)])
  {
    hide Go, Asked, KeyAsked, OpAsked, TokenAsked, LocalOk, WorldOk, MintedOk, TenantsAfter;
    var l, e := m.ops[i], Advance(i, c);
    var n := Go(cfg, m.w, l, c);
    var m' := Settle(m, i, n);
    TenantsEffect(cfg, m.w, l, c);
    GoFollows(cfg, m.w, l, c) by { assert m.w.next !in m.w.creds; }
    forall h | h in After(H, m'.w) ensures TokenAsked(m'.w, es + [e], h.jwt) {
      if h in H {
        assert TokenAsked(m.w, es, h.jwt);
      } else {
        WrittenIsAsked(cfg, m.w, H, es, l, c.outcome, h.id);
      }
      TokenStaysAsked(m.w, m'.w, es, e, h.jwt);
    }
    forall k | k in m'.ops ensures OpAsked(es + [e], m'.ops[k]) {
      assert k in m.ops && OpAsked(es, m.ops[k]);
      GoKeepsTarget(cfg, m.w, l, c);
      assert OpAsked(es, m'.ops[k]) by { OpFollows(es, l, n.l); }
      OpStaysAsked(es, e, m'.ops[k]);
    }
  }

  lemma OpFollows(es: seq<Event>, l: Local, l': Local)
    requires Revoking(l').Some? ==> Revoking(l') == Revoking(l)
    ensures OpAsked(es, l) ==> OpAsked(es, l')
  {
  }

  lemma StepKeepsAsked(cfg: Config, m: Machine, H: set<Holding>, es: seq<Event>, e: Event)
    requires Inv(cfg, m, H) && AllAsked(m, H, es) && UserKeysOk(m)
    ensures var m' := Step(cfg, m, e); AllAsked(m', After(H, m'.w), es + [e])
  {
    var m' := Step(cfg, m, e);
    if e.Advance? && e.i in m.ops && !m.ops[e.i].Done? {
      hide *;
      AdvanceKeepsAsked(cfg, m, H, es, e.i, e.choice);
      AdvanceSteps(cfg, m, e.i, e.choice);
    } else {
      hide Asked, KeyAsked, TokenAsked, OpAsked, Go, LocalOk, MintedOk;
      assert m'.w.tenants == m.w.tenants && m'.w.creds == m.w.creds;
      NothingNew(cfg, m.w, H);
      assert After(H, m'.w) == H;
      hide WorldOk;
      forall h | h in H ensures TokenAsked(m'.w, es + [e], h.jwt) {
        TokenStaysAsked(m.w, m'.w, es, e, h.jwt);
      }
      forall k | k in m'.ops ensures OpAsked(es + [e], m'.ops[k]) {
        if k in m.ops && m'.ops[k] == m.ops[k] {
          OpStaysAsked(es, e, m.ops[k]);
        } else {
          StartIsAsked(es, e);
        }
      }
    }
  }

  lemma AdvanceSteps(cfg: Config, m: Machine, i: Id, c: Choice)
    requires i in m.ops && !m.ops[i].Done?
    ensures Step(cfg, m, Advance(i, c)) == Settle(m, i, Go(cfg, m.w, m.ops[i], c))
  {
  }

  lemma StartIsAsked(es: seq<Event>, e: Event)
    requires e.Begin?
    ensures OpAsked(es + [e], Start(e.request))
  {
    if Revoking(Start(e.request)).Some? {
      assert (es + [e])[|es|] == e;
    }
  }

  lemma {:induction false} RunKeepsAsked(cfg: Config, es: seq<Event>)
    ensures AllAsked(Run(cfg, es), HeldUpTo(cfg, es), es)
    decreases |es|
  {
    hide AllAsked, Inv, UserKeysOk, Step;
    if es == [] {
      assert HeldUpTo(cfg, es) == {};
      NobodyAsked();
    } else {
      var before, e := es[..|es| - 1], es[|es| - 1];
      assert es == before + [e];
      RunKeepsAsked(cfg, before);
      RunKeeps(cfg, before);
      RunKeepsKeys(cfg, before);
      StepKeepsAsked(cfg, Run(cfg, before), HeldUpTo(cfg, before), before, e);
      assert HeldUpTo(cfg, es) == After(HeldUpTo(cfg, before), Run(cfg, es).w);
    }
  }

  lemma NobodyAsked()
    ensures AllAsked(EMPTY, {}, [])
  {
  }

  /** In every interleaving, a token that a row carries or ever carried, and so whatever the
      resolver serves, rejects a user only if revoking that user's own credential was requested. */
  lemma OnlyTheAskedAreRejected(cfg: Config, es: seq<Event>, j: nat, id: Id, jwt: AccountJwt, cid: Id)
    requires CarriedAt(cfg, es, j, id, jwt) && cid in Run(cfg, es).w.creds
    requires Rejects(jwt, Run(cfg, es).w.creds[cid].userJwt)
    ensures Asked(es, cid)
  {
    var m := Run(cfg, es);
    var user := m.w.creds[cid].userJwt.subject;
    RunKeepsAsked(cfg, es);
    HeldWasCarried(cfg, es, Holding(id, jwt));
    assert TokenAsked(m.w, es, Holding(id, jwt).jwt) by { hide TokenAsked, OpAsked; }
    RunKeeps(cfg, es);
    CredentialFacts(cfg, m.w, HeldUpTo(cfg, es), cid);
    hide *;
    var other := WhoAsked(m.w, es, jwt, user);
    UserKeysAreDistinct(cfg, es, other, cid);
  }

  lemma WhoAsked(w: World, es: seq<Event>, jwt: AccountJwt, key: PublicKey) returns (cid: Id)
    requires TokenAsked(w, es, jwt) && key in jwt.claims.revocations
    ensures cid in w.creds && w.creds[cid].userKey == key && Asked(es, cid)
  {
    assert KeyAsked(w, es, key);
    cid :| cid in w.creds && w.creds[cid].userKey == key && Asked(es, cid);
  }
}
