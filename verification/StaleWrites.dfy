/** Which stale write-backs do harm. UpdateLimits and Revoke overwrite a row's token with one
    computed from what they read earlier; this is the exact condition under which such a
    write keeps every revocation in force, and every token equal to its columns. */
module StaleWrites {
  import opened Domain
  import opened Protocol
  import opened History
  import opened Effects
  import opened Revocations
  import opened Spared

  predicate WritesBack(l: Local) {
    l.LimitsWrite? || l.RevokeWrite?
  }

  predicate MarkedFor(w: World, id: Id, cid: Id) {
    cid in w.creds && w.creds[cid].tenantId == id && w.creds[cid].revokedAt.Some?
  }

  /** What the statement at `l` needs so as not to bring a revoked user back. A write-back: the
      token it was computed from rejects every marked credential of the tenant, except the one
      a Revoke is adding. Setting `revoked_at`: the row's token rejects the credential. */
  ghost predicate SparesMarks(w: World, l: Local) {
    && (WritesBack(l) ==> forall cid | MarkedFor(w, Window(l).value, cid) && !(l.RevokeWrite? && cid == l.cid) ::
          Rejects(Snapshot(l), w.creds[cid].userJwt))
    && (l.RevokeMark? && l.id in w.tenants && l.cid in w.creds ==>
          Rejects(w.tenants[l.id].accountJwt, w.creds[l.cid].userJwt))
  }

  /** What it needs so as to leave the token equal to the columns: a Revoke's write-back must
      carry limits that match the columns the row has now. */
  predicate SparesLimits(w: World, l: Local) {
    l.RevokeWrite? && l.id in w.tenants ==> LimitsMatch(l.was.claims.limits, w.tenants[l.id].columns)
  }

  /** The statement that `e` executes with an effect, if any, meets its condition. */
  ghost predicate KeepsMarks(m: Machine, e: Event) {
    e.Advance? && e.i in m.ops && !e.choice.outcome.Failed? ==> SparesMarks(m.w, m.ops[e.i])
  }

  predicate KeepsLimits(m: Machine, e: Event) {
    e.Advance? && e.i in m.ops && !e.choice.outcome.Failed? ==> SparesLimits(m.w, m.ops[e.i])
  }

  ghost predicate AllMatch(w: World) {
    forall id | id in w.tenants :: RowLimitsMatch(w.tenants[id])
  }

  // ---------- one write-back ----------

  /** Whom the token about to be written rejects: whom the token read earlier rejects, and the
      user a Revoke is adding. */
  lemma WrittenRejects(cfg: Config, w: World, H: set<Holding>, l: Local, cid: Id)
    requires LocalOk(cfg, w, H, l) && WritesBack(l) && cid in w.creds && CredentialOk(cfg, w, w.creds[cid])
    requires forall c | c in w.creds && w.creds[c].userKey == w.creds[cid].userKey :: c == cid
    ensures Rejects(l.jwt, w.creds[cid].userJwt)
       <==> (l.RevokeWrite? && cid == l.cid) || Rejects(Snapshot(l), w.creds[cid].userJwt)
  {
  }

  // ---------- one statement ----------

  /** `tenants'` is `tenants` with the token of row `id` replaced, and nothing else said of it. */
  predicate TokenReplaced(tenants: map<Id, Tenant>, id: Id, jwt: AccountJwt, tenants': map<Id, Tenant>) {
    && id in tenants && tenants'.Keys == tenants.Keys && tenants'[id].accountJwt == jwt
    && forall k | k in tenants && k != id :: tenants'[k] == tenants[k]
  }

  lemma WriteReplaces(cfg: Config, w: World, H: set<Holding>, l: Local, o: Outcome)
    requires WorldOk(cfg, w, H) && LocalOk(cfg, w, H, l) && WritesBack(l) && !o.Failed?
    ensures TokenReplaced(w.tenants, Window(l).value, l.jwt, TenantsAfter(w, l, o))
  {
    WindowIsARow(cfg, w, H, l);
    hide WorldOk, LocalOk;
  }

  /** No two credentials share a user key. */
  predicate DistinctUsers(creds: map<Id, Credential>) {
    forall c, d | c in creds && d in creds && c != d :: creds[c].userKey != creds[d].userKey
  }

  lemma WriteKeepsMarksIff(cfg: Config, w: World, H: set<Holding>, l: Local, w': World)
    requires WorldOk(cfg, w, H) && LocalOk(cfg, w, H, l) && WritesBack(l) && MarkedAreRejected(w)
    requires DistinctUsers(w.creds)
    requires w'.creds == w.creds && TokenReplaced(w.tenants, Window(l).value, l.jwt, w'.tenants)
    ensures MarkedAreRejected(w') <==> SparesMarks(w, l)
  {
    hide WorldOk, LocalOk, Rejects, Snapshot;
    var id := Window(l).value;
    forall cid | cid in w.creds
      ensures w.creds[cid].tenantId in w.tenants
      ensures Rejects(l.jwt, w.creds[cid].userJwt)
         <==> (l.RevokeWrite? && cid == l.cid) || Rejects(Snapshot(l), w.creds[cid].userJwt)
    {
      CredentialFacts(cfg, w, H, cid);
      WrittenRejects(cfg, w, H, l, cid);
    }
    if SparesMarks(w, l) {
      forall cid | cid in w'.creds && w'.creds[cid].revokedAt.Some? && w'.creds[cid].tenantId in w'.tenants
        ensures Rejects(w'.tenants[w'.creds[cid].tenantId].accountJwt, w'.creds[cid].userJwt)
      {
        if w.creds[cid].tenantId == id { assert MarkedFor(w, id, cid); }
      }
    }
  }

  lemma MarkKeepsMarksIff(w: World, l: Local, c: Choice, w': World)
    requires l.RevokeMark? && !c.outcome.Failed? && MarkedAreRejected(w)
    requires l.id in w.tenants && l.cid in w.creds && w.creds[l.cid].tenantId == l.id
    requires w'.creds == CredsAfter(w, l, c) && w'.tenants == w.tenants
    ensures MarkedAreRejected(w') <==> SparesMarks(w, l)
  {
    hide Rejects;
    assert l.cid in w'.creds && w'.creds[l.cid].revokedAt.Some? && w'.creds[l.cid].userJwt == w.creds[l.cid].userJwt;
  }

  /** Nothing else touches a token in use or marks a credential. */
  lemma OthersKeepMarks(w: World, l: Local, c: Choice, w': World)
    requires MarkedAreRejected(w) && InsertMatches(l) && w.next !in w.creds && w.next !in w.tenants
    requires forall cid | cid in w.creds :: w.creds[cid].tenantId in w.tenants
    requires c.outcome.Failed? || (!WritesBack(l) && !l.RevokeMark?)
    requires w'.creds == CredsAfter(w, l, c) && w'.tenants == TenantsAfter(w, l, c.outcome)
    ensures MarkedAreRejected(w')
  {
    hide Rejects, TenantAllowed, CredentialAllowed;
    assert forall id | id in w.tenants :: id in w'.tenants && w'.tenants[id].accountJwt == w.tenants[id].accountJwt;
    hide TenantsAfter;
    assert forall cid | cid in w'.creds && w'.creds[cid].revokedAt.Some? ::
      cid in w.creds && w'.creds[cid] == w.creds[cid];
    hide CredsAfter;
  }

  lemma LimitsKeptIff(cfg: Config, w: World, H: set<Holding>, l: Local, o: Outcome, w': World)
    requires LocalOk(cfg, w, H, l) && InsertMatches(l) && AllMatch(w) && w.next !in w.tenants
    requires w'.tenants == TenantsAfter(w, l, o)
    ensures AllMatch(w') <==> (!o.Failed? ==> SparesLimits(w, l))
  {
    hide TenantAllowed, LimitsMatch;
    if l.RevokeWrite? {
      RevocationAdvances(cfg, w, l.id, l.cid, l.was, l.jwt) by { hide LimitsMatch; }
      hide LocalOk;
      if !o.Failed? && l.id in w.tenants { assert l.id in w'.tenants; }
    } else if l.LimitsWrite? {
      assert LimitsMatch(l.jwt.claims.limits, l.columns) by { WithLimitsMatches(l.t.accountJwt.claims, l.columns); }
      hide LocalOk;
    } else {
      hide LocalOk;
    }
  }

  lemma WithLimitsMatches(claims: AccountClaims, columns: Columns)
    ensures LimitsMatch(WithLimits(claims, columns).limits, columns)
  {
  }

  // ---------- one event ----------

  /** A Create about to insert carries matching limits, and a new credential is unmarked, in every run. */
  lemma {:induction false} RunMatches(cfg: Config, es: seq<Event>)
    ensures var m := Run(cfg, es); forall i | i in m.ops :: InsertMatches(m.ops[i])
    decreases |es|
  {
    hide InsertMatches, Go;
    if es == [] {
    } else {
      var m, e := Run(cfg, es[..|es| - 1]), es[|es| - 1];
      RunMatches(cfg, es[..|es| - 1]);
      if e.Advance? && e.i in m.ops && !m.ops[e.i].Done? {
        GoMatches(cfg, m.w, m.ops[e.i], e.choice);
      } else if e.Begin? {
        StartMatches(e.request);
      }
    }
  }

  lemma StartMatches(r: Request)
    ensures InsertMatches(Start(r))
  {
  }

  /** `m` is a state that the machine reaches. */
  ghost predicate Reached(cfg: Config, m: Machine, H: set<Holding>) {
    && Inv(cfg, m, H) && UserKeysOk(m) && forall i | i in m.ops :: InsertMatches(m.ops[i])
  }

  lemma RunReaches(cfg: Config, es: seq<Event>)
    ensures Reached(cfg, Run(cfg, es), HeldUpTo(cfg, es))
  {
    hide Run, Inv, UserKeysOk, InsertMatches;
    RunKeeps(cfg, es);
    RunKeepsKeys(cfg, es);
    RunMatches(cfg, es);
  }

  lemma AdvanceKeepsMarksIff(cfg: Config, m: Machine, H: set<Holding>, i: Id, c: Choice)
    requires Reached(cfg, m, H) && i in m.ops && !m.ops[i].Done? && MarkedAreRejected(m.w)
    ensures MarkedAreRejected(Go(cfg, m.w, m.ops[i], c).w) <==> KeepsMarks(m, Advance(i, c))
  {
    var l, w' := m.ops[i], Go(cfg, m.w, m.ops[i], c).w;
    hide Go, WorldOk, LocalOk, MintedOk, MarkedAreRejected, InsertMatches, TenantsAfter, CredsAfter, SparesMarks;
    TenantsEffect(cfg, m.w, l, c);
    CredsEffect(cfg, m.w, l, c);
    RowIdsAreTaken(cfg, m.w, H);
    assert LocalOk(cfg, m.w, H, l) && InsertMatches(l);
    if c.outcome.Failed? || (!WritesBack(l) && !l.RevokeMark?) {
      OthersKeepMarks(m.w, l, c, w');
      OthersAreSpared(m.w, l);
    } else if l.RevokeMark? {
      MarkIsOfARow(cfg, m.w, H, l);
      MarkOnlyMarks(m.w, l, c);
      MarkKeepsMarksIff(m.w, l, c, w');
    } else {
      WriteReplaces(cfg, m.w, H, l, c.outcome);
      WriteOnlyWrites(m.w, l, c);
      assert DistinctUsers(m.w.creds);
      WriteKeepsMarksIff(cfg, m.w, H, l, w');
    }
  }

  lemma OthersAreSpared(w: World, l: Local)
    ensures !WritesBack(l) && !l.RevokeMark? ==> SparesMarks(w, l)
  {
  }

  lemma MarkIsOfARow(cfg: Config, w: World, H: set<Holding>, l: Local)
    requires WorldOk(cfg, w, H) && LocalOk(cfg, w, H, l) && l.RevokeMark?
    ensures l.id in w.tenants && l.cid in w.creds && w.creds[l.cid].tenantId == l.id
  {
    hide WorldOk;
    CredentialFacts(cfg, w, H, l.cid);
  }

  lemma MarkOnlyMarks(w: World, l: Local, c: Choice)
    requires l.RevokeMark?
    ensures TenantsAfter(w, l, c.outcome) == w.tenants
  {
  }

  lemma WriteOnlyWrites(w: World, l: Local, c: Choice)
    requires WritesBack(l)
    ensures CredsAfter(w, l, c) == w.creds
  {
  }

  /** For any in-flight write-back, stale or not: afterwards the row's token rejects the user
      of a credential if and only if the token that was read rejects it, or the write is of the
      Revoke of that very credential. */
  lemma WriteBackKeepsExactlyWhatWasRead(cfg: Config, es: seq<Event>, i: Id, c: Choice, cid: Id)
    requires i in Run(cfg, es).ops && WritesBack(Run(cfg, es).ops[i]) && !c.outcome.Failed?
    requires cid in Run(cfg, es).w.creds
    ensures var m := Run(cfg, es); var l := m.ops[i]; var w' := Step(cfg, m, Advance(i, c)).w;
      && Window(l).value in w'.tenants && cid in w'.creds
      && (Rejects(w'.tenants[Window(l).value].accountJwt, w'.creds[cid].userJwt)
          <==> (l.RevokeWrite? && cid == l.cid) || Rejects(Snapshot(l), m.w.creds[cid].userJwt))
  {
    RunReaches(cfg, es);
    hide *;
    MachineKeepsExactly(cfg, Run(cfg, es), HeldUpTo(cfg, es), i, c, cid);
  }

  lemma MachineKeepsExactly(cfg: Config, m: Machine, H: set<Holding>, i: Id, c: Choice, cid: Id)
    requires Reached(cfg, m, H) && i in m.ops && WritesBack(m.ops[i]) && !c.outcome.Failed? && cid in m.w.creds
    ensures var l := m.ops[i]; var w' := Step(cfg, m, Advance(i, c)).w;
      && Window(l).value in w'.tenants && cid in w'.creds
      && (Rejects(w'.tenants[Window(l).value].accountJwt, w'.creds[cid].userJwt)
          <==> (l.RevokeWrite? && cid == l.cid) || Rejects(Snapshot(l), m.w.creds[cid].userJwt))
  {
    assert LocalOk(cfg, m.w, H, m.ops[i]);
    hide Go, Rejects, LocalOk, WorldOk, MintedOk, TenantsAfter, CredsAfter, InsertMatches;
    CredentialFacts(cfg, m.w, H, cid);
    WrittenRejects(cfg, m.w, H, m.ops[i], cid);
    hide UserKeysOk;
    WriteReplaces(cfg, m.w, H, m.ops[i], c.outcome);
    WriteOnlyWrites(m.w, m.ops[i], c);
    TenantsEffect(cfg, m.w, m.ops[i], c);
    CredsEffect(cfg, m.w, m.ops[i], c);
  }

  /** For every reachable machine in which marked credentials are rejected: an event keeps that
      exactly when the statement it executes, if it has an effect, spares the marks. */
  lemma MarksKeptIff(cfg: Config, es: seq<Event>, e: Event)
    requires MarkedAreRejected(Run(cfg, es).w)
    ensures MarkedAreRejected(Step(cfg, Run(cfg, es), e).w) <==> KeepsMarks(Run(cfg, es), e)
  {
    var m := Run(cfg, es);
    RunReaches(cfg, es);
    hide Run, Reached, Go, SparesMarks;
    if e.Advance? && e.i in m.ops && !m.ops[e.i].Done? {
      hide KeepsMarks, MarkedAreRejected;
      AdvanceKeepsMarksIff(cfg, m, HeldUpTo(cfg, es), e.i, e.choice);
    } else {
      if e.Advance? && e.i in m.ops { OthersAreSpared(m.w, m.ops[e.i]); }
    }
  }

  /** The same for limits: of all statements only a Revoke's write-back can break them, and it
      does so exactly when the limits it has read are not those of the row's columns now. */
  lemma LimitsStayIff(cfg: Config, es: seq<Event>, e: Event)
    requires AllMatch(Run(cfg, es).w)
    ensures AllMatch(Step(cfg, Run(cfg, es), e).w) <==> KeepsLimits(Run(cfg, es), e)
  {
    var m := Run(cfg, es);
    RunReaches(cfg, es);
    hide Run, Go, AllMatch, LocalOk, WorldOk, UserKeysOk, InsertMatches, MintedOk, SparesLimits;
    if e.Advance? && e.i in m.ops && !m.ops[e.i].Done? {
      var l := m.ops[e.i];
      assert LocalOk(cfg, m.w, HeldUpTo(cfg, es), l) && InsertMatches(l);
      RowIdsAreTaken(cfg, m.w, HeldUpTo(cfg, es));
      TenantsEffect(cfg, m.w, l, e.choice);
      LimitsKeptIff(cfg, m.w, HeldUpTo(cfg, es), l, e.choice.outcome, Go(cfg, m.w, l, e.choice).w);
    } else {
      SameRowsMatch(m.w, Step(cfg, m, e).w);
      if e.Advance? && e.i in m.ops { DoneSparesLimits(m.w, m.ops[e.i]); }
    }
  }

  lemma SameRowsMatch(w: World, w': World)
    requires w'.tenants == w.tenants
    ensures AllMatch(w') <==> AllMatch(w)
  {
  }

  lemma DoneSparesLimits(w: World, l: Local)
    ensures l.Done? ==> SparesLimits(w, l)
  {
  }

  // ---------- runs ----------

  ghost predicate MarksKept(cfg: Config, es: seq<Event>) {
    forall j | 0 <= j < |es| :: KeepsMarks(Run(cfg, es[..j]), es[j])
  }

  predicate LimitsKept(cfg: Config, es: seq<Event>) {
    forall j | 0 <= j < |es| :: KeepsLimits(Run(cfg, es[..j]), es[j])
  }

  ghost predicate AlwaysRejected(cfg: Config, es: seq<Event>) {
    forall j | 0 <= j <= |es| :: MarkedAreRejected(Run(cfg, es[..j]).w)
  }

  ghost predicate AlwaysMatching(cfg: Config, es: seq<Event>) {
    forall j | 0 <= j <= |es| :: AllMatch(Run(cfg, es[..j]).w)
  }

  lemma NextState(cfg: Config, es: seq<Event>, j: nat)
    requires j < |es|
    ensures Run(cfg, es[..j + 1]) == Step(cfg, Run(cfg, es[..j]), es[j])
  {
    hide Step;
    assert es[..j + 1][..j] == es[..j];
  }

  /** Over any run: every credential with `revoked_at` set is rejected by its tenant's token at
      every moment if and only if every statement executed spared the marks. */
  lemma AlwaysRejectedIff(cfg: Config, es: seq<Event>)
    ensures AlwaysRejected(cfg, es) <==> MarksKept(cfg, es)
  {
    hide MarkedAreRejected, KeepsMarks, Step, Run;
    if AlwaysRejected(cfg, es) {
      forall j | 0 <= j < |es| ensures KeepsMarks(Run(cfg, es[..j]), es[j]) {
        MarksKeptIff(cfg, es[..j], es[j]);
        NextState(cfg, es, j);
      }
    }
    if MarksKept(cfg, es) {
      forall j: nat | j <= |es| ensures MarkedAreRejected(Run(cfg, es[..j]).w) {
        RejectedAt(cfg, es, j);
      }
    }
  }

  lemma {:induction false} RejectedAt(cfg: Config, es: seq<Event>, j: nat)
    requires MarksKept(cfg, es) && j <= |es|
    ensures MarkedAreRejected(Run(cfg, es[..j]).w)
  {
    if j == 0 {
      assert es[..0] == [];
    } else {
      hide MarkedAreRejected, KeepsMarks, Step, Run;
      RejectedAt(cfg, es, j - 1);
      MarksKeptIff(cfg, es[..j - 1], es[j - 1]);
      NextState(cfg, es, j - 1);
    }
  }

  /** Over any run: every row's token carries the row's columns at every moment if and only if
      every Revoke wrote back limits matching the columns of that moment. */
  lemma AlwaysMatchingIff(cfg: Config, es: seq<Event>)
    ensures AlwaysMatching(cfg, es) <==> LimitsKept(cfg, es)
  {
    hide AllMatch, KeepsLimits, Step, Run;
    if AlwaysMatching(cfg, es) {
      forall j | 0 <= j < |es| ensures KeepsLimits(Run(cfg, es[..j]), es[j]) {
        LimitsStayIff(cfg, es[..j], es[j]);
        NextState(cfg, es, j);
      }
    }
    if LimitsKept(cfg, es) {
      forall j: nat | j <= |es| ensures AllMatch(Run(cfg, es[..j]).w) {
        MatchingAt(cfg, es, j);
      }
    }
  }

  lemma {:induction false} MatchingAt(cfg: Config, es: seq<Event>, j: nat)
    requires LimitsKept(cfg, es) && j <= |es|
    ensures AllMatch(Run(cfg, es[..j]).w)
  {
    if j == 0 {
      assert es[..0] == [];
    } else {
      hide AllMatch, KeepsLimits, Step, Run;
      MatchingAt(cfg, es, j - 1);
      LimitsStayIff(cfg, es[..j - 1], es[j - 1]);
      NextState(cfg, es, j - 1);
    }
  }

  /** A run without stale write-backs does no harm, and so neither does a serial one. */
  lemma FreshWritesDoNoHarm(cfg: Config, es: seq<Event>)
    requires FreshWrites(cfg, es)
    ensures MarksKept(cfg, es) && LimitsKept(cfg, es)
  {
    hide Run, MarkedAreRejected, RowLimitsMatch;
    forall j: nat | j <= |es| ensures MarkedAreRejected(Run(cfg, es[..j]).w) && AllMatch(Run(cfg, es[..j]).w) {
      PrefixIsFresh(cfg, es, j);
      RunSound(cfg, es[..j]);
    }
    AlwaysRejectedIff(cfg, es);
    AlwaysMatchingIff(cfg, es);
  }

  /** If no statement has harmed the marks, every credential with `revoked_at` set is rejected
      by the current token of its tenant. */
  lemma RevokedIsRejected(cfg: Config, es: seq<Event>, cid: Id)
    requires MarksKept(cfg, es)
    requires cid in Run(cfg, es).w.creds && Run(cfg, es).w.creds[cid].revokedAt.Some?
    ensures var w := Run(cfg, es).w; var c := w.creds[cid];
      c.tenantId in w.tenants && Rejects(w.tenants[c.tenantId].accountJwt, c.userJwt)
  {
    RejectedAt(cfg, es, |es|);
    assert es[..|es|] == es;
    RunKeeps(cfg, es);
    hide Run;
    CredentialFacts(cfg, Run(cfg, es).w, HeldUpTo(cfg, es), cid);
  }

  /** If no Revoke has written back foreign limits, every row's token carries its own columns. */
  lemma TokenCarriesColumns(cfg: Config, es: seq<Event>, id: Id)
    requires LimitsKept(cfg, es) && id in Run(cfg, es).w.tenants
    ensures RowLimitsMatch(Run(cfg, es).w.tenants[id])
  {
    MatchingAt(cfg, es, |es|);
    assert es[..|es|] == es;
  }
}
