/** Revocations and limits under the read-modify-write of account tokens. UpdateLimits
    and Revoke read a row's token and later write it back without a lock. Here is what holds
    when no such write is stale; `StaleWrites` says exactly which stale writes do harm. */
module Revocations {
  import opened Wrappers
  import opened Domain
  import opened Protocol
  import opened History
  import opened Effects
  import Slug

  // ---------- the hypothesis: no stale write ----------

  /** The tenant whose token an operation has read and not yet written back. */
  function Window(l: Local): Option<Id> {
    match l
    case LimitsSign(t, _) => Some(t.id)
    case LimitsWrite(t, _, _) => Some(t.id)
    case RevokeSign(id, _, _, _) => Some(id)
    case RevokeWrite(id, _, _, _) => Some(id)
    case _ => None
  }

  /** The token an operation in its window has read. */
  function Snapshot(l: Local): AccountJwt
    requires Window(l).Some?
  {
    match l
    case LimitsSign(t, _) => t.accountJwt
    case LimitsWrite(t, _, _) => t.accountJwt
    case RevokeSign(_, _, _, was) => was
    case RevokeWrite(_, _, was, _) => was
  }

  /** The row still carries what the operation read. */
  predicate Current(w: World, l: Local) {
    Window(l).Some? && Window(l).value in w.tenants ==> w.tenants[Window(l).value].accountJwt == Snapshot(l)
  }

  /** A write-back executed by `e` replaces the very token it was computed from. */
  predicate FreshWrite(m: Machine, e: Event) {
    e.Advance? && e.i in m.ops && (m.ops[e.i].LimitsWrite? || m.ops[e.i].RevokeWrite?) ==> Current(m.w, m.ops[e.i])
  }

  predicate FreshWrites(cfg: Config, es: seq<Event>) {
    forall j | 0 <= j < |es| :: FreshWrite(Run(cfg, es[..j]), es[j])
  }

  /** No two operations are between read and write-back on one tenant. */
  predicate DisjointWindows(m: Machine) {
    forall i, j | i in m.ops && j in m.ops && i != j && Window(m.ops[i]).Some? :: Window(m.ops[i]) != Window(m.ops[j])
  }

  // ---------- what one statement does to tokens and marks ----------

  /** Every entry is still there, no earlier than it was. */
  predicate Grown(before: AccountJwt, after: AccountJwt) {
    forall key | key in before.claims.revocations ::
      key in after.claims.revocations && before.claims.revocations[key] <= after.claims.revocations[key]
  }

  /** A token's limits against the columns of its row: equal, except that a connection or
      subscription column of zero or less may stand for the library's no-limit default. */
  predicate LimitsMatch(limits: AccountLimits, c: Columns) {
    && limits.jetStream == JetStreamLimits(c.memory, c.disk, c.streams, c.consumers)
    && (limits.conn == c.connections || (limits.conn == NO_LIMIT && c.connections <= 0))
    && (limits.subs == c.subscriptions || (limits.subs == NO_LIMIT && c.subscriptions <= 0))
  }

  predicate RowLimitsMatch(t: Tenant) {
    LimitsMatch(t.accountJwt.claims.limits, t.columns)
  }

  /** A Create about to insert carries matching limits; a new credential is not revoked. */
  predicate InsertMatches(l: Local) {
    && (l.CreateInsert? ==> LimitsMatch(l.jwt.claims.limits, l.req.columns))
    && (l.IssueInsert? ==> l.credential.revokedAt.None?)
  }

  /** A Revoke about to set `revoked_at` has its user rejected by the row's token. */
  ghost predicate MarkReady(w: World, l: Local) {
    l.RevokeMark? ==>
      && l.id in w.tenants && l.cid in w.creds && w.creds[l.cid].tenantId == l.id
      && Rejects(w.tenants[l.id].accountJwt, w.creds[l.cid].userJwt)
  }

  /** Every credential marked as revoked is rejected by its tenant's token. */
  ghost predicate MarkedAreRejected(w: World) {
    forall cid | cid in w.creds && w.creds[cid].revokedAt.Some? && w.creds[cid].tenantId in w.tenants ::
      Rejects(w.tenants[w.creds[cid].tenantId].accountJwt, w.creds[cid].userJwt)
  }

  ghost predicate Sound(m: Machine) {
    && MarkedAreRejected(m.w)
    && (forall id | id in m.w.tenants :: RowLimitsMatch(m.w.tenants[id]))
    && (forall i | i in m.ops :: MarkReady(m.w, m.ops[i]) && InsertMatches(m.ops[i]))
  }

  /** What a fresh write-back does to a row: nothing is forgotten, limits stay matched. */
  ghost predicate RowAdvances(t: Tenant, t': Tenant) {
    Grown(t.accountJwt, t'.accountJwt) && (RowLimitsMatch(t) ==> RowLimitsMatch(t'))
  }

  lemma GoAdvancesRows(cfg: Config, w: World, H: set<Holding>, l: Local, o: Outcome)
    requires LocalOk(cfg, w, H, l) && InsertMatches(l) && w.next !in w.tenants
    requires l.LimitsWrite? || l.RevokeWrite? ==> Current(w, l)
    ensures forall id | id in w.tenants ::
      id in TenantsAfter(w, l, o) && RowAdvances(w.tenants[id], TenantsAfter(w, l, o)[id])
    ensures forall id | id in TenantsAfter(w, l, o) && id !in w.tenants :: RowLimitsMatch(TenantsAfter(w, l, o)[id])
  {
    hide Insertable, TokenOk, CredentialOk;
    if l.LimitsWrite? {
      assert Current(w, l) && LocalOk(cfg, w, H, l);
    } else if l.RevokeWrite? {
      assert Current(w, l) && RevokesUser(cfg, w, l.id, l.cid, l.was, l.jwt);
      RevocationAdvances(cfg, w, l.id, l.cid, l.was, l.jwt);
      hide LocalOk, RevokesUser, Grown, LimitsMatch;
      SameRowAdvances();
    } else {
      hide LocalOk;
    }
  }

  lemma SameRowAdvances()
    ensures forall t: Tenant :: RowAdvances(t, t)
  {
  }

  lemma RevocationAdvances(cfg: Config, w: World, id: Id, cid: Id, was: AccountJwt, jwt: AccountJwt)
    requires RevokesUser(cfg, w, id, cid, was, jwt)
    ensures Grown(was, jwt) && jwt.claims.limits == was.claims.limits
  {
  }

  lemma GrownStillRejects(before: AccountJwt, after: AccountJwt, user: UserJwt)
    requires Rejects(before, user) && Grown(before, after)
    ensures Rejects(after, user)
  {
  }

  lemma NewRevocationRejects(cfg: Config, w: World, id: Id, cid: Id, was: AccountJwt, jwt: AccountJwt)
    requires RevokesUser(cfg, w, id, cid, was, jwt) && CredentialOk(cfg, w, w.creds[cid])
    ensures Rejects(jwt, w.creds[cid].userJwt)
  {
  }

  /** Only a completed token write leads to setting `revoked_at`, and the row then rejects the user. */
  lemma GoReadies(cfg: Config, w: World, H: set<Holding>, l: Local, c: Choice)
    requires !l.Done? && LocalOk(cfg, w, H, l) && WorldOk(cfg, w, H)
    ensures var n := Go(cfg, w, l, c); MarkReady(n.w, n.l)
  {
    hide WorldOk, LocalOk, Go;
    Succession(cfg, w, l, c);
    if l.RevokeWrite? {
      hide MarkReady;
      RevokeWriteReadies(cfg, w, H, l, c);
    }
  }

  lemma RevokeWriteReadies(cfg: Config, w: World, H: set<Holding>, l: Local, c: Choice)
    requires l.RevokeWrite? && LocalOk(cfg, w, H, l) && WorldOk(cfg, w, H)
    ensures var n := Go(cfg, w, l, c); MarkReady(n.w, n.l)
  {
    hide WorldOk, Go;
    RevokeGoes(cfg, w, l, c);
    CredentialFacts(cfg, w, H, l.cid);
    NewRevocationRejects(cfg, w, l.id, l.cid, l.was, l.jwt);
  }

  lemma GoMatches(cfg: Config, w: World, l: Local, c: Choice)
    requires !l.Done?
    ensures InsertMatches(Go(cfg, w, l, c).l)
  {
    Succession(cfg, w, l, c);
    if l.CreateCheck? {
      CreateGoes(cfg, w, l, c);
      hide Go, Slug.MatchString;
    } else if l.IssueSign? {
      IssueGoes(cfg, w, l, c);
      hide Go;
    } else {
      hide Go;
    }
  }

  lemma MarksStayRejected(w: World, w': World, l: Local, c: Choice)
    requires MarkedAreRejected(w) && MarkReady(w, l) && InsertMatches(l)
    requires w'.tenants == TenantsAfter(w, l, c.outcome) && w'.creds == CredsAfter(w, l, c)
    requires w.next !in w.creds && w.next !in w.tenants
    requires forall cid | cid in w.creds :: w.creds[cid].tenantId in w.tenants
    requires forall id | id in w.tenants ::
      id in w'.tenants && Grown(w.tenants[id].accountJwt, w'.tenants[id].accountJwt)
    ensures MarkedAreRejected(w')
  {
    hide TenantsAfter, Grown, Rejects;
    forall cid | cid in w'.creds && w'.creds[cid].revokedAt.Some? && w'.creds[cid].tenantId in w'.tenants
      ensures Rejects(w'.tenants[w'.creds[cid].tenantId].accountJwt, w'.creds[cid].userJwt)
    {
      assert cid in w.creds && w'.creds[cid].userJwt == w.creds[cid].userJwt
        && w'.creds[cid].tenantId == w.creds[cid].tenantId;
      var id := w.creds[cid].tenantId;
      GrownStillRejects(w.tenants[id].accountJwt, w'.tenants[id].accountJwt, w.creds[cid].userJwt);
    }
  }

  /** What another operation's statement leaves true for a Revoke about to mark. */
  lemma MarkReadyStable(w: World, H: set<Holding>, w': World, H': set<Holding>, l: Local)
    requires MarkReady(w, l) && Evolves(w, H, w', H')
    requires forall id | id in w.tenants ::
      id in w'.tenants && Grown(w.tenants[id].accountJwt, w'.tenants[id].accountJwt)
    ensures MarkReady(w', l)
  {
  }

  lemma AdvanceSound(cfg: Config, m: Machine, H: set<Holding>, i: Id, c: Choice)
    requires Inv(cfg, m, H) && Sound(m) && i in m.ops && !m.ops[i].Done? && FreshWrite(m, Advance(i, c))
    ensures var m' := Settle(m, i, Go(cfg, m.w, m.ops[i], c));
      Sound(m') && forall id | id in m.w.tenants ::
        id in m'.w.tenants && Grown(m.w.tenants[id].accountJwt, m'.w.tenants[id].accountJwt)
  {
    hide LocalOk, Go, MintedOk, TenantsAfter, CredsAfter;
    var l, n := m.ops[i], Go(cfg, m.w, m.ops[i], c);
    var m' := Settle(m, i, n);
    RowIdsAreTaken(cfg, m.w, H);
    hide WorldOk;
    TenantsEffect(cfg, m.w, l, c);
    CredsEffect(cfg, m.w, l, c);
    GoAdvancesRows(cfg, m.w, H, l, c.outcome);
    hide MarkedAreRejected, Grown, RowLimitsMatch, MarkReady, InsertMatches;
    MarksStayRejected(m.w, n.w, l, c);
    GoReadies(cfg, m.w, H, l, c);
    GoMatches(cfg, m.w, l, c);
    AdvanceKeeps(cfg, m, H, i, c);
    forall j | j in m'.ops ensures MarkReady(m'.w, m'.ops[j]) && InsertMatches(m'.ops[j]) {
      if j != i { MarkReadyStable(m.w, H, m'.w, After(H, m'.w), m.ops[j]); }
    }
  }

  lemma RowIdsAreTaken(cfg: Config, w: World, H: set<Holding>)
    requires WorldOk(cfg, w, H)
    ensures w.next !in w.tenants && w.next !in w.creds
    ensures forall cid | cid in w.creds :: w.creds[cid].tenantId in w.tenants
    ensures forall id | id in w.tenants :: w.tenants[id].id == id < w.next
  {
    forall id | id in w.tenants ensures w.tenants[id].id == id < w.next { RowFacts(cfg, w, H, id); }
    if w.next in w.tenants { RowFacts(cfg, w, H, w.next); }
    forall cid | cid in w.creds ensures w.creds[cid].tenantId in w.tenants && cid < w.next {
      CredentialFacts(cfg, w, H, cid);
    }
  }

  lemma StepSound(cfg: Config, m: Machine, H: set<Holding>, e: Event)
    requires Inv(cfg, m, H) && Sound(m) && FreshWrite(m, e)
    ensures var m' := Step(cfg, m, e);
      Sound(m') && forall id | id in m.w.tenants ::
        id in m'.w.tenants && Grown(m.w.tenants[id].accountJwt, m'.w.tenants[id].accountJwt)
  {
    hide Inv, Go;
    if e.Advance? && e.i in m.ops && !m.ops[e.i].Done? {
      hide Sound, FreshWrite;
      AdvanceSound(cfg, m, H, e.i, e.choice);
    }
  }

  // ---------- runs ----------

  lemma {:induction false} RunSound(cfg: Config, es: seq<Event>)
    requires FreshWrites(cfg, es)
    ensures Sound(Run(cfg, es))
    decreases |es|
  {
    hide Sound, Step;
    if es == [] {
      EmptyIsSound();
    } else {
      var before := es[..|es| - 1];
      PrefixIsFresh(cfg, es, |es| - 1);
      RunSound(cfg, before);
      RunKeeps(cfg, before);
      StepSound(cfg, Run(cfg, before), HeldUpTo(cfg, before), es[|es| - 1]);
    }
  }

  lemma EmptyIsSound()
    ensures Sound(EMPTY)
  {
  }

  lemma PrefixIsFresh(cfg: Config, es: seq<Event>, n: nat)
    requires FreshWrites(cfg, es) && n <= |es|
    ensures FreshWrites(cfg, es[..n])
  {
    forall j | 0 <= j < n ensures FreshWrite(Run(cfg, es[..n][..j]), es[..n][j]) {
      assert es[..n][..j] == es[..j];
    }
  }

  /** If no write-back is stale, a revocation once in a row's token is there for good. */
  lemma {:induction false} RevocationsOnlyGrow(cfg: Config, es: seq<Event>, j: nat, id: Id, jwt: AccountJwt)
    requires FreshWrites(cfg, es) && CarriedAt(cfg, es, j, id, jwt)
    ensures id in Run(cfg, es).w.tenants && Grown(jwt, Run(cfg, es).w.tenants[id].accountJwt)
    decreases |es|
  {
    hide Sound, Step, Inv;
    if j < |es| {
      var before := es[..|es| - 1];
      assert before[..j] == es[..j];
      assert CarriedAt(cfg, before, j, id, jwt);
      PrefixIsFresh(cfg, es, |es| - 1);
      RevocationsOnlyGrow(cfg, before, j, id, jwt);
      RunSound(cfg, before);
      RunKeeps(cfg, before);
      StepSound(cfg, Run(cfg, before), HeldUpTo(cfg, before), es[|es| - 1]);
    } else {
      assert es[..j] == es;
    }
  }

  // ---------- when no write-back is stale ----------

  predicate AllCurrent(m: Machine) {
    forall i | i in m.ops :: Current(m.w, m.ops[i])
  }

  /** Whoever is in a window reads a token its row still has, or had when it was read. */
  lemma GoKeepsWindow(cfg: Config, w: World, l: Local, c: Choice)
    requires !l.Done? && Current(w, l) && forall id | id in w.tenants :: w.tenants[id].id == id
    ensures var n := Go(cfg, w, l, c); Current(n.w, n.l)
  {
    Succession(cfg, w, l, c);
    TenantsEffect(cfg, w, l, c);
    if l.LimitsRead? || l.LimitsSign? {
      LimitsGoes(cfg, w, l, c);
      hide Go, TenantsAfter, SignAccountClaims, WithLimits;
    } else if l.RevokeRead? || l.RevokeSign? {
      RevokeGoes(cfg, w, l, c);
      hide Go, TenantsAfter, SignAccountClaims, WithRevocation;
    } else {
      hide Go, TenantsAfter;
    }
  }

  /** A statement changes the token of at most the tenant whose window its operation is in. */
  lemma OnlyWindowsWrite(w: World, l: Local, o: Outcome, id: Id)
    requires id in w.tenants && w.next !in w.tenants && Window(l) != Some(id)
    ensures id in TenantsAfter(w, l, o) && TenantsAfter(w, l, o)[id].accountJwt == w.tenants[id].accountJwt
  {
  }

  lemma StepKeepsCurrent(cfg: Config, m: Machine, H: set<Holding>, e: Event)
    requires Inv(cfg, m, H) && AllCurrent(m) && DisjointWindows(m)
    ensures AllCurrent(Step(cfg, m, e))
  {
    hide LocalOk, Go, MintedOk, TenantsAfter;
    RowIdsAreTaken(cfg, m.w, H);
    if e.Advance? && e.i in m.ops && !m.ops[e.i].Done? {
      var l, n := m.ops[e.i], Go(cfg, m.w, m.ops[e.i], e.choice);
      GoKeepsWindow(cfg, m.w, l, e.choice);
      TenantsEffect(cfg, m.w, l, e.choice);
      forall j | j in m.ops && j != e.i ensures Current(n.w, m.ops[j]) {
        assert LocalOk(cfg, m.w, H, m.ops[j]);
        assert Current(m.w, m.ops[j]);
        if Window(m.ops[j]).Some? {
          WindowIsARow(cfg, m.w, H, m.ops[j]);
          OnlyWindowsWrite(m.w, l, e.choice.outcome, Window(m.ops[j]).value);
        }
      }
    }
  }

  lemma WindowIsARow(cfg: Config, w: World, H: set<Holding>, l: Local)
    requires WorldOk(cfg, w, H) && LocalOk(cfg, w, H, l) && Window(l).Some?
    ensures Window(l).value in w.tenants
  {
    hide WorldOk;
    HoldingFacts(cfg, w, H, Window(l).value, Snapshot(l));
  }

  lemma {:induction false} RunKeepsCurrent(cfg: Config, es: seq<Event>)
    requires forall j | 0 <= j <= |es| :: DisjointWindows(Run(cfg, es[..j]))
    ensures AllCurrent(Run(cfg, es))
    decreases |es|
  {
    hide Step, Inv, DisjointWindows;
    if es == [] {
    } else {
      var before := es[..|es| - 1];
      assert forall j | 0 <= j <= |before| :: before[..j] == es[..j];
      RunKeepsCurrent(cfg, before);
      RunKeeps(cfg, before);
      StepKeepsCurrent(cfg, Run(cfg, before), HeldUpTo(cfg, before), es[|es| - 1]);
    }
  }

  /** If no two read-modify-write windows ever overlap on one tenant, no write-back is stale. */
  lemma DisjointWindowsAreFresh(cfg: Config, es: seq<Event>)
    requires forall j | 0 <= j <= |es| :: DisjointWindows(Run(cfg, es[..j]))
    ensures FreshWrites(cfg, es)
  {
    forall j | 0 <= j < |es| ensures FreshWrite(Run(cfg, es[..j]), es[j]) {
      assert forall k | 0 <= k <= j :: es[..j][..k] == es[..k];
      RunKeepsCurrent(cfg, es[..j]);
    }
  }

  predicate AtMostOne(m: Machine) {
    forall i, j | i in m.ops && j in m.ops :: i == j
  }

  lemma {:induction false} SerialRunsOneAtATime(cfg: Config, es: seq<Event>)
    requires Serial(cfg, es)
    ensures AtMostOne(Run(cfg, es))
    decreases |es|
  {
    hide Go;
    if es == [] {
    } else {
      var before := es[..|es| - 1];
      SerialPrefix(cfg, es, |es| - 1);
      SerialRunsOneAtATime(cfg, before);
    }
  }

  lemma SerialPrefix(cfg: Config, es: seq<Event>, n: nat)
    requires Serial(cfg, es) && n <= |es|
    ensures Serial(cfg, es[..n])
  {
    hide Run;
    forall j | 0 <= j < n && es[..n][j].Begin? ensures Run(cfg, es[..n][..j]).ops == map[] {
      assert es[..n][..j] == es[..j] && es[..n][j] == es[j];
    }
  }

  /** Requests served one at a time, whatever fails and wherever they are cut off, never
      write back a stale token. */
  lemma SerialIsFresh(cfg: Config, es: seq<Event>)
    requires Serial(cfg, es)
    ensures FreshWrites(cfg, es)
  {
    hide Run;
    forall j | 0 <= j <= |es| ensures DisjointWindows(Run(cfg, es[..j])) {
      SerialPrefix(cfg, es, j);
      SerialRunsOneAtATime(cfg, es[..j]);
    }
    DisjointWindowsAreFresh(cfg, es);
  }
}
