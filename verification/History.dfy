/** What holds in every interleaving, with failures, lost replies and crashes anywhere:
    the resolver is never ahead of the database, revocation lists name only users of
    their own tenant, and users are signed by their own tenant's account. */
module History {
  import opened Wrappers
  import opened Domain
  import opened Protocol
  import opened Effects
  import Slug

  /** "The row of tenant `id` carried `jwt`." */
  datatype Holding = Holding(id: Id, jwt: AccountJwt)

  function RowsHeld(tenants: map<Id, Tenant>): set<Holding> {
    set id | id in tenants :: Holding(id, tenants[id].accountJwt)
  }

  /** Everything any row has carried up to and including the state after `es`. */
  function HeldUpTo(cfg: Config, es: seq<Event>): set<Holding>
    decreases |es|
  {
    RowsHeld(Run(cfg, es).w.tenants) + if es == [] then {} else HeldUpTo(cfg, es[..|es| - 1])
  }

  // ---------- the invariant ----------

  ghost predicate WasHeld(H: set<Holding>, jwt: AccountJwt) {
    exists id: Id :: Holding(id, jwt) in H
  }

  /** `key` belongs to some credential of tenant `id`. */
  ghost predicate IsUserKey(w: World, id: Id, key: PublicKey) {
    exists cid: Id :: cid in w.creds && w.creds[cid].tenantId == id && w.creds[cid].userKey == key
  }

  ghost predicate RowOk(w: World, H: set<Holding>, id: Id)
    requires id in w.tenants
  {
    var t := w.tenants[id];
    t.id == id < w.next && t.accountKey.seed < w.next && Holding(id, t.accountJwt) in H
  }

  /** A token once carried by a row: it keeps the row's identity and the expiry set at
      creation, is signed by the operator, and revokes only users of this tenant. */
  ghost predicate TokenOk(cfg: Config, w: World, id: Id, jwt: AccountJwt) {
    && id in w.tenants
    && jwt.signer == cfg.operator
    && jwt.claims.subject == w.tenants[id].accountKey
    && jwt.claims.name == w.tenants[id].name
    && jwt.claims.expires == w.tenants[id].accountJwt.claims.expires
    && forall key | key in jwt.claims.revocations :: IsUserKey(w, id, key)
  }

  ghost predicate SeedOk(cfg: Config, w: World, id: Id)
    requires id in w.seeds
  {
    && id in w.tenants
    && Decrypt(cfg.master, w.seeds[id].encryptedSeed, w.seeds[id].nonce) == Some(w.tenants[id].accountKey.seed)
  }

  /** The signing chain of one credential row. */
  ghost predicate CredentialOk(cfg: Config, w: World, c: Credential) {
    && c.tenantId in w.tenants
    && c.userJwt.subject == c.userKey
    && c.userJwt.signer == c.userJwt.issuerAccount == w.tenants[c.tenantId].accountKey
    && Decrypt(cfg.master, c.encryptedSeed, c.nonce) == Some(c.userKey.seed)
    && c.userJwt.issuedAt <= w.clock
  }

  ghost predicate DistinctKeys(tenants: map<Id, Tenant>) {
    forall i, j | i in tenants && j in tenants && tenants[i].accountKey == tenants[j].accountKey :: i == j
  }

  ghost predicate WorldOk(cfg: Config, w: World, H: set<Holding>) {
    && (forall id | id in w.tenants :: RowOk(w, H, id))
    && DistinctKeys(w.tenants)
    && (forall h | h in H :: TokenOk(cfg, w, h.id, h.jwt))
    && (forall key | key in w.resolver :: w.resolver[key].claims.subject == key && WasHeld(H, w.resolver[key]))
    && (forall id | id in w.seeds :: SeedOk(cfg, w, id))
    && (forall cid | cid in w.creds :: w.creds[cid].id == cid < w.next && CredentialOk(cfg, w, w.creds[cid]))
  }

  /** `c` is a credential row of tenant `id` for the user `key`. */
  ghost predicate IsCredential(w: World, id: Id, cid: Id, key: PublicKey) {
    id in w.tenants && cid in w.creds && w.creds[cid].tenantId == id && w.creds[cid].userKey == key
  }

  /** What an in-flight operation may rely on; nothing other operations do upsets it. */
  ghost predicate LocalOk(cfg: Config, w: World, H: set<Holding>, l: Local) {
    match l
    case CreateInsert(req, seed, jwt) =>
      && jwt.signer == cfg.operator
      && jwt.claims.subject == PublicKeyOf(seed)
      && jwt.claims.name == req.name
      && jwt.claims.revocations == map[]
    case CreateSave(t, seed) =>
      t.id in w.tenants && w.tenants[t.id].accountKey == PublicKeyOf(seed) && Holding(t.id, t.accountJwt) in H
    case CreatePush(t, _) => Holding(t.id, t.accountJwt) in H
    case LimitsSign(t, _) => Holding(t.id, t.accountJwt) in H
    case LimitsWrite(t, columns, jwt) =>
      && Holding(t.id, t.accountJwt) in H
      && jwt == SignAccountClaims(cfg.operator, WithLimits(t.accountJwt.claims, columns), jwt.claims.issuedAt)
    case LimitsPush(t) => Holding(t.id, t.accountJwt) in H
    case ActivatePush(id, jwt) => Holding(id, jwt) in H
    case IssueUnseal(id, _, _) => id in w.tenants
    case IssueSign(id, _, _, seed) => id in w.tenants && w.tenants[id].accountKey == PublicKeyOf(seed)
    case IssueInsert(c) => CredentialOk(cfg, w, c)
    case RevokeVisible(id, cid, key) => IsCredential(w, id, cid, key)
    case RevokeRead(id, cid, key) => IsCredential(w, id, cid, key)
    case RevokeSign(id, cid, key, was) => IsCredential(w, id, cid, key) && Holding(id, was) in H
    case RevokeWrite(id, cid, was, jwt) => Holding(id, was) in H && RevokesUser(cfg, w, id, cid, was, jwt)
    case RevokeMark(id, cid, jwt) => cid in w.creds && w.creds[cid].tenantId == id && Holding(id, jwt) in H
    case ReconcilePush(todo, _, _) => forall t | t in todo :: Holding(t.id, t.accountJwt) in H
    case PushAccountJwt(id, jwt) => Holding(id, jwt) in H
    case _ => true
  }

  /** `jwt` is `was` with the user of credential `cid` revoked no earlier than it was issued. */
  ghost predicate RevokesUser(cfg: Config, w: World, id: Id, cid: Id, was: AccountJwt, jwt: AccountJwt) {
    && cid in w.creds
    && IsCredential(w, id, cid, w.creds[cid].userKey)
    && exists at: nat :: w.creds[cid].userJwt.issuedAt <= at
         && jwt == SignAccountClaims(cfg.operator, WithRevocation(was.claims, w.creds[cid].userKey, at),
            jwt.claims.issuedAt)
  }

  /** A key minted by a Create that has not inserted its row yet. */
  function Minted(l: Local): set<Seed> {
    if l.CreateInsert? then {l.seed} else {}
  }

  ghost predicate Unused(w: World, seeds: set<Seed>) {
    forall s | s in seeds :: s < w.next && forall id | id in w.tenants :: w.tenants[id].accountKey != PublicKeyOf(s)
  }

  ghost predicate MintedOk(m: Machine) {
    && (forall i | i in m.ops :: Unused(m.w, Minted(m.ops[i])))
    && (forall i, j | i in m.ops && j in m.ops && i != j :: Minted(m.ops[i]) !! Minted(m.ops[j]))
  }

  ghost predicate Inv(cfg: Config, m: Machine, H: set<Holding>) {
    && WorldOk(cfg, m.w, H)
    && (forall i | i in m.ops :: LocalOk(cfg, m.w, H, m.ops[i]))
    && MintedOk(m)
  }

  // ---------- how the stores may evolve ----------

  predicate SameIdentity(t: Tenant, t': Tenant) {
    && t'.id == t.id && t'.name == t.name && t'.slug == t.slug && t'.accountKey == t.accountKey
    && t'.accountJwt.claims.expires == t.accountJwt.claims.expires
  }

  predicate SameUser(c: Credential, c': Credential) {
    c' == c.(revokedAt := c'.revokedAt)
  }

  ghost predicate Evolves(w: World, H: set<Holding>, w': World, H': set<Holding>) {
    && w.clock <= w'.clock && w.next <= w'.next && H <= H'
    && (forall id | id in w.tenants :: id in w'.tenants && SameIdentity(w.tenants[id], w'.tenants[id]))
    && (forall cid | cid in w.creds :: cid in w'.creds && SameUser(w.creds[cid], w'.creds[cid]))
  }

  lemma LocalStable(cfg: Config, w: World, H: set<Holding>, w': World, H': set<Holding>, l: Local)
    requires Evolves(w, H, w', H') && LocalOk(cfg, w, H, l)
    ensures LocalOk(cfg, w', H', l)
  {
  }

  lemma TokenStable(cfg: Config, w: World, H: set<Holding>, w': World, H': set<Holding>, id: Id, jwt: AccountJwt)
    requires Evolves(w, H, w', H') && TokenOk(cfg, w, id, jwt)
    ensures TokenOk(cfg, w', id, jwt)
  {
    forall key | key in jwt.claims.revocations ensures IsUserKey(w', id, key) {
      var cid: Id :| cid in w.creds && w.creds[cid].tenantId == id && w.creds[cid].userKey == key;
      assert cid in w'.creds && SameUser(w.creds[cid], w'.creds[cid]);
    }
  }

  // ---------- each kind of statement keeps the stores well-formed ----------

  /** Whatever a statement leaves alone stays well-formed; only what it touches is checked. */
  lemma Reassemble(cfg: Config, w: World, H: set<Holding>, w': World, H': set<Holding>)
    requires WorldOk(cfg, w, H) && Evolves(w, H, w', H') && DistinctKeys(w'.tenants)
    requires forall h | h in H' :: h in H || TokenOk(cfg, w', h.id, h.jwt)
    requires forall id | id in w'.tenants :: (id in w.tenants && w'.tenants[id] == w.tenants[id]) || RowOk(w', H', id)
    requires forall key | key in w'.resolver ::
      (key in w.resolver && w'.resolver[key] == w.resolver[key])
      || (w'.resolver[key].claims.subject == key && WasHeld(H', w'.resolver[key]))
    requires forall id | id in w'.seeds :: (id in w.seeds && w'.seeds[id] == w.seeds[id]) || SeedOk(cfg, w', id)
    requires forall cid | cid in w'.creds ::
      (cid in w.creds && SameUser(w.creds[cid], w'.creds[cid]))
      || (w'.creds[cid].id == cid < w'.next && CredentialOk(cfg, w', w'.creds[cid]))
    ensures WorldOk(cfg, w', H')
  {
    forall h | h in H' ensures TokenOk(cfg, w', h.id, h.jwt) {
      if h in H { TokenStable(cfg, w, H, w', H', h.id, h.jwt); }
    }
    forall id | id in w'.tenants ensures RowOk(w', H', id) {
      if id in w.tenants { assert RowOk(w, H, id); }
    }
    forall key | key in w'.resolver ensures w'.resolver[key].claims.subject == key && WasHeld(H', w'.resolver[key]) {
      if key in w.resolver && w'.resolver[key] == w.resolver[key] {
        var id: Id :| Holding(id, w.resolver[key]) in H;
        assert Holding(id, w.resolver[key]) in H';
      }
    }
    forall id | id in w'.seeds ensures SeedOk(cfg, w', id) {
      if id in w.seeds { assert SeedOk(cfg, w, id); }
    }
    forall cid | cid in w'.creds ensures w'.creds[cid].id == cid < w'.next && CredentialOk(cfg, w', w'.creds[cid]) {
      if cid in w.creds { assert CredentialOk(cfg, w, w.creds[cid]); }
    }
  }

  lemma TimePasses(cfg: Config, w: World, H: set<Holding>, clock: nat, next: nat)
    requires WorldOk(cfg, w, H) && w.clock <= clock && w.next <= next
    ensures var w' := w.(clock := clock, next := next); WorldOk(cfg, w', H) && Evolves(w, H, w', H)
  {
    Reassemble(cfg, w, H, w.(clock := clock, next := next), H);
  }

  lemma PushKeeps(cfg: Config, w: World, H: set<Holding>, id: Id, jwt: AccountJwt, o: Outcome)
    requires WorldOk(cfg, w, H) && Holding(id, jwt) in H
    ensures WorldOk(cfg, Push(w, jwt, o), H) && Evolves(w, H, Push(w, jwt, o), H)
  {
    assert WasHeld(H, jwt);
    Reassemble(cfg, w, H, Push(w, jwt, o), H);
  }

  lemma RemoveKeeps(cfg: Config, w: World, H: set<Holding>, keys: set<PublicKey>)
    requires WorldOk(cfg, w, H)
    ensures var w' := w.(resolver := w.resolver - keys); WorldOk(cfg, w', H) && Evolves(w, H, w', H)
  {
    Reassemble(cfg, w, H, w.(resolver := w.resolver - keys), H);
  }

  /** Rewriting or inserting a tenant row. */
  lemma RowKeeps(cfg: Config, w: World, H: set<Holding>, row: Tenant)
    requires WorldOk(cfg, w, H)
    requires row.id < w.next && row.accountKey.seed < w.next
    requires row.id in w.tenants ==> SameIdentity(w.tenants[row.id], row)
    requires row.id !in w.tenants ==>
      forall id | id in w.tenants :: w.tenants[id].accountKey != row.accountKey
    requires TokenOk(cfg, w.(tenants := w.tenants[row.id := row]), row.id, row.accountJwt)
    ensures var w' := w.(tenants := w.tenants[row.id := row]); var H' := H + {Holding(row.id, row.accountJwt)};
      WorldOk(cfg, w', H') && Evolves(w, H, w', H')
  {
    var w' := w.(tenants := w.tenants[row.id := row]);
    Reassemble(cfg, w, H, w', H + {Holding(row.id, row.accountJwt)});
  }

  lemma SeedKeeps(cfg: Config, w: World, H: set<Holding>, id: Id, row: SeedRow)
    requires WorldOk(cfg, w, H) && id in w.tenants
    requires Decrypt(cfg.master, row.encryptedSeed, row.nonce) == Some(w.tenants[id].accountKey.seed)
    ensures var w' := w.(seeds := w.seeds[id := row]); WorldOk(cfg, w', H) && Evolves(w, H, w', H)
  {
    Reassemble(cfg, w, H, w.(seeds := w.seeds[id := row]), H);
  }

  lemma CredentialKeeps(cfg: Config, w: World, H: set<Holding>, c: Credential)
    requires WorldOk(cfg, w, H) && CredentialOk(cfg, w, c) && c.id < w.next
    requires c.id in w.creds ==> SameUser(w.creds[c.id], c)
    ensures var w' := w.(creds := w.creds[c.id := c]); WorldOk(cfg, w', H) && Evolves(w, H, w', H)
  {
    Reassemble(cfg, w, H, w.(creds := w.creds[c.id := c]), H);
  }

  // ---------- each operation's statements keep the invariant ----------

  function After(H: set<Holding>, w: World): set<Holding> {
    H + RowsHeld(w.tenants)
  }

  ghost predicate Kept(cfg: Config, w: World, H: set<Holding>, n: Conf) {
    && WorldOk(cfg, n.w, After(H, n.w))
    && LocalOk(cfg, n.w, After(H, n.w), n.l)
    && Evolves(w, H, n.w, After(H, n.w))
  }

  /** Rows of a well-formed world add nothing to its history. */
  lemma NothingNew(cfg: Config, w: World, H: set<Holding>)
    requires WorldOk(cfg, w, H)
    ensures After(H, w) == H && Evolves(w, H, w, H)
  {
    forall h | h in RowsHeld(w.tenants) ensures h in H {
      assert RowOk(w, H, h.id);
    }
  }

  lemma RowFacts(cfg: Config, w: World, H: set<Holding>, id: Id)
    requires WorldOk(cfg, w, H) && id in w.tenants
    ensures RowOk(w, H, id) && TokenOk(cfg, w, id, w.tenants[id].accountJwt)
  {
    assert RowOk(w, H, id);
    HoldingFacts(cfg, w, H, id, w.tenants[id].accountJwt);
  }

  lemma HoldingFacts(cfg: Config, w: World, H: set<Holding>, id: Id, jwt: AccountJwt)
    requires WorldOk(cfg, w, H) && Holding(id, jwt) in H
    ensures TokenOk(cfg, w, id, jwt)
  {
    assert TokenOk(cfg, w, Holding(id, jwt).id, Holding(id, jwt).jwt);
  }

  /** Rewriting a row with a token that may be carried by it. */
  lemma RewriteKeeps(cfg: Config, w: World, H: set<Holding>, row: Tenant)
    requires WorldOk(cfg, w, H) && row.id in w.tenants && SameIdentity(w.tenants[row.id], row)
    requires TokenOk(cfg, w, row.id, row.accountJwt)
    ensures var w' := w.(tenants := w.tenants[row.id := row]);
      && WorldOk(cfg, w', After(H, w')) && Evolves(w, H, w', After(H, w'))
      && Holding(row.id, row.accountJwt) in After(H, w')
  {
    var w' := w.(tenants := w.tenants[row.id := row]);
    assert RowOk(w, H, row.id);
    assert Evolves(w, H, w', H);
    TokenStable(cfg, w, H, w', H, row.id, row.accountJwt);
    InsertKeeps(cfg, w, H, row);
  }

  lemma InsertKeeps(cfg: Config, w: World, H: set<Holding>, row: Tenant)
    requires WorldOk(cfg, w, H)
    requires row.id < w.next && row.accountKey.seed < w.next
    requires row.id in w.tenants ==> SameIdentity(w.tenants[row.id], row)
    requires row.id !in w.tenants ==>
      forall id | id in w.tenants :: w.tenants[id].accountKey != row.accountKey
    requires TokenOk(cfg, w.(tenants := w.tenants[row.id := row]), row.id, row.accountJwt)
    ensures var w' := w.(tenants := w.tenants[row.id := row]);
      && WorldOk(cfg, w', After(H, w')) && Evolves(w, H, w', After(H, w'))
      && Holding(row.id, row.accountJwt) in After(H, w')
  {
    var w' := w.(tenants := w.tenants[row.id := row]);
    RowKeeps(cfg, w, H, row);
    NothingNew(cfg, w', H + {Holding(row.id, row.accountJwt)});
    assert Holding(row.id, w'.tenants[row.id].accountJwt) in RowsHeld(w'.tenants);
    assert After(H, w') == H + {Holding(row.id, row.accountJwt)};
  }

  /** Status changes keep the token the row already carries. */
  lemma StatusKeeps(cfg: Config, w: World, H: set<Holding>, id: Id, status: Status, o: Outcome)
    requires WorldOk(cfg, w, H)
    ensures var w' := SetStatus(w, id, status, o);
      WorldOk(cfg, w', After(H, w')) && Evolves(w, H, w', After(H, w'))
  {
    hide WorldOk, Evolves, After, TokenOk;
    NothingNew(cfg, w, H);
    if !o.Failed? && id in w.tenants {
      RowFacts(cfg, w, H, id);
      RewriteKeeps(cfg, w, H, w.tenants[id].(status := status));
    }
  }

  lemma InsertRowKeeps(cfg: Config, w: World, H: set<Holding>, t: Tenant)
    requires WorldOk(cfg, w, H) && t.id == w.next && Unused(w, {t.accountKey.seed})
    requires t.accountJwt.signer == cfg.operator && t.accountJwt.claims.subject == t.accountKey
    requires t.accountJwt.claims.name == t.name && t.accountJwt.claims.revocations == map[]
    ensures var w' := w.(tenants := w.tenants[t.id := t], next := w.next + 1);
      && WorldOk(cfg, w', After(H, w')) && Evolves(w, H, w', After(H, w'))
      && Holding(t.id, t.accountJwt) in After(H, w')
  {
    hide WorldOk, Evolves, After;
    var w1 := w.(next := w.next + 1);
    TimePasses(cfg, w, H, w.clock, w.next + 1);
    if t.id in w.tenants { RowFacts(cfg, w, H, t.id); }
    InsertKeeps(cfg, w1, H, t) by { assert t.accountKey.seed in {t.accountKey.seed}; }
    var w' := w1.(tenants := w1.tenants[t.id := t]);
    EvolvesTransitive(w, H, w1, H, w', After(H, w'));
  }

  lemma CreateInsertKeeps(cfg: Config, w: World, H: set<Holding>, l: Local, o: Outcome)
    requires l.CreateInsert?
    requires WorldOk(cfg, w, H) && LocalOk(cfg, w, H, l) && Unused(w, Minted(l))
    ensures Kept(cfg, w, H, CreateStep(cfg, w, l, o))
  {
    hide WorldOk, Evolves, After, Insertable;
    NothingNew(cfg, w, H);
    if !o.Failed? && Insertable(w, l.req.name, l.req.slug) {
      InsertRowKeeps(cfg, w, H,
        Tenant(w.next, l.req.name, l.req.slug, PublicKeyOf(l.seed), l.jwt, l.req.columns, Active));
    }
  }

  lemma CreateSaveKeeps(cfg: Config, w: World, H: set<Holding>, l: Local, o: Outcome)
    requires l.CreateSave?
    requires WorldOk(cfg, w, H) && LocalOk(cfg, w, H, l)
    ensures Kept(cfg, w, H, CreateStep(cfg, w, l, o))
  {
    hide WorldOk, Evolves, After;
    var n := CreateStep(cfg, w, l, o);
    var w1 := w.(next := w.next + 1);
    TimePasses(cfg, w, H, w.clock, w.next + 1);
    NothingNew(cfg, w1, H);
    if !o.Failed? {
      SeedKeeps(cfg, w1, H, l.t.id, n.w.seeds[l.t.id]);
      NothingNew(cfg, n.w, H);
      EvolvesTransitive(w, H, w1, H, n.w, H);
    }
  }

  lemma CreateCheckKeeps(cfg: Config, w: World, H: set<Holding>, l: Local, o: Outcome)
    requires l.CreateCheck?
    requires WorldOk(cfg, w, H) && LocalOk(cfg, w, H, l)
    ensures Kept(cfg, w, H, CreateStep(cfg, w, l, o))
  {
    hide WorldOk, Evolves, After;
    NothingNew(cfg, w, H);
    TimePasses(cfg, w, H, w.clock, w.next + 1);
    NothingNew(cfg, w.(next := w.next + 1), H);
  }

  lemma CreateTailKeeps(cfg: Config, w: World, H: set<Holding>, l: Local, o: Outcome)
    requires l.CreatePush? || l.CreateUndo?
    requires WorldOk(cfg, w, H) && LocalOk(cfg, w, H, l)
    ensures Kept(cfg, w, H, CreateStep(cfg, w, l, o))
  {
    hide WorldOk, Evolves, After;
    NothingNew(cfg, w, H);
    match l
    case CreatePush(t, seed) =>
      PushKeeps(cfg, w, H, t.id, t.accountJwt, o);
      NothingNew(cfg, Push(w, t.accountJwt, o), H);
    case CreateUndo(id) =>
      StatusKeeps(cfg, w, H, id, Deleted, o);
  }

  lemma CreateKeeps(cfg: Config, w: World, H: set<Holding>, l: Local, o: Outcome)
    requires InCreate(l)
    requires WorldOk(cfg, w, H) && LocalOk(cfg, w, H, l) && Unused(w, Minted(l))
    ensures Kept(cfg, w, H, CreateStep(cfg, w, l, o))
  {
    hide WorldOk, LocalOk, Unused, Minted, CreateStep, Kept;
    if l.CreateInsert? {
      CreateInsertKeeps(cfg, w, H, l, o);
    } else if l.CreateSave? {
      CreateSaveKeeps(cfg, w, H, l, o);
    } else if l.CreateCheck? {
      CreateCheckKeeps(cfg, w, H, l, o);
    } else {
      CreateTailKeeps(cfg, w, H, l, o);
    }
  }

  lemma LimitsKeeps(cfg: Config, w: World, H: set<Holding>, l: Local, o: Outcome)
    requires InLimits(l)
    requires WorldOk(cfg, w, H) && LocalOk(cfg, w, H, l)
    ensures Kept(cfg, w, H, LimitsStep(cfg, w, l, o))
  {
    hide WorldOk, Evolves, After;
    NothingNew(cfg, w, H);
    match l
    case LimitsRead(id, columns) =>
      if Visible(w, id) { RowFacts(cfg, w, H, id); }
    case LimitsSign(t, columns) =>
    case LimitsWrite(t, columns, jwt) =>
      HoldingFacts(cfg, w, H, t.id, t.accountJwt);
      RowFacts(cfg, w, H, t.id);
      if !o.Failed? { RewriteKeeps(cfg, w, H, w.tenants[t.id].(accountJwt := jwt, columns := columns)); }
    case LimitsPush(t) =>
      PushKeeps(cfg, w, H, t.id, t.accountJwt, o);
      NothingNew(cfg, Push(w, t.accountJwt, o), H);
  }

  lemma StatusStepKeeps(cfg: Config, w: World, H: set<Holding>, l: Local, o: Outcome)
    requires InStatus(l)
    requires WorldOk(cfg, w, H) && LocalOk(cfg, w, H, l)
    ensures Kept(cfg, w, H, StatusStep(cfg, w, l, o))
  {
    hide WorldOk, Evolves, After;
    NothingNew(cfg, w, H);
    match l
    case SuspendRead(id) =>
    case SuspendRemove(id, key) => RemoveKeeps(cfg, w, H, {key}); NothingNew(cfg, Remove(w, key, Ok), H);
    case ActivateRead(id) => if Visible(w, id) { RowFacts(cfg, w, H, id); }
    case ActivatePush(id, jwt) => PushKeeps(cfg, w, H, id, jwt, o); NothingNew(cfg, Push(w, jwt, o), H);
    case MarkStatus(id, status) => StatusKeeps(cfg, w, H, id, status, o);
    case DeleteRead(id) =>
    case DeleteRemove(id, key) => RemoveKeeps(cfg, w, H, {key}); NothingNew(cfg, Remove(w, key, Ok), H);
    case DeleteMark(id) => StatusKeeps(cfg, w, H, id, Deleted, o);
  }

  lemma IssueKeeps(cfg: Config, w: World, H: set<Holding>, l: Local, o: Outcome)
    requires InIssue(l)
    requires WorldOk(cfg, w, H) && LocalOk(cfg, w, H, l)
    ensures Kept(cfg, w, H, IssueStep(cfg, w, l, o))
  {
    hide WorldOk, Evolves, After, CredentialInsertable;
    NothingNew(cfg, w, H);
    match l
    case IssueRead(id, name, expires) =>
    case IssueUnseal(id, name, expires) =>
      if id in w.seeds { SeedFacts(cfg, w, H, id); }
    case IssueSign(id, name, expires, seed) =>
      TimePasses(cfg, w, H, w.clock, w.next + 2);
      NothingNew(cfg, w.(next := w.next + 2), H);
    case IssueInsert(c) =>
      if !o.Failed? && CredentialInsertable(w, c.tenantId, c.name) {
        var w1 := w.(next := w.next + 1);
        TimePasses(cfg, w, H, w.clock, w.next + 1);
        var row := c.(id := w.next);
        if row.id in w.creds { CredentialFacts(cfg, w, H, row.id); }
        CredentialKeeps(cfg, w1, H, row);
        var w2 := w1.(creds := w1.creds[row.id := row]);
        EvolvesTransitive(w, H, w1, H, w2, H);
        NothingNew(cfg, w2, H);
      }
  }

  lemma SeedFacts(cfg: Config, w: World, H: set<Holding>, id: Id)
    requires WorldOk(cfg, w, H) && id in w.seeds
    ensures SeedOk(cfg, w, id)
  {
  }

  lemma CredentialFacts(cfg: Config, w: World, H: set<Holding>, cid: Id)
    requires WorldOk(cfg, w, H) && cid in w.creds
    ensures w.creds[cid].id == cid < w.next && CredentialOk(cfg, w, w.creds[cid])
  {
  }

  lemma RevokeReadsKeep(cfg: Config, w: World, H: set<Holding>, l: Local, o: Outcome)
    requires l.RevokeFind? || l.RevokeVisible? || l.RevokeRead? || l.RevokeSign?
    requires WorldOk(cfg, w, H) && LocalOk(cfg, w, H, l)
    ensures Kept(cfg, w, H, RevokeStep(cfg, w, l, o))
  {
    hide WorldOk, Evolves, After;
    NothingNew(cfg, w, H);
    match l
    case RevokeFind(id, cid) =>
      if cid in w.creds { CredentialFacts(cfg, w, H, cid); }
    case RevokeVisible(id, cid, key) =>
    case RevokeRead(id, cid, key) =>
      RowFacts(cfg, w, H, id);
    case RevokeSign(id, cid, key, was) =>
      CredentialFacts(cfg, w, H, cid);
      var jwt := SignAccountClaims(cfg.operator, WithRevocation(was.claims, key, w.clock), w.clock);
      assert RevokesUser(cfg, w, id, cid, was, jwt);
  }

  lemma RevokeMarkKeeps(cfg: Config, w: World, H: set<Holding>, l: Local, o: Outcome)
    requires l.RevokeMark?
    requires WorldOk(cfg, w, H) && LocalOk(cfg, w, H, l)
    ensures Kept(cfg, w, H, RevokeStep(cfg, w, l, o))
  {
    hide WorldOk, Evolves, After;
    NothingNew(cfg, w, H);
    if !o.Failed? {
      CredentialFacts(cfg, w, H, l.cid);
      CredentialKeeps(cfg, w, H, w.creds[l.cid].(revokedAt := Some(w.clock)));
      NothingNew(cfg, SetRevokedAt(w, l.cid, w.clock, o), H);
    }
  }

  lemma RevokeKeeps(cfg: Config, w: World, H: set<Holding>, l: Local, o: Outcome)
    requires InRevoke(l)
    requires WorldOk(cfg, w, H) && LocalOk(cfg, w, H, l)
    ensures Kept(cfg, w, H, RevokeStep(cfg, w, l, o))
  {
    hide WorldOk, Evolves, After;
    if l.RevokeMark? {
      hide LocalOk, Kept, RevokeStep;
      RevokeMarkKeeps(cfg, w, H, l, o);
    } else if l.RevokeWrite? {
      NothingNew(cfg, w, H);
      RevokeWriteKeeps(cfg, w, H, l.id, l.cid, l.was, l.jwt);
    } else {
      hide LocalOk, Kept, RevokeStep;
      RevokeReadsKeep(cfg, w, H, l, o);
    }
  }

  lemma RevokeWriteKeeps(cfg: Config, w: World, H: set<Holding>, id: Id, cid: Id, was: AccountJwt, jwt: AccountJwt)
    requires WorldOk(cfg, w, H) && Holding(id, was) in H && RevokesUser(cfg, w, id, cid, was, jwt)
    ensures id in w.tenants
    ensures var w' := SetJwt(w, id, jwt, Ok);
      && WorldOk(cfg, w', After(H, w')) && Evolves(w, H, w', After(H, w'))
      && Holding(id, jwt) in After(H, w')
      && cid in w'.creds && w'.creds[cid].tenantId == id
  {
    RevocationNamesUser(cfg, w, H, id, cid, was, jwt);
    hide WorldOk, Evolves, After, TokenOk;
    RowFacts(cfg, w, H, id);
    assert SameIdentity(w.tenants[id], w.tenants[id].(accountJwt := jwt)) by { TokenExpiry(cfg, w, id, jwt); }
    RewriteKeeps(cfg, w, H, w.tenants[id].(accountJwt := jwt));
  }

  lemma TokenExpiry(cfg: Config, w: World, id: Id, jwt: AccountJwt)
    requires TokenOk(cfg, w, id, jwt)
    ensures jwt.claims.expires == w.tenants[id].accountJwt.claims.expires
  {
  }

  /** The token a Revoke is about to write revokes only users of its tenant. */
  lemma RevocationNamesUser(cfg: Config, w: World, H: set<Holding>, id: Id, cid: Id, was: AccountJwt, jwt: AccountJwt)
    requires WorldOk(cfg, w, H) && Holding(id, was) in H && RevokesUser(cfg, w, id, cid, was, jwt)
    ensures TokenOk(cfg, w, id, jwt)
  {
    HoldingFacts(cfg, w, H, id, was);
    forall key | key in jwt.claims.revocations ensures IsUserKey(w, id, key) {
      if key != w.creds[cid].userKey { assert key in was.claims.revocations; }
    }
  }

  lemma ReconcileKeeps(cfg: Config, w: World, H: set<Holding>, l: Local, o: Outcome)
    requires InReconcile(l)
    requires WorldOk(cfg, w, H) && LocalOk(cfg, w, H, l)
    ensures Kept(cfg, w, H, ReconcileStep(cfg, w, l, o))
  {
    hide WorldOk, Evolves, After, Listing;
    NothingNew(cfg, w, H);
    match l
    case ReconcileList =>
      ListingHeld(cfg, w, H);
    case ReconcilePush(todo, pushed, failed) =>
      if todo != [] && todo[0].status == Active {
        PushKeeps(cfg, w, H, todo[0].id, todo[0].accountJwt, o);
        NothingNew(cfg, Push(w, todo[0].accountJwt, o), H);
      }
    case ReseedRead(id) =>
      if Visible(w, id) { RowFacts(cfg, w, H, id); }
    case PushAccountJwt(id, jwt) =>
      PushKeeps(cfg, w, H, id, jwt, o);
      NothingNew(cfg, Push(w, jwt, o), H);
  }

  lemma ListingHeld(cfg: Config, w: World, H: set<Holding>)
    requires WorldOk(cfg, w, H)
    ensures forall t | t in Listing(w.tenants, w.next) :: Holding(t.id, t.accountJwt) in H
  {
    forall t | t in Listing(w.tenants, w.next) ensures Holding(t.id, t.accountJwt) in H {
      ListingMember(w.tenants, w.next, t);
      var id: Id :| id in w.tenants && w.tenants[id] == t;
      assert RowOk(w, H, id);
    }
  }

  /** The listing holds exactly the visible rows among the first `n` ids. */
  lemma {:induction false} ListingMember(tenants: map<Id, Tenant>, n: nat, t: Tenant)
    ensures t in Listing(tenants, n) <==> exists id: Id ::
      id < n && id in tenants && tenants[id] == t && t.status != Deleted
  {
    if n == 0 {
    } else {
      ListingMember(tenants, n - 1, t);
    }
  }

  lemma EvolvesTransitive(a: World, A: set<Holding>, b: World, B: set<Holding>, c: World, C: set<Holding>)
    requires Evolves(a, A, b, B) && Evolves(b, B, c, C)
    ensures Evolves(a, A, c, C)
  {
  }

  lemma DelayKeeps(cfg: Config, w: World, H: set<Holding>, l: Local, delay: nat)
    requires WorldOk(cfg, w, H) && LocalOk(cfg, w, H, l) && Unused(w, Minted(l))
    ensures var w1 := w.(clock := w.clock + delay);
      WorldOk(cfg, w1, H) && LocalOk(cfg, w1, H, l) && Unused(w1, Minted(l)) && Evolves(w, H, w1, H)
  {
    hide WorldOk, LocalOk;
    TimePasses(cfg, w, H, w.clock + delay, w.next);
    LocalStable(cfg, w, H, w.(clock := w.clock + delay), H, l);
  }

  lemma GoKeeps(cfg: Config, w: World, H: set<Holding>, l: Local, c: Choice)
    requires WorldOk(cfg, w, H) && LocalOk(cfg, w, H, l) && !l.Done? && Unused(w, Minted(l))
    ensures Kept(cfg, w, H, Go(cfg, w, l, c))
  {
    hide *;
    var w1, o := w.(clock := w.clock + c.delay), c.outcome;
    DelayKeeps(cfg, w, H, l, c.delay);
    GoesSomehow(l);
    if InCreate(l) { CreateGoes(cfg, w, l, c); CreateKeeps(cfg, w1, H, l, o); }
    else if InLimits(l) { LimitsGoes(cfg, w, l, c); LimitsKeeps(cfg, w1, H, l, o); }
    else if InStatus(l) { StatusGoes(cfg, w, l, c); StatusStepKeeps(cfg, w1, H, l, o); }
    else if InIssue(l) { IssueGoes(cfg, w, l, c); IssueKeeps(cfg, w1, H, l, o); }
    else if InRevoke(l) { RevokeGoes(cfg, w, l, c); RevokeKeeps(cfg, w1, H, l, o); }
    else { ReconcileGoes(cfg, w, l, c); ReconcileKeeps(cfg, w1, H, l, o); }
    KeptSince(cfg, w, w1, H, Go(cfg, w, l, c));
  }

  lemma KeptSince(cfg: Config, w: World, w1: World, H: set<Holding>, n: Conf)
    requires Evolves(w, H, w1, H) && Kept(cfg, w1, H, n)
    ensures Kept(cfg, w, H, n)
  {
    hide WorldOk, LocalOk, Evolves, After;
    EvolvesTransitive(w, H, w1, H, n.w, After(H, n.w));
  }

  // ---------- every event, every run ----------

  /** A key minted by one Create is neither a row's key nor another Create's. */
  lemma MintedStaysUnused(cfg: Config, m: Machine, H: set<Holding>, i: Id, c: Choice)
    requires Inv(cfg, m, H) && i in m.ops && !m.ops[i].Done?
    ensures MintedOk(Settle(m, i, Go(cfg, m.w, m.ops[i], c)))
  {
    var n := Go(cfg, m.w, m.ops[i], c);
    var m' := Settle(m, i, n);
    GoInserts(cfg, m.w, m.ops[i], c);
    assert Unused(m.w, Minted(m.ops[i]));
    forall j | j in m'.ops ensures Unused(m'.w, Minted(m'.ops[j])) {
      if j != i {
        assert Unused(m.w, Minted(m.ops[j])) && Minted(m.ops[i]) !! Minted(m.ops[j]);
      }
      forall s | s in Minted(m'.ops[j])
        ensures s < m'.w.next && forall id | id in m'.w.tenants :: m'.w.tenants[id].accountKey != PublicKeyOf(s)
      {
        forall id | id in m'.w.tenants ensures m'.w.tenants[id].accountKey != PublicKeyOf(s) {
          if id in m.w.tenants { assert RowOk(m.w, H, id); }
        }
      }
    }
    forall j, k | j in m'.ops && k in m'.ops && j != k ensures Minted(m'.ops[j]) !! Minted(m'.ops[k]) {
      if j == i { assert Unused(m.w, Minted(m.ops[k])); }
      if k == i { assert Unused(m.w, Minted(m.ops[j])); }
    }
  }

  /** A statement inserts at most a row under its own minted key, and mints only new keys. */
  lemma GoInserts(cfg: Config, w: World, l: Local, c: Choice)
    requires !l.Done?
    ensures var n := Go(cfg, w, l, c);
      && w.next <= n.w.next
      && (forall id | id in n.w.tenants :: (id in w.tenants && n.w.tenants[id].accountKey == w.tenants[id].accountKey)
                                           || n.w.tenants[id].accountKey.seed in Minted(l))
      && (Minted(n.l) == {} || (Minted(n.l) == {w.next} && n.w.next == w.next + 1 && n.w.tenants == w.tenants))
  {
    TenantsEffect(cfg, w, l, c);
    GoMints(cfg, w, l, c);
    hide Go, Insertable;
  }

  lemma GoMints(cfg: Config, w: World, l: Local, c: Choice)
    requires !l.Done?
    ensures var n := Go(cfg, w, l, c);
      && w.next <= n.w.next
      && (Minted(n.l) == {} || (l.CreateCheck? && Minted(n.l) == {w.next} && n.w.next == w.next + 1))
  {
    Succession(cfg, w, l, c);
    if l.CreateCheck? {
      CreateGoes(cfg, w, l, c);
      hide Go, Slug.MatchString;
    } else {
      hide Go;
    }
  }

  lemma AdvanceKeeps(cfg: Config, m: Machine, H: set<Holding>, i: Id, c: Choice)
    requires Inv(cfg, m, H) && i in m.ops && !m.ops[i].Done?
    ensures var m' := Settle(m, i, Go(cfg, m.w, m.ops[i], c));
      Inv(cfg, m', After(H, m'.w)) && Evolves(m.w, H, m'.w, After(H, m'.w))
  {
    MintedStaysUnused(cfg, m, H, i, c);
    hide WorldOk, LocalOk, Evolves, After, Unused, Go;
    var m' := Settle(m, i, Go(cfg, m.w, m.ops[i], c));
    GoKeeps(cfg, m.w, H, m.ops[i], c);
    forall j | j in m'.ops ensures LocalOk(cfg, m'.w, After(H, m'.w), m'.ops[j]) {
      if j != i { LocalStable(cfg, m.w, H, m'.w, After(H, m'.w), m.ops[j]); }
    }
  }

  lemma LoseKeeps(cfg: Config, m: Machine, H: set<Holding>, keys: set<PublicKey>)
    requires Inv(cfg, m, H)
    ensures var m' := m.(w := m.w.(resolver := m.w.resolver - keys));
      Inv(cfg, m', After(H, m'.w)) && Evolves(m.w, H, m'.w, After(H, m'.w))
  {
    hide WorldOk, LocalOk, Evolves, After;
    var m' := m.(w := m.w.(resolver := m.w.resolver - keys));
    RemoveKeeps(cfg, m.w, H, keys);
    NothingNew(cfg, m'.w, H);
    forall j | j in m'.ops ensures LocalOk(cfg, m'.w, H, m'.ops[j]) {
      LocalStable(cfg, m.w, H, m'.w, H, m.ops[j]);
    }
  }

  lemma StepKeeps(cfg: Config, m: Machine, H: set<Holding>, e: Event)
    requires Inv(cfg, m, H)
    ensures var m' := Step(cfg, m, e); Inv(cfg, m', After(H, m'.w)) && Evolves(m.w, H, m'.w, After(H, m'.w))
  {
    hide WorldOk, Evolves, After, Go;
    NothingNew(cfg, m.w, H);
    match e
    case Begin(i, r) =>
    case Advance(i, c) => if i in m.ops && !m.ops[i].Done? { AdvanceKeeps(cfg, m, H, i, c); }
    case Crash(i) =>
    case Lose(keys) => LoseKeeps(cfg, m, H, keys);
  }

  lemma EmptyIsOk(cfg: Config)
    ensures Inv(cfg, EMPTY, {})
  {
  }

  /** The invariant holds after every sequence of events. */
  lemma {:induction false} RunKeeps(cfg: Config, es: seq<Event>)
    ensures Inv(cfg, Run(cfg, es), HeldUpTo(cfg, es))
    decreases |es|
  {
    hide Inv, Step;
    if es == [] {
      EmptyIsOk(cfg);
      assert HeldUpTo(cfg, es) == {};
    } else {
      var before := es[..|es| - 1];
      RunKeeps(cfg, before);
      StepKeeps(cfg, Run(cfg, before), HeldUpTo(cfg, before), es[|es| - 1]);
      assert HeldUpTo(cfg, es) == After(HeldUpTo(cfg, before), Run(cfg, es).w);
    }
  }

  // ---------- what follows for every interleaving ----------

  /** After the first `j` events, the row of tenant `id` carried `jwt`. */
  ghost predicate CarriedAt(cfg: Config, es: seq<Event>, j: nat, id: Id, jwt: AccountJwt) {
    j <= |es| && id in Run(cfg, es[..j]).w.tenants && Run(cfg, es[..j]).w.tenants[id].accountJwt == jwt
  }

  lemma {:induction false} HeldWasCarried(cfg: Config, es: seq<Event>, h: Holding)
    ensures h in HeldUpTo(cfg, es) <==> exists j: nat :: CarriedAt(cfg, es, j, h.id, h.jwt)
    decreases |es|
  {
    assert es[..|es|] == es;
    assert h in RowsHeld(Run(cfg, es).w.tenants) <==> CarriedAt(cfg, es, |es|, h.id, h.jwt);
    if es == [] {
    } else {
      var before := es[..|es| - 1];
      HeldWasCarried(cfg, before, h);
      forall j: nat | j < |es| ensures before[..j] == es[..j] {}
      if j: nat :| CarriedAt(cfg, before, j, h.id, h.jwt) { assert CarriedAt(cfg, es, j, h.id, h.jwt); }
      if j: nat :| CarriedAt(cfg, es, j, h.id, h.jwt) && j < |es| { assert CarriedAt(cfg, before, j, h.id, h.jwt); }
    }
  }

  /** The resolver is never ahead of the database: every entry sits under the key of one
      tenant, and that tenant's row carries it now or carried it at an earlier moment. */
  lemma ResolverNeverAhead(cfg: Config, es: seq<Event>, key: PublicKey)
    requires key in Run(cfg, es).w.resolver
    ensures exists id: Id, j: nat :: CarriedAt(cfg, es, j, id, Run(cfg, es).w.resolver[key])
              && id in Run(cfg, es).w.tenants && Run(cfg, es).w.tenants[id].accountKey == key
  {
    var w := Run(cfg, es).w;
    RunKeeps(cfg, es);
    var id: Id :| Holding(id, w.resolver[key]) in HeldUpTo(cfg, es);
    HoldingFacts(cfg, w, HeldUpTo(cfg, es), id, w.resolver[key]);
    HeldWasCarried(cfg, es, Holding(id, w.resolver[key]));
    var j: nat :| CarriedAt(cfg, es, j, id, w.resolver[key]);
  }

  /** No two tenants, deleted ones included, ever share an account key. */
  lemma AccountKeysAreDistinct(cfg: Config, es: seq<Event>)
    ensures DistinctKeys(Run(cfg, es).w.tenants)
  {
    RunKeeps(cfg, es);
  }

  /** Every token a row has ever carried names the same account, bears the expiry fixed at
      creation (no operation renews an account), and revokes only users of that tenant. */
  lemma TokensKeepIdentity(cfg: Config, es: seq<Event>, j: nat, id: Id, jwt: AccountJwt)
    requires CarriedAt(cfg, es, j, id, jwt)
    ensures var w := Run(cfg, es).w;
      && id in w.tenants
      && jwt.signer == cfg.operator
      && jwt.claims.subject == w.tenants[id].accountKey
      && jwt.claims.name == w.tenants[id].name
      && jwt.claims.expires == w.tenants[id].accountJwt.claims.expires
      && forall key | key in jwt.claims.revocations :: IsUserKey(w, id, key)
  {
    RunKeeps(cfg, es);
    HeldWasCarried(cfg, es, Holding(id, jwt));
    HoldingFacts(cfg, Run(cfg, es).w, HeldUpTo(cfg, es), id, jwt);
  }

  /** Signing chain: every issued user is signed by and names the account of its own
      tenant, and a stored account seed opens to the seed of the tenant's key. */
  lemma SigningChain(cfg: Config, es: seq<Event>)
    ensures var w := Run(cfg, es).w;
      && (forall cid | cid in w.creds :: CredentialOk(cfg, w, w.creds[cid]))
      && (forall id | id in w.seeds :: SeedOk(cfg, w, id))
  {
    RunKeeps(cfg, es);
  }
}
