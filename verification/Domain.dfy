/** Keys, tokens and database rows. Cryptography is symbolic: a public key is the
    image of its seed under a constructor, a sealed box opens only under its own
    master key and nonce, and a token is its claims together with its signer. */
module Domain {
  import opened Wrappers

  type Id = nat
  type Seed = nat

  datatype PublicKey = PublicKeyOf(seed: Seed)

  /** AES-GCM output: an authenticated box. */
  datatype Box = Box(master: Seed, nonce: nat, plaintext: Seed)

  function Encrypt(master: Seed, nonce: nat, plaintext: Seed): Box {
    Box(master, nonce, plaintext)
  }

  function Decrypt(master: Seed, box: Box, nonce: nat): Option<Seed> {
    if box.master == master && box.nonce == nonce then Some(box.plaintext) else None
  }

  const NO_LIMIT := -1
  const YEAR: nat := 365 * 24 * 3600

  datatype JetStreamLimits = JetStreamLimits(memory: int, disk: int, streams: int, consumers: int)
  datatype AccountLimits = AccountLimits(jetStream: JetStreamLimits, conn: int, subs: int)

  /** Public keys with the latest moment (in seconds) at which each was revoked. */
  type RevocationList = map<PublicKey, nat>

  /** Records a revocation, never moving an entry to an earlier moment. */
  function AddRevocation(list: RevocationList, key: PublicKey, at: nat): RevocationList {
    if key in list && list[key] > at then list else list[key := at]
  }

  datatype AccountClaims = AccountClaims(
    subject: PublicKey, name: string, issuedAt: nat, expires: nat,
    limits: AccountLimits, revocations: RevocationList)

  datatype AccountJwt = AccountJwt(claims: AccountClaims, signer: PublicKey)

  /** Encoding stamps the time of signing and keeps every other claim. */
  function SignAccountClaims(operator: PublicKey, claims: AccountClaims, now: nat): AccountJwt {
    AccountJwt(claims.(issuedAt := now), operator)
  }

  function NewAccountClaims(key: PublicKey, name: string, now: nat): AccountClaims {
    AccountClaims(key, name, now, now + YEAR,
                  AccountLimits(JetStreamLimits(0, 0, 0, 0), NO_LIMIT, NO_LIMIT), map[])
  }

  datatype UserJwt = UserJwt(
    subject: PublicKey, name: string, issuedAt: nat, expires: Option<nat>,
    issuerAccount: PublicKey, signer: PublicKey)

  /** The server's check of a user against the revocations of its account. */
  predicate Rejects(account: AccountJwt, user: UserJwt) {
    && user.subject in account.claims.revocations
    && user.issuedAt <= account.claims.revocations[user.subject]
  }

  // ---------- rows ----------

  datatype Columns = Columns(
    memory: int, disk: int, streams: int, consumers: int, connections: int, subscriptions: int)

  function JetStreamOf(c: Columns): JetStreamLimits {
    JetStreamLimits(c.memory, c.disk, c.streams, c.consumers)
  }

  datatype Status = Active | Suspended | Deleted

  datatype Tenant = Tenant(
    id: Id, name: string, slug: string, accountKey: PublicKey, accountJwt: AccountJwt,
    columns: Columns, status: Status)

  datatype SeedRow = SeedRow(encryptedSeed: Box, nonce: nat, keyVersion: nat)

  datatype Credential = Credential(
    id: Id, tenantId: Id, name: string, userKey: PublicKey, userJwt: UserJwt,
    encryptedSeed: Box, nonce: nat, revokedAt: Option<nat>)

  datatype CreateRequest = CreateRequest(name: string, slug: string, columns: Columns)

  /** Claims of a new account: the library's defaults, the four JetStream limits as
      requested, and the connection and subscription limits only when positive. */
  function CreateClaims(req: CreateRequest, key: PublicKey, now: nat): AccountClaims {
    var claims := NewAccountClaims(key, req.name, now);
    claims.(limits := AccountLimits(
      JetStreamOf(req.columns),
      if req.columns.connections > 0 then req.columns.connections else claims.limits.conn,
      if req.columns.subscriptions > 0 then req.columns.subscriptions else claims.limits.subs))
  }

  function WithLimits(claims: AccountClaims, c: Columns): AccountClaims {
    claims.(limits := AccountLimits(JetStreamOf(c), c.connections, c.subscriptions))
  }

  function WithRevocation(claims: AccountClaims, key: PublicKey, at: nat): AccountClaims {
    claims.(revocations := AddRevocation(claims.revocations, key, at))
  }

  /** Recording a revocation twice is recording the later one. */
  lemma AddRevocationTwice(list: RevocationList, key: PublicKey, first: nat, second: nat)
    requires first <= second
    ensures AddRevocation(AddRevocation(list, key, first), key, second) == AddRevocation(list, key, second)
  {
    assert list[key := first][key := second] == list[key := second];
  }
}
