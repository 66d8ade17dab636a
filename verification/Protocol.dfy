/** The tenant and credential operations as programs of individually failing
    statements over two stores (database and resolver) that share no transaction. */
module Protocol {
  import opened Wrappers
  import opened Domain
  import Slug

  /** What became of one statement. `LostReply`: it took effect but reported an error. */
  datatype Outcome = Ok | Failed | LostReply

  /** What the environment decides for one statement: its outcome, and the time that
      passes before it runs. */
  datatype Choice = Choice(outcome: Outcome, delay: nat)

  const CALM := Choice(Ok, 0)

  /** Constants of a deployment; `resolver` says whether a resolver is configured. */
  datatype Config = Config(master: Seed, operator: PublicKey, resolver: bool)

  /** Both stores and the clock. `next` supplies new row ids, keys and nonces. */
  datatype World = World(
    tenants: map<Id, Tenant>,
    seeds: map<Id, SeedRow>,
    creds: map<Id, Credential>,
    resolver: map<PublicKey, AccountJwt>,
    clock: nat,
    next: nat)

  datatype Error = InvalidSlug | NotFound | TenantGone | Unreachable | Internal

  datatype Result =
    | Created(tenant: Tenant, seed: Seed)
    | Updated(tenant: Tenant)
    | Issued(credential: Credential)
    | Reconciled(pushed: nat, failed: nat)
    | Completed
    | Failure(error: Error)

  datatype Request =
    | Create(req: CreateRequest)
    | UpdateLimits(id: Id, columns: Columns)
    | Suspend(id: Id)
    | Activate(id: Id)
    | Delete(id: Id)
    | Issue(id: Id, name: string, expires: Option<nat>)
    | Revoke(id: Id, credentialId: Id)
    | ReconcileAll
    | Reseed(id: Id)

  /** Where an operation stands, with the values it has read so far: the constructor
      names the statement it will execute next. */
  datatype Local =
    | CreateCheck(req: CreateRequest)
    | CreateInsert(req: CreateRequest, seed: Seed, jwt: AccountJwt)
    | CreateSave(t: Tenant, seed: Seed)
    | CreatePush(t: Tenant, seed: Seed)
    | CreateUndo(id: Id)
    | LimitsRead(id: Id, columns: Columns)
    | LimitsSign(t: Tenant, columns: Columns)
    | LimitsWrite(t: Tenant, columns: Columns, jwt: AccountJwt)
    | LimitsPush(t: Tenant)
    | SuspendRead(id: Id)
    | SuspendRemove(id: Id, key: PublicKey)
    | ActivateRead(id: Id)
    | ActivatePush(id: Id, jwt: AccountJwt)
    | MarkStatus(id: Id, status: Status)
    | DeleteRead(id: Id)
    | DeleteRemove(id: Id, key: PublicKey)
    | DeleteMark(id: Id)
    | IssueRead(id: Id, name: string, expires: Option<nat>)
    | IssueUnseal(id: Id, name: string, expires: Option<nat>)
    | IssueSign(id: Id, name: string, expires: Option<nat>, seed: Seed)
    | IssueInsert(credential: Credential)
    | RevokeFind(id: Id, cid: Id)
    | RevokeVisible(id: Id, cid: Id, key: PublicKey)
    | RevokeRead(id: Id, cid: Id, key: PublicKey)
    | RevokeSign(id: Id, cid: Id, key: PublicKey, was: AccountJwt)
    | RevokeWrite(id: Id, cid: Id, was: AccountJwt, jwt: AccountJwt)
    | RevokeMark(id: Id, cid: Id, jwt: AccountJwt)
    | ReconcileList
    | ReconcilePush(todo: seq<Tenant>, pushed: nat, failed: nat)
    | ReseedRead(id: Id)
    | PushAccountJwt(id: Id, jwt: AccountJwt)
    | Done(result: Result)

  function Start(r: Request): Local {
    match r
    case Create(req) => CreateCheck(req)
    case UpdateLimits(id, columns) => LimitsRead(id, columns)
    case Suspend(id) => SuspendRead(id)
    case Activate(id) => ActivateRead(id)
    case Delete(id) => DeleteRead(id)
    case Issue(id, name, expires) => IssueRead(id, name, expires)
    case Revoke(id, cid) => RevokeFind(id, cid)
    case ReconcileAll => ReconcileList
    case Reseed(id) => ReseedRead(id)
  }

  datatype Conf = Conf(w: World, l: Local)

  function Fail(w: World, e: Error): Conf {
    Conf(w, Done(Failure(e)))
  }

  // ---------- single statements ----------

  /** The filter `status <> 'deleted'` of Get and List. */
  predicate Visible(w: World, id: Id) {
    id in w.tenants && w.tenants[id].status != Deleted
  }

  /** UNIQUE (name), UNIQUE (slug) and the VARCHAR lengths; deleted rows count. */
  predicate TenantAllowed(tenants: map<Id, Tenant>, name: string, slug: string) {
    && |name| <= 100 && |slug| <= 50
    && forall id | id in tenants :: tenants[id].name != name && tenants[id].slug != slug
  }

  predicate Insertable(w: World, name: string, slug: string) {
    TenantAllowed(w.tenants, name, slug)
  }

  /** UNIQUE (tenant_id, name), the VARCHAR length and the foreign key. */
  predicate CredentialAllowed(tenants: map<Id, Tenant>, creds: map<Id, Credential>, tenantId: Id, name: string) {
    && |name| <= 100 && tenantId in tenants
    && forall cid | cid in creds :: creds[cid].tenantId == tenantId ==> creds[cid].name != name
  }

  predicate CredentialInsertable(w: World, tenantId: Id, name: string) {
    CredentialAllowed(w.tenants, w.creds, tenantId, name)
  }

  function StatusSet(tenants: map<Id, Tenant>, id: Id, status: Status, o: Outcome): map<Id, Tenant> {
    if o.Failed? || id !in tenants then tenants else tenants[id := tenants[id].(status := status)]
  }

  function JwtSet(tenants: map<Id, Tenant>, id: Id, jwt: AccountJwt, o: Outcome): map<Id, Tenant> {
    if o.Failed? || id !in tenants then tenants else tenants[id := tenants[id].(accountJwt := jwt)]
  }

  function LimitsSet(tenants: map<Id, Tenant>, id: Id, jwt: AccountJwt, columns: Columns, o: Outcome): map<Id, Tenant> {
    if o.Failed? || id !in tenants then tenants else tenants[id := tenants[id].(accountJwt := jwt, columns := columns)]
  }

  function SeedSet(seeds: map<Id, SeedRow>, id: Id, box: Box, nonce: nat, o: Outcome): map<Id, SeedRow> {
    if o.Failed? then seeds
    else seeds[id := SeedRow(box, nonce, if id in seeds then seeds[id].keyVersion + 1 else 1)]
  }

  function RevokedAtSet(creds: map<Id, Credential>, cid: Id, at: nat, o: Outcome): map<Id, Credential> {
    if o.Failed? || cid !in creds then creds else creds[cid := creds[cid].(revokedAt := Some(at))]
  }

  /** A pushed token overwrites the resolver's entry for its subject. */
  function Pushed(entries: map<PublicKey, AccountJwt>, jwt: AccountJwt, o: Outcome): map<PublicKey, AccountJwt> {
    if o.Failed? then entries else entries[jwt.claims.subject := jwt]
  }

  function Removed(entries: map<PublicKey, AccountJwt>, key: PublicKey, o: Outcome): map<PublicKey, AccountJwt> {
    if o.Failed? then entries else entries - {key}
  }

  function SetStatus(w: World, id: Id, status: Status, o: Outcome): World {
    w.(tenants := StatusSet(w.tenants, id, status, o))
  }

  function SetJwt(w: World, id: Id, jwt: AccountJwt, o: Outcome): World {
    w.(tenants := JwtSet(w.tenants, id, jwt, o))
  }

  function SetJwtAndLimits(w: World, id: Id, jwt: AccountJwt, columns: Columns, o: Outcome): World {
    w.(tenants := LimitsSet(w.tenants, id, jwt, columns, o))
  }

  function SetRevokedAt(w: World, cid: Id, at: nat, o: Outcome): World {
    w.(creds := RevokedAtSet(w.creds, cid, at, o))
  }

  function Push(w: World, jwt: AccountJwt, o: Outcome): World {
    w.(resolver := Pushed(w.resolver, jwt, o))
  }

  function Remove(w: World, key: PublicKey, o: Outcome): World {
    w.(resolver := Removed(w.resolver, key, o))
  }

  /** Visible rows, newest first; row ids are handed out in order of creation. */
  function Listing(tenants: map<Id, Tenant>, n: nat): (rows: seq<Tenant>) {
    if n == 0 then []
    else if n - 1 in tenants && tenants[n - 1].status != Deleted then [tenants[n - 1]] + Listing(tenants, n - 1)
    else Listing(tenants, n - 1)
  }

  // ---------- one step of one operation ----------

  predicate InCreate(l: Local) {
    l.CreateCheck? || l.CreateInsert? || l.CreateSave? || l.CreatePush? || l.CreateUndo?
  }

  predicate InLimits(l: Local) {
    l.LimitsRead? || l.LimitsSign? || l.LimitsWrite? || l.LimitsPush?
  }

  predicate InStatus(l: Local) {
    || l.SuspendRead? || l.SuspendRemove? || l.ActivateRead? || l.ActivatePush? || l.MarkStatus?
    || l.DeleteRead? || l.DeleteRemove? || l.DeleteMark?
  }

  predicate InIssue(l: Local) {
    l.IssueRead? || l.IssueUnseal? || l.IssueSign? || l.IssueInsert?
  }

  predicate InRevoke(l: Local) {
    l.RevokeFind? || l.RevokeVisible? || l.RevokeRead? || l.RevokeSign? || l.RevokeWrite? || l.RevokeMark?
  }

  predicate InReconcile(l: Local) {
    l.ReconcileList? || l.ReconcilePush? || l.ReseedRead? || l.PushAccountJwt?
  }

  function CreateStep(cfg: Config, w: World, l: Local, o: Outcome): (n: Conf)
    requires InCreate(l)
    ensures Sooner(n.l, l)
  {
    match l
    case CreateCheck(req) =>
      if !Slug.MatchString(req.slug) then Fail(w, InvalidSlug)
      else if !o.Ok? then Fail(w, Internal)
      else
        var claims := CreateClaims(req, PublicKeyOf(w.next), w.clock);
        Conf(w.(next := w.next + 1),
             CreateInsert(req, w.next, SignAccountClaims(cfg.operator, claims, w.clock)))
    case CreateInsert(req, seed, jwt) =>
      if o.Failed? || !Insertable(w, req.name, req.slug) then Fail(w, Internal)
      else
        var t := Tenant(w.next, req.name, req.slug, PublicKeyOf(seed), jwt, req.columns, Active);
        var w' := w.(tenants := w.tenants[t.id := t], next := w.next + 1);
        if o.Ok? then Conf(w', CreateSave(t, seed)) else Fail(w', Internal)
    case CreateSave(t, seed) =>
      var w' := w.(seeds := SeedSet(w.seeds, t.id, Encrypt(cfg.master, w.next, seed), w.next, o), next := w.next + 1);
      Conf(w', if o.Ok? then CreatePush(t, seed) else CreateUndo(t.id))
    case CreatePush(t, seed) =>
      if !cfg.resolver then Conf(w, Done(Created(t, seed)))
      else Conf(Push(w, t.accountJwt, o), if o.Ok? then Done(Created(t, seed)) else CreateUndo(t.id))
    case CreateUndo(id) => Fail(SetStatus(w, id, Deleted, o), Internal)
  }

  function LimitsStep(cfg: Config, w: World, l: Local, o: Outcome): (n: Conf)
    requires InLimits(l)
    ensures Sooner(n.l, l)
  {
    match l
    case LimitsRead(id, columns) =>
      if !o.Ok? then Fail(w, Internal)
      else if !Visible(w, id) then Fail(w, NotFound)
      else Conf(w, LimitsSign(w.tenants[id], columns))
    case LimitsSign(t, columns) =>
      if !o.Ok? then Fail(w, Internal)
      else Conf(w,
        LimitsWrite(t, columns, SignAccountClaims(cfg.operator, WithLimits(t.accountJwt.claims, columns), w.clock)))
    case LimitsWrite(t, columns, jwt) =>
      var w' := SetJwtAndLimits(w, t.id, jwt, columns, o);
      if !o.Ok? || t.id !in w.tenants then Fail(w', Internal)
      else Conf(w', LimitsPush(t.(accountJwt := jwt, columns := columns)))
    case LimitsPush(t) =>
      if !cfg.resolver then Conf(w, Done(Updated(t)))
      else Conf(Push(w, t.accountJwt, o), Done(if o.Ok? then Updated(t) else Failure(Unreachable)))
  }

  function StatusStep(cfg: Config, w: World, l: Local, o: Outcome): (n: Conf)
    requires InStatus(l)
    ensures Sooner(n.l, l)
  {
    match l
    case SuspendRead(id) =>
      if !o.Ok? then Fail(w, Internal)
      else if !Visible(w, id) then Fail(w, NotFound)
      else Conf(w, SuspendRemove(id, w.tenants[id].accountKey))
    case SuspendRemove(id, key) =>
      if !cfg.resolver then Conf(w, MarkStatus(id, Suspended))
      else if !o.Ok? then Fail(Remove(w, key, o), Unreachable)
      else Conf(Remove(w, key, o), MarkStatus(id, Suspended))
    case ActivateRead(id) =>
      if !o.Ok? then Fail(w, Internal)
      else if !Visible(w, id) then Fail(w, NotFound)
      else Conf(w, ActivatePush(id, w.tenants[id].accountJwt))
    case ActivatePush(id, jwt) =>
      if !cfg.resolver then Conf(w, MarkStatus(id, Active))
      else if !o.Ok? then Fail(Push(w, jwt, o), Unreachable)
      else Conf(Push(w, jwt, o), MarkStatus(id, Active))
    case MarkStatus(id, status) =>
      Conf(SetStatus(w, id, status, o), Done(if o.Ok? then Completed else Failure(Internal)))
    case DeleteRead(id) =>
      if !o.Ok? then Fail(w, Internal)
      else if !Visible(w, id) then Fail(w, NotFound)
      else Conf(w, DeleteRemove(id, w.tenants[id].accountKey))
    case DeleteRemove(id, key) =>
      Conf(if cfg.resolver then Remove(w, key, o) else w, DeleteMark(id))
    case DeleteMark(id) =>
      Conf(SetStatus(w, id, Deleted, o), Done(if o.Ok? then Completed else Failure(Internal)))
  }

  function IssueStep(cfg: Config, w: World, l: Local, o: Outcome): (n: Conf)
    requires InIssue(l)
    ensures Sooner(n.l, l)
  {
    match l
    case IssueRead(id, name, expires) =>
      if !o.Ok? || !Visible(w, id) then Fail(w, TenantGone) else Conf(w, IssueUnseal(id, name, expires))
    case IssueUnseal(id, name, expires) =>
      if !o.Ok? then Fail(w, Internal)
      else if id !in w.seeds then Fail(w, NotFound)
      else
        (match Decrypt(cfg.master, w.seeds[id].encryptedSeed, w.seeds[id].nonce)
         case None => Fail(w, Internal)
         case Some(seed) => Conf(w, IssueSign(id, name, expires, seed)))
    case IssueSign(id, name, expires, seed) =>
      if !o.Ok? then Fail(w, Internal)
      else
        var userSeed := w.next;
        var nonce := w.next + 1;
        var account := PublicKeyOf(seed);
        var user := UserJwt(PublicKeyOf(userSeed), name, w.clock, expires, account, account);
        Conf(w.(next := w.next + 2),
             IssueInsert(Credential(
               0, id, name, user.subject, user, Encrypt(cfg.master, nonce, userSeed), nonce, None)))
    case IssueInsert(c) =>
      if o.Failed? || !CredentialInsertable(w, c.tenantId, c.name) then Fail(w, Internal)
      else
        var row := c.(id := w.next);
        Conf(w.(creds := w.creds[row.id := row], next := w.next + 1),
             Done(if o.Ok? then Issued(row) else Failure(Internal)))
  }

  function RevokeStep(cfg: Config, w: World, l: Local, o: Outcome): (n: Conf)
    requires InRevoke(l)
    ensures Sooner(n.l, l)
  {
    match l
    case RevokeFind(id, cid) =>
      if !o.Ok? || cid !in w.creds || w.creds[cid].tenantId != id then Fail(w, NotFound)
      else if w.creds[cid].revokedAt.Some? then Conf(w, Done(Completed))
      else Conf(w, RevokeVisible(id, cid, w.creds[cid].userKey))
    case RevokeVisible(id, cid, key) =>
      if !o.Ok? || !Visible(w, id) then Fail(w, TenantGone) else Conf(w, RevokeRead(id, cid, key))
    case RevokeRead(id, cid, key) =>
      if !o.Ok? || id !in w.tenants then Fail(w, Internal)
      else Conf(w, RevokeSign(id, cid, key, w.tenants[id].accountJwt))
    case RevokeSign(id, cid, key, was) =>
      if !o.Ok? then Fail(w, Internal)
      else Conf(w,
        RevokeWrite(id, cid, was, SignAccountClaims(cfg.operator, WithRevocation(was.claims, key, w.clock), w.clock)))
    case RevokeWrite(id, cid, was, jwt) =>
      var w' := SetJwt(w, id, jwt, o);
      if o.Ok? then Conf(w', RevokeMark(id, cid, jwt)) else Fail(w', Internal)
    case RevokeMark(id, cid, jwt) =>
      var w' := SetRevokedAt(w, cid, w.clock, o);
      if o.Ok? then Conf(w', PushAccountJwt(id, jwt)) else Fail(w', Internal)
  }

  function ReconcileStep(cfg: Config, w: World, l: Local, o: Outcome): (n: Conf)
    requires InReconcile(l)
    ensures Sooner(n.l, l)
  {
    match l
    case ReconcileList =>
      if !cfg.resolver then Fail(w, Unreachable)
      else if !o.Ok? then Fail(w, Internal)
      else Conf(w, ReconcilePush(Listing(w.tenants, w.next), 0, 0))
    case ReconcilePush(todo, pushed, failed) =>
      if todo == [] then Conf(w, Done(Reconciled(pushed, failed)))
      else if todo[0].status != Active then Conf(w, ReconcilePush(todo[1..], pushed, failed))
      else if o.Ok? then Conf(Push(w, todo[0].accountJwt, o), ReconcilePush(todo[1..], pushed + 1, failed))
      else Conf(Push(w, todo[0].accountJwt, o), ReconcilePush(todo[1..], pushed, failed + 1))
    case ReseedRead(id) =>
      if !o.Ok? then Fail(w, Internal)
      else if !Visible(w, id) then Fail(w, NotFound)
      else Conf(w, PushAccountJwt(id, w.tenants[id].accountJwt))
    case PushAccountJwt(id, jwt) =>
      if !cfg.resolver then Fail(w, Unreachable)
      else Conf(Push(w, jwt, o), Done(if o.Ok? then Completed else Failure(Unreachable)))
  }

  /** The next statement of the operation at `l`, under the environment's choice. */
  function Go(cfg: Config, w0: World, l: Local, c: Choice): (n: Conf)
    requires !l.Done?
    ensures Sooner(n.l, l)
  {
    var w := w0.(clock := w0.clock + c.delay);
    if InCreate(l) then
      CreateStep(cfg, w, l, c.outcome)
    else if InLimits(l) then
      LimitsStep(cfg, w, l, c.outcome)
    else if InIssue(l) then
      IssueStep(cfg, w, l, c.outcome)
    else if InRevoke(l) then
      RevokeStep(cfg, w, l, c.outcome)
    else if InReconcile(l) then
      ReconcileStep(cfg, w, l, c.outcome)
    else
      StatusStep(cfg, w, l, c.outcome)
  }

  // Each operation runs its own program.

  lemma CreateGoes(cfg: Config, w: World, l: Local, c: Choice)
    requires InCreate(l)
    ensures Go(cfg, w, l, c) == CreateStep(cfg, w.(clock := w.clock + c.delay), l, c.outcome)
  {
    hide Phase, CreateStep, LimitsStep, StatusStep, IssueStep, RevokeStep, ReconcileStep;
  }

  lemma LimitsGoes(cfg: Config, w: World, l: Local, c: Choice)
    requires InLimits(l)
    ensures Go(cfg, w, l, c) == LimitsStep(cfg, w.(clock := w.clock + c.delay), l, c.outcome)
  {
    hide Phase, CreateStep, LimitsStep, StatusStep, IssueStep, RevokeStep, ReconcileStep;
  }

  lemma StatusGoes(cfg: Config, w: World, l: Local, c: Choice)
    requires InStatus(l)
    ensures Go(cfg, w, l, c) == StatusStep(cfg, w.(clock := w.clock + c.delay), l, c.outcome)
  {
    hide Phase, CreateStep, LimitsStep, StatusStep, IssueStep, RevokeStep, ReconcileStep;
  }

  lemma IssueGoes(cfg: Config, w: World, l: Local, c: Choice)
    requires InIssue(l)
    ensures Go(cfg, w, l, c) == IssueStep(cfg, w.(clock := w.clock + c.delay), l, c.outcome)
  {
    hide Phase, CreateStep, LimitsStep, StatusStep, IssueStep, RevokeStep, ReconcileStep;
  }

  lemma RevokeGoes(cfg: Config, w: World, l: Local, c: Choice)
    requires InRevoke(l)
    ensures Go(cfg, w, l, c) == RevokeStep(cfg, w.(clock := w.clock + c.delay), l, c.outcome)
  {
    hide Phase, CreateStep, LimitsStep, StatusStep, IssueStep, RevokeStep, ReconcileStep;
  }

  lemma ReconcileGoes(cfg: Config, w: World, l: Local, c: Choice)
    requires InReconcile(l)
    ensures Go(cfg, w, l, c) == ReconcileStep(cfg, w.(clock := w.clock + c.delay), l, c.outcome)
  {
    hide Phase, CreateStep, LimitsStep, StatusStep, IssueStep, RevokeStep, ReconcileStep;
  }

  lemma GoesSomehow(l: Local)
    requires !l.Done?
    ensures InCreate(l) || InLimits(l) || InStatus(l) || InIssue(l) || InRevoke(l) || InReconcile(l)
  {
  }

  /** Statements still ahead of an operation, the reconcile loop counted apart. */
  function Phase(l: Local): nat {
    match l
    case CreateCheck(_) => 9
    case CreateInsert(_, _, _) => 8
    case CreateSave(_, _) => 7
    case CreatePush(_, _) => 6
    case CreateUndo(_) => 5
    case LimitsRead(_, _) => 9
    case LimitsSign(_, _) => 8
    case LimitsWrite(_, _, _) => 7
    case LimitsPush(_) => 6
    case SuspendRead(_) => 9
    case SuspendRemove(_, _) => 8
    case ActivateRead(_) => 9
    case ActivatePush(_, _) => 8
    case MarkStatus(_, _) => 7
    case DeleteRead(_) => 9
    case DeleteRemove(_, _) => 8
    case DeleteMark(_) => 7
    case IssueRead(_, _, _) => 9
    case IssueUnseal(_, _, _) => 8
    case IssueSign(_, _, _, _) => 7
    case IssueInsert(_) => 6
    case RevokeFind(_, _) => 9
    case RevokeVisible(_, _, _) => 8
    case RevokeRead(_, _, _) => 7
    case RevokeSign(_, _, _, _) => 6
    case RevokeWrite(_, _, _, _) => 5
    case RevokeMark(_, _, _) => 4
    case ReconcileList => 9
    case ReconcilePush(_, _, _) => 8
    case ReseedRead(_) => 9
    case PushAccountJwt(_, _) => 3
    case Done(_) => 0
  }

  function Remaining(l: Local): nat {
    if l.ReconcilePush? then |l.todo| else 0
  }

  /** Every statement brings its operation nearer to its end. */
  predicate Sooner(l': Local, l: Local) {
    Phase(l') < Phase(l) || (Phase(l') == Phase(l) && Remaining(l') < Remaining(l))
  }

  // ---------- one operation run alone ----------

  function Head(plan: seq<Choice>): Choice {
    if plan == [] then CALM else plan[0]
  }

  function Tail(plan: seq<Choice>): seq<Choice> {
    if plan == [] then [] else plan[1..]
  }

  /** Runs one operation to its end; statements beyond the plan are calm. */
  function Exec(cfg: Config, w: World, l: Local, plan: seq<Choice>): (r: Conf)
    ensures r.l.Done?
    decreases Phase(l), Remaining(l)
  {
    if l.Done? then Conf(w, l)
    else
      var n := Go(cfg, w, l, Head(plan));
      Exec(cfg, n.w, n.l, Tail(plan))
  }

  /** A plan in which nothing goes wrong. */
  predicate Clean(plan: seq<Choice>) {
    forall i | 0 <= i < |plan| :: plan[i].outcome.Ok?
  }

  // ---------- all operations together ----------

  datatype Machine = Machine(w: World, ops: map<Id, Local>)

  /** `Begin` admits a request under a new operation number, `Advance` lets one operation
      execute one statement, `Crash` abandons one, and `Lose` is the resolver losing entries. */
  datatype Event =
    | Begin(i: Id, request: Request)
    | Advance(i: Id, choice: Choice)
    | Crash(i: Id)
    | Lose(keys: set<PublicKey>)

  function Settle(m: Machine, i: Id, n: Conf): Machine {
    Machine(n.w, if n.l.Done? then m.ops - {i} else m.ops[i := n.l])
  }

  function Step(cfg: Config, m: Machine, e: Event): Machine {
    match e
    case Begin(i, r) => if i in m.ops then m else m.(ops := m.ops[i := Start(r)])
    case Advance(i, c) => if i !in m.ops || m.ops[i].Done? then m else Settle(m, i, Go(cfg, m.w, m.ops[i], c))
    case Crash(i) => m.(ops := m.ops - {i})
    case Lose(keys) => m.(w := m.w.(resolver := m.w.resolver - keys))
  }

  function RunFrom(cfg: Config, m: Machine, es: seq<Event>): Machine
    decreases |es|
  {
    if es == [] then m else Step(cfg, RunFrom(cfg, m, es[..|es| - 1]), es[|es| - 1])
  }

  const EMPTY := Machine(World(map[], map[], map[], map[], 0, 0), map[])

  /** The state after the events `es`, from empty stores. */
  function Run(cfg: Config, es: seq<Event>): Machine {
    RunFrom(cfg, EMPTY, es)
  }

  /** No request is admitted while another is in flight. */
  predicate Serial(cfg: Config, es: seq<Event>) {
    forall j | 0 <= j < |es| :: es[j].Begin? ==> Run(cfg, es[..j]).ops == map[]
  }
}
