/** Which statements touch which table: the effect of one step, table by table. */
module Effects {
  import opened Domain
  import opened Protocol
  import Slug

  function TenantsAfter(w: World, l: Local, o: Outcome): map<Id, Tenant> {
    match l
    case CreateInsert(req, seed, jwt) =>
      if o.Failed? || !TenantAllowed(w.tenants, req.name, req.slug) then w.tenants
      else w.tenants[w.next := Tenant(w.next, req.name, req.slug, PublicKeyOf(seed), jwt, req.columns, Active)]
    case CreateUndo(id) => StatusSet(w.tenants, id, Deleted, o)
    case MarkStatus(id, status) => StatusSet(w.tenants, id, status, o)
    case DeleteMark(id) => StatusSet(w.tenants, id, Deleted, o)
    case LimitsWrite(t, columns, jwt) => LimitsSet(w.tenants, t.id, jwt, columns, o)
    case RevokeWrite(id, _, _, jwt) => JwtSet(w.tenants, id, jwt, o)
    case _ => w.tenants
  }

  function CredsAfter(w: World, l: Local, c: Choice): map<Id, Credential> {
    match l
    case IssueInsert(cred) =>
      if c.outcome.Failed? || !CredentialAllowed(w.tenants, w.creds, cred.tenantId, cred.name) then w.creds
      else w.creds[w.next := cred.(id := w.next)]
    case RevokeMark(_, cid, _) => RevokedAtSet(w.creds, cid, w.clock + c.delay, c.outcome)
    case _ => w.creds
  }

  function ResolverAfter(cfg: Config, w: World, l: Local, o: Outcome): map<PublicKey, AccountJwt> {
    match l
    case ReconcilePush(todo, _, _) =>
      if todo == [] || todo[0].status != Active then w.resolver else Pushed(w.resolver, todo[0].accountJwt, o)
    case CreatePush(t, _) => if cfg.resolver then Pushed(w.resolver, t.accountJwt, o) else w.resolver
    case LimitsPush(t) => if cfg.resolver then Pushed(w.resolver, t.accountJwt, o) else w.resolver
    case ActivatePush(_, jwt) => if cfg.resolver then Pushed(w.resolver, jwt, o) else w.resolver
    case PushAccountJwt(_, jwt) => if cfg.resolver then Pushed(w.resolver, jwt, o) else w.resolver
    case SuspendRemove(_, key) => if cfg.resolver then Removed(w.resolver, key, o) else w.resolver
    case DeleteRemove(_, key) => if cfg.resolver then Removed(w.resolver, key, o) else w.resolver
    case _ => w.resolver
  }

  /** Seeds are stored by the Create that minted them, and by nothing else. */
  function SeedsTouched(l: Local): set<Id> {
    if l.CreateSave? then {l.t.id} else {}
  }

  /** Which statements lead to the states that mint a key, insert a row or write a token. */
  predicate Follows(l: Local, l': Local) {
    && (l'.CreateInsert? ==> l.CreateCheck?)
    && (l'.IssueInsert? ==> l.IssueSign?)
    && (l'.LimitsSign? ==> l.LimitsRead?)
    && (l'.LimitsWrite? ==> l.LimitsSign?)
    && (l'.RevokeSign? ==> l.RevokeRead?)
    && (l'.RevokeWrite? ==> l.RevokeSign?)
    && (l'.RevokeMark? ==> l.RevokeWrite?)
  }

  lemma TenantsEffect(cfg: Config, w: World, l: Local, c: Choice)
    requires !l.Done?
    ensures Go(cfg, w, l, c).w.tenants == TenantsAfter(w, l, c.outcome)
  {
    hide Go, StatusSet, JwtSet, LimitsSet, RevokedAtSet, Pushed, Removed, TenantAllowed, CredentialAllowed;
    GoAffects(cfg, w, l, c);
  }

  lemma CredsEffect(cfg: Config, w: World, l: Local, c: Choice)
    requires !l.Done?
    ensures Go(cfg, w, l, c).w.creds == CredsAfter(w, l, c)
  {
    hide Go, StatusSet, JwtSet, LimitsSet, RevokedAtSet, Pushed, Removed, TenantAllowed, CredentialAllowed;
    GoAffects(cfg, w, l, c);
  }

  lemma ResolverEffect(cfg: Config, w: World, l: Local, c: Choice)
    requires !l.Done?
    ensures Go(cfg, w, l, c).w.resolver == ResolverAfter(cfg, w, l, c.outcome)
  {
    hide Go, StatusSet, JwtSet, LimitsSet, RevokedAtSet, Pushed, Removed, TenantAllowed, CredentialAllowed;
    GoAffects(cfg, w, l, c);
  }

  lemma SeedsEffect(cfg: Config, w: World, l: Local, c: Choice)
    requires !l.Done?
    ensures Go(cfg, w, l, c).w.seeds - SeedsTouched(l) == w.seeds - SeedsTouched(l)
  {
    hide Go, TenantsAfter, CredsAfter, ResolverAfter;
    GoAffects(cfg, w, l, c);
  }

  lemma Succession(cfg: Config, w: World, l: Local, c: Choice)
    requires !l.Done?
    ensures var n := Go(cfg, w, l, c); Follows(l, n.l) && w.next <= n.w.next
  {
    hide Go, TenantsAfter, CredsAfter, ResolverAfter;
    GoAffects(cfg, w, l, c);
  }

  lemma GoAffects(cfg: Config, w: World, l: Local, c: Choice)
    requires !l.Done?
    ensures Affects(cfg, w.(clock := w.clock + c.delay), l, c.outcome, Go(cfg, w, l, c))
  {
    hide *;
    var w1, o := w.(clock := w.clock + c.delay), c.outcome;
    GoesSomehow(l);
    if InCreate(l) { CreateGoes(cfg, w, l, c); CreateEffects(cfg, w1, l, o); }
    else if InLimits(l) { LimitsGoes(cfg, w, l, c); LimitsEffects(cfg, w1, l, o); }
    else if InStatus(l) { StatusGoes(cfg, w, l, c); StatusEffects(cfg, w1, l, o); }
    else if InIssue(l) { IssueGoes(cfg, w, l, c); IssueEffects(cfg, w1, l, o); }
    else if InRevoke(l) { RevokeGoes(cfg, w, l, c); RevokeEffects(cfg, w1, l, o); }
    else { ReconcileGoes(cfg, w, l, c); ReconcileEffects(cfg, w1, l, o); }
  }

  /** All of the above at once, for the statement that takes `w` and `l` to `n`. */
  ghost predicate Affects(cfg: Config, w: World, l: Local, o: Outcome, n: Conf) {
    && n.w.tenants == TenantsAfter(w, l, o)
    && n.w.creds == CredsAfter(w, l, Choice(o, 0))
    && n.w.resolver == ResolverAfter(cfg, w, l, o)
    && n.w.seeds - SeedsTouched(l) == w.seeds - SeedsTouched(l)
    && Follows(l, n.l) && w.next <= n.w.next
  }

  lemma CreateEffects(cfg: Config, w: World, l: Local, o: Outcome)
    requires InCreate(l)
    ensures Affects(cfg, w, l, o, CreateStep(cfg, w, l, o))
  {
    hide Slug.MatchString, TenantAllowed, StatusSet, Pushed, CreateClaims, SignAccountClaims;
  }

  lemma LimitsEffects(cfg: Config, w: World, l: Local, o: Outcome)
    requires InLimits(l)
    ensures Affects(cfg, w, l, o, LimitsStep(cfg, w, l, o))
  {
    hide LimitsSet, Pushed, WithLimits, SignAccountClaims;
  }

  lemma StatusEffects(cfg: Config, w: World, l: Local, o: Outcome)
    requires InStatus(l)
    ensures Affects(cfg, w, l, o, StatusStep(cfg, w, l, o))
  {
    hide StatusSet, Pushed, Removed;
  }

  lemma IssueEffects(cfg: Config, w: World, l: Local, o: Outcome)
    requires InIssue(l)
    ensures Affects(cfg, w, l, o, IssueStep(cfg, w, l, o))
  {
    hide CredentialAllowed;
  }

  lemma RevokeEffects(cfg: Config, w: World, l: Local, o: Outcome)
    requires InRevoke(l)
    ensures Affects(cfg, w, l, o, RevokeStep(cfg, w, l, o))
  {
    hide JwtSet, RevokedAtSet, WithRevocation, SignAccountClaims;
  }

  lemma ReconcileEffects(cfg: Config, w: World, l: Local, o: Outcome)
    requires InReconcile(l)
    ensures Affects(cfg, w, l, o, ReconcileStep(cfg, w, l, o))
  {
    if l.ReconcilePush? {
      hide *;
      LoopEffects(cfg, w, l, o);
    } else {
      hide Listing, Pushed;
    }
  }

  lemma LoopEffects(cfg: Config, w: World, l: Local, o: Outcome)
    requires l.ReconcilePush?
    ensures Affects(cfg, w, l, o, ReconcileStep(cfg, w, l, o))
  {
    hide Listing, Pushed;
  }
}
