/** When the resolver is up to date without ReconcileAll: serial runs in which no operation is
    stopped between changing one store and the other. */
module Synchrony {
  import opened Domain
  import opened Protocol
  import Slug
  import opened History
  import opened Revocations
  import opened Recovery

  /** The resolver has the current token of row `id`. */
  predicate Holds(w: World, id: Id)
    requires id in w.tenants
  {
    w.tenants[id].accountKey in w.resolver && w.resolver[w.tenants[id].accountKey] == w.tenants[id].accountJwt
  }

  /** The operation has changed one store for tenant `id` and not yet the other. */
  predicate Owes(l: Local, id: Id) {
    match l
    case CreateSave(t, _) => t.id == id
    case CreatePush(t, _) => t.id == id
    case CreateUndo(i) => i == id
    case LimitsPush(t) => t.id == id
    case MarkStatus(i, status) => i == id && status != Active
    case DeleteMark(i) => i == id
    case RevokeMark(i, _, _) => i == id
    case PushAccountJwt(i, _) => i == id
    case _ => false
  }

  /** The tenant is active, or an Activate that has pushed its token is about to say so. */
  predicate Wanted(m: Machine, id: Id) {
    || (id in m.w.tenants && m.w.tenants[id].status == Active)
    || exists i | i in m.ops :: m.ops[i] == MarkStatus(id, Active)
  }

  /** `e` does not stop an operation between its two changes: there no statement fails, and none
      that begins such a change loses its reply. Reads, and everything before the first change,
      may fail in any way. */
  predicate Completes(m: Machine, e: Event) {
    match e
    case Begin(_, _) => true
    case Advance(i, c) => i in m.ops ==> Carried(m.ops[i], c.outcome)
    case Crash(i) => i in m.ops ==> forall id | id in m.w.tenants :: !Owes(m.ops[i], id)
    case Lose(keys) => forall id | id in m.w.tenants && Wanted(m, id) :: m.w.tenants[id].accountKey !in keys
  }

  predicate Carried(l: Local, o: Outcome) {
    match l
    case CreateInsert(_, _, _) => !o.LostReply?
    case CreateUndo(_) => !o.Failed?
    case LimitsWrite(_, _, _) => !o.LostReply?
    case LimitsPush(_) => !o.Failed?
    case SuspendRemove(_, _) => !o.LostReply?
    case MarkStatus(_, status) => status != Active ==> !o.Failed?
    case DeleteMark(_) => !o.Failed?
    case RevokeWrite(_, _, _, _) => !o.LostReply?
    case RevokeMark(_, _, _) => o.Ok?
    case PushAccountJwt(_, _) => !o.Failed?
    case _ => true
  }

  /** With nobody else at work, what an operation has read is still so. */
  ghost predicate AsRead(w: World, l: Local) {
    match l
    case CreateSave(t, _) => t.id in w.tenants && w.tenants[t.id] == t
    case CreatePush(t, _) => t.id in w.tenants && w.tenants[t.id] == t
    case LimitsPush(t) => t.id in w.tenants && w.tenants[t.id].accountJwt == t.accountJwt
    case SuspendRemove(id, key) => id in w.tenants && w.tenants[id].accountKey == key
    case ActivatePush(id, jwt) => id in w.tenants && w.tenants[id].accountJwt == jwt
    case MarkStatus(id, status) => status == Active ==> id in w.tenants && Holds(w, id)
    case DeleteRemove(id, key) => id in w.tenants && w.tenants[id].accountKey == key
    case RevokeWrite(id, _, _, _) => id in w.tenants
    case RevokeMark(id, _, jwt) => id in w.tenants && w.tenants[id].accountJwt == jwt
    case PushAccountJwt(id, jwt) => id in w.tenants && w.tenants[id].accountJwt == jwt
    case ReconcilePush(todo, _, _) => forall t | t in todo :: t.id in w.tenants && w.tenants[t.id] == t
    case RevokeRead(id, _, _) => id in w.tenants
    case RevokeSign(id, _, _, _) => id in w.tenants
    case _ => true
  }

  /** Every active tenant is up to date at the resolver, but for what the one operation owes. */
  ghost predicate InStep(n: Conf) {
    && (forall id | id in n.w.tenants && n.w.tenants[id].status == Active :: Holds(n.w, id) || Owes(n.l, id))
    && AsRead(n.w, n.l)
  }

  /** Rows are filed under their ids, tokens name their row's account, accounts are different. */
  ghost predicate Filed(w: World) {
    && w.next !in w.tenants && DistinctKeys(w.tenants)
    && forall id | id in w.tenants ::
         w.tenants[id].id == id && w.tenants[id].accountJwt.claims.subject == w.tenants[id].accountKey
  }

  // ---------- one statement ----------

  /** Pushing a row's own token leaves that row up to date and disturbs no other. */
  lemma PushHolds(w: World, id: Id, o: Outcome)
    requires Filed(w) && id in w.tenants
    ensures var w' := Push(w, w.tenants[id].accountJwt, o);
      && (!o.Failed? ==> Holds(w', id))
      && forall k | k in w.tenants && Holds(w, k) :: Holds(w', k)
  {
  }

  lemma PushKeepsRows(w: World, jwt: AccountJwt, o: Outcome)
    ensures Push(w, jwt, o).tenants == w.tenants
  {
  }

  lemma InsertionKeepsStep(cfg: Config, w: World, l: Local, o: Outcome)
    requires cfg.resolver && l.CreateInsert? && Filed(w) && InStep(Conf(w, l)) && Carried(l, o)
    ensures InStep(CreateStep(cfg, w, l, o))
  {
    hide Insertable, DistinctKeys;
  }

  lemma FirstPushKeepsStep(cfg: Config, w: World, l: Local, o: Outcome)
    requires cfg.resolver && l.CreatePush? && Filed(w) && InStep(Conf(w, l))
    ensures InStep(CreateStep(cfg, w, l, o))
  {
    PushHolds(w, l.t.id, o);
    PushKeepsRows(w, l.t.accountJwt, o);
    hide Push, Filed;
  }

  lemma CreateKeepsStep(cfg: Config, w: World, l: Local, o: Outcome)
    requires cfg.resolver && InCreate(l) && Filed(w) && InStep(Conf(w, l)) && Carried(l, o)
    ensures InStep(CreateStep(cfg, w, l, o))
  {
    if l.CreateInsert? {
      hide *;
      InsertionKeepsStep(cfg, w, l, o);
    } else if l.CreatePush? {
      hide *;
      FirstPushKeepsStep(cfg, w, l, o);
    } else {
      hide Filed, Slug.MatchString, CreateClaims, SignAccountClaims, Push;
    }
  }

  lemma LimitsPushKeepsStep(cfg: Config, w: World, l: Local, o: Outcome)
    requires cfg.resolver && l.LimitsPush? && Filed(w) && InStep(Conf(w, l)) && Carried(l, o)
    ensures InStep(LimitsStep(cfg, w, l, o))
  {
    PushHolds(w, l.t.id, o);
    PushKeepsRows(w, l.t.accountJwt, o);
    hide Push, Filed;
  }

  lemma LimitsKeepStep(cfg: Config, w: World, l: Local, o: Outcome)
    requires cfg.resolver && InLimits(l) && Filed(w) && InStep(Conf(w, l)) && Carried(l, o)
    ensures InStep(LimitsStep(cfg, w, l, o))
  {
    if l.LimitsPush? {
      hide *;
      LimitsPushKeepsStep(cfg, w, l, o);
    } else {
      hide DistinctKeys, SignAccountClaims, WithLimits, Push;
    }
  }

  /** Removing a row's account disturbs no other. */
  lemma RemoveHolds(w: World, id: Id, o: Outcome)
    requires Filed(w) && id in w.tenants
    ensures var w' := Remove(w, w.tenants[id].accountKey, o);
      forall k | k in w.tenants && k != id && Holds(w, k) :: Holds(w', k)
  {
  }

  lemma RemovalKeepsStep(cfg: Config, w: World, l: Local, o: Outcome)
    requires cfg.resolver && (l.SuspendRemove? || l.DeleteRemove?) && Filed(w) && InStep(Conf(w, l)) && Carried(l, o)
    ensures InStep(StatusStep(cfg, w, l, o))
  {
    RemoveHolds(w, l.id, o);
    hide Filed;
  }

  lemma ActivationKeepsStep(cfg: Config, w: World, l: Local, o: Outcome)
    requires cfg.resolver && l.ActivatePush? && Filed(w) && InStep(Conf(w, l))
    ensures InStep(StatusStep(cfg, w, l, o))
  {
    PushHolds(w, l.id, o);
    hide Push, Filed;
    assert Push(w, l.jwt, o).tenants == w.tenants by { PushKeepsRows(w, l.jwt, o); }
  }

  lemma StatusKeepsStep(cfg: Config, w: World, l: Local, o: Outcome)
    requires cfg.resolver && InStatus(l) && Filed(w) && InStep(Conf(w, l)) && Carried(l, o)
    ensures InStep(StatusStep(cfg, w, l, o))
  {
    if l.SuspendRemove? || l.DeleteRemove? {
      hide *;
      RemovalKeepsStep(cfg, w, l, o);
    } else if l.ActivatePush? {
      hide *;
      ActivationKeepsStep(cfg, w, l, o);
    } else {
      hide Filed, Push, Remove;
    }
  }

  lemma IssueKeepsStep(cfg: Config, w: World, l: Local, o: Outcome)
    requires InIssue(l) && InStep(Conf(w, l))
    ensures InStep(IssueStep(cfg, w, l, o))
  {
    hide CredentialInsertable, Decrypt;
  }

  lemma RewriteKeepsStep(cfg: Config, w: World, l: Local, o: Outcome)
    requires l.RevokeWrite? && InStep(Conf(w, l)) && Carried(l, o)
    ensures InStep(RevokeStep(cfg, w, l, o))
  {
  }

  lemma RevokeKeepsStep(cfg: Config, w: World, l: Local, o: Outcome)
    requires InRevoke(l) && InStep(Conf(w, l)) && Carried(l, o)
    ensures InStep(RevokeStep(cfg, w, l, o))
  {
    if l.RevokeWrite? {
      hide *;
      RewriteKeepsStep(cfg, w, l, o);
    } else {
      hide SetJwt, SignAccountClaims, WithRevocation;
    }
  }

  lemma LoopKeepsStep(cfg: Config, w: World, l: Local, o: Outcome)
    requires cfg.resolver && l.ReconcilePush? && Filed(w) && InStep(Conf(w, l))
    ensures InStep(ReconcileStep(cfg, w, l, o))
  {
    if l.todo != [] {
      assert l.todo[0] in l.todo;
      PushHolds(w, l.todo[0].id, o);
      PushKeepsRows(w, l.todo[0].accountJwt, o);
    }
    hide Push, Filed;
  }

  lemma LastPushKeepsStep(cfg: Config, w: World, l: Local, o: Outcome)
    requires cfg.resolver && l.PushAccountJwt? && Filed(w) && InStep(Conf(w, l)) && Carried(l, o)
    ensures InStep(ReconcileStep(cfg, w, l, o))
  {
    PushHolds(w, l.id, o);
    PushKeepsRows(w, l.jwt, o);
    hide Push, Filed;
  }

  lemma ReconcileKeepsStep(cfg: Config, w: World, l: Local, o: Outcome)
    requires cfg.resolver && InReconcile(l) && Filed(w) && InStep(Conf(w, l)) && Carried(l, o)
    ensures InStep(ReconcileStep(cfg, w, l, o))
  {
    if l.PushAccountJwt? {
      hide *;
      LastPushKeepsStep(cfg, w, l, o);
    } else if l.ReconcilePush? {
      hide *;
      LoopKeepsStep(cfg, w, l, o);
    } else {
      ListedRows(w);
      hide Listing, Push, Filed;
    }
  }

  lemma ListedRows(w: World)
    requires Filed(w)
    ensures forall t | t in Listing(w.tenants, w.next) :: t.id in w.tenants && w.tenants[t.id] == t
  {
    hide Listing;
    forall t | t in Listing(w.tenants, w.next) ensures t.id in w.tenants && w.tenants[t.id] == t {
      ListingMember(w.tenants, w.next, t);
    }
  }

  lemma GoKeepsStep(cfg: Config, w: World, l: Local, c: Choice)
    requires cfg.resolver && !l.Done? && Filed(w) && InStep(Conf(w, l)) && Carried(l, c.outcome)
    ensures InStep(Go(cfg, w, l, c))
  {
    hide *;
    GoesSomehow(l);
    var w1, o := w.(clock := w.clock + c.delay), c.outcome;
    LaterInStep(w, l, c.delay);
    if InCreate(l) { CreateGoes(cfg, w, l, c); CreateKeepsStep(cfg, w1, l, o); }
    else if InLimits(l) { LimitsGoes(cfg, w, l, c); LimitsKeepStep(cfg, w1, l, o); }
    else if InStatus(l) { StatusGoes(cfg, w, l, c); StatusKeepsStep(cfg, w1, l, o); }
    else if InIssue(l) { IssueGoes(cfg, w, l, c); IssueKeepsStep(cfg, w1, l, o); }
    else if InRevoke(l) { RevokeGoes(cfg, w, l, c); RevokeKeepsStep(cfg, w1, l, o); }
    else { ReconcileGoes(cfg, w, l, c); ReconcileKeepsStep(cfg, w1, l, o); }
  }

  lemma LaterInStep(w: World, l: Local, delay: nat)
    requires Filed(w) && InStep(Conf(w, l))
    ensures var w1 := w.(clock := w.clock + delay); Filed(w1) && InStep(Conf(w1, l))
  {
  }

  // ---------- runs ----------

  /** The same for the machine, with the operation in flight if there is one. */
  ghost predicate MachineInStep(m: Machine) {
    && (m.ops == map[] ==> HoldsActive(m.w))
    && forall i | i in m.ops :: InStep(Conf(m.w, m.ops[i]))
  }

  lemma EventKeepsStep(cfg: Config, m: Machine, e: Event)
    requires cfg.resolver && Filed(m.w) && AtMostOne(m) && MachineInStep(m) && Completes(m, e)
    requires e.Begin? ==> m.ops == map[]
    ensures MachineInStep(Step(cfg, m, e))
  {
    hide Filed;
    match e
    case Begin(i, r) =>
      hide InStep;
      StartInStep(m.w, r);
    case Advance(i, c) =>
      if i in m.ops && !m.ops[i].Done? {
        hide InStep, Go;
        GoKeepsStep(cfg, m.w, m.ops[i], c);
        var n := Go(cfg, m.w, m.ops[i], c);
        if n.l.Done? { DoneHolds(n); }
      }
    case Crash(i) =>
    case Lose(keys) =>
      forall i | i in m.ops ensures InStep(Conf(m.w.(resolver := m.w.resolver - keys), m.ops[i])) {
        assert forall id | id in m.w.tenants
          && (m.w.tenants[id].status == Active || m.ops[i] == MarkStatus(id, Active)) ::
          Wanted(m, id);
        LosingKeepsStep(m.w, m.ops[i], keys);
      }
  }

  lemma StartInStep(w: World, r: Request)
    requires HoldsActive(w)
    ensures InStep(Conf(w, Start(r)))
  {
  }

  lemma DoneHolds(n: Conf)
    requires InStep(n) && n.l.Done?
    ensures HoldsActive(n.w)
  {
  }

  lemma LosingKeepsStep(w: World, l: Local, keys: set<PublicKey>)
    requires InStep(Conf(w, l))
    requires forall id | id in w.tenants && (w.tenants[id].status == Active || l == MarkStatus(id, Active)) ::
      w.tenants[id].accountKey !in keys
    ensures InStep(Conf(w.(resolver := w.resolver - keys), l))
  {
  }

  ghost predicate AllComplete(cfg: Config, es: seq<Event>) {
    forall j | 0 <= j < |es| :: Completes(Run(cfg, es[..j]), es[j])
  }

  lemma PrefixCompletes(cfg: Config, es: seq<Event>, n: nat)
    requires AllComplete(cfg, es) && n <= |es|
    ensures AllComplete(cfg, es[..n])
  {
    hide Run, Completes;
    forall j | 0 <= j < n ensures Completes(Run(cfg, es[..n][..j]), es[..n][j]) {
      assert es[..n][..j] == es[..j] && es[..n][j] == es[j];
    }
  }

  lemma {:induction false} RunKeepsStep(cfg: Config, es: seq<Event>)
    requires cfg.resolver && Serial(cfg, es) && AllComplete(cfg, es)
    ensures MachineInStep(Run(cfg, es))
    decreases |es|
  {
    hide Completes, MachineInStep, AtMostOne, Step;
    if es == [] {
      NothingInStep();
    } else {
      var before, e := es[..|es| - 1], es[|es| - 1];
      assert Completes(Run(cfg, before), e);
      PrefixCompletes(cfg, es, |es| - 1);
      SerialPrefix(cfg, es, |es| - 1);
      hide AllComplete;
      RunKeepsStep(cfg, before);
      SerialRunsOneAtATime(cfg, before);
      RunIsFiled(cfg, before);
      EventKeepsStep(cfg, Run(cfg, before), e);
    }
  }

  lemma NothingInStep()
    ensures MachineInStep(EMPTY)
  {
  }

  lemma RunIsFiled(cfg: Config, es: seq<Event>)
    ensures Filed(Run(cfg, es).w)
  {
    RunKeeps(cfg, es);
    var w, H := Run(cfg, es).w, HeldUpTo(cfg, es);
    RowIdsAreTaken(cfg, w, H);
    assert DistinctKeys(w.tenants);
    hide Run, HeldUpTo, WorldOk, Inv, DistinctKeys;
    forall id | id in w.tenants ensures w.tenants[id].accountJwt.claims.subject == w.tenants[id].accountKey {
      RowFacts(cfg, w, H, id);
    }
  }

  /** In serial runs in which no operation is stopped between its two stores and the resolver
      loses no active account, the resolver holds every active tenant's current token whenever
      nothing is in flight. */
  lemma IdleIsUpToDate(cfg: Config, es: seq<Event>)
    requires cfg.resolver && Serial(cfg, es) && AllComplete(cfg, es) && Run(cfg, es).ops == map[]
    ensures HoldsActive(Run(cfg, es).w)
  {
    RunKeepsStep(cfg, es);
  }
}
