/** The other direction of `Replies`: which reply an operation served alone gives, and what it
    leaves behind, told from the outcomes of its statements, whatever fails. */
module Answers {
  import opened Wrappers
  import opened Domain
  import opened Protocol
  import opened History
  import opened Alone
  import opened Creation
  import opened Replies
  import Slug

  lemma OutcomesMove(plan: seq<Choice>)
    ensures Head(plan).outcome == OutcomeAt(plan, 0)
    ensures forall k: nat :: OutcomeAt(Tail(plan), k) == OutcomeAt(plan, k + 1)
  {
  }

  // ---------- UpdateLimits ----------

  /** The row and its token after the write, when it takes effect. */
  predicate Rewritten(w: World, id: Id, columns: Columns, tenants: map<Id, Tenant>)
    requires id in w.tenants
  {
    && id in tenants
    && tenants == w.tenants[id := w.tenants[id].(columns := columns, accountJwt := tenants[id].accountJwt)]
    && Enforces(tenants[id].accountJwt.claims.limits, columns)
    && OnlyLimitsDiffer(w.tenants[id].accountJwt, tenants[id].accountJwt)
  }

  /** UpdateLimits succeeds if and only if the tenant is visible and every statement replies ok,
      the push counting only with a resolver; otherwise the first thing to go wrong names the error. */
  lemma UpdateLimitsAnswers(cfg: Config, es: seq<Event>, id: Id, columns: Columns, plan: seq<Choice>)
    ensures var w := Run(cfg, es).w; var r := Exec(cfg, w, LimitsRead(id, columns), plan);
      && (r.l.result.Updated? <==>
            && Visible(w, id) && OutcomeAt(plan, 0).Ok? && OutcomeAt(plan, 1).Ok? && OutcomeAt(plan, 2).Ok?
            && (cfg.resolver ==> OutcomeAt(plan, 3).Ok?))
      && (!r.l.result.Updated? ==> r.l.result == Failure(
            if OutcomeAt(plan, 0).Ok? && !Visible(w, id) then NotFound
            else if OutcomeAt(plan, 0).Ok? && OutcomeAt(plan, 1).Ok? && OutcomeAt(plan, 2).Ok? then Unreachable
            else Internal))
  {
    var w := Run(cfg, es).w;
    RunKeeps(cfg, es);
    if id in w.tenants { RowFacts(cfg, w, HeldUpTo(cfg, es), id); }
    hide Run, Inv, WorldOk;
    LimitsAnswer(cfg, w, id, columns, plan);
  }

  /** Whatever the reply: the row is rewritten if and only if its write is reached and takes
      effect, and the resolver's entry if and only if the push is and does. */
  lemma UpdateLimitsLeaves(cfg: Config, es: seq<Event>, id: Id, columns: Columns, plan: seq<Choice>)
    ensures var w := Run(cfg, es).w; var r := Exec(cfg, w, LimitsRead(id, columns), plan);
      var reached := Visible(w, id) && OutcomeAt(plan, 0).Ok? && OutcomeAt(plan, 1).Ok?;
      && (if reached && !OutcomeAt(plan, 2).Failed? then Rewritten(w, id, columns, r.w.tenants)
          else r.w.tenants == w.tenants)
      && (r.w.resolver == if cfg.resolver && reached && OutcomeAt(plan, 2).Ok? && !OutcomeAt(plan, 3).Failed?
                          then w.resolver[w.tenants[id].accountKey := r.w.tenants[id].accountJwt] else w.resolver)
      && r.w.seeds == w.seeds && r.w.creds == w.creds
  {
    var w := Run(cfg, es).w;
    RunKeeps(cfg, es);
    if id in w.tenants { RowFacts(cfg, w, HeldUpTo(cfg, es), id); }
    hide Run, Inv, WorldOk;
    LimitsAnswer(cfg, w, id, columns, plan);
  }

  /** The reply and the stores at the end of an UpdateLimits. */
  predicate LimitsEnd(cfg: Config, w: World, id: Id, columns: Columns, plan: seq<Choice>, r: Conf) {
    var o0, o1, o2, o3 := OutcomeAt(plan, 0), OutcomeAt(plan, 1), OutcomeAt(plan, 2), OutcomeAt(plan, 3);
    && r.l.Done? && r.w == w.(clock := r.w.clock, tenants := r.w.tenants, resolver := r.w.resolver)
    && if !o0.Ok? then r.l.result == Failure(Internal) && r.w == w.(clock := r.w.clock)
       else if !Visible(w, id) then r.l.result == Failure(NotFound) && r.w == w.(clock := r.w.clock)
       else if !o1.Ok? then r.l.result == Failure(Internal) && r.w == w.(clock := r.w.clock)
       else
         && (if o2.Failed? then r.w.tenants == w.tenants else Rewritten(w, id, columns, r.w.tenants))
         && if !o2.Ok? then r.l.result == Failure(Internal) && r.w.resolver == w.resolver
            else PushEnd(cfg, w, r.w.tenants[id], o3, r)
  }

  predicate PushEnd(cfg: Config, w: World, t: Tenant, o: Outcome, r: Conf) {
    && r.l == Done(if cfg.resolver && !o.Ok? then Failure(Unreachable) else Updated(t))
    && r.w.resolver == if cfg.resolver && !o.Failed? then w.resolver[t.accountKey := t.accountJwt] else w.resolver
  }

  lemma LimitsAnswer(cfg: Config, w: World, id: Id, columns: Columns, plan: seq<Choice>)
    requires id in w.tenants
      ==> w.tenants[id].id == id && w.tenants[id].accountJwt.claims.subject == w.tenants[id].accountKey
    ensures LimitsEnd(cfg, w, id, columns, plan, Exec(cfg, w, LimitsRead(id, columns), plan))
  {
    hide Exec, Go, Head, Tail, OutcomeAt, Rewritten, PushEnd;
    OutcomesMove(plan);
    var l := LimitsRead(id, columns);
    var n := Go(cfg, w, l, Head(plan));
    Turn(cfg, w, l, plan, n);
    LimitsGoes(cfg, w, l, Head(plan));
    if !n.l.Done? {
      LimitsSignAnswer(cfg, w, n.w, id, columns, plan);
    }
  }

  lemma LimitsSignAnswer(cfg: Config, w: World, w1: World, id: Id, columns: Columns, plan: seq<Choice>)
    requires Visible(w, id) && OutcomeAt(plan, 0).Ok? && w1 == w.(clock := w1.clock)
    requires w.tenants[id].id == id && w.tenants[id].accountJwt.claims.subject == w.tenants[id].accountKey
    ensures LimitsEnd(cfg, w, id, columns, plan, Exec(cfg, w1, LimitsSign(w.tenants[id], columns), Tail(plan)))
  {
    hide Exec, Go, Head, Tail, OutcomeAt, Rewritten, PushEnd;
    OutcomesMove(plan);
    var p := Tail(plan);
    OutcomesMove(p);
    var l := LimitsSign(w.tenants[id], columns);
    var n := Go(cfg, w1, l, Head(p));
    Turn(cfg, w1, l, p, n);
    LimitsGoes(cfg, w1, l, Head(p));
    if !n.l.Done? {
      LimitsWriteAnswer(cfg, w, n.w, id, columns, n.l.jwt, plan);
    }
  }

  lemma LimitsWriteAnswer(
      cfg: Config, w: World, w2: World, id: Id, columns: Columns, jwt: AccountJwt, plan: seq<Choice>)
    requires Visible(w, id) && OutcomeAt(plan, 0).Ok? && OutcomeAt(plan, 1).Ok? && w2 == w.(clock := w2.clock)
    requires w.tenants[id].id == id && w.tenants[id].accountJwt.claims.subject == w.tenants[id].accountKey
    requires Enforces(jwt.claims.limits, columns) && OnlyLimitsDiffer(w.tenants[id].accountJwt, jwt)
    ensures LimitsEnd(cfg, w, id, columns, plan,
              Exec(cfg, w2, LimitsWrite(w.tenants[id], columns, jwt), Tail(Tail(plan))))
  {
    hide Exec, Go, Head, Tail, OutcomeAt, Enforces;
    OutcomesMove(plan);
    OutcomesMove(Tail(plan));
    var p := Tail(Tail(plan));
    OutcomesMove(p);
    var l := LimitsWrite(w.tenants[id], columns, jwt);
    var n := Go(cfg, w2, l, Head(p));
    Turn(cfg, w2, l, p, n);
    LimitsGoes(cfg, w2, l, Head(p));
    if !n.l.Done? {
      OutcomesMove(Tail(p));
      var m := Go(cfg, n.w, n.l, Head(Tail(p)));
      Turn(cfg, n.w, n.l, Tail(p), m);
      LimitsGoes(cfg, n.w, n.l, Head(Tail(p)));
    }
  }

  // ---------- Suspend, Activate, Delete, Reseed ----------

  lemma MarkAnswer(cfg: Config, w: World, id: Id, status: Status, plan: seq<Choice>)
    ensures var r := Exec(cfg, w, MarkStatus(id, status), plan);
      && r.l == Done(if OutcomeAt(plan, 0).Ok? then Completed else Failure(Internal))
      && r.w == w.(clock := r.w.clock, tenants := StatusSet(w.tenants, id, status, OutcomeAt(plan, 0)))
  {
    hide Exec, Go, Head, Tail, OutcomeAt, StatusSet;
    OutcomesMove(plan);
    var l := MarkStatus(id, status);
    Turn(cfg, w, l, plan, Go(cfg, w, l, Head(plan)));
    StatusGoes(cfg, w, l, Head(plan));
  }

  /** Activate succeeds if and only if the tenant is visible and every statement replies ok, the
      push counting only with a resolver; row and resolver change as far as it gets. */
  lemma ActivateAnswers(cfg: Config, w: World, id: Id, plan: seq<Choice>)
    ensures var r := Exec(cfg, w, ActivateRead(id), plan);
      var reached := Visible(w, id) && OutcomeAt(plan, 0).Ok?;
      && (r.l == Done(Completed) <==>
            reached && (cfg.resolver ==> OutcomeAt(plan, 1).Ok?) && OutcomeAt(plan, 2).Ok?)
      && (r.l != Done(Completed) ==> r.l == Done(Failure(
            if OutcomeAt(plan, 0).Ok? && !Visible(w, id) then NotFound
            else if reached && cfg.resolver && !OutcomeAt(plan, 1).Ok? then Unreachable
            else Internal)))
      && r.w == w.(clock := r.w.clock,
           tenants := if reached && (cfg.resolver ==> OutcomeAt(plan, 1).Ok?) && !OutcomeAt(plan, 2).Failed?
                      then w.tenants[id := w.tenants[id].(status := Active)] else w.tenants,
           resolver := if reached && cfg.resolver && !OutcomeAt(plan, 1).Failed?
                       then w.resolver[w.tenants[id].accountJwt.claims.subject := w.tenants[id].accountJwt]
                       else w.resolver)
  {
    hide Exec, Go, Head, Tail, OutcomeAt;
    OutcomesMove(plan);
    var n, p := Go(cfg, w, ActivateRead(id), Head(plan)), Tail(plan);
    OutcomesMove(p);
    Turn(cfg, w, ActivateRead(id), plan, n);
    StatusGoes(cfg, w, ActivateRead(id), Head(plan));
    if !n.l.Done? {
      var m := Go(cfg, n.w, n.l, Head(p));
      Turn(cfg, n.w, n.l, p, m);
      StatusGoes(cfg, n.w, n.l, Head(p));
      if !m.l.Done? { MarkAnswer(cfg, m.w, id, Active, Tail(p)); }
    }
  }

  /** Suspend succeeds if and only if the tenant is visible and every statement replies ok, the
      removal counting only with a resolver; row and resolver change as far as it gets. */
  lemma SuspendAnswers(cfg: Config, w: World, id: Id, plan: seq<Choice>)
    ensures var r := Exec(cfg, w, SuspendRead(id), plan);
      var reached := Visible(w, id) && OutcomeAt(plan, 0).Ok?;
      && (r.l == Done(Completed) <==>
            reached && (cfg.resolver ==> OutcomeAt(plan, 1).Ok?) && OutcomeAt(plan, 2).Ok?)
      && (r.l != Done(Completed) ==> r.l == Done(Failure(
            if OutcomeAt(plan, 0).Ok? && !Visible(w, id) then NotFound
            else if reached && cfg.resolver && !OutcomeAt(plan, 1).Ok? then Unreachable
            else Internal)))
      && r.w == w.(clock := r.w.clock,
           tenants := if reached && (cfg.resolver ==> OutcomeAt(plan, 1).Ok?) && !OutcomeAt(plan, 2).Failed?
                      then w.tenants[id := w.tenants[id].(status := Suspended)] else w.tenants,
           resolver := if reached && cfg.resolver && !OutcomeAt(plan, 1).Failed?
                       then w.resolver - {w.tenants[id].accountKey} else w.resolver)
  {
    hide Exec, Go, Head, Tail, OutcomeAt;
    OutcomesMove(plan);
    var n, p := Go(cfg, w, SuspendRead(id), Head(plan)), Tail(plan);
    OutcomesMove(p);
    Turn(cfg, w, SuspendRead(id), plan, n);
    StatusGoes(cfg, w, SuspendRead(id), Head(plan));
    if !n.l.Done? {
      var m := Go(cfg, n.w, n.l, Head(p));
      Turn(cfg, n.w, n.l, p, m);
      StatusGoes(cfg, n.w, n.l, Head(p));
      if !m.l.Done? { MarkAnswer(cfg, m.w, id, Suspended, Tail(p)); }
    }
  }

  /** Delete succeeds if and only if the tenant is visible and both database statements reply ok:
      nothing the resolver does stops it. */
  lemma DeleteAnswers(cfg: Config, w: World, id: Id, plan: seq<Choice>)
    ensures var r := Exec(cfg, w, DeleteRead(id), plan);
      var reached := Visible(w, id) && OutcomeAt(plan, 0).Ok?;
      && (r.l == Done(Completed) <==> reached && OutcomeAt(plan, 2).Ok?)
      && (r.l != Done(Completed) ==>
            r.l == Done(Failure(if OutcomeAt(plan, 0).Ok? && !Visible(w, id) then NotFound else Internal)))
      && r.w == w.(clock := r.w.clock,
           tenants := if reached && !OutcomeAt(plan, 2).Failed?
                      then w.tenants[id := w.tenants[id].(status := Deleted)] else w.tenants,
           resolver := if reached && cfg.resolver && !OutcomeAt(plan, 1).Failed?
                       then w.resolver - {w.tenants[id].accountKey} else w.resolver)
  {
    hide Exec, Go, Head, Tail, OutcomeAt;
    OutcomesMove(plan);
    var n, p := Go(cfg, w, DeleteRead(id), Head(plan)), Tail(plan);
    OutcomesMove(p);
    Turn(cfg, w, DeleteRead(id), plan, n);
    StatusGoes(cfg, w, DeleteRead(id), Head(plan));
    if !n.l.Done? {
      var m, q := Go(cfg, n.w, n.l, Head(p)), Tail(p);
      OutcomesMove(q);
      Turn(cfg, n.w, n.l, p, m);
      StatusGoes(cfg, n.w, n.l, Head(p));
      Turn(cfg, m.w, m.l, q, Go(cfg, m.w, m.l, Head(q)));
      StatusGoes(cfg, m.w, m.l, Head(q));
    }
  }

  /** The push that ends a Revoke and a reseed completes if and only if there is a resolver and it replies ok. */
  lemma PushAnswers(cfg: Config, w: World, id: Id, jwt: AccountJwt, plan: seq<Choice>)
    ensures var r := Exec(cfg, w, PushAccountJwt(id, jwt), plan);
      && r.l == Done(if cfg.resolver && OutcomeAt(plan, 0).Ok? then Completed else Failure(Unreachable))
      && r.w == w.(clock := r.w.clock, resolver := if cfg.resolver && !OutcomeAt(plan, 0).Failed?
                                                   then w.resolver[jwt.claims.subject := jwt] else w.resolver)
      && w.clock <= r.w.clock
  {
    hide Exec, Go, Head, Tail, OutcomeAt;
    OutcomesMove(plan);
    var l := PushAccountJwt(id, jwt);
    Turn(cfg, w, l, plan, Go(cfg, w, l, Head(plan)));
    ReconcileGoes(cfg, w, l, Head(plan));
  }

  /** A reseed succeeds if and only if the tenant is visible, there is a resolver, and both statements reply ok. */
  lemma ReseedAnswers(cfg: Config, w: World, id: Id, plan: seq<Choice>)
    ensures var r := Exec(cfg, w, ReseedRead(id), plan);
      var reached := Visible(w, id) && OutcomeAt(plan, 0).Ok?;
      && (r.l == Done(Completed) <==> reached && cfg.resolver && OutcomeAt(plan, 1).Ok?)
      && (r.l != Done(Completed) ==> r.l == Done(Failure(
            if !OutcomeAt(plan, 0).Ok? then Internal else if !Visible(w, id) then NotFound else Unreachable)))
      && r.w == w.(clock := r.w.clock, resolver :=
           if reached && cfg.resolver && !OutcomeAt(plan, 1).Failed?
           then w.resolver[w.tenants[id].accountJwt.claims.subject := w.tenants[id].accountJwt] else w.resolver)
  {
    hide Exec, Go, Head, Tail, OutcomeAt;
    OutcomesMove(plan);
    var n, p := Go(cfg, w, ReseedRead(id), Head(plan)), Tail(plan);
    Turn(cfg, w, ReseedRead(id), plan, n);
    ReconcileGoes(cfg, w, ReseedRead(id), Head(plan));
    if !n.l.Done? { PushAnswers(cfg, n.w, id, n.l.jwt, p); }
  }

  /** Whatever pushes fail, the loop reports. */
  lemma {:induction false} LoopAnswers(
      cfg: Config, w: World, todo: seq<Tenant>, pushed: nat, failed: nat, plan: seq<Choice>)
    ensures Exec(cfg, w, ReconcilePush(todo, pushed, failed), plan).l.result.Reconciled?
    decreases |todo|
  {
    hide Exec, Go, Head, Tail;
    var l := ReconcilePush(todo, pushed, failed);
    var n := Go(cfg, w, l, Head(plan));
    Turn(cfg, w, l, plan, n);
    ReconcileGoes(cfg, w, l, Head(plan));
    if todo == [] {
    } else {
      LoopAnswers(cfg, n.w, todo[1..], n.l.pushed, n.l.failed, Tail(plan));
    }
  }

  /** A ReconcileAll that cannot begin says why and leaves both stores alone; any other reports
      what it pushed. */
  lemma ReconcileAnswers(cfg: Config, w: World, plan: seq<Choice>)
    ensures var r := Exec(cfg, w, ReconcileList, plan);
      && (cfg.resolver && OutcomeAt(plan, 0).Ok? ==> r.l.result.Reconciled?)
      && (!cfg.resolver ==> r.l == Done(Failure(Unreachable)) && r.w == w.(clock := r.w.clock))
      && (cfg.resolver && !OutcomeAt(plan, 0).Ok? ==>
            r.l == Done(Failure(Internal)) && r.w == w.(clock := r.w.clock))
  {
    hide Exec, Go, Head, Tail, OutcomeAt;
    OutcomesMove(plan);
    var n := Go(cfg, w, ReconcileList, Head(plan));
    Turn(cfg, w, ReconcileList, plan, n);
    ReconcileGoes(cfg, w, ReconcileList, Head(plan));
    if !n.l.Done? { LoopAnswers(cfg, n.w, n.l.todo, 0, 0, Tail(plan)); }
  }

  // ---------- Issue ----------

  /** Statements 0 to 2 of an Issue have replied ok on a visible tenant with a stored seed. */
  predicate Signs(w: World, id: Id, plan: seq<Choice>) {
    && Visible(w, id) && id in w.seeds
    && OutcomeAt(plan, 0).Ok? && OutcomeAt(plan, 1).Ok? && OutcomeAt(plan, 2).Ok?
  }

  predicate AddsCredential(w: World, id: Id, name: string, creds: map<Id, Credential>) {
    var cid := w.next + 2;
    && cid in creds && creds == w.creds[cid := creds[cid]]
    && creds[cid].tenantId == id && creds[cid].name == name && creds[cid].revokedAt.None?
  }

  /** Issue succeeds if and only if the tenant is visible and has a stored seed, the name is
      new to it, and every statement replies ok; the row is inserted if and only if the INSERT is
      reached, meets the constraints and takes effect. */
  lemma IssueAnswers(cfg: Config, es: seq<Event>, id: Id, name: string, expires: Option<nat>, plan: seq<Choice>)
    ensures var w := Run(cfg, es).w; var r := Exec(cfg, w, IssueRead(id, name, expires), plan);
      && (r.l.result.Issued? <==> Signs(w, id, plan) && CredentialInsertable(w, id, name) && OutcomeAt(plan, 3).Ok?)
      && (!r.l.result.Issued? ==> r.l.result == Failure(
            if !OutcomeAt(plan, 0).Ok? || !Visible(w, id) then TenantGone
            else if OutcomeAt(plan, 1).Ok? && id !in w.seeds then NotFound
            else Internal))
      && (if Signs(w, id, plan) && CredentialInsertable(w, id, name) && !OutcomeAt(plan, 3).Failed?
          then AddsCredential(w, id, name, r.w.creds) else r.w.creds == w.creds)
      && r.w == w.(clock := r.w.clock, next := r.w.next, creds := r.w.creds)
  {
    var w := Run(cfg, es).w;
    RunKeeps(cfg, es);
    if id in w.seeds { SeedFacts(cfg, w, HeldUpTo(cfg, es), id); }
    hide Run, Inv, WorldOk;
    IssueAnswer(cfg, w, id, name, expires, plan);
  }

  predicate IssueEnd(w: World, id: Id, name: string, plan: seq<Choice>, r: Conf) {
    && r.l.Done? && r.w == w.(clock := r.w.clock, next := r.w.next, creds := r.w.creds)
    && if Signs(w, id, plan) && CredentialInsertable(w, id, name) && !OutcomeAt(plan, 3).Failed? then
         && AddsCredential(w, id, name, r.w.creds)
         && r.l.result == if OutcomeAt(plan, 3).Ok? then Issued(r.w.creds[w.next + 2]) else Failure(Internal)
       else
         && r.w.creds == w.creds
         && r.l.result == Failure(if !OutcomeAt(plan, 0).Ok? || !Visible(w, id) then TenantGone
                                  else if OutcomeAt(plan, 1).Ok? && id !in w.seeds then NotFound else Internal)
  }

  lemma IssueAnswer(cfg: Config, w: World, id: Id, name: string, expires: Option<nat>, plan: seq<Choice>)
    requires id in w.seeds ==> SeedOk(cfg, w, id)
    ensures IssueEnd(w, id, name, plan, Exec(cfg, w, IssueRead(id, name, expires), plan))
  {
    hide Exec, Go, Head, Tail, OutcomeAt, CredentialInsertable, AddsCredential;
    OutcomesMove(plan);
    var l := IssueRead(id, name, expires);
    var n, p := Go(cfg, w, l, Head(plan)), Tail(plan);
    OutcomesMove(p);
    Turn(cfg, w, l, plan, n);
    IssueGoes(cfg, w, l, Head(plan));
    if !n.l.Done? {
      var m := Go(cfg, n.w, n.l, Head(p));
      Turn(cfg, n.w, n.l, p, m);
      IssueGoes(cfg, n.w, n.l, Head(p));
      if !m.l.Done? { IssueSignAnswer(cfg, w, m.w, m.l, id, name, plan); }
    }
  }

  lemma IssueSignAnswer(cfg: Config, w: World, w2: World, l: Local, id: Id, name: string, plan: seq<Choice>)
    requires Visible(w, id) && id in w.seeds && OutcomeAt(plan, 0).Ok? && OutcomeAt(plan, 1).Ok?
    requires w2 == w.(clock := w2.clock) && l.IssueSign? && l.id == id && l.name == name
    ensures IssueEnd(w, id, name, plan, Exec(cfg, w2, l, Tail(Tail(plan))))
  {
    hide Exec, Go, Head, Tail, OutcomeAt, CredentialAllowed;
    OutcomesMove(plan);
    OutcomesMove(Tail(plan));
    var p := Tail(Tail(plan));
    OutcomesMove(p);
    var n := Go(cfg, w2, l, Head(p));
    Turn(cfg, w2, l, p, n);
    IssueGoes(cfg, w2, l, Head(p));
    if !n.l.Done? {
      OutcomesMove(Tail(p));
      Turn(cfg, n.w, n.l, Tail(p), Go(cfg, n.w, n.l, Head(Tail(p))));
      IssueGoes(cfg, n.w, n.l, Head(Tail(p)));
    }
  }

  // ---------- Revoke ----------

  /** The row's token after the write, when it takes effect. */
  predicate RevokesIn(w: World, id: Id, cid: Id, tenants: map<Id, Tenant>)
    requires id in w.tenants && cid in w.creds
  {
    && id in tenants
    && tenants == w.tenants[id := w.tenants[id].(accountJwt := tenants[id].accountJwt)]
    && OnlyRevokes(w.tenants[id].accountJwt, tenants[id].accountJwt, w.creds[cid].userKey, w.clock)
  }

  /** The statements that read and re-sign have replied ok on an unmarked credential of a visible tenant. */
  predicate Rewrites(w: World, id: Id, cid: Id, plan: seq<Choice>) {
    && Finds(w, id, cid, plan) && w.creds[cid].revokedAt.None? && Visible(w, id)
    && OutcomeAt(plan, 1).Ok? && OutcomeAt(plan, 2).Ok? && OutcomeAt(plan, 3).Ok?
  }

  predicate Finds(w: World, id: Id, cid: Id, plan: seq<Choice>) {
    cid in w.creds && w.creds[cid].tenantId == id && OutcomeAt(plan, 0).Ok?
  }

  /** Revoke succeeds if and only if it finds the credential, and that is marked already or the
      tenant is visible, every statement replies ok and there is a resolver. */
  lemma RevokeAnswers(cfg: Config, es: seq<Event>, id: Id, cid: Id, plan: seq<Choice>)
    ensures var w := Run(cfg, es).w; var r := Exec(cfg, w, RevokeFind(id, cid), plan);
      && (r.l == Done(Completed) <==>
            && Finds(w, id, cid, plan)
            && (w.creds[cid].revokedAt.Some?
                || (Rewrites(w, id, cid, plan) && OutcomeAt(plan, 4).Ok? && OutcomeAt(plan, 5).Ok?
                    && cfg.resolver && OutcomeAt(plan, 6).Ok?)))
      && (r.l != Done(Completed) ==> r.l == Done(Failure(
            if !Finds(w, id, cid, plan) then NotFound
            else if !OutcomeAt(plan, 1).Ok? || !Visible(w, id) then TenantGone
            else if Rewrites(w, id, cid, plan) && OutcomeAt(plan, 4).Ok? && OutcomeAt(plan, 5).Ok? then Unreachable
            else Internal)))
  {
    var w := Run(cfg, es).w;
    RunKeeps(cfg, es);
    if id in w.tenants { RowFacts(cfg, w, HeldUpTo(cfg, es), id); }
    hide Run, Inv, WorldOk;
    RevokeAnswer(cfg, w, id, cid, plan);
  }

  /** Whatever the reply: the row's token, the mark and the resolver's entry change one after the
      other, each if and only if its statement is reached and takes effect. */
  lemma RevokeLeaves(cfg: Config, es: seq<Event>, id: Id, cid: Id, plan: seq<Choice>)
    ensures var w := Run(cfg, es).w; var r := Exec(cfg, w, RevokeFind(id, cid), plan);
      var writes := Rewrites(w, id, cid, plan);
      && (if writes && !OutcomeAt(plan, 4).Failed? then RevokesIn(w, id, cid, r.w.tenants)
          else r.w.tenants == w.tenants)
      && (if writes && OutcomeAt(plan, 4).Ok? && !OutcomeAt(plan, 5).Failed?
          then Marked(w, cid, r.w) else r.w.creds == w.creds)
      && r.w.resolver == (if writes && OutcomeAt(plan, 4).Ok? && OutcomeAt(plan, 5).Ok?
                             && cfg.resolver && !OutcomeAt(plan, 6).Failed?
                          then w.resolver[w.tenants[id].accountKey := r.w.tenants[id].accountJwt] else w.resolver)
      && r.w.seeds == w.seeds
  {
    var w := Run(cfg, es).w;
    RunKeeps(cfg, es);
    if id in w.tenants { RowFacts(cfg, w, HeldUpTo(cfg, es), id); }
    hide Run, Inv, WorldOk;
    RevokeAnswer(cfg, w, id, cid, plan);
  }

  /** The credential is marked with a time since `w`; the others are as they were. */
  predicate Marked(w: World, cid: Id, w': World)
    requires cid in w.creds
  {
    && cid in w'.creds && w'.creds[cid].revokedAt.Some? && w.clock <= w'.creds[cid].revokedAt.value <= w'.clock
    && w'.creds == w.creds[cid := w.creds[cid].(revokedAt := w'.creds[cid].revokedAt)]
  }

  predicate RevokeEnd(cfg: Config, w: World, id: Id, cid: Id, plan: seq<Choice>, r: Conf) {
    if !Rewrites(w, id, cid, plan) then
      && r.w == w.(clock := r.w.clock)
      && r.l == Done(if !Finds(w, id, cid, plan) then Failure(NotFound)
                     else if w.creds[cid].revokedAt.Some? then Completed
                     else if !OutcomeAt(plan, 1).Ok? || !Visible(w, id) then Failure(TenantGone)
                     else Failure(Internal))
    else WriteEnd(cfg, w, id, cid, OutcomeAt(plan, 4), OutcomeAt(plan, 5), OutcomeAt(plan, 6), r)
  }

  /** Three statements from the write on. */
  predicate WriteEnd(cfg: Config, w: World, id: Id, cid: Id, writes: Outcome, marks: Outcome, pushes: Outcome, r: Conf)
    requires id in w.tenants && cid in w.creds
  {
    && r.l == Done(if !writes.Ok? || !marks.Ok? then Failure(Internal)
                   else if cfg.resolver && pushes.Ok? then Completed else Failure(Unreachable))
    && (if writes.Failed? then r.w.tenants == w.tenants else RevokesIn(w, id, cid, r.w.tenants))
    && (if writes.Ok? && !marks.Failed? then Marked(w, cid, r.w) else r.w.creds == w.creds)
    && r.w.resolver == (if writes.Ok? && marks.Ok? && cfg.resolver && !pushes.Failed?
                        then w.resolver[w.tenants[id].accountKey := r.w.tenants[id].accountJwt] else w.resolver)
    && r.w.seeds == w.seeds
  }

  lemma RevokeAnswer(cfg: Config, w: World, id: Id, cid: Id, plan: seq<Choice>)
    requires id in w.tenants ==> w.tenants[id].accountJwt.claims.subject == w.tenants[id].accountKey
    ensures RevokeEnd(cfg, w, id, cid, plan, Exec(cfg, w, RevokeFind(id, cid), plan))
  {
    hide Exec, Go, Head, Tail, OutcomeAt, WriteEnd;
    OutcomesMove(plan);
    var l := RevokeFind(id, cid);
    var n, p := Go(cfg, w, l, Head(plan)), Tail(plan);
    OutcomesMove(p);
    Turn(cfg, w, l, plan, n);
    RevokeGoes(cfg, w, l, Head(plan));
    if !n.l.Done? {
      var m := Go(cfg, n.w, n.l, Head(p));
      Turn(cfg, n.w, n.l, p, m);
      RevokeGoes(cfg, n.w, n.l, Head(p));
      if !m.l.Done? { RevokeReadAnswer(cfg, w, m.w, id, cid, plan); }
    }
  }

  lemma RevokeReadAnswer(cfg: Config, w: World, w2: World, id: Id, cid: Id, plan: seq<Choice>)
    requires Finds(w, id, cid, plan) && w.creds[cid].revokedAt.None? && Visible(w, id) && OutcomeAt(plan, 1).Ok?
    requires w.tenants[id].accountJwt.claims.subject == w.tenants[id].accountKey
    requires w2 == w.(clock := w2.clock) && w.clock <= w2.clock
    ensures RevokeEnd(cfg, w, id, cid, plan, Exec(cfg, w2, RevokeRead(id, cid, w.creds[cid].userKey), Tail(Tail(plan))))
  {
    hide Exec, Go, Head, Tail, OutcomeAt, WriteEnd, SignAccountClaims, WithRevocation, OnlyRevokes;
    OutcomesMove(plan);
    OutcomesMove(Tail(plan));
    var p := Tail(Tail(plan));
    OutcomesMove(p);
    var l := RevokeRead(id, cid, w.creds[cid].userKey);
    var n, q := Go(cfg, w2, l, Head(p)), Tail(p);
    OutcomesMove(q);
    Turn(cfg, w2, l, p, n);
    RevokeGoes(cfg, w2, l, Head(p));
    if !n.l.Done? {
      var m := Go(cfg, n.w, n.l, Head(q));
      Turn(cfg, n.w, n.l, q, m);
      RevokeGoes(cfg, n.w, n.l, Head(q));
      if !m.l.Done? {
        SignedRevocation(cfg, w.tenants[id].accountJwt, w.creds[cid].userKey, m.w.clock, w.clock);
        RevokeWriteAnswer(cfg, w, m.w, id, cid, m.l.jwt, Tail(q));
      }
      OutcomesMove(Tail(q));
    }
  }

  lemma RevokeMarkAnswer(cfg: Config, w: World, id: Id, cid: Id, jwt: AccountJwt, plan: seq<Choice>)
    requires cid in w.creds
    ensures var marks, pushes := OutcomeAt(plan, 0), OutcomeAt(plan, 1);
      var r := Exec(cfg, w, RevokeMark(id, cid, jwt), plan);
      && r.l == Done(if !marks.Ok? then Failure(Internal)
                     else if cfg.resolver && pushes.Ok? then Completed else Failure(Unreachable))
      && (if marks.Failed? then r.w.creds == w.creds else Marked(w, cid, r.w))
      && r.w.resolver == (if marks.Ok? && cfg.resolver && !pushes.Failed?
                          then w.resolver[jwt.claims.subject := jwt] else w.resolver)
      && r.w.tenants == w.tenants && r.w.seeds == w.seeds
  {
    hide Exec, Go, Head, Tail, OutcomeAt;
    OutcomesMove(plan);
    var l := RevokeMark(id, cid, jwt);
    var n := Go(cfg, w, l, Head(plan));
    Turn(cfg, w, l, plan, n);
    RevokeGoes(cfg, w, l, Head(plan));
    if !n.l.Done? { PushAnswers(cfg, n.w, id, jwt, Tail(plan)); }
  }

  /** What the re-signing of a Revoke yields. */
  lemma SignedRevocation(cfg: Config, was: AccountJwt, key: PublicKey, at: nat, since: nat)
    requires since <= at
    ensures var jwt := SignAccountClaims(cfg.operator, WithRevocation(was.claims, key, at), at);
      OnlyRevokes(was, jwt, key, since) && jwt.claims.subject == was.claims.subject
  {
  }

  lemma RevokeWriteAnswer(cfg: Config, w: World, w4: World, id: Id, cid: Id, jwt: AccountJwt, plan: seq<Choice>)
    requires Visible(w, id) && cid in w.creds && w4 == w.(clock := w4.clock) && w.clock <= w4.clock
    requires OnlyRevokes(w.tenants[id].accountJwt, jwt, w.creds[cid].userKey, w.clock)
    requires jwt.claims.subject == w.tenants[id].accountKey
    ensures WriteEnd(cfg, w, id, cid, OutcomeAt(plan, 0), OutcomeAt(plan, 1), OutcomeAt(plan, 2),
              Exec(cfg, w4, RevokeWrite(id, cid, w.tenants[id].accountJwt, jwt), plan))
  {
    hide Exec, Go, Head, Tail, OutcomeAt, OnlyRevokes;
    OutcomesMove(plan);
    var l := RevokeWrite(id, cid, w.tenants[id].accountJwt, jwt);
    var n, p := Go(cfg, w4, l, Head(plan)), Tail(plan);
    OutcomesMove(p);
    Turn(cfg, w4, l, plan, n);
    RevokeGoes(cfg, w4, l, Head(plan));
    if !n.l.Done? { RevokeMarkAnswer(cfg, n.w, id, cid, jwt, p); }
  }

  // ---------- Create ----------

  /** Create succeeds if and only if its row can be inserted and every statement replies ok, the
      push counting only with a resolver; only a bad slug has an error of its own. */
  lemma CreateAnswers(cfg: Config, es: seq<Event>, req: CreateRequest, plan: seq<Choice>)
    ensures var w := Run(cfg, es).w; var r := Exec(cfg, w, CreateCheck(req), plan);
      && (r.l.result.Created? <==>
            && Slug.IsSlug(req.slug) && Insertable(w, req.name, req.slug)
            && OutcomeAt(plan, 0).Ok? && OutcomeAt(plan, 1).Ok? && OutcomeAt(plan, 2).Ok?
            && (cfg.resolver ==> OutcomeAt(plan, 3).Ok?))
      && (!r.l.result.Created? ==> r.l.result == Failure(if Slug.IsSlug(req.slug) then Internal else InvalidSlug))
  {
    var w := Run(cfg, es).w;
    IdIsNew(cfg, es);
    CreateEnds(cfg, w, req, plan);
    Slug.PatternAcceptsExactlySlugs(req.slug);
    hide Run, Exec, Insertable, Slug.MatchString, Slug.IsSlug, HasSeed, IsPushed, NewRow;
    if !Inserts(w, req, plan) { CreateFails(cfg, w, req, plan); }
  }

  lemma CreateFails(cfg: Config, w: World, req: CreateRequest, plan: seq<Choice>)
    requires !Inserts(w, req, plan)
    ensures Exec(cfg, w, CreateCheck(req), plan).l
         == Done(Failure(if Slug.MatchString(req.slug) then Internal else InvalidSlug))
  {
    hide Exec, Go, Insertable, Slug.MatchString, Head, Tail, OutcomeAt;
    OutcomesMove(plan);
    OutcomesMove(Tail(plan));
    var n, p := Go(cfg, w, CreateCheck(req), Head(plan)), Tail(plan);
    Turn(cfg, w, CreateCheck(req), plan, n);
    CreateGoes(cfg, w, CreateCheck(req), Head(plan));
    if !n.l.Done? {
      SameInsertable(w, n.w, req);
      LaterInsertable(n.w, Head(p).delay, req);
      Turn(cfg, n.w, n.l, p, Go(cfg, n.w, n.l, Head(p)));
      CreateGoes(cfg, n.w, n.l, Head(p));
    }
  }
}
