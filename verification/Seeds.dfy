/** Which visible tenants can sign: the stored account seeds over whole serial runs. */
module Seeds {
  import opened Domain
  import opened Protocol
  import Slug
  import opened Effects
  import opened History
  import opened Revocations
  import opened Deletion

  /** No Create loses the reply to its INSERT, has its soft delete fail, or is cut off with
      its row inserted and neither the seed stored nor the row deleted. */
  predicate Compensated(m: Machine, e: Event) {
    match e
    case Advance(i, c) =>
      i in m.ops ==> (m.ops[i].CreateInsert? ==> !c.outcome.LostReply?) && (m.ops[i].CreateUndo? ==> !c.outcome.Failed?)
    case Crash(i) => i in m.ops ==> !m.ops[i].CreateSave? && !m.ops[i].CreateUndo?
    case _ => true
  }

  ghost predicate AllCompensated(cfg: Config, es: seq<Event>) {
    forall j | 0 <= j < |es| :: Compensated(Run(cfg, es[..j]), es[j])
  }

  /** Operation `l` has inserted tenant `id` and is about to store its seed or to delete it. */
  predicate Settling(l: Local, id: Id) {
    (l.CreateSave? && l.t.id == id) || (l.CreateUndo? && l.id == id)
  }

  ghost predicate Seeded(m: Machine) {
    forall id | Visible(m.w, id) :: id in m.w.seeds || exists i :: i in m.ops && Settling(m.ops[i], id)
  }

  lemma CreateSettles(cfg: Config, w: World, l: Local, o: Outcome, id: Id)
    requires InCreate(l) && (l.CreateInsert? ==> !o.LostReply?) && (l.CreateUndo? ==> !o.Failed?)
    ensures var n := CreateStep(cfg, w, l, o);
      && (Visible(n.w, id) && id !in w.tenants ==> Settling(n.l, id))
      && (id in w.seeds ==> id in n.w.seeds)
      && (Settling(l, id) && Visible(n.w, id) ==> id in n.w.seeds || Settling(n.l, id))
  {
    hide Slug.MatchString, Insertable, CreateClaims, SignAccountClaims;
  }

  /** The same for whatever statement comes next. */
  lemma GoSettles(cfg: Config, w: World, l: Local, c: Choice, id: Id)
    requires !l.Done? && (l.CreateInsert? ==> !c.outcome.LostReply?) && (l.CreateUndo? ==> !c.outcome.Failed?)
    ensures var n := Go(cfg, w, l, c);
      && (Visible(n.w, id) && id !in w.tenants ==> Settling(n.l, id))
      && (id in w.seeds ==> id in n.w.seeds)
      && (Settling(l, id) && Visible(n.w, id) ==> id in n.w.seeds || Settling(n.l, id))
  {
    hide Go, CreateStep;
    if InCreate(l) {
      CreateGoes(cfg, w, l, c);
      CreateSettles(cfg, w.(clock := w.clock + c.delay), l, c.outcome, id);
    } else {
      var n := Go(cfg, w, l, c);
      TenantsEffect(cfg, w, l, c);
      SeedsEffect(cfg, w, l, c);
      assert id in w.seeds ==> id in w.seeds - SeedsTouched(l);
      assert id in n.w.seeds - SeedsTouched(l) ==> id in n.w.seeds;
    }
  }

  lemma AdvanceKeepsSeeded(cfg: Config, m: Machine, i: Id, c: Choice, id: Id)
    requires Seeded(m) && i in m.ops && !m.ops[i].Done? && Compensated(m, Advance(i, c))
    requires var m' := Step(cfg, m, Advance(i, c)); Visible(m'.w, id) && (id in m.w.tenants ==> Visible(m.w, id))
    ensures var m' := Step(cfg, m, Advance(i, c));
      id in m'.w.seeds || exists k :: k in m'.ops && Settling(m'.ops[k], id)
  {
    hide Go;
    var m' := Step(cfg, m, Advance(i, c));
    GoSettles(cfg, m.w, m.ops[i], c, id);
    var n := Go(cfg, m.w, m.ops[i], c);
    if Settling(n.l, id) {
      assert i in m'.ops && Settling(m'.ops[i], id);
    } else if id !in m.w.seeds && id in m.w.tenants {
      var k :| k in m.ops && Settling(m.ops[k], id);
      if k != i {
        assert k in m'.ops && Settling(m'.ops[k], id);
      }
    }
  }

  /** A deleted tenant does not become visible again when requests are served one at a time. */
  lemma NoRevival(cfg: Config, es: seq<Event>, e: Event, id: Id)
    requires Serial(cfg, es + [e]) && Visible(Run(cfg, es + [e]).w, id) && id in Run(cfg, es).w.tenants
    ensures Visible(Run(cfg, es).w, id)
  {
    hide Run;
    assert (es + [e])[..|es|] == es;
    if Run(cfg, es).w.tenants[id].status == Deleted {
      FrozenInSerialRuns(cfg, es + [e], |es|, id);
      assert false;
    }
  }

  lemma StepKeepsSeeded(cfg: Config, es: seq<Event>, e: Event)
    requires Serial(cfg, es + [e]) && Seeded(Run(cfg, es)) && Compensated(Run(cfg, es), e)
    ensures Seeded(Run(cfg, es + [e]))
  {
    var m, m' := Run(cfg, es), Run(cfg, es + [e]);
    assert m' == Step(cfg, m, e) by { assert (es + [e])[..|es + [e]| - 1] == es; }
    hide Run, Go, Serial;
    forall id | Visible(m'.w, id) ensures id in m'.w.seeds || exists k :: k in m'.ops && Settling(m'.ops[k], id) {
      if id in m.w.tenants { NoRevival(cfg, es, e, id); }
      if e.Advance? && e.i in m.ops && !m.ops[e.i].Done? {
        AdvanceKeepsSeeded(cfg, m, e.i, e.choice, id);
      } else if id !in m.w.seeds {
        var k :| k in m.ops && Settling(m.ops[k], id);
        assert k in m'.ops && m'.ops[k] == m.ops[k];
      }
    }
  }

  lemma {:induction false} SerialRunsAreSeeded(cfg: Config, es: seq<Event>)
    requires Serial(cfg, es) && AllCompensated(cfg, es)
    ensures Seeded(Run(cfg, es))
    decreases |es|
  {
    if es == [] {
    } else {
      var front, last := es[..|es| - 1], es[|es| - 1];
      assert es == front + [last];
      SerialPrefix(cfg, es, |es| - 1);
      assert AllCompensated(cfg, front) by {
        forall j | 0 <= j < |front| ensures Compensated(Run(cfg, front[..j]), front[j]) {
          assert front[..j] == es[..j] && front[j] == es[j];
        }
      }
      SerialRunsAreSeeded(cfg, front);
      hide *;
      StepKeepsSeeded(cfg, front, last);
    }
  }

  /** In serial runs whose Creates are compensated, every visible tenant that is not still
      being created has a stored seed, and it opens to the seed of the tenant's own key. */
  lemma VisibleTenantsAreSeeded(cfg: Config, es: seq<Event>, id: Id)
    requires Serial(cfg, es) && AllCompensated(cfg, es) && Visible(Run(cfg, es).w, id)
    requires forall i | i in Run(cfg, es).ops :: !Settling(Run(cfg, es).ops[i], id)
    ensures id in Run(cfg, es).w.seeds && SeedOk(cfg, Run(cfg, es).w, id)
  {
    hide Run, Serial, AllCompensated, SeedOk;
    SerialRunsAreSeeded(cfg, es);
    SigningChain(cfg, es);
  }
}
