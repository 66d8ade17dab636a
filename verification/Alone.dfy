/** An operation run from start to end is a run of the machine in which nothing else moves. */
module Alone {
  import opened Domain
  import opened Protocol

  lemma {:induction false} RunFromCat(cfg: Config, m: Machine, a: seq<Event>, b: seq<Event>)
    ensures RunFrom(cfg, m, a + b) == RunFrom(cfg, RunFrom(cfg, m, a), b)
    decreases |b|
  {
    hide Step;
    if b == [] {
      assert a + b == a;
    } else {
      var n := |b| - 1;
      assert (a + b)[..|a + b| - 1] == a + b[..n];
      RunFromCat(cfg, m, a, b[..n]);
    }
  }

  lemma RunOne(cfg: Config, m: Machine, e: Event)
    ensures RunFrom(cfg, m, [e]) == Step(cfg, m, e)
  {
    hide Step;
    assert [e][..0] == [];
    assert RunFrom(cfg, m, []) == m;
  }

  /** The events of operation `i` running to its end. */
  function Script(cfg: Config, w: World, l: Local, i: Id, plan: seq<Choice>): seq<Event>
    decreases Phase(l), Remaining(l)
  {
    if l.Done? then []
    else
      var n := Go(cfg, w, l, Head(plan));
      [Advance(i, Head(plan))] + Script(cfg, n.w, n.l, i, Tail(plan))
  }

  /** Running alone, an in-flight operation takes the machine to the state `Exec` computes,
      whatever else is in flight. */
  lemma {:induction false} ExecIsRun(cfg: Config, m: Machine, i: Id, plan: seq<Choice>)
    requires i in m.ops && !m.ops[i].Done?
    ensures RunFrom(cfg, m, Script(cfg, m.w, m.ops[i], i, plan))
         == Machine(Exec(cfg, m.w, m.ops[i], plan).w, m.ops - {i})
    decreases Phase(m.ops[i]), Remaining(m.ops[i])
  {
    hide Phase;
    var l := m.ops[i];
    var n := Go(cfg, m.w, l, Head(plan));
    hide Go;
    var e := Advance(i, Head(plan));
    var m' := Step(cfg, m, e);
    assert m' == Settle(m, i, n);
    RunOne(cfg, m, e);
    var rest := Script(cfg, n.w, n.l, i, Tail(plan));
    RunFromCat(cfg, m, [e], rest);
    assert Script(cfg, m.w, l, i, plan) == [e] + rest;
    if n.l.Done? {
      assert rest == [];
    } else {
      ExecIsRun(cfg, m', i, Tail(plan));
      assert m'.ops - {i} == m.ops - {i};
    }
  }

  /** A request served while nothing else is in flight. */
  lemma ServedAlone(cfg: Config, m: Machine, i: Id, r: Request, plan: seq<Choice>)
    requires i !in m.ops
    ensures RunFrom(cfg, m, [Begin(i, r)] + Script(cfg, m.w, Start(r), i, plan))
         == Machine(Exec(cfg, m.w, Start(r), plan).w, m.ops)
  {
    hide Go, Exec, Script;
    var m' := m.(ops := m.ops[i := Start(r)]);
    RunOne(cfg, m, Begin(i, r));
    RunFromCat(cfg, m, [Begin(i, r)], Script(cfg, m.w, Start(r), i, plan));
    ExecIsRun(cfg, m', i, plan);
    assert m'.ops - {i} == m.ops;
  }

  /** One statement of a run. */
  lemma ExecStep(cfg: Config, w: World, l: Local, plan: seq<Choice>)
    requires !l.Done?
    ensures var n := Go(cfg, w, l, Head(plan)); Exec(cfg, w, l, plan) == Exec(cfg, n.w, n.l, Tail(plan))
  {
    hide Go;
  }

  lemma ExecEnd(cfg: Config, w: World, r: Result, plan: seq<Choice>)
    ensures Exec(cfg, w, Done(r), plan) == Conf(w, Done(r))
  {
  }

  /** The statement just executed took the stores to `n`. */
  lemma Turn(cfg: Config, w: World, l: Local, plan: seq<Choice>, n: Conf)
    requires !l.Done? && Go(cfg, w, l, Head(plan)) == n
    ensures Exec(cfg, w, l, plan) == if n.l.Done? then n else Exec(cfg, n.w, n.l, Tail(plan))
  {
    hide Go;
    ExecStep(cfg, w, l, plan);
    if n.l.Done? { ExecEnd(cfg, n.w, n.l.result, Tail(plan)); }
  }

  lemma CleanTail(plan: seq<Choice>)
    requires Clean(plan)
    ensures Head(plan).outcome.Ok? && Clean(Tail(plan))
  {
  }
}
