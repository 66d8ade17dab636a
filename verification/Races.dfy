/** Two requests on one machine, the second served whole while the first stands still. */
module Races {
  import opened Domain
  import opened Protocol
  import opened Alone

  /** The first `k` statements of an operation. */
  function ExecFor(cfg: Config, w: World, l: Local, plan: seq<Choice>, k: nat): Conf
    decreases k
  {
    if k == 0 || l.Done? then Conf(w, l)
    else
      var n := Go(cfg, w, l, Head(plan));
      ExecFor(cfg, n.w, n.l, Tail(plan), k - 1)
  }

  /** One more statement, and none. */
  lemma ExecForStep(cfg: Config, w: World, l: Local, plan: seq<Choice>, k: nat)
    requires !l.Done?
    ensures var n := Go(cfg, w, l, Head(plan));
      ExecFor(cfg, w, l, plan, k + 1) == ExecFor(cfg, n.w, n.l, Tail(plan), k)
  {
    hide Go;
  }

  lemma ExecForStands(cfg: Config, w: World, l: Local, plan: seq<Choice>, k: nat)
    requires k == 0 || l.Done?
    ensures ExecFor(cfg, w, l, plan, k) == Conf(w, l)
  {
  }

  /** Operation `i` advancing `k` times, nothing failing. */
  function Advances(i: Id, k: nat): seq<Event> {
    if k == 0 then [] else [Advance(i, CALM)] + Advances(i, k - 1)
  }

  /** `outer` executes `k` statements, `inner` is served whole, `outer` carries on to its end;
      no statement fails. */
  function Straddle(cfg: Config, w: World, outer: Request, k: nat, inner: Request): seq<Event> {
    var n := ExecFor(cfg, w, Start(outer), [], k);
    var w1 := Exec(cfg, n.w, Start(inner), []).w;
    [Begin(0, outer)] + Advances(0, k) + ([Begin(1, inner)] + Script(cfg, n.w, Start(inner), 1, []))
    + Script(cfg, w1, n.l, 0, [])
  }

  /** Where that leaves the stores. */
  function Straddled(cfg: Config, w: World, outer: Request, k: nat, inner: Request): World {
    var n := ExecFor(cfg, w, Start(outer), [], k);
    Exec(cfg, Exec(cfg, n.w, Start(inner), []).w, n.l, []).w
  }

  lemma {:induction false} AdvancesRun(cfg: Config, m: Machine, i: Id, k: nat)
    requires i in m.ops && !m.ops[i].Done?
    requires forall j: nat | j <= k :: !ExecFor(cfg, m.w, m.ops[i], [], j).l.Done?
    ensures var n := ExecFor(cfg, m.w, m.ops[i], [], k);
            RunFrom(cfg, m, Advances(i, k)) == Machine(n.w, m.ops[i := n.l])
    decreases k
  {
    hide Go, Phase;
    if k == 0 {
      assert m.ops[i := m.ops[i]] == m.ops;
    } else {
      var n := Go(cfg, m.w, m.ops[i], CALM);
      assert ExecFor(cfg, m.w, m.ops[i], [], 1) == n;
      var m' := Machine(n.w, m.ops[i := n.l]);
      RunOne(cfg, m, Advance(i, CALM));
      RunFromCat(cfg, m, [Advance(i, CALM)], Advances(i, k - 1));
      forall j: nat | j <= k - 1 ensures !ExecFor(cfg, n.w, n.l, [], j).l.Done? {
        assert ExecFor(cfg, m.w, m.ops[i], [], j + 1) == ExecFor(cfg, n.w, n.l, [], j);
      }
      AdvancesRun(cfg, m', i, k - 1);
      var l' := ExecFor(cfg, n.w, n.l, [], k - 1).l;
      assert m'.ops[i := l'] == m.ops[i := l'];
    }
  }

  /** From an idle state the straddling events do what their description says. */
  lemma StraddleRuns(cfg: Config, es: seq<Event>, outer: Request, k: nat, inner: Request)
    requires Run(cfg, es).ops == map[]
    requires forall j: nat | j <= k :: !ExecFor(cfg, Run(cfg, es).w, Start(outer), [], j).l.Done?
    ensures var w := Run(cfg, es).w;
            Run(cfg, es + Straddle(cfg, w, outer, k, inner)) == Machine(Straddled(cfg, w, outer, k, inner), map[])
  {
    var m := Run(cfg, es);
    hide RunFrom, Go, Exec, ExecFor, Script, Advances;
    var n := ExecFor(cfg, m.w, Start(outer), [], k);
    var a, b := [Begin(0, outer)], Advances(0, k);
    var c := [Begin(1, inner)] + Script(cfg, n.w, Start(inner), 1, []);
    var w1 := Exec(cfg, n.w, Start(inner), []).w;
    var d := Script(cfg, w1, n.l, 0, []);
    var m0 := Machine(m.w, map[0 := Start(outer)]);
    RunOne(cfg, m, Begin(0, outer));
    assert m0 == RunFrom(cfg, m, a);
    AdvancesRun(cfg, m0, 0, k);
    var m1 := Machine(n.w, m0.ops[0 := n.l]);
    ServedAlone(cfg, m1, 1, inner, []);
    ExecIsRun(cfg, Machine(w1, m1.ops), 0, []);
    assert m1.ops - {0} == map[];
    RunFromCat(cfg, m, a, b);
    RunFromCat(cfg, m, a + b, c);
    RunFromCat(cfg, m, a + b + c, d);
    RunFromCat(cfg, EMPTY, es, a + b + c + d);
  }
}
