/** API keys: creation, validation by hash, and revocation as a conditional update, with the
    statements of any number of calls interleaved and each statement able to fail or to lose
    its reply. */
module ApiKeys {
  import opened Wrappers

  type Id = nat
  type AdminId = nat
  type Raw = nat

  /** A digest that two raw keys never share. */
  datatype Hash = HashOf(raw: Raw)

  /** `revokedBy` is the number of the call whose update revoked the key. */
  datatype Key = Key(admin: AdminId, name: string, hash: Hash, revokedAt: Option<nat>, revokedBy: Option<nat>)

  datatype Outcome = Ok | Failed | LostReply

  datatype Error = NameConflict | NotActive | NotFound | Database

  /** Where a call stands: what it will execute next, or how it ended. */
  datatype Call =
    | Inserting(owner: AdminId, name: string)
    | Getting(owner: AdminId, id: Id)
    | Revoking(owner: AdminId, id: Id)
    | Looking(raw: Raw)
    | Touching(id: Id, owner: AdminId)
    | Created(id: Id, raw: Raw)
    | Revoked(id: Id)
    | Valid(id: Id, owner: AdminId)
    | Refused(error: Error)

  /** `asked` remembers how each call began; `drawn` counts the raw keys generated. */
  datatype State = State(keys: map<Id, Key>, calls: seq<Call>, asked: seq<Call>, next: Id, drawn: Raw, clock: nat)

  const EMPTY := State(map[], [], [], 0, 0, 0)

  datatype Event = Begin(c: Call) | Run(i: nat, outcome: Outcome, delay: nat)

  predicate Starts(c: Call) {
    c.Inserting? || c.Getting? || c.Looking?
  }

  predicate Taken(keys: map<Id, Key>, admin: AdminId, name: string) {
    exists k | k in keys :: keys[k].admin == admin && keys[k].name == name
  }

  /** The keys that a lookup by hash may return. */
  predicate Match(keys: map<Id, Key>, hash: Hash, k: Id) {
    k in keys && keys[k].hash == hash && keys[k].revokedAt.None?
  }

  function Answer(o: Outcome, c: Call): Call {
    if o.Ok? then c else Refused(Database)
  }

  function InsertStep(s: State, c: Call, o: Outcome): (State, Call)
    requires c.Inserting?
  {
    var drew := s.(drawn := s.drawn + 1);
    if o.Failed? then (drew, Refused(Database))
    else if Taken(s.keys, c.owner, c.name) then (drew, if o.Ok? then Refused(NameConflict) else Refused(Database))
    else
      (drew.(keys := s.keys[s.next := Key(c.owner, c.name, HashOf(s.drawn), None, None)], next := s.next + 1),
       Answer(o, Created(s.next, s.drawn)))
  }

  function GetStep(s: State, c: Call, o: Outcome): Call
    requires c.Getting?
  {
    if !o.Ok? then Refused(Database)
    else if c.id in s.keys && s.keys[c.id].admin == c.owner then Revoking(c.owner, c.id)
    else Refused(NotFound)
  }

  /** The conditional update: it applies to a key that is not revoked yet. */
  function RevokeStep(s: State, i: nat, c: Call, o: Outcome): (State, Call)
    requires c.Revoking?
  {
    if o.Failed? then (s, Refused(Database))
    else if c.id in s.keys && s.keys[c.id].revokedAt.None? then
      (s.(keys := s.keys[c.id := s.keys[c.id].(revokedAt := Some(s.clock), revokedBy := Some(i))]),
        Answer(o, Revoked(c.id)))
    else (s, if o.Ok? then Refused(NotActive) else Refused(Database))
  }

  ghost function LookupStep(s: State, c: Call, o: Outcome): Call
    requires c.Looking?
  {
    if !o.Ok? then Refused(Database)
    else if k :| Match(s.keys, HashOf(c.raw), k) then Touching(k, s.keys[k].admin)
    else Refused(NotFound)
  }

  ghost function RunStep(s: State, i: nat, o: Outcome): State
    requires i < |s.calls|
  {
    match s.calls[i]
    case Inserting(_, _) => var (s', c') := InsertStep(s, s.calls[i], o); s'.(calls := s.calls[i := c'])
    case Getting(_, _) => s.(calls := s.calls[i := GetStep(s, s.calls[i], o)])
    case Revoking(_, _) => var (s', c') := RevokeStep(s, i, s.calls[i], o); s'.(calls := s.calls[i := c'])
    case Looking(_) => s.(calls := s.calls[i := LookupStep(s, s.calls[i], o)])
    case Touching(id, owner) => s.(calls := s.calls[i := Valid(id, owner)])
    case _ => s
  }

  ghost function Step(s: State, e: Event): State {
    match e
    case Begin(c) => if Starts(c) then s.(calls := s.calls + [c], asked := s.asked + [c]) else s
    case Run(i, o, delay) => if i < |s.calls| then RunStep(s.(clock := s.clock + delay), i, o) else s
  }

  ghost function After(es: seq<Event>): State
    decreases |es|
  {
    if es == [] then EMPTY else Step(After(es[..|es| - 1]), es[|es| - 1])
  }

  // ---------- what every interleaving keeps ----------

  ghost predicate KeysOk(s: State) {
    && (forall k | k in s.keys :: k < s.next && s.keys[k].hash.raw < s.drawn)
    && (forall j, k | j in s.keys && k in s.keys && j != k :: s.keys[j].hash != s.keys[k].hash)
    && (forall j, k | j in s.keys && k in s.keys && j != k ::
          s.keys[j].admin != s.keys[k].admin || s.keys[j].name != s.keys[k].name)
    && (forall k | k in s.keys :: s.keys[k].revokedAt.Some? <==> s.keys[k].revokedBy.Some?)
  }

  /** What call `i` knows, given how it began. */
  ghost predicate CallOk(s: State, i: nat)
    requires i < |s.calls| && |s.asked| == |s.calls|
  {
    match s.calls[i]
    case Revoking(owner, k) => s.asked[i] == Getting(owner, k) && k in s.keys && s.keys[k].admin == owner
    case Revoked(k) => k in s.keys && s.keys[k].revokedBy == Some(i)
    case Touching(k, owner) => s.asked[i].Looking? && k in s.keys && s.keys[k].hash == HashOf(s.asked[i].raw)
      && s.keys[k].admin == owner
    case Valid(k, owner) => s.asked[i].Looking? && k in s.keys && s.keys[k].hash == HashOf(s.asked[i].raw)
      && s.keys[k].admin == owner
    case Created(k, raw) =>
      s.asked[i].Inserting? && k in s.keys && s.keys[k].hash == HashOf(raw)
      && s.keys[k].admin == s.asked[i].owner && s.keys[k].name == s.asked[i].name
    case Refused(_) => true
    case c => c == s.asked[i]
  }

  /** The call that revoked key `k` was made by the admin the key belongs to. */
  ghost predicate RevokerOk(s: State, k: Id)
    requires k in s.keys
  {
    s.keys[k].revokedBy.Some? ==>
      var i := s.keys[k].revokedBy.value;
      && i < |s.asked| && s.asked[i] == Getting(s.keys[k].admin, k)
      && i < |s.calls| && (s.calls[i] == Revoked(k) || s.calls[i] == Refused(Database))
  }

  ghost predicate Inv(s: State) {
    && KeysOk(s) && |s.asked| == |s.calls|
    && (forall i: nat | i < |s.calls| :: CallOk(s, i))
    && (forall k | k in s.keys :: RevokerOk(s, k))
  }

  /** Keys are never removed, and only an unrevoked key changes, by being revoked. */
  ghost predicate Grows(s: State, s': State) {
    && s.asked <= s'.asked
    && forall k | k in s.keys ::
         && k in s'.keys
         && s'.keys[k].(revokedAt := None, revokedBy := None) == s.keys[k].(revokedAt := None, revokedBy := None)
         && (s.keys[k].revokedBy.Some? ==> s'.keys[k] == s.keys[k])
  }

  lemma OthersKeep(s: State, s': State, i: nat)
    requires i < |s.calls| && |s.asked| == |s.calls| && i < |s'.calls| && |s'.asked| == |s'.calls|
    requires CallOk(s, i) && Grows(s, s') && s'.calls[i] == s.calls[i]
    ensures CallOk(s', i)
  {
  }

  predicate Ended(c: Call) {
    c.Created? || c.Revoked? || c.Valid? || c.Refused?
  }

  /** A call that reads, or is refused, moves on. */
  lemma ReadKeeps(s: State, i: nat, c: Call, drawn: Raw, clock: nat)
    requires Inv(s) && i < |s.calls| && drawn >= s.drawn && !Ended(s.calls[i])
    requires CallOk(s.(calls := s.calls[i := c]), i)
    ensures Inv(s.(calls := s.calls[i := c], drawn := drawn, clock := clock))
  {
    var s' := s.(calls := s.calls[i := c], drawn := drawn, clock := clock);
    forall j: nat | j < |s'.calls| ensures CallOk(s', j) {
      if j != i {
        OthersKeep(s, s', j);
      }
    }
    forall k | k in s'.keys ensures RevokerOk(s', k) {
      assert RevokerOk(s, k);
    }
  }

  lemma InsertKeeps(s: State, i: nat, c: Call)
    requires Inv(s) && i < |s.calls| && s.calls[i].Inserting? && !Taken(s.keys, s.calls[i].owner, s.calls[i].name)
    requires c == Created(s.next, s.drawn) || c.Refused?
    ensures var s' := s.(drawn := s.drawn + 1, next := s.next + 1, calls := s.calls[i := c],
              keys := s.keys[s.next := Key(s.calls[i].owner, s.calls[i].name, HashOf(s.drawn), None, None)]);
            Inv(s') && Grows(s, s')
  {
    var s' := s.(drawn := s.drawn + 1, next := s.next + 1, calls := s.calls[i := c],
      keys := s.keys[s.next := Key(s.calls[i].owner, s.calls[i].name, HashOf(s.drawn), None, None)]);
    assert CallOk(s, i);
    assert Grows(s, s') by { hide CallOk, RevokerOk; }
    assert KeysOk(s') by { hide CallOk, RevokerOk, Grows; }
    hide KeysOk;
    forall j: nat | j < |s'.calls| ensures CallOk(s', j) {
      if j != i {
        OthersKeep(s, s', j);
      }
    }
    forall k | k in s'.keys ensures RevokerOk(s', k) {
      if k != s.next {
        assert RevokerOk(s, k);
      }
    }
  }

  lemma UpdateKeeps(s: State, i: nat, c: Call)
    requires Inv(s) && i < |s.calls| && s.calls[i].Revoking? && s.calls[i].id in s.keys
    requires s.keys[s.calls[i].id].revokedAt.None?
    requires c == Revoked(s.calls[i].id) || c == Refused(Database)
    ensures var k := s.calls[i].id;
            var s' := s.(calls := s.calls[i := c],
              keys := s.keys[k := s.keys[k].(revokedAt := Some(s.clock), revokedBy := Some(i))]);
            Inv(s') && Grows(s, s')
  {
    var k := s.calls[i].id;
    var s' := s.(calls := s.calls[i := c],
      keys := s.keys[k := s.keys[k].(revokedAt := Some(s.clock), revokedBy := Some(i))]);
    assert CallOk(s, i);
    assert Grows(s, s') by { hide CallOk, RevokerOk; }
    forall j: nat | j < |s'.calls| ensures CallOk(s', j) {
      if j != i {
        OthersKeep(s, s', j);
      }
    }
    forall m | m in s'.keys ensures RevokerOk(s', m) {
      if m != k {
        assert RevokerOk(s, m);
      }
    }
  }

  lemma RunKeeps(s: State, i: nat, o: Outcome)
    requires Inv(s) && i < |s.calls|
    ensures Inv(RunStep(s, i, o)) && Grows(s, RunStep(s, i, o))
  {
    assert CallOk(s, i);
    var c := s.calls[i];
    if c.Inserting? {
      if o.Failed? || Taken(s.keys, c.owner, c.name) {
        ReadKeeps(s, i, InsertStep(s, c, o).1, s.drawn + 1, s.clock);
      } else {
        InsertKeeps(s, i, Answer(o, Created(s.next, s.drawn)));
      }
    } else if c.Getting? {
      ReadKeeps(s, i, GetStep(s, c, o), s.drawn, s.clock);
    } else if c.Revoking? {
      if o.Failed? || s.keys[c.id].revokedAt.Some? {
        ReadKeeps(s, i, RevokeStep(s, i, c, o).1, s.drawn, s.clock);
      } else {
        UpdateKeeps(s, i, Answer(o, Revoked(c.id)));
      }
    } else if c.Looking? {
      ReadKeeps(s, i, LookupStep(s, c, o), s.drawn, s.clock);
    } else if c.Touching? {
      ReadKeeps(s, i, Valid(c.id, c.owner), s.drawn, s.clock);
    }
  }

  lemma BeginKeeps(s: State, c: Call)
    requires Inv(s) && Starts(c)
    ensures Inv(s.(calls := s.calls + [c], asked := s.asked + [c]))
  {
    var s' := s.(calls := s.calls + [c], asked := s.asked + [c]);
    forall j: nat | j < |s'.calls| ensures CallOk(s', j) {
      if j < |s.calls| {
        OthersKeep(s, s', j);
      }
    }
    forall k | k in s'.keys ensures RevokerOk(s', k) {
      assert RevokerOk(s, k);
    }
  }

  lemma StepKeeps(s: State, e: Event)
    requires Inv(s)
    ensures Inv(Step(s, e)) && Grows(s, Step(s, e))
  {
    match e
    case Begin(c) => if Starts(c) { BeginKeeps(s, c); }
    case Run(i, o, delay) =>
      var later := s.(clock := s.clock + delay);
      assert Inv(later) by {
        forall j: nat | j < |later.calls| ensures CallOk(later, j) {
          OthersKeep(s, later, j);
        }
        forall k | k in later.keys ensures RevokerOk(later, k) {
          assert RevokerOk(s, k);
        }
      }
      hide Inv, RunStep;
      if i < |s.calls| { RunKeeps(later, i, o); }
  }

  lemma {:induction false} InvHolds(es: seq<Event>)
    ensures Inv(After(es))
    decreases |es|
  {
    if es == [] {
    } else {
      InvHolds(es[..|es| - 1]);
      StepKeeps(After(es[..|es| - 1]), es[|es| - 1]) by { hide Inv, Grows, Step; }
    }
  }

  lemma {:induction false} HistoryGrows(es: seq<Event>, fs: seq<Event>)
    ensures Grows(After(es), After(es + fs))
    decreases |fs|
  {
    if fs == [] {
      assert es + fs == es;
    } else {
      var front, last := fs[..|fs| - 1], fs[|fs| - 1];
      assert (es + fs)[..|es + fs| - 1] == es + front;
      HistoryGrows(es, front);
      InvHolds(es + front);
      hide Inv, Step;
      StepKeeps(After(es + front), last);
    }
  }

  // ---------- main results ----------

  /** However many calls race to revoke a key, at most one reports success; and the one whose
      update applied was made by the key's owner. */
  lemma OneRevokeSucceeds(es: seq<Event>, i: nat, j: nat, k: Id)
    requires i < |After(es).calls| && j < |After(es).calls|
    requires After(es).calls[i] == Revoked(k) && After(es).calls[j] == Revoked(k)
    ensures i == j && k in After(es).keys && After(es).keys[k].revokedAt.Some?
    ensures i < |After(es).asked| && After(es).asked[i] == Getting(After(es).keys[k].admin, k)
  {
    InvHolds(es);
    assert CallOk(After(es), i) && CallOk(After(es), j);
    assert RevokerOk(After(es), k);
  }

  /** A revoked key is never un-revoked, and the moment recorded never changes. */
  lemma RevocationIsFinal(es: seq<Event>, fs: seq<Event>, k: Id)
    requires k in After(es).keys && After(es).keys[k].revokedAt.Some?
    ensures k in After(es + fs).keys && After(es + fs).keys[k] == After(es).keys[k]
  {
    InvHolds(es);
    HistoryGrows(es, fs);
  }

  /** A validation names the one key made from that raw key, and its owner. */
  lemma ValidationIsSound(es: seq<Event>, i: nat, j: nat, k: Id, m: Id, owner: AdminId, raw: Raw)
    requires i < |After(es).calls| && After(es).calls[i] == Valid(k, owner)
    requires j < |After(es).calls| && After(es).calls[j] == Created(m, raw)
    ensures |After(es).asked| == |After(es).calls| && After(es).asked[i].Looking? && After(es).asked[j].Inserting?
    ensures k == m <==> After(es).asked[i].raw == raw
    ensures k == m ==> owner == After(es).asked[j].owner
  {
    InvHolds(es);
    assert CallOk(After(es), i) && CallOk(After(es), j);
  }

  /** Call `i` has not been told anything about key `k`. */
  predicate Unaware(s: State, i: nat, k: Id) {
    i < |s.calls| ==> !(s.calls[i].Touching? && s.calls[i].id == k) && !(s.calls[i].Valid? && s.calls[i].id == k)
  }

  lemma StaysUnaware(s: State, e: Event, i: nat, k: Id)
    requires k in s.keys && s.keys[k].revokedAt.Some? && Unaware(s, i, k)
    ensures Unaware(Step(s, e), i, k)
  {
  }

  /** Once a key is revoked, no call that had not looked it up before validates with it. */
  lemma {:induction false} RevokedNeverValidates(es: seq<Event>, fs: seq<Event>, i: nat, k: Id)
    requires k in After(es).keys && After(es).keys[k].revokedAt.Some? && Unaware(After(es), i, k)
    ensures Unaware(After(es + fs), i, k)
    decreases |fs|
  {
    if fs == [] {
      assert es + fs == es;
    } else {
      var front, last := fs[..|fs| - 1], fs[|fs| - 1];
      assert (es + fs)[..|es + fs| - 1] == es + front;
      RevokedNeverValidates(es, front, i, k);
      RevocationIsFinal(es, front, k);
      StaysUnaware(After(es + front), last, i, k);
    }
  }

  // ---------- what each call comes to, whatever runs in between ----------

  /** Only its own statements move a call. */
  lemma {:induction false} CallStands(es: seq<Event>, fs: seq<Event>, i: nat)
    requires i < |After(es).calls| && forall e | e in fs :: !(e.Run? && e.i == i)
    ensures i < |After(es + fs).calls| && After(es + fs).calls[i] == After(es).calls[i]
    decreases |fs|
  {
    if fs == [] {
      assert es + fs == es;
    } else {
      var front, last := fs[..|fs| - 1], fs[|fs| - 1];
      assert (es + fs)[..|es + fs| - 1] == es + front;
      assert last in fs && forall e | e in front :: e in fs;
      CallStands(es, front, i);
    }
  }

  lemma AfterOne(es: seq<Event>, e: Event)
    ensures After(es + [e]) == Step(After(es), e)
  {
    assert (es + [e])[..|es + [e]| - 1] == es;
  }

  /** The number of the next call, and the statement of it that runs first. */
  lemma Begun(es: seq<Event>, c: Call, o: Outcome, delay: nat)
    requires Starts(c)
    ensures var n := |After(es).calls|; var s := After(es);
      After(es + [Begin(c), Run(n, o, delay)])
        == RunStep(s.(calls := s.calls + [c], asked := s.asked + [c], clock := s.clock + delay), n, o)
  {
    hide RunStep, After;
    var n := |After(es).calls|;
    AfterOne(es, Begin(c));
    AfterOne(es + [Begin(c)], Run(n, o, delay));
    assert es + [Begin(c)] + [Run(n, o, delay)] == es + [Begin(c), Run(n, o, delay)];
  }

  /** A revocation by the key's owner takes effect: the update, whenever it comes, succeeds if and
      only if it replies ok and the key is live then, so of the calls racing for a live key the
      first whose update takes effect has revoked it, and reports success unless its reply is lost. */
  lemma RevocationComes(es: seq<Event>, k: Id, delay: nat, fs: seq<Event>, o: Outcome, later: nat)
    requires k in After(es).keys
    requires forall e | e in fs :: !(e.Run? && e.i == |After(es).calls|)
    ensures var n := |After(es).calls|; var owner := After(es).keys[k].admin;
      var run := es + [Begin(Getting(owner, k)), Run(n, Ok, delay)] + fs;
      var s := After(run); var q := After(run + [Run(n, o, later)]);
      && k in s.keys && n < |q.calls|
      && (q.calls[n] == Revoked(k) <==> o.Ok? && s.keys[k].revokedAt.None?)
      && (q.calls[n] != Revoked(k) ==> q.calls[n] == Refused(if o.Ok? then NotActive else Database))
      && q.keys == if s.keys[k].revokedAt.None? && !o.Failed?
                   then s.keys[k := s.keys[k].(revokedAt := Some(q.clock), revokedBy := Some(n))] else s.keys
  {
    var n := |After(es).calls|;
    var owner := After(es).keys[k].admin;
    var asked := es + [Begin(Getting(owner, k)), Run(n, Ok, delay)];
    Begun(es, Getting(owner, k), Ok, delay);
    assert After(asked).calls[n] == Revoking(owner, k);
    CallStands(asked, fs, n) by { hide Step, RunStep; }
    HistoryGrows(asked, fs);
    AfterOne(asked + fs, Run(n, o, later));
  }

  /** Nobody revokes a key that is not theirs, and a call that is refused changes no key. */
  lemma StrangersAreRefused(es: seq<Event>, owner: AdminId, k: Id, o: Outcome, delay: nat)
    requires k in After(es).keys ==> After(es).keys[k].admin != owner
    ensures var n := |After(es).calls|; var q := After(es + [Begin(Getting(owner, k)), Run(n, o, delay)]);
      && n < |q.calls| && q.calls[n] == Refused(if o.Ok? then NotFound else Database)
      && q.keys == After(es).keys
  {
    Begun(es, Getting(owner, k), o, delay);
  }

  /** A creation succeeds if and only if its INSERT replies ok and its owner has no key of that
      name, and then the one new key is live, under an unused id and a raw key never drawn before. */
  lemma CreationComes(es: seq<Event>, owner: AdminId, name: string, o: Outcome, delay: nat)
    ensures var s := After(es); var n := |s.calls|;
      var q := After(es + [Begin(Inserting(owner, name)), Run(n, o, delay)]);
      var taken := exists k | k in s.keys :: s.keys[k].admin == owner && s.keys[k].name == name;
      && n < |q.calls|
      && q.calls[n] == (if o.Ok? && !taken then Created(s.next, s.drawn)
                        else Refused(if o.Ok? then NameConflict else Database))
      && q.keys == (if o.Failed? || taken then s.keys
                    else s.keys[s.next := Key(owner, name, HashOf(s.drawn), None, None)])
      && s.next !in s.keys && forall k | k in s.keys :: s.keys[k].hash != HashOf(s.drawn)
  {
    InvHolds(es);
    Begun(es, Inserting(owner, name), o, delay);
  }

  /** The hash of a raw key finds at most the key created with it. */
  lemma LookupFinds(s: State, k: Id, raw: Raw, o: Outcome)
    requires KeysOk(s) && k in s.keys && s.keys[k].hash == HashOf(raw)
    ensures LookupStep(s, Looking(raw), o) ==
      if !o.Ok? then Refused(Database)
      else if s.keys[k].revokedAt.None? then Touching(k, s.keys[k].admin)
      else Refused(NotFound)
  {
    assert forall m | Match(s.keys, HashOf(raw), m) :: m == k;
    assert s.keys[k].revokedAt.None? ==> Match(s.keys, HashOf(raw), k);
  }

  lemma SameKeysOk(s: State, s': State)
    requires KeysOk(s) && s'.keys == s.keys && s'.next == s.next && s'.drawn == s.drawn
    ensures KeysOk(s')
  {
  }

  /** The raw key of a created key validates, naming key and owner, if and only if the lookup
      replies ok and the key is not revoked at that moment; the touch that follows cannot spoil it. */
  lemma ValidationComes(es: seq<Event>, j: nat, k: Id, raw: Raw, o: Outcome, delay: nat, touch: Outcome, later: nat)
    requires j < |After(es).calls| && After(es).calls[j] == Created(k, raw)
    ensures var s := After(es); var n := |s.calls|;
      var q := After(es + [Begin(Looking(raw)), Run(n, o, delay)] + [Run(n, touch, later)]);
      && k in s.keys && n < |q.calls|
      && q.calls[n] == (if !o.Ok? then Refused(Database)
                        else if s.keys[k].revokedAt.None? then Valid(k, s.keys[k].admin)
                        else Refused(NotFound))
  {
    hide After, LookupStep, InsertStep, GetStep, RevokeStep, KeysOk, RevokerOk;
    var s, n := After(es), |After(es).calls|;
    InvHolds(es);
    assert CallOk(s, j);
    Begun(es, Looking(raw), o, delay);
    AfterOne(es + [Begin(Looking(raw)), Run(n, o, delay)], Run(n, touch, later));
    var asked := s.(calls := s.calls + [Looking(raw)], asked := s.asked + [Looking(raw)], clock := s.clock + delay);
    SameKeysOk(s, asked);
    LookupFinds(asked, k, raw, o);
  }

  // ---------- the service's methods, one call at a time ----------

  /** `me` numbers the call; the outcomes are those of its statements. */
  class Service {
    var keys: map<Id, Key>
    var next: Id
    var drawn: Raw
    var clock: nat

    constructor ()
      ensures View() == EMPTY
    {
      keys, next, drawn, clock := map[], 0, 0, 0;
    }

    function View(): State
      reads this
    {
      State(keys, [], [], next, drawn, clock)
    }

    method Create(owner: AdminId, name: string, inserts: Outcome) returns (r: Call)
      modifies this
      ensures (View(), r) == InsertStep(old(View()), Inserting(owner, name), inserts)
      ensures var taken := exists k | k in old(keys) :: old(keys)[k].admin == owner && old(keys)[k].name == name;
              && r == (if inserts.Ok? && !taken then Created(old(next), old(drawn))
                       else Refused(if inserts.Ok? then NameConflict else Database))
              && keys == if taken || inserts.Failed? then old(keys)
                         else old(keys)[old(next) := Key(owner, name, HashOf(old(drawn)), None, None)]
    {
      var raw := drawn;
      drawn := drawn + 1;
      if inserts.Failed? {
        return Refused(Database);
      }
      if exists k | k in keys :: keys[k].admin == owner && keys[k].name == name {
        return Refused(if inserts.Ok? then NameConflict else Database);
      }
      keys, next := keys[next := Key(owner, name, HashOf(raw), None, None)], next + 1;
      return if inserts.Ok? then Created(next - 1, raw) else Refused(Database);
    }

    method Revoke(me: nat, owner: AdminId, id: Id, gets: Outcome, updates: Outcome) returns (r: Call)
      modifies this
      ensures var c := GetStep(old(View()), Getting(owner, id), gets);
              (View(), r) == if c.Revoking? then RevokeStep(old(View()), me, c, updates) else (old(View()), c)
      ensures var owns := id in old(keys) && old(keys)[id].admin == owner;
              var live := owns && old(keys)[id].revokedAt.None?;
              && (r == Revoked(id) <==> gets.Ok? && updates.Ok? && live)
              && (r != Revoked(id) ==> r == Refused(
                    if gets.Ok? && !owns then NotFound
                    else if gets.Ok? && updates.Ok? then NotActive
                    else Database))
              && keys == if gets.Ok? && live && !updates.Failed?
                         then old(keys)[id := old(keys)[id].(revokedAt := Some(clock), revokedBy := Some(me))]
                         else old(keys)
    {
      if !gets.Ok? {
        return Refused(Database);
      }
      if id !in keys || keys[id].admin != owner {
        return Refused(NotFound);
      }
      if updates.Failed? {
        return Refused(Database);
      }
      var affected := keys[id].revokedAt.None?;
      if affected {
        keys := keys[id := keys[id].(revokedAt := Some(clock), revokedBy := Some(me))];
      }
      if !updates.Ok? {
        return Refused(Database);
      }
      return if affected then Revoked(id) else Refused(NotActive);
    }

    method Validate(raw: Raw, looks: Outcome) returns (r: Call)
      ensures looks.Ok? ==> match r
                            case Valid(id, owner) => Match(keys, HashOf(raw), id) && keys[id].admin == owner
                            case Refused(e) => e == NotFound && forall k :: !Match(keys, HashOf(raw), k)
                            case _ => false
      ensures !looks.Ok? ==> r == Refused(Database)
    {
      if !looks.Ok? {
        return Refused(Database);
      }
      var rest := keys.Keys;
      while rest != {}
        invariant rest <= keys.Keys
        invariant forall k | k in keys && k !in rest :: !Match(keys, HashOf(raw), k)
      {
        var k :| k in rest;
        if keys[k].hash == HashOf(raw) && keys[k].revokedAt.None? {
          return Valid(k, keys[k].admin);
        }
        rest := rest - {k};
      }
      return Refused(NotFound);
    }
  }
}
