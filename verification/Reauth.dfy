/** Single-flight re-authentication: any number of requests that fail with an expired session
    wait for one login, then are sent again. The page is driven by events; `Wake` is the
    microtask in which one waiter continues, and every other event is a macrotask, which the event
    loop starts only when no microtask is left. */
module Reauth {
  import opened Wrappers

  type Rid = nat
  type Round = nat

  /** One promise per round; rounds are numbered as they are raised. */
  datatype Promise = Pending | Resolved(token: string) | Rejected(reason: string)

  /** The payload of a 'reauth' event. */
  datatype Detail = Detail(token: Option<string>, cancelled: bool)

  /** How the listener of a round settles its promise. */
  function Settled(d: Detail): Promise {
    if d.cancelled then Rejected("reauth cancelled")
    else if d.token.Some? && d.token.value != "" then Resolved(d.token.value)
    else Rejected("reauth failed")
  }

  /** The event bus: `listeners` holds the rounds whose handler is registered for 'reauth';
      `log` records the payloads of all 'reauth' events. */
  datatype Bus = Bus(inFlight: Option<Round>, listeners: set<Round>, promises: seq<Promise>, log: seq<Detail>)

  datatype Reply = Accepted(token: Option<string>) | Refused(status: nat, expired: bool)

  /** A request as its caller sees it. `auth` is the bearer token it carries, empty for none. */
  datatype Request =
    | Sent(login: bool, auth: string)
    | Waiting(login: bool, error: Reply, round: Round)
    | Answered(login: bool)
    | Thrown(login: bool, error: Reply)

  datatype Page = Page(
    bus: Bus,
    storage: string,
    open: bool,
    attempts: nat,
    submitting: Option<Rid>,
    redirected: bool,
    requests: seq<Request>)

  const MAX_ATTEMPTS := 3
  const LOADED := Page(Bus(None, {}, [], []), "", false, 0, None, false, [])

  datatype Event =
    | Send(login: bool)
    | Arrive(i: Rid, reply: Reply)
    | Submit
    | Cancel
    | Elsewhere(token: string)
    | Wake(i: Rid)

  // ---------- the bus ----------

  function Raise(b: Bus): Bus {
    if b.inFlight.Some? then b
    else
      var round := |b.promises|;
      b.(promises := b.promises + [Pending], listeners := b.listeners + {round}, inFlight := Some(round))
  }

  /** Every registered handler settles its own promise, unregisters itself and clears `inFlight`. */
  function Complete(b: Bus, d: Detail): Bus {
    Bus(if b.listeners == {} then b.inFlight else None,
        {},
        seq(|b.promises|, r requires 0 <= r < |b.promises| =>
          if r in b.listeners && b.promises[r].Pending? then Settled(d) else b.promises[r]),
        b.log + [d])
  }

  // ---------- the page ----------

  /** A waiter whose round is settled has a microtask queued. */
  predicate Ready(p: Page, i: Rid) {
    && i < |p.requests| && p.requests[i].Waiting?
    && p.requests[i].round < |p.bus.promises| && !p.bus.promises[p.requests[i].round].Pending?
  }

  ghost predicate Drained(p: Page) {
    forall i: Rid | i < |p.requests| :: !Ready(p, i)
  }

  ghost predicate Enabled(p: Page, e: Event) {
    if e.Wake? then Ready(p, e.i)
    else
      && Drained(p)
      && match e
         case Arrive(i, _) => i < |p.requests| && p.requests[i].Sent?
         case Submit => p.open && p.submitting.None?
         case Cancel => p.open && p.submitting.None?
         case _ => true
  }

  /** The request interceptor attaches the stored token, if there is one, over what was there. */
  function Attach(storage: string, auth: string): string {
    if storage != "" then storage else auth
  }

  function Append(p: Page, login: bool): Page {
    p.(requests := p.requests + [Sent(login, Attach(p.storage, ""))])
  }

  /** The provider opens the modal when a round is raised; the modal starts afresh when it opens. */
  function Ask(p: Page): Page {
    if p.bus.inFlight.Some? then p
    else if p.open then p.(bus := Raise(p.bus))
    else p.(bus := Raise(p.bus), open := true, attempts := 0, submitting := None)
  }

  predicate Expired(login: bool, reply: Reply) {
    reply.Refused? && reply.status == 401 && !login && reply.expired
  }

  /** The response interceptor. */
  function Receive(p: Page, i: Rid, reply: Reply): Page
    requires i < |p.requests|
  {
    var r := p.requests[i];
    if reply.Accepted? then p.(requests := p.requests[i := Answered(r.login)])
    else if !Expired(r.login, reply) then p.(requests := p.requests[i := Thrown(r.login, reply)])
    else
      var q := Ask(p);
      if q.bus.inFlight.Some? then q.(requests := q.requests[i := Waiting(r.login, reply, q.bus.inFlight.value)]) else q
  }

  /** A browser stores a missing value as the string "undefined". */
  function Stored(token: Option<string>): string {
    if token.Some? then token.value else "undefined"
  }

  /** The rest of the modal's submit, once its login request has been answered or has thrown. */
  function FinishSubmit(p: Page, reply: Reply): Page {
    if reply.Accepted? then
      p.(storage := Stored(reply.token), open := false, bus := Complete(p.bus, Detail(reply.token, false)))
    else if p.attempts + 1 >= MAX_ATTEMPTS then
      p.(attempts := p.attempts + 1, storage := "", redirected := true)
    else
      p.(attempts := p.attempts + 1, submitting := None)
  }

  function Continue(p: Page, i: Rid): Page
    requires Ready(p, i)
  {
    var r := p.requests[i];
    match p.bus.promises[r.round]
    case Resolved(token) => p.(requests := p.requests[i := Sent(r.login, Attach(p.storage, token))])
    case _ => p.(requests := p.requests[i := Thrown(r.login, r.error)])
  }

  ghost function Step(p: Page, e: Event): Page {
    if !Enabled(p, e) then p
    else
      match e
      case Send(login) => Append(p, login)
      case Arrive(i, reply) =>
        var q := Receive(p, i, reply);
        if p.submitting == Some(i) then FinishSubmit(q, reply) else q
      case Submit => Append(p, true).(submitting := Some(|p.requests|))
      case Cancel => p.(open := false, bus := Complete(p.bus, Detail(None, true)))
      case Elsewhere(token) => p.(storage := token)
      case Wake(i) => Continue(p, i)
  }

  ghost function After(es: seq<Event>): Page
    decreases |es|
  {
    if es == [] then LOADED else Step(After(es[..|es| - 1]), es[|es| - 1])
  }

  // ---------- what every event keeps ----------

  /** The bus between two events: at most the newest round is pending, exactly then a handler is
      registered, and every earlier round was settled by the completion with its number. */
  ghost predicate BusOk(b: Bus) {
    && b.listeners == (if b.inFlight.Some? then {b.inFlight.value} else {})
    && |b.promises| == |b.log| + (if b.inFlight.Some? then 1 else 0)
    && (b.inFlight.Some? ==> b.inFlight.value == |b.log| && b.promises[|b.log|] == Pending)
    && forall r | 0 <= r < |b.log| :: b.promises[r] == Settled(b.log[r])
  }

  ghost predicate RequestOk(p: Page, r: Request) {
    r.Waiting? ==>
      && Expired(r.login, r.error) && r.round < |p.bus.promises|
      && (p.bus.promises[r.round].Resolved? ==> p.storage == p.bus.promises[r.round].token)
  }

  ghost predicate PageOk(p: Page) {
    && BusOk(p.bus)
    && (p.open <==> p.bus.inFlight.Some?)
    && (forall i: Rid | i < |p.requests| :: RequestOk(p, p.requests[i]))
    && (p.submitting.Some? ==> p.submitting.value < |p.requests| && p.requests[p.submitting.value].login)
    && (p.submitting.Some? && p.requests[p.submitting.value].Sent? ==> p.open && !p.redirected)
    && (p.redirected ==> p.open && p.submitting.Some?)
    && (p.attempts >= MAX_ATTEMPTS ==> p.redirected)
  }

  lemma RaiseKeepsBus(b: Bus)
    requires BusOk(b)
    ensures BusOk(Raise(b)) && Raise(b).inFlight == Some(|b.log|) && Raise(b).log == b.log
    ensures b.promises <= Raise(b).promises
    ensures |b.log| < |Raise(b).promises| && Raise(b).promises[|b.log|] == Pending
  {
  }

  lemma CompleteKeepsBus(b: Bus, d: Detail)
    requires BusOk(b) && b.inFlight.Some?
    ensures BusOk(Complete(b, d)) && Complete(b, d).inFlight == None && Complete(b, d).log == b.log + [d]
    ensures |Complete(b, d).promises| == |b.promises|
    ensures forall r | 0 <= r < |b.log| :: Complete(b, d).promises[r] == b.promises[r]
    ensures Complete(b, d).promises[|b.log|] == Settled(d)
  {
  }

  lemma AppendKeeps(p: Page, login: bool)
    requires PageOk(p)
    ensures PageOk(Append(p, login))
  {
    var q := Append(p, login);
    forall i: Rid | i < |q.requests| ensures RequestOk(q, q.requests[i]) {
      if i < |p.requests| {
        assert q.requests[i] == p.requests[i];
      }
    }
  }

  lemma SubmitKeeps(p: Page)
    requires PageOk(p) && Enabled(p, Submit)
    ensures PageOk(Step(p, Submit))
  {
    AppendKeeps(p, true);
  }

  /** Raising a round leaves every waiter with the promise it had. */
  lemma AskKeeps(p: Page)
    requires PageOk(p)
    ensures PageOk(Ask(p)) && Ask(p).bus.inFlight == Some(|p.bus.log|) && Ask(p).bus.log == p.bus.log
    ensures |p.bus.log| < |Ask(p).bus.promises| && Ask(p).bus.promises[|p.bus.log|] == Pending
    ensures Ask(p).requests == p.requests && Ask(p).storage == p.storage
    ensures p.open ==> Ask(p) == p
  {
    hide BusOk;
    RaiseKeepsBus(p.bus);
    var q := Ask(p);
    assert p.open ==> q == p by { assert BusOk(p.bus); }
    assert q.bus == Raise(p.bus);
    hide Raise;
    forall i: Rid | i < |q.requests| ensures RequestOk(q, q.requests[i]) {
      assert RequestOk(p, p.requests[i]);
    }
  }

  /** A request that is neither the modal's pending login nor left waiting on a settled round can be rewritten. */
  lemma RewriteKeeps(p: Page, i: Rid, r: Request)
    requires PageOk(p) && i < |p.requests| && RequestOk(p, r) && r.login == p.requests[i].login
    requires r.Sent? ==> !r.login
    ensures PageOk(p.(requests := p.requests[i := r]))
  {
    hide BusOk;
    var q := p.(requests := p.requests[i := r]);
    forall j: Rid | j < |q.requests| ensures RequestOk(q, q.requests[j]) {
      assert RequestOk(p, p.requests[j]);
    }
  }

  lemma ReceiveKeeps(p: Page, i: Rid, reply: Reply)
    requires PageOk(p) && i < |p.requests| && p.requests[i].Sent?
    ensures PageOk(Receive(p, i, reply)) && |Receive(p, i, reply).requests| == |p.requests|
    ensures !Receive(p, i, reply).requests[i].Sent?
    ensures p.requests[i].login ==> Receive(p, i, reply) == p.(requests := Receive(p, i, reply).requests)
  {
    hide BusOk;
    var r := p.requests[i];
    if reply.Accepted? {
      RewriteKeeps(p, i, Answered(r.login));
    } else if !Expired(r.login, reply) {
      RewriteKeeps(p, i, Thrown(r.login, reply));
    } else {
      AskKeeps(p);
      var q := Ask(p);
      hide Ask;
      RewriteKeeps(q, i, Waiting(r.login, reply, q.bus.inFlight.value));
    }
  }

  /** Closing the modal settles the round: what every waiter needs of the storage, the closing has put there. */
  lemma CloseKeeps(p: Page, d: Detail, storage: string)
    requires PageOk(p) && Drained(p) && p.open && !p.redirected
    requires Settled(d).Resolved? ==> storage == Settled(d).token
    requires p.submitting.Some? ==> !p.requests[p.submitting.value].Sent?
    ensures PageOk(p.(storage := storage, open := false, bus := Complete(p.bus, d)))
  {
    var q := p.(storage := storage, open := false, bus := Complete(p.bus, d));
    CompleteKeepsBus(p.bus, d);
    forall i: Rid | i < |q.requests| ensures RequestOk(q, q.requests[i]) {
      assert RequestOk(p, p.requests[i]) && !Ready(p, i);
    }
  }

  lemma FinishKeeps(p: Page, reply: Reply)
    requires PageOk(p) && Drained(p) && p.open && !p.redirected && p.submitting.Some?
    requires !p.requests[p.submitting.value].Sent?
    ensures PageOk(FinishSubmit(p, reply))
  {
    if reply.Accepted? {
      CloseKeeps(p, Detail(reply.token, false), Stored(reply.token));
    } else {
      var q := FinishSubmit(p, reply);
      hide BusOk;
      forall i: Rid | i < |q.requests| ensures RequestOk(q, q.requests[i]) {
        assert RequestOk(p, p.requests[i]) && !Ready(p, i);
      }
    }
  }

  lemma ArriveKeeps(p: Page, i: Rid, reply: Reply)
    requires PageOk(p) && Enabled(p, Arrive(i, reply))
    ensures PageOk(Step(p, Arrive(i, reply)))
  {
    ReceiveKeeps(p, i, reply);
    if p.submitting == Some(i) {
      var q := Receive(p, i, reply);
      assert q == p.(requests := p.requests[i := q.requests[i]]) by { hide PageOk; }
      assert Drained(q) by {
        forall j: Rid | j < |q.requests| ensures !Ready(q, j) {
          assert !Ready(p, j);
        }
      }
      FinishKeeps(q, reply);
    }
  }

  lemma WakeKeeps(p: Page, i: Rid)
    requires PageOk(p) && Ready(p, i)
    ensures PageOk(Continue(p, i))
  {
    assert RequestOk(p, p.requests[i]);
    RewriteKeeps(p, i, Continue(p, i).requests[i]);
  }

  lemma ElsewhereKeeps(p: Page, token: string)
    requires PageOk(p) && Drained(p)
    ensures PageOk(p.(storage := token))
  {
    var q := p.(storage := token);
    forall i: Rid | i < |q.requests| ensures RequestOk(q, q.requests[i]) {
      assert RequestOk(p, p.requests[i]) && !Ready(p, i);
    }
  }

  lemma StepKeeps(p: Page, e: Event)
    requires PageOk(p)
    ensures PageOk(Step(p, e))
  {
    if Enabled(p, e) {
      match e
      case Send(login) => AppendKeeps(p, login);
      case Arrive(i, reply) => ArriveKeeps(p, i, reply);
      case Submit => SubmitKeeps(p);
      case Cancel => CloseKeeps(p, Detail(None, true), p.storage);
      case Elsewhere(token) => ElsewhereKeeps(p, token);
      case Wake(i) => WakeKeeps(p, i);
    }
  }

  lemma {:induction false} PageHolds(es: seq<Event>)
    ensures PageOk(After(es))
    decreases |es|
  {
    if es == [] {
    } else {
      PageHolds(es[..|es| - 1]);
      StepKeeps(After(es[..|es| - 1]), es[|es| - 1]);
    }
  }

  // ---------- one flight at a time ----------

  /** Rounds raised equal completions, plus one exactly while a re-authentication is in flight,
      which is exactly while one handler is registered and the modal is open. */
  lemma SingleFlight(es: seq<Event>)
    ensures var p := After(es); var b := p.bus;
            && (b.inFlight.Some? <==> |b.listeners| == 1)
            && (b.inFlight.None? <==> b.listeners == {})
            && |b.promises| == |b.log| + (if b.inFlight.Some? then 1 else 0)
            && (p.open <==> b.inFlight.Some?)
  {
    PageHolds(es);
  }

  lemma AfterOne(es: seq<Event>, e: Event)
    ensures After(es + [e]) == Step(After(es), e)
  {
    assert (es + [e])[..|es + [e]| - 1] == es;
  }

  lemma AfterCat(es: seq<Event>, fs: seq<Event>)
    requires fs != []
    ensures After(es + fs) == Step(After(es + fs[..|fs| - 1]), fs[|fs| - 1])
  {
    assert (es + fs)[..|es + fs| - 1] == es + fs[..|fs| - 1];
  }

  /** One event appends at most one completion. */
  lemma StepLog(p: Page, e: Event)
    requires PageOk(p)
    ensures p.bus.log <= Step(p, e).bus.log
  {
    if Enabled(p, e) && e.Arrive? {
      ReceiveKeeps(p, e.i, e.reply);
      if Expired(p.requests[e.i].login, e.reply) {
        AskKeeps(p);
      }
    }
  }

  /** A waiting request is touched by nothing but its own microtask. */
  lemma WaitingIsLeftAlone(p: Page, e: Event, i: Rid)
    requires PageOk(p) && i < |p.requests| && p.requests[i].Waiting? && e != Wake(i)
    ensures var q := Step(p, e); i < |q.requests| && q.requests[i] == p.requests[i]
  {
    hide BusOk, RequestOk, Complete, Raise;
  }

  lemma {:induction false} StillWaiting(es: seq<Event>, i: Rid, fs: seq<Event>)
    requires i < |After(es).requests| && After(es).requests[i].Waiting?
    requires forall e | e in fs :: e != Wake(i)
    ensures var q := After(es + fs); i < |q.requests| && q.requests[i] == After(es).requests[i]
    ensures After(es).bus.log <= After(es + fs).bus.log
    decreases |fs|
  {
    if fs == [] {
      assert es + fs == es;
    } else {
      var front, last := fs[..|fs| - 1], fs[|fs| - 1];
      assert forall e | e in front :: e in fs;
      StillWaiting(es, i, front);
      AfterCat(es, fs);
      PageHolds(es + front);
      hide PageOk;
      assert last in fs;
      WaitingIsLeftAlone(After(es + front), last, i);
      StepLog(After(es + front), last);
    }
  }

  /** An expired-session failure joins the round that the next completion will settle. */
  lemma JoinsNextRound(p: Page, i: Rid, reply: Reply)
    requires PageOk(p) && Enabled(p, Arrive(i, reply)) && Expired(p.requests[i].login, reply)
    ensures var q := Step(p, Arrive(i, reply));
            |q.requests| == |p.requests| && q.requests[i] == Waiting(false, reply, |p.bus.log|)
              && q.bus.log == p.bus.log
  {
    AskKeeps(p);
  }

  /** What becomes of a waiter, told from the log alone. */
  function Verdict(d: Detail, reply: Reply): Request {
    if Settled(d).Resolved? then Sent(false, Settled(d).token) else Thrown(false, reply)
  }

  lemma WakeVerdict(p: Page, i: Rid)
    requires PageOk(p) && i < |p.requests| && p.requests[i].Waiting?
    ensures Ready(p, i) <==> p.requests[i].round < |p.bus.log|
    ensures Ready(p, i) ==> Step(p, Wake(i)).requests[i] == Verdict(p.bus.log[p.requests[i].round], p.requests[i].error)
  {
    assert RequestOk(p, p.requests[i]);
  }

  /** Whatever happens in between, a request that fails with an expired session gets the outcome
      of the first completion after it joined: it is sent again with exactly the token of that
      login, or its caller gets the original failure. It continues exactly once such a
      completion exists. */
  lemma FirstCompletionDecides(es: seq<Event>, i: Rid, reply: Reply, fs: seq<Event>)
    requires Enabled(After(es), Arrive(i, reply)) && Expired(After(es).requests[i].login, reply)
    requires forall e | e in fs :: e != Wake(i)
    ensures var n := |After(es).bus.log|; var run := es + [Arrive(i, reply)] + fs; var q := After(run);
            && (Enabled(q, Wake(i)) <==> n < |q.bus.log|)
            && (n < |q.bus.log| ==>
                  var z := After(run + [Wake(i)]);
                  i < |z.requests| && z.requests[i] == Verdict(q.bus.log[n], reply))
  {
    var joined := es + [Arrive(i, reply)];
    PageHolds(es);
    AfterOne(es, Arrive(i, reply));
    JoinsNextRound(After(es), i, reply) by { hide PageOk; }
    StillWaiting(joined, i, fs) by { hide PageOk; }
    PageHolds(joined + fs);
    hide PageOk;
    WakeVerdict(After(joined + fs), i);
    AfterOne(joined + fs, Wake(i));
  }

  /** The login request a re-authentication is waiting for never waits for a re-authentication. */
  lemma LoginNeverWaits(es: seq<Event>, i: Rid)
    requires i < |After(es).requests| && After(es).requests[i].login
    ensures !After(es).requests[i].Waiting?
  {
    PageHolds(es);
    assert RequestOk(After(es), After(es).requests[i]);
  }

  // ---------- the fallback after three failures ----------

  lemma StepAfterFallback(p: Page, e: Event)
    requires PageOk(p) && p.redirected
    ensures Step(p, e).redirected && Step(p, e).bus == p.bus
  {
    hide BusOk, RequestOk;
    if Enabled(p, e) && e.Arrive? {
      ReceiveKeeps(p, e.i, e.reply) by { hide PageOk; }
      if Expired(p.requests[e.i].login, e.reply) {
        AskKeeps(p) by { hide PageOk; }
      }
    }
  }

  /** The third failed login sends the browser away and leaves its round pending for good: no
      waiter is ever told, neither with a token nor with its error. */
  lemma {:induction false} FallbackSettlesNobody(es: seq<Event>, fs: seq<Event>)
    requires After(es).redirected
    ensures After(es + fs).redirected && After(es + fs).bus == After(es).bus && After(es).bus.inFlight.Some?
    decreases |fs|
  {
    PageHolds(es);
    if fs == [] {
      assert es + fs == es;
    } else {
      FallbackSettlesNobody(es, fs[..|fs| - 1]);
      AfterCat(es, fs);
      PageHolds(es + fs[..|fs| - 1]);
      StepAfterFallback(After(es + fs[..|fs| - 1]), fs[|fs| - 1]);
    }
  }

  ghost predicate LoginPending(p: Page) {
    p.open && p.submitting.Some? && !p.redirected
    ==> p.submitting.value < |p.requests| && p.requests[p.submitting.value].Sent?
  }

  lemma StepKeepsLoginPending(p: Page, e: Event)
    requires PageOk(p) && LoginPending(p)
    ensures LoginPending(Step(p, e))
  {
    hide BusOk;
    if Enabled(p, e) && e.Arrive? {
      ReceiveKeeps(p, e.i, e.reply);
    }
  }

  lemma {:induction false} LoginPendingHolds(es: seq<Event>)
    ensures LoginPending(After(es))
    decreases |es|
  {
    if es == [] {
    } else {
      LoginPendingHolds(es[..|es| - 1]);
      PageHolds(es[..|es| - 1]);
      StepKeepsLoginPending(After(es[..|es| - 1]), es[|es| - 1]);
    }
  }

  /** A waiter can always still be released, by the answer to the login in flight or by
      cancelling, unless the fallback was taken. */
  lemma WaitersCanBeReleased(es: seq<Event>, i: Rid) returns (e: Event)
    requires var p := After(es); i < |p.requests| && p.requests[i].Waiting? && Drained(p) && !p.redirected
    ensures Enabled(After(es), e) && Ready(After(es + [e]), i)
  {
    var p := After(es);
    PageHolds(es);
    LoginPendingHolds(es);
    assert RequestOk(p, p.requests[i]) && !Ready(p, i);
    e := if p.submitting.Some? then Arrive(p.submitting.value, Accepted(None)) else Cancel;
    AfterOne(es, e);
    CompleteKeepsBus(p.bus, Detail(None, p.submitting.None?));
  }

  // ---------- the event handlers ----------

  /** The page's mutable state and the handlers that update it. */
  class Tab {
    var inFlight: Option<Round>
    var listeners: set<Round>
    var promises: seq<Promise>
    var log: seq<Detail>
    var storage: string
    var open: bool
    var attempts: nat
    var submitting: Option<Rid>
    var redirected: bool
    var requests: seq<Request>

    constructor ()
      ensures View() == LOADED
    {
      inFlight, listeners, promises, log := None, {}, [], [];
      storage, open, attempts, submitting, redirected, requests := "", false, 0, None, false, [];
    }

    function View(): Page
      reads this
    {
      Page(Bus(inFlight, listeners, promises, log), storage, open, attempts, submitting, redirected, requests)
    }

    /** The provider's handler for 'reauth-request'; the modal resets when it was closed. */
    method OnRequest()
      modifies this
      ensures View() == if old(open) then old(View()) else old(View()).(open := true, attempts := 0, submitting := None)
    {
      if !open {
        attempts, submitting := 0, None;
      }
      open := true;
    }

    method RequestReauth() returns (round: Round)
      modifies this
      ensures View() == Ask(old(View())) && inFlight == Some(round)
    {
      if inFlight.Some? {
        return inFlight.value;
      }
      round := |promises|;
      promises := promises + [Pending];
      listeners := listeners + {round};
      OnRequest();
      inFlight := Some(round);
    }

    /** One handler: it unregisters itself, forgets the flight and settles its promise. */
    method OnReauth(round: Round, d: Detail)
      requires round < |promises|
      modifies this`listeners, this`inFlight, this`promises
      ensures listeners == old(listeners) - {round} && inFlight == None
      ensures promises
        == old(promises)[round := if old(promises)[round].Pending? then Settled(d) else old(promises)[round]]
    {
      listeners := listeners - {round};
      inFlight := None;
      if promises[round].Pending? {
        promises := promises[round := Settled(d)];
      }
    }

    /** Dispatches 'reauth' to every handler registered at that moment. */
    method CompleteReauth(d: Detail)
      requires forall r | r in listeners :: r < |promises|
      modifies this`listeners, this`inFlight, this`promises, this`log
      ensures View() == old(View()).(bus := Complete(old(View()).bus, d))
    {
      log := log + [d];
      ghost var before := promises;
      ghost var registered := listeners;
      while listeners != {}
        invariant listeners <= registered && |promises| == |before| && log == old(log) + [d]
        invariant inFlight == if listeners == registered then old(inFlight) else None
        invariant forall r: Round | r < |promises| ::
                    promises[r] == if r in registered && r !in listeners && before[r].Pending? then Settled(d)
                      else before[r]
        decreases |listeners|
      {
        var r :| r in listeners;
        OnReauth(r, d);
      }
      assert promises == Complete(old(View()).bus, d).promises;
    }

    /** Sends a request, through the request interceptor. */
    method Request(login: bool) returns (i: Rid)
      modifies this`requests
      ensures i == |old(requests)| && View() == Append(old(View()), login)
    {
      i := |requests|;
      var auth := "";
      if storage != "" {
        auth := storage;
      }
      requests := requests + [Sent(login, auth)];
    }

    /** The response interceptor, up to the point where it awaits. */
    method OnReply(i: Rid, reply: Reply)
      requires i < |requests|
      modifies this
      ensures View() == Receive(old(View()), i, reply)
    {
      var login := requests[i].login;
      if reply.Accepted? {
        requests := requests[i := Answered(login)];
      } else if reply.status != 401 || login || !reply.expired {
        requests := requests[i := Thrown(login, reply)];
      } else {
        var round := RequestReauth();
        requests := requests[i := Waiting(login, reply, round)];
      }
    }

    /** The response interceptor, from where its await continues: the request is sent again
        through the request interceptor, or the original error is thrown. */
    method Resume(i: Rid)
      requires Ready(View(), i)
      modifies this`requests
      ensures View() == Continue(old(View()), i)
    {
      var r := requests[i];
      if promises[r.round].Resolved? {
        var auth := promises[r.round].token;
        if storage != "" {
          auth := storage;
        }
        requests := requests[i := Sent(r.login, auth)];
      } else {
        requests := requests[i := Thrown(r.login, r.error)];
      }
    }

    method OnSolved(token: Option<string>)
      requires forall r | r in listeners :: r < |promises|
      modifies this
      ensures View() == old(View()).(open := false, bus := Complete(old(View()).bus, Detail(token, false)))
    {
      open := false;
      CompleteReauth(Detail(token, false));
    }

    method OnCancelled()
      requires PageOk(View()) && Enabled(View(), Event.Cancel)
      modifies this
      ensures View() == Step(old(View()), Event.Cancel) && PageOk(View())
    {
      StepKeeps(View(), Event.Cancel);
      open := false;
      CompleteReauth(Detail(None, true));
    }

    /** The modal's submit up to its await of the login request. */
    method StartSubmit()
      requires PageOk(View()) && Enabled(View(), Event.Submit)
      modifies this
      ensures View() == Step(old(View()), Event.Submit) && PageOk(View())
    {
      StepKeeps(View(), Event.Submit);
      var i := Request(true);
      submitting := Some(i);
    }

    /** The modal's submit from there on: the token is stored before the round is settled. */
    method EndSubmit(reply: Reply)
      requires forall r | r in listeners :: r < |promises|
      modifies this
      ensures View() == FinishSubmit(old(View()), reply)
    {
      if reply.Accepted? {
        storage := if reply.token.Some? then reply.token.value else "undefined";
        OnSolved(reply.token);
      } else {
        attempts := attempts + 1;
        if attempts >= MAX_ATTEMPTS {
          storage := "";
          redirected := true;
          return;
        }
        submitting := None;
      }
    }

    method OnArrive(i: Rid, reply: Reply)
      requires PageOk(View()) && Enabled(View(), Arrive(i, reply))
      modifies this
      ensures View() == Step(old(View()), Arrive(i, reply)) && PageOk(View())
    {
      StepKeeps(View(), Arrive(i, reply));
      ReceiveKeeps(View(), i, reply);
      var submitted := submitting == Some(i);
      OnReply(i, reply);
      if submitted {
        EndSubmit(reply);
      }
    }
  }
}
