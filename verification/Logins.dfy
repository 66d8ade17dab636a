/** What the logins of the session modal do to the requests of the page: which replies lead to a
    wait, which token a request carries, and when three refusals send the browser away. */
module Logins {
  import opened Wrappers
  import opened Reauth

  // ---------- replies ----------

  /** A refusal with status 401 marked as an expired session, of anything but a login, makes the
      request wait for the round in flight, or for a new one under an open modal; any other refusal
      reaches its caller as it is, and an accepted reply answers it. */
  lemma ReplyDecides(es: seq<Event>, i: Rid, reply: Reply)
    requires Enabled(After(es), Arrive(i, reply))
    ensures var p := After(es); var q := After(es + [Arrive(i, reply)]); var login := p.requests[i].login;
      var waits := reply.Refused? && reply.status == 401 && reply.expired && !login;
      && q.requests == p.requests[i :=
           if waits then Waiting(login, reply, |p.bus.log|)
           else if reply.Refused? then Thrown(login, reply)
           else Answered(login)]
      && (waits ==> q.open && q.bus.inFlight == Some(|p.bus.log|) && q.bus.log == p.bus.log)
      && (!waits && p.submitting != Some(i) ==> q == p.(requests := q.requests))
  {
    PageHolds(es);
    AfterOne(es, Arrive(i, reply));
    var p := After(es);
    if Expired(p.requests[i].login, reply) {
      AskKeeps(p);
    }
  }

  // ---------- tokens ----------

  /** A new request carries the token stored at that moment, empty for none, and changes nothing else. */
  lemma SentWithStoredToken(es: seq<Event>, login: bool)
    requires Enabled(After(es), Send(login))
    ensures var p := After(es);
      After(es + [Send(login)]) == p.(requests := p.requests + [Sent(login, p.storage)])
  {
    AfterOne(es, Send(login));
  }

  /** So does the modal's login. */
  lemma SubmittedWithStoredToken(es: seq<Event>)
    requires Enabled(After(es), Submit)
    ensures var p := After(es);
      After(es + [Submit]) == p.(requests := p.requests + [Sent(true, p.storage)], submitting := Some(|p.requests|))
  {
    AfterOne(es, Submit);
  }

  /** `q` has sent nothing since `p` but with `token`. */
  predicate SendsOnly(p: Page, q: Page, token: string) {
    && |p.requests| <= |q.requests|
    && forall j: Rid | j < |q.requests| && q.requests[j].Sent? ::
         q.requests[j].auth == token || (j < |p.requests| && q.requests[j] == p.requests[j])
  }

  /** `e` neither stores a token nor clears it. */
  predicate LeavesStorage(p: Page, e: Event) {
    !e.Elsewhere? && !(e.Arrive? && p.submitting == Some(e.i))
  }

  lemma StepSends(p: Page, e: Event)
    requires PageOk(p) && p.storage != "" && LeavesStorage(p, e)
    ensures Step(p, e).storage == p.storage && SendsOnly(p, Step(p, e), p.storage)
  {
    hide BusOk, RequestOk, Complete, Raise;
  }

  /** After a login has been answered with a token, every request sent from then on, new or sent
      again, carries it, until the next login is answered or another page changes the storage. */
  lemma {:induction false} LoginTokenIsCarried(es: seq<Event>, i: Rid, token: string, fs: seq<Event>)
    requires Enabled(After(es), Arrive(i, Accepted(Some(token)))) && After(es).submitting == Some(i) && token != ""
    requires var run := es + [Arrive(i, Accepted(Some(token)))];
      forall k | 0 <= k < |fs| :: LeavesStorage(After(run + fs[..k]), fs[k])
    ensures var q := After(es + [Arrive(i, Accepted(Some(token)))] + fs);
      q.storage == token && SendsOnly(After(es), q, token)
    decreases |fs|
  {
    var run := es + [Arrive(i, Accepted(Some(token)))];
    if fs == [] {
      assert run + fs == run;
      AfterOne(es, Arrive(i, Accepted(Some(token))));
    } else {
      var front := fs[..|fs| - 1];
      forall k | 0 <= k < |front| ensures LeavesStorage(After(run + front[..k]), front[k]) {
        assert front[..k] == fs[..k] && front[k] == fs[k];
      }
      hide Step, PageOk, LeavesStorage;
      LoginTokenIsCarried(es, i, token, front);
      AfterCat(run, fs);
      PageHolds(run + front);
      StepSends(After(run + front), fs[|fs| - 1]);
    }
  }

  // ---------- waiters ----------

  /** A login answered with a token closes the modal, stores the token and lets every waiter
      continue, which is then sent again with it; without a token the waiter gets its own error. */
  lemma LoginReleases(es: seq<Event>, i: Rid, token: Option<string>, j: Rid)
    requires Enabled(After(es), Arrive(i, Accepted(token))) && After(es).submitting == Some(i)
    requires j < |After(es).requests| && After(es).requests[j].Waiting?
    ensures var p := After(es); var run := es + [Arrive(i, Accepted(token))]; var q := After(run);
      && !q.open && q.bus.inFlight.None? && Enabled(q, Wake(j))
      && (token.Some? ==> q.storage == token.value)
      && j < |After(run + [Wake(j)]).requests|
      && After(run + [Wake(j)]).requests[j] ==
           if token.Some? && token.value != "" then Sent(false, token.value) else Thrown(false, p.requests[j].error)
  {
    var e := Arrive(i, Accepted(token));
    PageHolds(es);
    PageHolds(es + [e]);
    AfterOne(es, e);
    AfterOne(es + [e], Wake(j));
    var p := After(es);
    assert RequestOk(p, p.requests[j]) && !Ready(p, j);
    CompleteKeepsBus(p.bus, Detail(token, false));
    WakeVerdict(After(es + [e]), j) by { hide PageOk; }
  }

  /** Cancelling closes the modal, leaves the stored token alone and gives every waiter its own error. */
  lemma CancelReleases(es: seq<Event>, j: Rid)
    requires Enabled(After(es), Cancel) && j < |After(es).requests| && After(es).requests[j].Waiting?
    ensures var p := After(es); var run := es + [Cancel]; var q := After(run);
      && !q.open && q.bus.inFlight.None? && q.storage == p.storage && Enabled(q, Wake(j))
      && j < |After(run + [Wake(j)]).requests|
      && After(run + [Wake(j)]).requests[j] == Thrown(false, p.requests[j].error)
  {
    PageHolds(es);
    PageHolds(es + [Cancel]);
    AfterOne(es, Cancel);
    AfterOne(es + [Cancel], Wake(j));
    var p := After(es);
    assert RequestOk(p, p.requests[j]) && !Ready(p, j);
    CompleteKeepsBus(p.bus, Detail(None, true));
    WakeVerdict(After(es + [Cancel]), j) by { hide PageOk; }
  }

  // ---------- three refusals ----------

  /** The reply to the modal's own login, and it is a refusal. */
  ghost predicate RefusesLogin(p: Page, e: Event) {
    e.Arrive? && e.reply.Refused? && p.submitting == Some(e.i) && Enabled(p, e)
  }

  /** How many logins were refused since the modal was last opened. */
  ghost function Refusals(es: seq<Event>): nat
    decreases |es|
  {
    if es == [] then 0
    else
      var front, last := es[..|es| - 1], es[|es| - 1];
      if RefusesLogin(After(front), last) then Refusals(front) + 1
      else if !After(front).open && After(es).open then 0
      else Refusals(front)
  }

  ghost predicate Counted(p: Page, refusals: nat) {
    p.attempts == refusals <= 3 && (p.redirected <==> refusals == 3)
  }

  lemma StepCounts(p: Page, e: Event, n: nat)
    requires PageOk(p) && Counted(p, n)
    ensures Counted(Step(p, e),
      if RefusesLogin(p, e) then n + 1 else if !p.open && Step(p, e).open then 0 else n)
  {
    hide RequestOk, Complete, Raise;
  }

  lemma {:induction false} RefusalsAreCounted(es: seq<Event>)
    ensures Counted(After(es), Refusals(es))
    decreases |es|
  {
    if es == [] {
    } else {
      var front := es[..|es| - 1];
      RefusalsAreCounted(front);
      PageHolds(front);
      hide Step, PageOk, Counted;
      StepCounts(After(front), es[|es| - 1], Refusals(front));
    }
  }

  /** The browser has been sent away if and only if three logins were refused under one opening of
      the modal. */
  lemma ThreeRefusalsRedirect(es: seq<Event>)
    ensures After(es).redirected <==> Refusals(es) >= 3
  {
    RefusalsAreCounted(es);
  }

  /** A refused login clears the stored token and sends the browser away if it is the third, and
      otherwise leaves token and round alone and the modal ready for the next attempt. */
  lemma RefusalDecides(es: seq<Event>, i: Rid, reply: Reply)
    requires RefusesLogin(After(es), Arrive(i, reply))
    ensures var p := After(es); var q := After(es + [Arrive(i, reply)]);
      && Refusals(es) <= 2 && q.open && q.bus == p.bus
      && (if Refusals(es) == 2 then q.redirected && q.storage == ""
          else !q.redirected && q.storage == p.storage && Enabled(q, Submit))
  {
    PageHolds(es);
    RefusalsAreCounted(es);
    AfterOne(es, Arrive(i, reply));
    var p, q := After(es), After(es + [Arrive(i, reply)]);
    assert !Expired(p.requests[i].login, reply);
    hide BusOk, RequestOk;
    assert Drained(q) by {
      forall j: Rid | j < |q.requests| ensures !Ready(q, j) {
        assert !Ready(p, j);
      }
    }
  }
}
