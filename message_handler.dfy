/**
 * `MessageHandler`, the pending-request tracker. Each request is registered
 * under its id together with a timeout timer and the promise its caller
 * awaits; the entry leaves the table when a response arrives, when its timer
 * fires, or when the table is cleared.
 *
 * Timers and promises are opaque tickets drawn from one counter. A promise's
 * settlement is recorded as an `Outcome`; as in JavaScript, settling a promise
 * that has already settled does nothing. The four events the tracker reacts
 * to are step functions over `HandlerState`, and the class's methods are
 * proved to perform exactly those steps.
 */
module MessageHandling {
  import opened Wrappers
  import opened Js
  import opened Protocol
  import Transport

  type TimerId = nat
  type PromiseId = nat

  /** How a caller's promise settled. */
  datatype Outcome = Resolved(response: JsValue) | Rejected(message: string)

  /** An entry of `pendingRequests`: the request, its timer, the caller's promise and the registration time. */
  datatype PendingRequest = PendingRequest(request: JsValue, timer: TimerId, promise: PromiseId, timestamp: int)

  /** A scheduled timeout callback, by what it closes over: the request's id and type and the promise's `reject`. */
  datatype TimeoutTask = TimeoutTask(requestId: string, requestType: string, promise: PromiseId)

  /** The tracker's state: the pending table, the timers still scheduled, the settled promises and the ticket counter. */
  datatype HandlerState = HandlerState(
    pending: map<string, PendingRequest>,
    timers: map<TimerId, TimeoutTask>,
    settled: map<PromiseId, Outcome>,
    next: nat)

  const DefaultRequestTimeout: int := 30000

  const CancelledMessage: string := "Request cancelled - handler cleared"

  const Initial: HandlerState := HandlerState(map[], map[], map[], 0)

  /** The rejection message of a request that timed out. */
  function TimeoutMessage(requestType: string, ms: int): string
  {
    "Request " + requestType + " timed out after " + IntToString(ms) + "ms"
  }

  /** How the `resolve` stored for a request settles the caller's promise with a response. */
  function ResponseOutcome(response: JsValue): (o: Outcome)
    ensures o.Rejected? <==> IsErrorResponse(response)
    ensures o.Resolved? ==> o.response == response
  {
    if IsErrorResponse(response) then
      var e := Get(response, "error");
      Rejected(Get(e, "code").s + ": " + Get(e, "message").s)
    else Resolved(response)
  }

  /** Settling a promise: the first settlement wins. */
  function Settle(settled: map<PromiseId, Outcome>, p: PromiseId, o: Outcome): (r: map<PromiseId, Outcome>)
    ensures p in r && r[p] == (if p in settled then settled[p] else o)
    ensures forall q :: q in settled ==> q in r && r[q] == settled[q]
    ensures forall q :: q in r ==> q == p || q in settled
  {
    if p in settled then settled else settled[p := o]
  }

  /** The timers of the pending entries. */
  function TimersOf(pending: map<string, PendingRequest>): set<TimerId>
  {
    set id | id in pending :: pending[id].timer
  }

  /** The promises of the pending entries. */
  function PromisesOf(pending: map<string, PendingRequest>): set<PromiseId>
  {
    set id | id in pending :: pending[id].promise
  }

  lemma TimersOfRemove(pending: map<string, PendingRequest>, id: string)
    requires id in pending
    ensures TimersOf(pending) == TimersOf(pending - {id}) + {pending[id].timer}
    ensures PromisesOf(pending) == PromisesOf(pending - {id}) + {pending[id].promise}
  {
    var rest := pending - {id};
    forall t | t in TimersOf(pending) ensures t in TimersOf(rest) + {pending[id].timer} {
      var i :| i in pending && pending[i].timer == t;
      if i != id { assert rest[i].timer == t; }
    }
    forall t | t in TimersOf(rest) ensures t in TimersOf(pending) {
      var i :| i in rest && rest[i].timer == t;
      assert pending[i].timer == t;
    }
    assert pending[id].timer in TimersOf(pending);
    forall q | q in PromisesOf(pending) ensures q in PromisesOf(rest) + {pending[id].promise} {
      var i :| i in pending && pending[i].promise == q;
      if i != id { assert rest[i].promise == q; }
    }
    forall q | q in PromisesOf(rest) ensures q in PromisesOf(pending) {
      var i :| i in rest && rest[i].promise == q;
      assert pending[i].promise == q;
    }
    assert pending[id].promise in PromisesOf(pending);
  }

  lemma TimersOfAdd(pending: map<string, PendingRequest>, id: string, e: PendingRequest)
    requires id !in pending
    ensures TimersOf(pending[id := e]) == TimersOf(pending) + {e.timer}
  {
    var more := pending[id := e];
    forall t | t in TimersOf(more) ensures t in TimersOf(pending) + {e.timer} {
      var i :| i in more && more[i].timer == t;
      if i != id { assert pending[i].timer == t; }
    }
    forall t | t in TimersOf(pending) ensures t in TimersOf(more) {
      var i :| i in pending && pending[i].timer == t;
      assert more[i].timer == t;
    }
    assert more[id].timer in TimersOf(more);
  }

  // ---------------------------------------------------------------- the four events

  /** What the tracker reads of a request: a string `id` and a string `type`. */
  predicate Addressed(m: JsValue) { IdOf(m).Str? && TypeOf(m).Str? }

  /** `sendRequest`, up to the call of `sendFn`: schedule the timer, create the promise, insert the entry. */
  function Register(s: HandlerState, request: JsValue, now: int): HandlerState
    requires Addressed(request)
  {
    var id := IdOf(request).s;
    HandlerState(
      s.pending[id := PendingRequest(request, s.next, s.next + 1, now)],
      s.timers[s.next := TimeoutTask(id, TypeOf(request).s, s.next + 1)],
      s.settled,
      s.next + 2)
  }

  /** `handleResponse`: the new state and whether a pending entry matched. */
  function Respond(s: HandlerState, response: JsValue): (HandlerState, bool)
  {
    var id := IdOf(response);
    // `!response.id` rejects a falsy id; a key of another kind never equals a string key
    if !(id.Str? && id.s != "" && id.s in s.pending) then (s, false)
    else
      var e := s.pending[id.s];
      (HandlerState(s.pending - {id.s}, s.timers - {e.timer},
                    Settle(s.settled, e.promise, ResponseOutcome(response)), s.next), true)
  }

  /** Timer `t` fires after `ms` milliseconds: delete the entry under the request's id and reject. */
  function Timeout(s: HandlerState, t: TimerId, ms: int): HandlerState
  {
    if t !in s.timers then s
    else
      var task := s.timers[t];
      HandlerState(s.pending - {task.requestId}, s.timers - {t},
                   Settle(s.settled, task.promise, Rejected(TimeoutMessage(task.requestType, ms))), s.next)
  }

  /** `clearPendingRequests`: clear every entry's timer, reject every entry's promise, empty the table. */
  function Clear(s: HandlerState): HandlerState
  {
    HandlerState(
      map[],
      s.timers - TimersOf(s.pending),
      map p | p in s.settled.Keys + PromisesOf(s.pending) ::
        if p in s.settled then s.settled[p] else Rejected(CancelledMessage),
      s.next)
  }

  // ---------------------------------------------------------------- invariants

  /** The entry under `id` has its timer scheduled, and that timer closes over this id and this entry's promise. */
  predicate EntryOk(s: HandlerState, id: string)
    requires id in s.pending
  {
    var e := s.pending[id];
    e.timer in s.timers && s.timers[e.timer].requestId == id && s.timers[e.timer].promise == e.promise
  }

  /**
   * The tracker's invariant: every pending entry has its timer; every scheduled
   * timer belongs to a promise of its own that has not settled (so a settled
   * promise never has a timer left running, as long as `sendFn` does not
   * throw, which the model assumes); tickets are below the counter.
   */
  predicate Inv(s: HandlerState)
  {
    EntriesOk(s) && TimersLive(s) && TimersDistinct(s) && SettledBelow(s)
  }

  predicate EntriesOk(s: HandlerState)
  {
    forall id :: id in s.pending ==> EntryOk(s, id)
  }

  predicate TimersLive(s: HandlerState)
  {
    forall t :: t in s.timers ==> t < s.next && s.timers[t].promise < s.next && s.timers[t].promise !in s.settled
  }

  predicate TimersDistinct(s: HandlerState)
  {
    forall t, u :: t in s.timers && u in s.timers && s.timers[t].promise == s.timers[u].promise ==> t == u
  }

  predicate SettledBelow(s: HandlerState)
  {
    forall p :: p in s.settled ==> p < s.next
  }

  /** No timer is scheduled except for a pending entry; this holds as long as request ids are not reused. */
  predicate Tidy(s: HandlerState)
  {
    s.timers.Keys == TimersOf(s.pending)
  }

  /** Every outcome recorded before a step is still recorded, unchanged, after it. */
  predicate SettledKept(s: HandlerState, s': HandlerState)
  {
    forall p :: p in s.settled ==> p in s'.settled && s'.settled[p] == s.settled[p]
  }

  lemma InitialIsValid()
    ensures Inv(Initial) && Tidy(Initial)
  {
  }

  /** Registering keeps the invariant; it keeps the tracker tidy when the id is not already pending. */
  lemma RegisterPreserves(s: HandlerState, request: JsValue, now: int)
    requires Inv(s) && Addressed(request)
    ensures Inv(Register(s, request, now))
    ensures SettledKept(s, Register(s, request, now))
    ensures Tidy(s) && IdOf(request).s !in s.pending ==> Tidy(Register(s, request, now))
  {
    RegisterEntriesOk(s, request, now);
    RegisterTimersLive(s, request, now);
    RegisterTimersDistinct(s, request, now);
    if Tidy(s) && IdOf(request).s !in s.pending {
      RegisterKeepsTidy(s, request, now);
    }
  }

  lemma RegisterKeepsTidy(s: HandlerState, request: JsValue, now: int)
    requires Tidy(s) && Addressed(request) && IdOf(request).s !in s.pending
    ensures Tidy(Register(s, request, now))
  {
    var s' := Register(s, request, now);
    TimersOfAdd(s.pending, IdOf(request).s, s'.pending[IdOf(request).s]);
  }

  lemma RegisterEntriesOk(s: HandlerState, request: JsValue, now: int)
    requires Inv(s) && Addressed(request)
    ensures EntriesOk(Register(s, request, now))
  {
    var s' := Register(s, request, now);
    var id := IdOf(request).s;
    forall i | i in s'.pending ensures EntryOk(s', i) {
      if i != id {
        assert EntryOk(s, i);
        assert s.pending[i].timer < s.next;
      }
    }
  }

  lemma RegisterTimersLive(s: HandlerState, request: JsValue, now: int)
    requires Inv(s) && Addressed(request)
    ensures TimersLive(Register(s, request, now))
  {
    var s' := Register(s, request, now);
    forall t | t in s'.timers
      ensures t < s'.next && s'.timers[t].promise < s'.next && s'.timers[t].promise !in s'.settled
    {
      if t != s.next { assert t in s.timers; }
    }
  }

  lemma RegisterTimersDistinct(s: HandlerState, request: JsValue, now: int)
    requires Inv(s) && Addressed(request)
    ensures TimersDistinct(Register(s, request, now))
  {
    var s' := Register(s, request, now);
    forall t, u | t in s'.timers && u in s'.timers && s'.timers[t].promise == s'.timers[u].promise
      ensures t == u
    {
      if t != s.next && u != s.next {
        assert s.timers[t].promise == s.timers[u].promise;
      }
    }
  }

  /** Handling a response keeps the invariant and tidiness, and never changes an earlier outcome. */
  lemma RespondPreserves(s: HandlerState, response: JsValue)
    requires Inv(s)
    ensures Inv(Respond(s, response).0)
    ensures SettledKept(s, Respond(s, response).0)
    ensures Tidy(s) ==> Tidy(Respond(s, response).0)
  {
    var (s', handled) := Respond(s, response);
    if handled {
      var id := IdOf(response).s;
      var e := s.pending[id];
      assert EntryOk(s, id);
      forall i | i in s'.pending ensures EntryOk(s', i) {
        assert EntryOk(s, i);
        assert s.timers[s.pending[i].timer].requestId == i;
      }
      if Tidy(s) {
        RespondKeepsTidy(s, response);
      }
    }
  }

  lemma RespondKeepsTidy(s: HandlerState, response: JsValue)
    requires Inv(s) && Tidy(s) && Respond(s, response).1
    ensures Tidy(Respond(s, response).0)
  {
    var s' := Respond(s, response).0;
    var id := IdOf(response).s;
    assert EntryOk(s, id);
    forall t | t in TimersOf(s'.pending) ensures t in s'.timers.Keys {
      var i :| i in s'.pending && s'.pending[i].timer == t;
      assert EntryOk(s, i);
    }
    forall t | t in s'.timers.Keys ensures t in TimersOf(s'.pending) {
      var i :| i in s.pending && s.pending[i].timer == t;
      assert i != id;
      assert i in s'.pending;
    }
  }

  /** A timer firing keeps the invariant and never changes an earlier outcome. */
  lemma TimeoutPreserves(s: HandlerState, t: TimerId, ms: int)
    requires Inv(s)
    ensures Inv(Timeout(s, t, ms))
    ensures SettledKept(s, Timeout(s, t, ms))
    ensures Tidy(s) ==> Tidy(Timeout(s, t, ms))
  {
    var s' := Timeout(s, t, ms);
    if t in s.timers {
      forall i | i in s'.pending ensures EntryOk(s', i) {
        assert EntryOk(s, i);
        assert s.timers[s.pending[i].timer].requestId == i;
      }
      if Tidy(s) {
        TimeoutKeepsTidy(s, t, ms);
      }
    }
  }

  /** In a tidy tracker a scheduled timer is the timer of the entry under its request id, so both go together. */
  lemma TimeoutKeepsTidy(s: HandlerState, t: TimerId, ms: int)
    requires Inv(s) && Tidy(s) && t in s.timers
    ensures Tidy(Timeout(s, t, ms))
  {
    var id := s.timers[t].requestId;
    var i :| i in s.pending && s.pending[i].timer == t;
    assert EntryOk(s, i);
    assert i == id;
    TimersOfRemove(s.pending, id);
  }

  /** Clearing keeps the invariant; a tidy tracker is left with no timer at all. */
  lemma ClearPreserves(s: HandlerState)
    requires Inv(s)
    ensures Inv(Clear(s))
    ensures SettledKept(s, Clear(s))
    ensures Tidy(s) ==> Clear(s).timers == map[] && Tidy(Clear(s))
  {
    var s' := Clear(s);
    forall t | t in s'.timers ensures s'.timers[t].promise !in s'.settled {
      var p := s.timers[t].promise;
      forall i | i in s.pending ensures s.pending[i].promise != p {
        assert EntryOk(s, i);
        assert s.pending[i].timer in TimersOf(s.pending);
      }
    }
  }

  // ---------------------------------------------------------------- what the caller observes

  /** A response is handled exactly when its id is a non-empty string under which an entry is pending; otherwise nothing changes. */
  lemma RespondMatchesById(s: HandlerState, response: JsValue)
    requires Inv(s)
    ensures Respond(s, response).1 <==> IdOf(response).Str? && IdOf(response).s != "" && IdOf(response).s in s.pending
    ensures !Respond(s, response).1 ==> Respond(s, response).0 == s
    ensures Respond(s, response).1 ==>
              var e := s.pending[IdOf(response).s];
              var s' := Respond(s, response).0;
              IdOf(response).s !in s'.pending && e.timer !in s'.timers
              && s'.settled == s.settled[e.promise := ResponseOutcome(response)]
  {
    if Respond(s, response).1 {
      assert EntryOk(s, IdOf(response).s);
    }
  }

  /** A second delivery of the same response finds nothing and changes nothing. */
  lemma RespondAtMostOnce(s: HandlerState, response: JsValue)
    ensures Respond(Respond(s, response).0, response) == (Respond(s, response).0, false)
  {
  }

  /** A success response to a freshly sent request resolves the caller's promise with that response and removes the entry. */
  lemma RoundTrip(s: HandlerState, request: JsValue, response: JsValue, now: int)
    requires Inv(s) && Addressed(request) && IdOf(request).s != ""
    requires IdOf(response) == IdOf(request) && !IsErrorResponse(response)
    ensures var s1 := Register(s, request, now);
            var (s2, handled) := Respond(s1, response);
            handled && s2.settled == s.settled[s.next + 1 := Resolved(response)]
            && IdOf(request).s !in s2.pending && s.next !in s2.timers
  {
    RegisterPreserves(s, request, now);
  }

  /** An error response to a pending request rejects its promise with "code: message". */
  lemma ErrorResponseRejects(s: HandlerState, request: JsValue, code: string, message: string, now: int)
    requires Inv(s) && Addressed(request) && IdOf(request).s != ""
    ensures var response := CreateErrorResponse(IdOf(request).s, code, message, None);
            var (s2, handled) := Respond(Register(s, request, now), response);
            handled && s.next + 1 in s2.settled && s2.settled[s.next + 1] == Rejected(code + ": " + message)
  {
    var id := IdOf(request).s;
    var response := CreateErrorResponse(id, code, message, None);
    ErrorResponseFields(id, code, message, None);
    CreateErrorResponseIsErrorResponse(id, code, message, None);
    assert ResponseOutcome(response) == Rejected(code + ": " + message);
    var s1 := Register(s, request, now);
    assert IdOf(response) == Str(id) && id in s1.pending && s1.pending[id].promise == s.next + 1;
    assert s.next + 1 !in s1.settled by {
      assert SettledBelow(s);
    }
  }

  /** A request left unanswered is rejected with the timeout message, and a late response to it is ignored. */
  lemma TimeoutThenLateResponse(s: HandlerState, request: JsValue, response: JsValue, now: int, ms: int)
    requires Inv(s) && Addressed(request)
    ensures var s1 := Timeout(Register(s, request, now), s.next, ms);
            s1.settled[s.next + 1] == Rejected(TimeoutMessage(TypeOf(request).s, ms))
            && IdOf(request).s !in s1.pending
            && (IdOf(response) == IdOf(request) ==> Respond(s1, response) == (s1, false))
  {
  }

  /** Clearing rejects the promise of every pending entry with the cancellation message and empties the table. */
  lemma ClearRejectsEveryPending(s: HandlerState)
    requires Inv(s)
    ensures Clear(s).pending == map[]
    ensures forall id :: id in s.pending ==>
              s.pending[id].timer !in Clear(s).timers
              && Clear(s).settled[s.pending[id].promise] == Rejected(CancelledMessage)
  {
    forall id | id in s.pending
      ensures s.pending[id].promise in PromisesOf(s.pending) && s.pending[id].promise !in s.settled
    {
      assert EntryOk(s, id);
    }
  }

  /**
   * Reusing a pending request's id overwrites its entry, so its timer is no
   * longer reachable from the table: clearing leaves it scheduled, and when it
   * fires it rejects the first caller with a timeout.
   */
  lemma ReusedIdLeavesTimer(s: HandlerState, request: JsValue, now1: int, now2: int, ms: int)
    requires Inv(s) && Addressed(request) && IdOf(request).s !in s.pending
    ensures var s2 := Register(Register(s, request, now1), request, now2);
            var s3 := Clear(s2);
            s.next in s3.timers && !Tidy(s2)
            && Timeout(s3, s.next, ms).settled[s.next + 1] == Rejected(TimeoutMessage(TypeOf(request).s, ms))
  {
    var id := IdOf(request).s;
    var s2 := Register(Register(s, request, now1), request, now2);
    PendingBelowNext(s);
    forall i | i in s2.pending
      ensures s2.pending[i].timer != s.next && s2.pending[i].promise != s.next + 1
    {
      if i != id { assert s2.pending[i] == s.pending[i]; }
    }
    assert s.next !in TimersOf(s2.pending);
    assert s.next + 1 !in PromisesOf(s2.pending);
    assert s2.timers[s.next] == TimeoutTask(id, TypeOf(request).s, s.next + 1);
    assert s.next + 1 !in s2.settled;
  }

  /** Every pending entry's tickets were drawn before the counter's current value. */
  lemma PendingBelowNext(s: HandlerState)
    requires Inv(s)
    ensures forall id :: id in s.pending ==> s.pending[id].timer < s.next && s.pending[id].promise < s.next
  {
    forall id | id in s.pending
      ensures s.pending[id].timer < s.next && s.pending[id].promise < s.next
    {
      assert EntryOk(s, id);
    }
  }

  /** Handing the request to `sendFn` after registering means a reply delivered from inside `sendFn` finds its entry; registering afterwards would lose it. */
  lemma RegisterBeforeSend(s: HandlerState, request: JsValue, reply: JsValue, now: int)
    requires Inv(s) && Addressed(request) && IdOf(request).s != "" && IdOf(request).s !in s.pending
    requires IdOf(reply) == IdOf(request)
    ensures Respond(Register(s, request, now), reply).1
    ensures !Respond(s, reply).1
    ensures s.next + 1 !in Register(Respond(s, reply).0, request, now).settled
  {
  }

  // ---------------------------------------------------------------- the class

  class MessageHandler {
    var pending: map<string, PendingRequest>
    var timers: map<TimerId, TimeoutTask>
    var settled: map<PromiseId, Outcome>
    var next: nat
    const requestTimeout: int

    function State(): HandlerState
      reads this
    {
      HandlerState(pending, timers, settled, next)
    }

    predicate Valid()
      reads this
    {
      Inv(State())
    }

    /** `new MessageHandler(requestTimeout = 30000)`. */
    constructor(requestTimeout: int := DefaultRequestTimeout)
      ensures State() == Initial && this.requestTimeout == requestTimeout
      ensures Valid() && Tidy(State())
    {
      pending := map[];
      timers := map[];
      settled := map[];
      next := 0;
      this.requestTimeout := requestTimeout;
    }

    /**
     * `sendRequest(request, sendFn)` with `bridge.send` as `sendFn`, at time
     * `now`. `syncReply` is a response the transport delivers to
     * `handleResponse` from inside `sendFn`, before `sendRequest` returns.
     * Returns the caller's promise.
     */
    method SendRequest(request: JsValue, bridge: Transport.Bridge, now: int, syncReply: Option<JsValue>)
      returns (promise: PromiseId)
      requires Valid() && IsRequestMessage(request)
      modifies this, bridge
      ensures Valid()
      ensures promise == old(next) + 1 && promise !in old(settled)
      ensures State() == if syncReply.None? then Register(old(State()), request, now)
                         else Respond(Register(old(State()), request, now), syncReply.value).0
      ensures bridge.sent == old(bridge.sent) + [request]
      ensures bridge.listening == old(bridge.listening) && bridge.unsubscribeCalls == old(bridge.unsubscribeCalls)
    {
      assert Addressed(request);
      promise := Enqueue(request, now);
      bridge.Send(request);
      if syncReply.Some? {
        var _ := HandleResponse(syncReply.value);
      }
    }

    /** The part of `sendRequest` before `sendFn`: schedule the timer and insert the pending entry. */
    method Enqueue(request: JsValue, now: int) returns (promise: PromiseId)
      requires Valid() && Addressed(request)
      modifies this
      ensures Valid()
      ensures promise == old(next) + 1 && promise !in old(settled)
      ensures State() == Register(old(State()), request, now)
    {
      ghost var before := State();
      assert next + 1 !in settled by {
        assert SettledBelow(before);
      }
      var id := IdOf(request).s;
      var timer := next;
      promise := next + 1;
      timers := timers[timer := TimeoutTask(id, TypeOf(request).s, promise)];
      pending := pending[id := PendingRequest(request, timer, promise, now)];
      next := next + 2;
      assert State() == Register(before, request, now);
      RegisterPreserves(before, request, now);
    }

    /** `handleResponse(response)`: true exactly when a pending entry was found and settled. */
    method HandleResponse(response: JsValue) returns (handled: bool)
      requires Valid()
      modifies this
      ensures Valid()
      ensures (State(), handled) == Respond(old(State()), response)
    {
      RespondPreserves(State(), response);
      var id := IdOf(response);
      if !id.Str? || id.s == "" || id.s !in pending {
        return false;
      }
      var e := pending[id.s];
      timers := timers - {e.timer};
      pending := pending - {id.s};
      settled := Settle(settled, e.promise, ResponseOutcome(response));
      handled := true;
    }

    /** The timeout callback of timer `t`; a timer that was cleared or has fired does nothing. */
    method FireTimeout(t: TimerId)
      requires Valid()
      modifies this
      ensures Valid()
      ensures State() == Timeout(old(State()), t, requestTimeout)
      ensures old(Tidy(State())) ==> Tidy(State())
    {
      TimeoutPreserves(State(), t, requestTimeout);
      if t in timers {
        var task := timers[t];
        timers := timers - {t};
        pending := pending - {task.requestId};
        settled := Settle(settled, task.promise, Rejected(TimeoutMessage(task.requestType, requestTimeout)));
      }
    }

    /** `clearPendingRequests()`: one entry at a time, in any order. */
    method ClearPendingRequests()
      requires Valid()
      modifies this
      ensures Valid()
      ensures State() == Clear(old(State()))
    {
      ClearPreserves(State());
      while pending.Keys != {}
        invariant Clear(State()) == Clear(old(State()))
        decreases |pending.Keys|
      {
        var id :| id in pending.Keys;
        ghost var keys := pending.Keys;
        ClearStep(State(), id);
        ClearEntry(id);
        assert pending.Keys == keys - {id};
      }
      ClearEmpty(State());
    }

    /** The body of the loop in `clearPendingRequests`, for the entry under `id`. */
    method ClearEntry(id: string)
      requires id in pending
      modifies this
      ensures State() == ClearOne(old(State()), id)
    {
      var e := pending[id];
      timers := timers - {e.timer};
      settled := Settle(settled, e.promise, Rejected(CancelledMessage));
      pending := pending - {id};
    }
  }

  /** One turn of the loop in `clearPendingRequests`: clear the entry's timer, reject its promise, delete it. */
  function ClearOne(s: HandlerState, id: string): HandlerState
    requires id in s.pending
  {
    var e := s.pending[id];
    HandlerState(s.pending - {id}, s.timers - {e.timer},
                 Settle(s.settled, e.promise, Rejected(CancelledMessage)), s.next)
  }

  /** Clearing one entry by hand and then the rest is the same as clearing them all. */
  lemma ClearStep(s: HandlerState, id: string)
    requires id in s.pending
    ensures Clear(ClearOne(s, id)) == Clear(s)
  {
    TimersOfRemove(s.pending, id);
  }

  /** With nothing pending, clearing changes nothing. */
  lemma ClearEmpty(s: HandlerState)
    requires s.pending.Keys == {}
    ensures Clear(s) == s
  {
    assert s.pending == map[];
    assert TimersOf(s.pending) == {};
    assert PromisesOf(s.pending) == {};
  }
}
