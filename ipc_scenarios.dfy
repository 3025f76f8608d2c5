/**
 * Exchanges through a freshly built `IPCManager`, for any request and reply
 * of the right kinds: a request answered once and then again, an error
 * reply, a timeout followed by a late reply, disposal with a request still
 * pending, and notification fan-out with a throwing subscriber and an
 * unsubscribe. The `startSession` messages below meet each exchange's
 * preconditions.
 */
module IpcScenarios {
  import opened Wrappers
  import opened Js
  import opened Protocol
  import opened MessageHandling
  import opened Notifications
  import opened Ipc
  import Transport

  const RequestId: string := "6f1c2a3b-4d5e-4f60-8a7b-9c0d1e2f3a4b"

  function StartSession(): JsValue
  {
    Obj([Prop("type", Str("startSession")), Prop("id", Str(RequestId))])
  }

  function StartSessionResponse(): JsValue
  {
    Obj([Prop("type", Str("startSessionResponse")), Prop("id", Str(RequestId)), Prop("payload", Obj([]))])
  }

  lemma StartSessionIsRequest()
    ensures IsRequestMessage(StartSession()) && IdOf(StartSession()) == Str(RequestId)
    ensures TypeOf(StartSession()) == Str("startSession")
  {
    var ps := StartSession().props;
    assert Lookup(ps[1..], "id") == Some(Str(RequestId));
    assert ps[1..][1..] == [];
    assert Lookup(ps[1..], "timestamp") == None;
  }

  lemma StartSessionResponseIsResponse()
    ensures IsResponseMessage(StartSessionResponse()) && IdOf(StartSessionResponse()) == Str(RequestId)
    ensures !IsErrorResponse(StartSessionResponse())
  {
    var ps := StartSessionResponse().props;
    assert Lookup(ps[1..], "id") == Some(Str(RequestId));
    assert ps[1..][1..][1..] == [];
    assert Lookup(ps[1..][1..], "timestamp") == None;
    assert Lookup(ps[1..], "timestamp") == None;
    assert "startSessionResponse" == ResponseTypes[0];
  }

  /** A reply resolves the caller once; the same reply again is ignored. */
  method RoundTripOnce(request: JsValue, response: JsValue) returns (first: Route, second: Route, outcome: Outcome)
    requires IsRequestMessage(request) && IdOf(request).s != ""
    requires IsResponseMessage(response) && IdOf(response) == IdOf(request) && !IsErrorResponse(response)
    ensures first == ToHandler(true) && second == ToHandler(false)
    ensures outcome == Resolved(response)
  {
    var bridge := new Transport.Bridge();
    var m := new IPCManager(bridge);
    var promise := m.SendRequest(request, 0);
    ghost var s2 := RoundTripFacts(request, response);
    assert DestinationOf(response) == Handler;
    first := m.Deliver(response, h => false);
    assert m.messageHandler.State() == s2;
    second := m.Deliver(response, h => false);
    outcome := m.messageHandler.settled[promise];
  }

  /** The tracker's state after the request is registered and its reply handled; handling the reply again changes nothing. */
  lemma RoundTripFacts(request: JsValue, response: JsValue) returns (s2: HandlerState)
    requires IsRequestMessage(request) && IdOf(request).s != ""
    requires IsResponseMessage(response) && IdOf(response) == IdOf(request) && !IsErrorResponse(response)
    ensures Respond(Register(Initial, request, 0), response) == (s2, true)
    ensures Respond(s2, response) == (s2, false)
    ensures 1 in s2.settled && s2.settled[1] == Resolved(response)
  {
    InitialIsValid();
    RoundTrip(Initial, request, response, 0);
    RespondAtMostOnce(Register(Initial, request, 0), response);
    s2 := Respond(Register(Initial, request, 0), response).0;
  }

  /** An error reply built by `createErrorResponse` rejects the caller with "code: message". */
  method ErrorReply(request: JsValue, code: string, message: string) returns (route: Route, outcome: Outcome)
    requires IsRequestMessage(request) && IdOf(request).s != ""
    ensures route == ToHandler(true) && outcome == Rejected(code + ": " + message)
  {
    var bridge := new Transport.Bridge();
    var m := new IPCManager(bridge);
    var promise := m.SendRequest(request, 0);
    var reply := CreateErrorResponse(IdOf(request).s, code, message, None);
    CreateErrorResponseIsErrorResponse(IdOf(request).s, code, message, None);
    DestinationOfKinds(reply);
    InitialIsValid();
    ErrorResponseRejects(Initial, request, code, message, 0);
    route := m.Deliver(reply, h => false);
    outcome := m.messageHandler.settled[promise];
  }

  /** A request that times out is rejected with the timeout message, and the late reply is ignored. */
  method TimeoutThenLateReply(request: JsValue, response: JsValue, ms: int) returns (outcome: Outcome, late: Route)
    requires IsRequestMessage(request)
    requires IsResponseMessage(response) && IdOf(response) == IdOf(request)
    ensures outcome == Rejected(TimeoutMessage(TypeOf(request).s, ms))
    ensures late == ToHandler(false)
  {
    var bridge := new Transport.Bridge();
    var m := new IPCManager(bridge, ms);
    var promise := m.SendRequest(request, 0);
    TimeoutThenLateResponse(Initial, request, response, 0, ms);
    m.messageHandler.FireTimeout(promise - 1);
    outcome := m.messageHandler.settled[promise];
    late := m.Deliver(response, h => false);
  }

  /** Disposing rejects what is pending with the cancellation message and detaches once; later replies are dropped. */
  method DisposeCancels(request: JsValue, response: JsValue) returns (outcome: Outcome, unsubscribes: nat, route: Route)
    requires IsRequestMessage(request)
    ensures outcome == Rejected(CancelledMessage)
    ensures unsubscribes == 1 && route == Dropped
  {
    var bridge := new Transport.Bridge();
    var m := new IPCManager(bridge);
    var promise := m.SendRequest(request, 0);
    ghost var before := m.messageHandler.State();
    InitialIsValid();
    RegisterPreserves(Initial, request, 0);
    ClearRejectsEveryPending(before);
    assert before.pending[IdOf(request).s].promise == promise;
    m.Dispose();
    outcome := m.messageHandler.settled[promise];
    m.Dispose();
    unsubscribes := bridge.unsubscribeCalls;
    route := m.Deliver(response, h => false);
  }

  /** Three subscribers of which the second throws: all three run, and after unsubscribing the second only the others do. */
  method FanOut(n: JsValue, a: HandlerId, b: HandlerId, c: HandlerId)
    returns (before: seq<Invocation>, after: seq<Invocation>, again: seq<Invocation>)
    requires IsNotificationMessage(n) && a != b && b != c
    ensures before == [Invocation(a, false), Invocation(b, true), Invocation(c, false)]
    ensures after == [Invocation(a, false), Invocation(c, false)]
    ensures again == after
  {
    var t := TypeOf(n).s;
    var d := new NotificationDispatcher();
    var ua := d.Subscribe(t, a);
    var ub := d.Subscribe(t, b);
    var uc := d.Subscribe(t, c);
    assert d.handlers[t] == [a, b, c];
    var dispatched;
    dispatched, before := d.Dispatch(n, h => h == b);
    d.Unsubscribe(ub);
    UnsubscribeMiddle(a, b, c);
    assert d.handlers[t] == [a, c];
    dispatched, after := d.Dispatch(n, h => h == b);
    d.Unsubscribe(ub);
    assert IndexOf([a, c], b) == -1;
    dispatched, again := d.Dispatch(n, h => h == b);
  }

  /** `idleDetected` with an empty payload is a notification. */
  lemma IdleDetectedIsNotification()
    ensures IsNotificationMessage(Obj([Prop("type", Str("idleDetected")), Prop("payload", Obj([]))]))
  {
    assert "idleDetected" == NotificationTypes[1];
  }
}
