/**
 * `IPCManager`: owns one `MessageHandler` and one `NotificationDispatcher`,
 * attaches one callback to its bridge, routes every inbound message through
 * that callback, and detaches it at most once on `dispose`.
 */
module Ipc {
  import opened Wrappers
  import opened Js
  import opened Protocol
  import opened MessageHandling
  import opened Notifications
  import Transport

  /** Where the bridge callback sent an inbound message. */
  datatype Route =
    | ToHandler(handled: bool)
    | ToDispatcher(dispatched: bool, calls: seq<Invocation>)
    | Dropped

  /** The callback's decision: responses (errors included) first, then notifications, and nothing else. */
  datatype Destination = Handler | Dispatcher | Nowhere

  function DestinationOf(message: JsValue): (d: Destination)
    ensures d == Nowhere <==> !IsResponseMessage(message) && !IsNotificationMessage(message)
  {
    if IsResponseMessage(message) then Handler
    else if IsNotificationMessage(message) then Dispatcher
    else Nowhere
  }

  /** Every error response goes to the tracker, whatever its id; requests never go anywhere. */
  lemma DestinationOfKinds(message: JsValue)
    ensures IsErrorResponse(message) ==> DestinationOf(message) == Handler
    ensures IsRequestMessage(message) ==> DestinationOf(message) == Nowhere
    ensures IsNotificationMessage(message) ==> DestinationOf(message) == Dispatcher
  {
    ClassificationIsExclusive(message);
  }

  class IPCManager {
    const bridge: Transport.Bridge
    const messageHandler: MessageHandler
    const notificationDispatcher: NotificationDispatcher
    /** `unsubscribeFromBridge !== null`. */
    var subscribed: bool

    predicate Valid()
      reads this, bridge, messageHandler
    {
      messageHandler.Valid() && subscribed == bridge.listening
    }

    /** `new IPCManager(bridge, requestTimeout = 30000)`: build the two parts and attach the callback. */
    constructor(bridge: Transport.Bridge, requestTimeout: int := DefaultRequestTimeout)
      modifies bridge
      ensures this.bridge == bridge && fresh(messageHandler) && fresh(notificationDispatcher)
      ensures messageHandler.State() == Initial && messageHandler.requestTimeout == requestTimeout
      ensures notificationDispatcher.handlers == map[]
      ensures subscribed && bridge.listening
      ensures bridge.sent == old(bridge.sent) && bridge.unsubscribeCalls == old(bridge.unsubscribeCalls)
      ensures Valid()
    {
      this.bridge := bridge;
      messageHandler := new MessageHandler(requestTimeout);
      notificationDispatcher := new NotificationDispatcher();
      new;
      bridge.OnMessage();
      subscribed := true;
    }

    /**
     * The bridge delivers `message` to the callback, if it is still attached.
     * `throws` says which notification callbacks throw.
     */
    method Deliver(message: JsValue, throws: HandlerId -> bool) returns (route: Route)
      requires Valid()
      modifies messageHandler
      ensures Valid()
      ensures !subscribed ==> route == Dropped
      ensures subscribed && DestinationOf(message) == Handler ==>
                route.ToHandler? && (messageHandler.State(), route.handled) == Respond(old(messageHandler.State()), message)
      ensures subscribed && DestinationOf(message) == Dispatcher ==>
                route.ToDispatcher? && route.dispatched
                  == (|HandlersFor(notificationDispatcher.handlers, TypeOf(message).s)| > 0)
                && route.calls == (if route.dispatched then
                                     Invocations(HandlersFor(notificationDispatcher.handlers, TypeOf(message).s), throws)
                                   else [])
      ensures subscribed && DestinationOf(message) == Nowhere ==> route == Dropped
      ensures !(subscribed && DestinationOf(message) == Handler) ==> messageHandler.State() == old(messageHandler.State())
    {
      if !subscribed {
        return Dropped;
      }
      if IsResponseMessage(message) {
        var handled := messageHandler.HandleResponse(message);
        route := ToHandler(handled);
      } else if IsNotificationMessage(message) {
        var dispatched, calls := notificationDispatcher.Dispatch(message, throws);
        route := ToDispatcher(dispatched, calls);
      } else {
        route := Dropped;
      }
    }

    /** `sendRequest(request)`: the tracker's `sendRequest` with the bridge's `send`. */
    method SendRequest(request: JsValue, now: int) returns (promise: PromiseId)
      requires Valid() && IsRequestMessage(request)
      modifies messageHandler, bridge
      ensures Valid()
      ensures messageHandler.State() == Register(old(messageHandler.State()), request, now)
      ensures promise == old(messageHandler.next) + 1
      ensures bridge.sent == old(bridge.sent) + [request]
      ensures bridge.listening == old(bridge.listening) && bridge.unsubscribeCalls == old(bridge.unsubscribeCalls)
    {
      promise := messageHandler.SendRequest(request, bridge, now, None);
    }

    /** `subscribeToNotification(type, handler)`: the dispatcher's `subscribe`. */
    method SubscribeToNotification(t: string, h: HandlerId) returns (u: Unsubscriber)
      modifies notificationDispatcher
      ensures notificationDispatcher.handlers ==
                old(notificationDispatcher.handlers)[t := HandlersFor(old(notificationDispatcher.handlers), t) + [h]]
      ensures u == Unsubscriber(t, h)
    {
      u := notificationDispatcher.Subscribe(t, h);
    }

    /** `dispose()`: detach the callback if it is still attached, then clear the pending requests. */
    method Dispose()
      requires Valid()
      modifies this, bridge, messageHandler
      ensures Valid() && !subscribed && !bridge.listening
      ensures bridge.unsubscribeCalls == old(bridge.unsubscribeCalls) + (if old(subscribed) then 1 else 0)
      ensures bridge.sent == old(bridge.sent)
      ensures messageHandler.State() == Clear(old(messageHandler.State()))
    {
      if subscribed {
        bridge.Unsubscribe();
        subscribed := false;
      }
      messageHandler.ClearPendingRequests();
    }
  }

  /** Disposing twice detaches from the bridge once, and the second call finds nothing pending. */
  method DisposeTwice(m: IPCManager)
    requires m.Valid() && m.subscribed
    modifies m, m.bridge, m.messageHandler
    ensures m.bridge.unsubscribeCalls == old(m.bridge.unsubscribeCalls) + 1
    ensures m.messageHandler.pending == map[] && !m.bridge.listening
  {
    m.Dispose();
    m.Dispose();
  }
}
