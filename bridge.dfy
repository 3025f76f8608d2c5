/**
 * The bridge the IPC layer is given: a fire-and-forget `send` and an
 * `onMessage` registration that hands back an unsubscribe function. Only what
 * the core observes is kept: the messages sent, whether a listener is
 * registered, and how many times the unsubscribe function was called.
 */
module Transport {
  import opened Js

  class Bridge {
    /** Every message handed to `send`, oldest first. */
    var sent: seq<JsValue>
    /** Whether a callback registered through `onMessage` is still attached. */
    var listening: bool
    /** How many times the unsubscribe function returned by `onMessage` was called. */
    var unsubscribeCalls: nat

    constructor()
      ensures sent == [] && !listening && unsubscribeCalls == 0
    {
      sent := [];
      listening := false;
      unsubscribeCalls := 0;
    }

    /** `send(message)`. */
    method Send(message: JsValue)
      modifies this
      ensures sent == old(sent) + [message]
      ensures listening == old(listening) && unsubscribeCalls == old(unsubscribeCalls)
    {
      sent := sent + [message];
    }

    /** `onMessage(callback)`: attaches the callback. */
    method OnMessage()
      modifies this
      ensures listening && sent == old(sent) && unsubscribeCalls == old(unsubscribeCalls)
    {
      listening := true;
    }

    /** The function `onMessage` returned: detaches the callback. */
    method Unsubscribe()
      modifies this
      ensures !listening && sent == old(sent) && unsubscribeCalls == old(unsubscribeCalls) + 1
    {
      listening := false;
      unsubscribeCalls := unsubscribeCalls + 1;
    }
  }
}
