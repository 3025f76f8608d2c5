/**
 * `NotificationDispatcher`: for each notification type, the callbacks
 * subscribed to it, in subscription order. Callbacks are opaque identities;
 * what one does when invoked is outside the model except whether it throws,
 * which `dispatch` catches and logs.
 */
module Notifications {
  import opened Js
  import opened Protocol

  /** The identity of a callback function. */
  type HandlerId = nat

  /** The function `subscribe` returns, by what it closes over. */
  datatype Unsubscriber = Unsubscriber(notificationType: string, handler: HandlerId)

  /** One call made by `dispatch`: the callback, and whether it threw (in which case the error was logged). */
  datatype Invocation = Invocation(handler: HandlerId, threw: bool)

  /** `list.indexOf(h)`: the first position of `h`, or -1. */
  function IndexOf(list: seq<HandlerId>, h: HandlerId): (i: int)
    ensures -1 <= i < |list|
    ensures i == -1 <==> h !in list
    ensures 0 <= i ==> list[i] == h && h !in list[..i]
  {
    if list == [] then -1
    else if list[0] == h then 0
    else
      var j := IndexOf(list[1..], h);
      assert list[1..][..if j < 0 then 0 else j] == list[1..if j < 0 then 1 else j + 1];
      if j == -1 then -1 else j + 1
  }

  /** The unsubscribe step: `splice` out the first occurrence of `h`, if there is one. */
  function RemoveFirst(list: seq<HandlerId>, h: HandlerId): seq<HandlerId>
  {
    var i := IndexOf(list, h);
    if i == -1 then list else list[..i] + list[i + 1..]
  }

  /** The callbacks subscribed to `t`; a type never subscribed to has none. */
  function HandlersFor(handlers: map<string, seq<HandlerId>>, t: string): seq<HandlerId>
  {
    if t in handlers then handlers[t] else []
  }

  /** The calls `dispatch` makes for a list of subscribers: every one, in order, whether or not earlier ones threw. */
  function Invocations(list: seq<HandlerId>, throws: HandlerId -> bool): seq<Invocation>
  {
    seq(|list|, i requires 0 <= i < |list| => Invocation(list[i], throws(list[i])))
  }

  /** What is left after unsubscribing: `h` loses exactly one occurrence when it has one, and nothing else moves. */
  lemma RemoveFirstRemovesOne(list: seq<HandlerId>, h: HandlerId)
    ensures h !in list ==> RemoveFirst(list, h) == list
    ensures h in list ==> |RemoveFirst(list, h)| == |list| - 1
    ensures multiset(RemoveFirst(list, h)) == multiset(list) - multiset{h}
    ensures h in list ==>
              exists i :: 0 <= i < |list| && list[i] == h && h !in list[..i]
                && RemoveFirst(list, h) == list[..i] + list[i + 1..]
  {
    var i := IndexOf(list, h);
    if i != -1 {
      assert list == list[..i] + [list[i]] + list[i + 1..];
      assert multiset(list) == multiset(list[..i]) + multiset{h} + multiset(list[i + 1..]);
    } else {
      assert multiset(list)[h] == 0;
    }
  }

  /** Removing one handler keeps the others in their relative order. */
  lemma RemoveFirstKeepsOrder(list: seq<HandlerId>, h: HandlerId, a: HandlerId, b: HandlerId)
    requires a != h && b != h
    requires exists i, j :: 0 <= i < j < |list| && list[i] == a && list[j] == b
    ensures exists i, j :: 0 <= i < j < |RemoveFirst(list, h)| && RemoveFirst(list, h)[i] == a && RemoveFirst(list, h)[j] == b
  {
    var i, j :| 0 <= i < j < |list| && list[i] == a && list[j] == b;
    var k := IndexOf(list, h);
    if k != -1 {
      assert i != k && j != k;
      SpliceMoves(list, k, i);
      SpliceMoves(list, k, j);
      var i' := if i < k then i else i - 1;
      var j' := if j < k then j else j - 1;
      assert i' < j' && RemoveFirst(list, h)[i'] == a && RemoveFirst(list, h)[j'] == b;
    } else {
      assert RemoveFirst(list, h)[i] == a && RemoveFirst(list, h)[j] == b;
    }
  }

  /** Cutting out position `k` shifts each later position down by one. */
  lemma SpliceMoves(list: seq<HandlerId>, k: nat, i: nat)
    requires k < |list| && i < |list| && i != k
    ensures |list[..k] + list[k + 1..]| == |list| - 1
    ensures (list[..k] + list[k + 1..])[if i < k then i else i - 1] == list[i]
  {
  }

  /** A handler subscribed once and unsubscribed twice is gone after the first call; the second changes nothing. */
  lemma UnsubscribeTwiceIsOnce(list: seq<HandlerId>, h: HandlerId)
    requires multiset(list)[h] <= 1
    ensures h !in RemoveFirst(list, h)
    ensures RemoveFirst(RemoveFirst(list, h), h) == RemoveFirst(list, h)
  {
    RemoveFirstRemovesOne(list, h);
    assert multiset(RemoveFirst(list, h))[h] == 0;
  }

  /** Subscribing and then unsubscribing a handler that was not yet subscribed restores the list. */
  lemma SubscribeThenUnsubscribe(list: seq<HandlerId>, h: HandlerId)
    requires h !in list
    ensures RemoveFirst(list + [h], h) == list
  {
    var i := IndexOf(list + [h], h);
    assert (list + [h])[..|list|] == list;
    assert i == |list|;
  }

  /** Unsubscribing B from [A, B, C] leaves [A, C]. */
  lemma UnsubscribeMiddle(a: HandlerId, b: HandlerId, c: HandlerId)
    requires a != b
    ensures RemoveFirst([a, b, c], b) == [a, c]
  {
    assert IndexOf([a, b, c], b) == 1 by {
      assert [a, b, c][1..] == [b, c];
    }
  }

  /** Every subscriber is called once, in order, and a throwing one does not stop the rest. */
  lemma InvocationsCallEveryone(list: seq<HandlerId>, throws: HandlerId -> bool)
    ensures |Invocations(list, throws)| == |list|
    ensures forall i :: 0 <= i < |list| ==> Invocations(list, throws)[i].handler == list[i]
    ensures forall i :: 0 <= i < |list| ==> (Invocations(list, throws)[i].threw <==> throws(list[i]))
  {
  }

  class NotificationDispatcher {
    var handlers: map<string, seq<HandlerId>>

    constructor()
      ensures handlers == map[]
    {
      handlers := map[];
    }

    /** `subscribe(type, handler)`: append to the type's list, creating it if needed, and return the unsubscribe function. */
    method Subscribe(t: string, h: HandlerId) returns (u: Unsubscriber)
      modifies this
      ensures handlers == old(handlers)[t := HandlersFor(old(handlers), t) + [h]]
      ensures u == Unsubscriber(t, h)
    {
      if t !in handlers {
        handlers := handlers[t := []];
      }
      handlers := handlers[t := handlers[t] + [h]];
      u := Unsubscriber(t, h);
    }

    /** Calling an unsubscribe function: remove the first occurrence of its handler from its type's list, if any. */
    method Unsubscribe(u: Unsubscriber)
      modifies this
      ensures u.notificationType in old(handlers) ==>
                handlers == old(handlers)[u.notificationType := RemoveFirst(old(handlers)[u.notificationType], u.handler)]
      ensures u.notificationType !in old(handlers) ==> handlers == old(handlers)
    {
      if u.notificationType in handlers {
        var list := handlers[u.notificationType];
        var index := IndexOf(list, u.handler);
        if index != -1 {
          handlers := handlers[u.notificationType := list[..index] + list[index + 1..]];
        }
      }
    }

    /**
     * `dispatch(notification)`: `throws(h)` says whether callback `h` throws.
     * Returns whether any callback was called, and the calls in order.
     */
    method Dispatch(notification: JsValue, throws: HandlerId -> bool) returns (dispatched: bool, calls: seq<Invocation>)
      ensures dispatched <==>
                IsNotificationMessage(notification) && |HandlersFor(handlers, TypeOf(notification).s)| > 0
      ensures dispatched ==> calls == Invocations(HandlersFor(handlers, TypeOf(notification).s), throws)
      ensures !dispatched ==> calls == []
      ensures dispatched <==> calls != []
    {
      calls := [];
      if !IsNotificationMessage(notification) {
        return false, [];
      }
      var t := TypeOf(notification).s;
      if t !in handlers || |handlers[t]| == 0 {
        return false, [];
      }
      var list := handlers[t];
      var i := 0;
      while i < |list|
        invariant 0 <= i <= |list|
        invariant calls == Invocations(list[..i], throws)
      {
        // a callback that throws is caught and logged; the loop goes on
        calls := calls + [Invocation(list[i], throws(list[i]))];
        i := i + 1;
        assert list[..i] == list[..i - 1] + [list[i - 1]];
      }
      assert list[..i] == list;
      dispatched := true;
    }
  }
}
