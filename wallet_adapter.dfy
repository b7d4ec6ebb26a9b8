/** The wallet adapter interface's data shapes and the event half of
    `BaseWalletAdapter`: a map from each wallet event to the set of callbacks
    subscribed to it, with `on`, `off` and `emit`. */
module WalletAdapter {
  import opened JsValues

  datatype WalletEvent = Connect | Disconnect | AccountChange

  /** An event callback. JavaScript `Set`s compare functions by identity;
      the model gives each callback an identity of its own. */
  datatype Callback = Callback(id: nat)

  datatype UnsignedTransaction = UnsignedTransaction(
    programId: string,
    functionName: string,
    inputs: seq<string>,
    fee: Option<int>)

  datatype SignedTransaction = SignedTransaction(transaction: string, signature: string)

  type Listeners = map<WalletEvent, set<Callback>>

  /** The callbacks `emit(event)` reaches: the event's set, or none when the
      event has no set yet. */
  function Subscribers(listeners: Listeners, event: WalletEvent): set<Callback> {
    if event in listeners then listeners[event] else {}
  }

  /** The listeners after `on(event, callback)`: the event gets a set if it
      had none, and the callback joins it. */
  function WithListener(listeners: Listeners, event: WalletEvent, callback: Callback): (r: Listeners)
    ensures Subscribers(r, event) == Subscribers(listeners, event) + {callback}
    ensures forall other :: other != event ==> Subscribers(r, other) == Subscribers(listeners, other)
    ensures r.Keys == listeners.Keys + {event}
  {
    listeners[event := Subscribers(listeners, event) + {callback}]
  }

  /** The listeners after `off(event, callback)`: the callback leaves the
      event's set if there is one; no set is ever created. */
  function WithoutListener(listeners: Listeners, event: WalletEvent, callback: Callback): (r: Listeners)
    ensures Subscribers(r, event) == Subscribers(listeners, event) - {callback}
    ensures forall other :: other != event ==> Subscribers(r, other) == Subscribers(listeners, other)
    ensures r.Keys == listeners.Keys
  {
    if event in listeners then listeners[event := listeners[event] - {callback}] else listeners
  }

  /** `invoked` calls every subscriber, nothing else, and each one once. */
  predicate InvokesEachOnce(invoked: seq<Callback>, subscribers: set<Callback>) {
    && (forall cb :: cb in invoked ==> cb in subscribers)
    && (forall cb :: cb in subscribers ==> cb in invoked)
    && (forall i, j :: 0 <= i < j < |invoked| ==> invoked[i] != invoked[j])
  }

  /** The event registry every adapter inherits from `BaseWalletAdapter`. */
  class ListenerRegistry {
    var listeners: Listeners

    constructor ()
      ensures listeners == map[]
    {
      listeners := map[];
    }

    method On(event: WalletEvent, callback: Callback)
      modifies this
      ensures listeners == WithListener(old(listeners), event, callback)
    {
      if event !in listeners {
        listeners := listeners[event := {}];
      }
      listeners := listeners[event := listeners[event] + {callback}];
    }

    method Off(event: WalletEvent, callback: Callback)
      modifies this
      ensures listeners == WithoutListener(old(listeners), event, callback)
    {
      if event in listeners {
        listeners := listeners[event := listeners[event] - {callback}];
      }
    }

    /** `emit(event)`: runs `forEach` over the event's set. The callbacks are
        code the adapter cannot see, so the model returns them in the order
        they are called. */
    method Emit(event: WalletEvent) returns (invoked: seq<Callback>)
      ensures InvokesEachOnce(invoked, Subscribers(listeners, event))
    {
      invoked := [];
      if event in listeners {
        var pending := listeners[event];
        while pending != {}
          invariant pending <= listeners[event]
          invariant forall cb :: cb in invoked <==> cb in listeners[event] && cb !in pending
          invariant forall i, j :: 0 <= i < j < |invoked| ==> invoked[i] != invoked[j]
          decreases |pending|
        {
          var cb :| cb in pending;
          invoked := invoked + [cb];
          pending := pending - {cb};
        }
      }
    }
  }

  /** After `on(e, cb)`, `emit(e)` reaches `cb`. */
  lemma OnThenEmitReaches(listeners: Listeners, event: WalletEvent, callback: Callback, invoked: seq<Callback>)
    requires InvokesEachOnce(invoked, Subscribers(WithListener(listeners, event, callback), event))
    ensures callback in invoked
  {
  }

  /** Subscribing the same callback twice stores it once. */
  lemma OnIdempotent(listeners: Listeners, event: WalletEvent, callback: Callback)
    ensures WithListener(WithListener(listeners, event, callback), event, callback)
         == WithListener(listeners, event, callback)
  {
    var once := WithListener(listeners, event, callback);
    assert Subscribers(once, event) + {callback} == Subscribers(once, event);
  }

  /** A call list that reaches each subscriber once holds each subscriber
      exactly once, so a callback subscribed any number of times runs once
      per emit, and the number of calls is the size of the set. */
  lemma {:induction false} InvokedOncePerEmit(invoked: seq<Callback>, subscribers: set<Callback>, callback: Callback)
    requires InvokesEachOnce(invoked, subscribers)
    ensures callback in subscribers ==> multiset(invoked)[callback] == 1
    ensures |invoked| == |subscribers|
  {
    if invoked != [] {
      var last := invoked[|invoked| - 1];
      var rest := invoked[..|invoked| - 1];
      assert invoked == rest + [last];
      forall i | 0 <= i < |rest|
        ensures rest[i] != last
      {
        assert rest[i] == invoked[i];
      }
      assert forall cb :: cb in rest <==> cb in subscribers - {last} by {
        forall cb ensures cb in rest <==> cb in subscribers - {last} {
          if cb in rest {
            var i :| 0 <= i < |rest| && rest[i] == cb;
            assert invoked[i] == cb;
          }
        }
      }
      InvokedOncePerEmit(rest, subscribers - {last}, callback);
    }
  }

  /** After `off(e, cb)`, `emit(e)` no longer reaches `cb`, even if it was
      subscribed before. */
  lemma OffThenEmitSkips(listeners: Listeners, event: WalletEvent, callback: Callback, invoked: seq<Callback>)
    requires InvokesEachOnce(invoked, Subscribers(WithoutListener(listeners, event, callback), event))
    ensures callback !in invoked
  {
  }

  /** `off` for an event that has no set changes nothing. */
  lemma OffUnknownEventIsNoop(listeners: Listeners, event: WalletEvent, callback: Callback)
    requires event !in listeners
    ensures WithoutListener(listeners, event, callback) == listeners
  {
  }

  /** `emit` for an event that has no set calls nothing. */
  lemma EmitUnknownEventCallsNothing(listeners: Listeners, event: WalletEvent, invoked: seq<Callback>)
    requires event !in listeners
    requires InvokesEachOnce(invoked, Subscribers(listeners, event))
    ensures invoked == []
  {
    InvokedOncePerEmit(invoked, Subscribers(listeners, event), Callback(0));
  }
}
