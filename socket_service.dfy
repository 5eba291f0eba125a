/**
 * The browser's socket service: a registry from event names to sets of
 * callbacks, with `on`, `off`, `notifyListeners` and the forwarding of the
 * three `*_updated` socket events into it. Callbacks are opaque ids; calling
 * one is recorded as an `Invocation`.
 */
module ClientSocket {
  import opened Protocol

  /** An opaque callback; two registrations of the same function share an id. */
  type CallbackId = nat

  /** The thunk `on` returns: calling it runs `off(event, callback)`. */
  datatype Unsubscribe = Unsubscribe(event: string, callback: CallbackId)

  /** One `callback(data)` call. */
  datatype Invocation = Invocation(callback: CallbackId, data: Payload)

  /** The callbacks registered for `event`; none when the key is absent. */
  function ListenersOf(listeners: map<string, set<CallbackId>>, event: string): set<CallbackId> {
    if event in listeners then listeners[event] else {}
  }

  /** The registry's invariant: no event maps to an empty set. */
  ghost predicate NoEmptySets(listeners: map<string, set<CallbackId>>) {
    forall e :: e in listeners ==> listeners[e] != {}
  }

  /** The registry after `on(event, callback)`. */
  function AddListener(listeners: map<string, set<CallbackId>>, event: string, callback: CallbackId): (m: map<string, set<CallbackId>>)
    ensures event in m && callback in m[event]
    ensures ListenersOf(m, event) == ListenersOf(listeners, event) + {callback}
    ensures forall e :: e != event ==> ListenersOf(m, e) == ListenersOf(listeners, e)
    ensures NoEmptySets(listeners) ==> NoEmptySets(m)
  {
    listeners[event := ListenersOf(listeners, event) + {callback}]
  }

  /** The registry after `off(event, callback)`: the key goes once its set is empty. */
  function RemoveListener(listeners: map<string, set<CallbackId>>, event: string, callback: CallbackId): (m: map<string, set<CallbackId>>)
    ensures ListenersOf(m, event) == ListenersOf(listeners, event) - {callback}
    ensures forall e :: e != event ==> ListenersOf(m, e) == ListenersOf(listeners, e)
    ensures event in m <==> event in listeners && listeners[event] - {callback} != {}
    ensures NoEmptySets(listeners) ==> NoEmptySets(m)
  {
    if event in listeners then
      var rest := listeners[event] - {callback};
      if rest == {} then listeners - {event} else listeners[event := rest]
    else listeners
  }

  /** Registering the same callback twice keeps one copy. */
  lemma AddListenerIdempotent(listeners: map<string, set<CallbackId>>, event: string, callback: CallbackId)
    ensures AddListener(AddListener(listeners, event, callback), event, callback) == AddListener(listeners, event, callback)
  {
  }

  /** `off` for an unknown event or an unregistered callback changes nothing. */
  lemma RemoveAbsentIsNoop(listeners: map<string, set<CallbackId>>, event: string, callback: CallbackId)
    requires NoEmptySets(listeners)
    requires callback !in ListenersOf(listeners, event)
    ensures RemoveListener(listeners, event, callback) == listeners
  {
    if event in listeners {
      assert listeners[event] - {callback} == listeners[event];
    }
  }

  /** `on` followed by calling its thunk restores a registry that did not hold the callback. */
  lemma OnThenUnsubscribeRestores(listeners: map<string, set<CallbackId>>, event: string, callback: CallbackId)
    requires NoEmptySets(listeners)
    requires callback !in ListenersOf(listeners, event)
    ensures RemoveListener(AddListener(listeners, event, callback), event, callback) == listeners
  {
    var added := AddListener(listeners, event, callback);
    var back := RemoveListener(added, event, callback);
    assert ListenersOf(added, event) - {callback} == ListenersOf(listeners, event);
    if event in listeners {
      assert back == listeners[event := listeners[event]];
    } else {
      assert back == added - {event};
    }
  }

  /** The socket events `setupSocketListeners` forwards to listeners of the same name. */
  predicate Forwarded(name: string) {
    name == DISASTER_UPDATED || name == RESOURCE_UPDATED || name == REPORT_UPDATED
  }

  /** The client-side socket service of one page. */
  class SocketService {
    var listeners: map<string, set<CallbackId>>

    ghost predicate Valid()
      reads this
    {
      NoEmptySets(listeners)
    }

    /** `this.listeners = new Map()`. */
    constructor ()
      ensures Valid() && listeners == map[]
    {
      listeners := map[];
    }

    /** `on(event, callback)`: add to the event's set, creating it if needed; return the unsubscribe thunk. */
    method On(event: string, callback: CallbackId) returns (unsubscribe: Unsubscribe)
      requires Valid()
      modifies this
      ensures Valid()
      ensures listeners == AddListener(old(listeners), event, callback)
      ensures unsubscribe == Unsubscribe(event, callback)
    {
      if event !in listeners {
        listeners := listeners[event := {}];
      }
      listeners := listeners[event := listeners[event] + {callback}];
      unsubscribe := Unsubscribe(event, callback);
    }

    /** `off(event, callback)`: remove from the event's set and drop the key once the set is empty. */
    method Off(event: string, callback: CallbackId)
      requires Valid()
      modifies this
      ensures Valid()
      ensures listeners == RemoveListener(old(listeners), event, callback)
    {
      if event in listeners {
        var callbacks := listeners[event] - {callback};
        listeners := listeners[event := callbacks];
        if |callbacks| == 0 {
          listeners := listeners - {event};
        }
      }
    }

    /** Calling the thunk `on` returned: exactly `off` with the same arguments. */
    method Call(unsubscribe: Unsubscribe)
      requires Valid()
      modifies this
      ensures Valid()
      ensures listeners == RemoveListener(old(listeners), unsubscribe.event, unsubscribe.callback)
    {
      Off(unsubscribe.event, unsubscribe.callback);
    }

    /** `notifyListeners(event, data)`: call every callback registered for `event` once, with `data`. */
    method NotifyListeners(event: string, data: Payload) returns (calls: seq<Invocation>)
      ensures (set i | 0 <= i < |calls| :: calls[i].callback) == ListenersOf(listeners, event)
      ensures forall i :: 0 <= i < |calls| ==> calls[i].data == data
      ensures forall i, j :: 0 <= i < j < |calls| ==> calls[i].callback != calls[j].callback
      ensures |calls| == |ListenersOf(listeners, event)|
    {
      calls := [];
      if event in listeners {
        var callbacks := listeners[event];
        var remaining := callbacks;
        while remaining != {}
          invariant remaining <= callbacks
          invariant (set i | 0 <= i < |calls| :: calls[i].callback) == callbacks - remaining
          invariant forall i :: 0 <= i < |calls| ==> calls[i].data == data
          invariant forall i, j :: 0 <= i < j < |calls| ==> calls[i].callback != calls[j].callback
          invariant |calls| + |remaining| == |callbacks|
          decreases remaining
        {
          var cb :| cb in remaining;
          ghost var before := calls;
          calls := calls + [Invocation(cb, data)];
          assert (set i | 0 <= i < |calls| :: calls[i].callback) == (set i | 0 <= i < |before| :: before[i].callback) + {cb} by {
            assert forall i :: 0 <= i < |before| ==> calls[i] == before[i];
            assert calls[|before|].callback == cb;
          }
          remaining := remaining - {cb};
        }
      }
    }

    /**
     * A message arriving on the socket: `disaster_updated`, `resource_updated`
     * and `report_updated` reach the listeners of the same name; every other
     * message reaches no listener.
     */
    method Receive(message: Message) returns (calls: seq<Invocation>)
      ensures (set i | 0 <= i < |calls| :: calls[i].callback) ==
                if Forwarded(message.name) then ListenersOf(listeners, message.name) else {}
      ensures forall i :: 0 <= i < |calls| ==> calls[i].data == message.data
      ensures forall i, j :: 0 <= i < j < |calls| ==> calls[i].callback != calls[j].callback
    {
      if Forwarded(message.name) {
        calls := NotifyListeners(message.name, message.data);
      } else {
        calls := [];
      }
    }
  }
}
