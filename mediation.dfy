/**
 * The process-wide message relays (`BrowserMediator`, and `ActivityMediator`, which has the
 * same shape). A listener is a C# delegate; here it is named by an id, and the relay keeps a
 * trace of every delivery it has made so that what a `Send` reaches can be stated.
 */
module Mediation {

  /** The identity of a subscribed delegate. */
  type ListenerId = nat

  /** One invocation of one listener with one message. */
  datatype Delivery = Delivery(listener: ListenerId, message: string)

  /** The sentinel `Cancel()` sends. */
  const UserCancelMessage: string := "UserCancel"
  /** The sentinel `Success()` sends. */
  const SuccessMessage: string := "Success"
  /** The sentinel that asks an embedded view to start over. */
  const RestartFlowMessage: string := "RestartFlow"

  /** The deliveries one `Send(message)` makes: every listener, in subscription order. */
  function Deliveries(listeners: seq<ListenerId>, message: string): (ds: seq<Delivery>)
    ensures |ds| == |listeners|
    ensures forall k :: 0 <= k < |ds| ==> ds[k] == Delivery(listeners[k], message)
  {
    if listeners == [] then [] else [Delivery(listeners[0], message)] + Deliveries(listeners[1..], message)
  }

  /** Delivering to one more listener appends one delivery. */
  lemma DeliveriesSnoc(listeners: seq<ListenerId>, l: ListenerId, message: string)
    ensures Deliveries(listeners + [l], message) == Deliveries(listeners, message) + [Delivery(l, message)]
  {
    var lhs, rhs := Deliveries(listeners + [l], message), Deliveries(listeners, message) + [Delivery(l, message)];
    assert |lhs| == |rhs|;
    forall k | 0 <= k < |lhs| ensures lhs[k] == rhs[k] {
      if k < |listeners| {
        assert (listeners + [l])[k] == listeners[k];
      }
    }
  }

  /** C#'s `event -= handler`: drops the LAST occurrence of the handler from the invocation list. */
  function RemoveLast(listeners: seq<ListenerId>, id: ListenerId): seq<ListenerId> {
    if listeners == [] then []
    else if listeners[|listeners| - 1] == id then listeners[..|listeners| - 1]
    else RemoveLast(listeners[..|listeners| - 1], id) + [listeners[|listeners| - 1]]
  }

  /** Unsubscribing a handler that is not subscribed changes nothing. */
  lemma {:induction false} RemoveLastAbsent(listeners: seq<ListenerId>, id: ListenerId)
    requires id !in listeners
    ensures RemoveLast(listeners, id) == listeners
  {
    if listeners != [] {
      var n := |listeners|;
      assert listeners == listeners[..n - 1] + [listeners[n - 1]];
      RemoveLastAbsent(listeners[..n - 1], id);
    }
  }

  /** Unsubscribing removes exactly one occurrence of the handler, when there is one. */
  lemma {:induction false} RemoveLastCount(listeners: seq<ListenerId>, id: ListenerId)
    ensures multiset(RemoveLast(listeners, id)) == multiset(listeners) - multiset{id}
  {
    if listeners != [] {
      var n := |listeners|;
      var front, last := listeners[..n - 1], listeners[n - 1];
      assert listeners == front + [last];
      assert multiset(listeners) == multiset(front) + multiset{last};
      if last != id {
        RemoveLastCount(front, id);
      }
    }
  }

  /**
   * The occurrence removed is the last one, at position `k`, and the other listeners keep
   * their order.
   */
  lemma {:induction false} RemoveLastPosition(listeners: seq<ListenerId>, id: ListenerId) returns (k: nat)
    requires id in listeners
    ensures k < |listeners| && listeners[k] == id && id !in listeners[k + 1..]
    ensures RemoveLast(listeners, id) == listeners[..k] + listeners[k + 1..]
  {
    var n := |listeners|;
    var front, last := listeners[..n - 1], listeners[n - 1];
    assert listeners == front + [last];
    if last == id {
      k := n - 1;
      assert listeners[k + 1..] == [];
    } else {
      assert id in front;
      assert RemoveLast(listeners, id) == RemoveLast(front, id) + [last];
      k := RemoveLastPosition(front, id);
      assert listeners[k + 1..] == front[k + 1..] + [last];
      assert listeners[..k] == front[..k];
    }
  }

  /** A listener subscribed once is gone after it unsubscribes. */
  lemma RemoveLastOnlyCopy(listeners: seq<ListenerId>, id: ListenerId)
    requires multiset(listeners)[id] <= 1
    ensures id !in RemoveLast(listeners, id)
    ensures multiset(RemoveLast(listeners, id))[id] == 0
  {
    RemoveLastCount(listeners, id);
  }

  /** A message relay with its current invocation list. */
  class Mediator {
    /** The listeners subscribed to the relay's event, in subscription order. */
    var listeners: seq<ListenerId>
    /** Every delivery made so far, in the order made. */
    var trace: seq<Delivery>

    /** A relay with no listener and nothing delivered. */
    constructor ()
      ensures listeners == [] && trace == []
    {
      listeners, trace := [], [];
    }

    /** `event += handler`. */
    method Subscribe(id: ListenerId)
      modifies this
      ensures listeners == old(listeners) + [id]
      ensures trace == old(trace)
    {
      listeners := listeners + [id];
    }

    /** `event -= handler`. */
    method Unsubscribe(id: ListenerId)
      modifies this
      ensures listeners == RemoveLast(old(listeners), id)
      ensures trace == old(trace)
    {
      listeners := RemoveLast(listeners, id);
    }

    /**
     * `BrowserMessageReceived?.Invoke(message)`: each listener of the invocation list, as it
     * stands when the call begins, receives `message` once; nothing is delivered when there is
     * no listener, and the relay keeps no message for later.
     */
    method Send(message: string)
      modifies this
      ensures listeners == old(listeners)
      ensures trace == old(trace) + Deliveries(listeners, message)
      ensures forall k :: 0 <= k < |listeners| ==> trace[|old(trace)| + k] == Delivery(listeners[k], message)
      ensures old(listeners) == [] ==> trace == old(trace)
    {
      var invocationList := listeners;
      var i := 0;
      while i < |invocationList|
        invariant 0 <= i <= |invocationList|
        invariant listeners == invocationList
        invariant trace == old(trace) + Deliveries(invocationList[..i], message)
      {
        DeliveriesSnoc(invocationList[..i], invocationList[i], message);
        assert invocationList[..i + 1] == invocationList[..i] + [invocationList[i]];
        trace := trace + [Delivery(invocationList[i], message)];
        i := i + 1;
      }
      assert invocationList[..i] == invocationList;
    }

    /** `Cancel()`: the same as `Send("UserCancel")`. */
    method Cancel()
      modifies this
      ensures listeners == old(listeners)
      ensures trace == old(trace) + Deliveries(listeners, UserCancelMessage)
    {
      Send(UserCancelMessage);
    }

    /** `Success()`: the same as `Send("Success")`. */
    method Success()
      modifies this
      ensures listeners == old(listeners)
      ensures trace == old(trace) + Deliveries(listeners, SuccessMessage)
    {
      Send(SuccessMessage);
    }
  }

  /** The static `_instance` slot behind the `Instance` property. */
  class MediatorSingleton {
    var instance: Mediator?

    /** Before first use the slot is empty. */
    constructor ()
      ensures instance == null
    {
      instance := null;
    }

    /**
     * `Instance`: the first access creates a fresh relay with no listener; every later one
     * returns that same relay, untouched.
     */
    method Instance() returns (m: Mediator)
      modifies this
      ensures instance == m
      ensures old(instance) != null ==> m == old(instance)
      ensures old(instance) == null ==> fresh(m) && m.listeners == [] && m.trace == []
    {
      if instance == null {
        instance := new Mediator();
      }
      m := instance;
    }
  }

  /** Two accesses to `Instance` yield one object. */
  method InstanceIsShared(slot: MediatorSingleton) returns (first: Mediator, second: Mediator)
    modifies slot
    ensures first == second
  {
    first := slot.Instance();
    second := slot.Instance();
  }
}
