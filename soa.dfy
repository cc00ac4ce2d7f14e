/**
 * The publish/subscribe fabric: a service owns an ordered list of listeners
 * and, on Notify, hands the value to every listener's ProcessAdd callback in
 * registration order. Listeners are opaque handles here; what a listener does
 * with a delivery is modelled by the listener classes in module Listeners, and
 * a service records every callback it makes in `trace`.
 */
module Soa {

  /** Stands for one registered ServiceListener object; equal handles are the same listener. */
  type ListenerId = nat

  /** The three callbacks of the ServiceListener interface. */
  datatype Callback = ProcessAdd | ProcessRemove | ProcessUpdate

  /** One callback made by a service: which listener, which callback, with what value. */
  datatype Delivery<V> = Delivery(listener: ListenerId, callback: Callback, data: V)

  /** What one Notify(data) delivers to the listener list `ls`. */
  function Deliveries<V>(ls: seq<ListenerId>, data: V): (r: seq<Delivery<V>>)
    ensures |r| == |ls|
    ensures forall i :: 0 <= i < |ls| ==> r[i] == Delivery(ls[i], ProcessAdd, data)
  {
    if ls == [] then [] else Deliveries(ls[..|ls| - 1], data) + [Delivery(ls[|ls| - 1], ProcessAdd, data)]
  }

  /** Notify never makes a remove or update callback. */
  lemma DeliveriesOnlyAdd<V>(ls: seq<ListenerId>, data: V)
    ensures forall d :: d in Deliveries(ls, data) ==> d.callback == ProcessAdd && d.data == data && d.listener in ls
  {
    forall d | d in Deliveries(ls, data)
      ensures d.callback == ProcessAdd && d.data == data && d.listener in ls
    {
      var i :| 0 <= i < |Deliveries(ls, data)| && Deliveries(ls, data)[i] == d;
    }
  }

  /** A listener registered k times receives exactly k deliveries per Notify. */
  lemma {:induction false} DeliveriesPerListener<V>(ls: seq<ListenerId>, data: V, l: ListenerId)
    ensures multiset(Deliveries(ls, data))[Delivery(l, ProcessAdd, data)] == multiset(ls)[l]
  {
    if ls != [] {
      var last := ls[|ls| - 1];
      DeliveriesPerListener(ls[..|ls| - 1], data, l);
      assert ls == ls[..|ls| - 1] + [last];
    }
  }

  /**
   * The Service base class: its listener list and the record of the callbacks
   * it has made.
   */
  class Service<V> {
    var listeners: seq<ListenerId>
    var trace: seq<Delivery<V>>

    constructor ()
      ensures listeners == [] && trace == []
    {
      listeners := [];
      trace := [];
    }

    /** The base callback for connectors does nothing. */
    method OnMessage(data: V)
      ensures unchanged(this)
    {
    }

    /** Appends the listener; earlier entries, their order and duplicates are kept. */
    method AddListener(listener: ListenerId)
      modifies this
      ensures listeners == old(listeners) + [listener]
      ensures trace == old(trace)
    {
      listeners := listeners + [listener];
    }

    /** The registered listeners, in registration order. */
    function GetListeners(): (r: seq<ListenerId>)
      reads this
      ensures |r| == |listeners| && forall i :: 0 <= i < |r| ==> r[i] == listeners[i]
    {
      listeners
    }

    /**
     * Calls ProcessAdd(data) on each listener once, in list order. The list
     * itself cannot change while it is walked: no listener registers during a
     * notification.
     */
    method Notify(data: V)
      modifies this
      ensures listeners == old(listeners)
      ensures trace == old(trace) + Deliveries(listeners, data)
    {
      var i := 0;
      while i < |listeners|
        invariant 0 <= i <= |listeners| && listeners == old(listeners)
        invariant trace == old(trace) + Deliveries(listeners[..i], data)
      {
        assert listeners[..i + 1][..i] == listeners[..i];
        trace := trace + [Delivery(listeners[i], ProcessAdd, data)];
        i := i + 1;
      }
      assert listeners[..i] == listeners;
    }
  }

  /** The Connector base class; its Publish does nothing. */
  class Connector<V> {
    constructor ()
    {
    }

    method Publish(data: V)
      ensures unchanged(this)
    {
    }
  }

  /**
   * An entry point of a collaborator outside this model (a historical-data
   * service, a file connector, the streaming, execution, trade-booking or
   * inquiry service): it records every value it is handed, in order.
   */
  class Sink<V> {
    var received: seq<V>

    constructor ()
      ensures received == []
    {
      received := [];
    }

    method Receive(data: V)
      modifies this
      ensures received == old(received) + [data]
    {
      received := received + [data];
    }
  }

  /** Registering k listeners and notifying once makes exactly k add-callbacks, in order. */
  method NotifyAfterRegistration<V>(ls: seq<ListenerId>, data: V) returns (delivered: seq<Delivery<V>>)
    ensures |delivered| == |ls|
    ensures forall i :: 0 <= i < |ls| ==> delivered[i] == Delivery(ls[i], ProcessAdd, data)
  {
    var s := new Service<V>();
    for i := 0 to |ls|
      invariant s.listeners == ls[..i] && s.trace == []
    {
      assert ls[..i + 1] == ls[..i] + [ls[i]];
      s.AddListener(ls[i]);
    }
    assert ls[..|ls|] == ls;
    assert s.GetListeners() == ls;
    s.Notify(data);
    delivered := s.trace;
  }
}
