/** The observer list shared by cards (publishing card events) and the grid
    (publishing grid events). A notification is modelled as the sequence of
    deliveries it makes, one `(observer, publisher, event)` per list entry. */
module Events {
  import opened Seqs

  datatype Delivery<P, E> = Delivery(observer: object, publisher: P, event: E)

  /** Reference definition of one notification round: the head of the list
      first, then the rest. */
  function Broadcast<P, E>(observers: seq<object>, publisher: P, event: E): seq<Delivery<P, E>>
  {
    if observers == [] then []
    else [Delivery(observers[0], publisher, event)] + Broadcast(observers[1..], publisher, event)
  }

  /** One delivery per list entry, in list order, each carrying the same
      publisher and event. */
  lemma {:induction false} BroadcastAt<P, E>(observers: seq<object>, publisher: P, event: E)
    ensures |Broadcast(observers, publisher, event)| == |observers|
    ensures forall i :: 0 <= i < |observers| ==>
      Broadcast(observers, publisher, event)[i] == Delivery(observers[i], publisher, event)
  {
    if observers != [] {
      BroadcastAt(observers[1..], publisher, event);
    }
  }

  /** Notifying a list with one more observer at the end makes one more
      delivery at the end. */
  lemma {:induction false} BroadcastSnoc<P, E>(observers: seq<object>, o: object, publisher: P, event: E)
    ensures Broadcast(observers + [o], publisher, event)
         == Broadcast(observers, publisher, event) + [Delivery(o, publisher, event)]
  {
    if observers != [] {
      assert (observers + [o])[1..] == observers[1..] + [o];
      BroadcastSnoc(observers[1..], o, publisher, event);
    }
  }

  class EventManager<P, E> {
    /** Subscribers in insertion order; duplicates are kept. */
    var observers: seq<object>

    constructor ()
      ensures observers == []
    {
      observers := [];
    }

    method AddObserver(observer: object)
      modifies this
      ensures observers == old(observers) + [observer]
    {
      observers := observers + [observer];
    }

    /** Removes the first occurrence only; absent observers are ignored. */
    method RemoveObserver(observer: object)
      modifies this
      ensures observers == RemoveFirst(old(observers), observer)
      ensures observer !in old(observers) ==> observers == old(observers)
      ensures observer in old(observers) ==> |observers| == |old(observers)| - 1
    {
      if observer in observers {
        RemoveFirstCounts(observers, observer);
      } else {
        RemoveFirstAbsent(observers, observer);
      }
      observers := RemoveFirst(observers, observer);
    }

    /** Walks the list once, delivering `(publisher, eventType)` to every
        entry; the list itself is left as it is. */
    method NotifyObservers(publisher: P, eventType: E) returns (deliveries: seq<Delivery<P, E>>)
      ensures deliveries == Broadcast(observers, publisher, eventType)
    {
      deliveries := [];
      var i := 0;
      while i < |observers|
        invariant 0 <= i <= |observers|
        invariant deliveries == Broadcast(observers[..i], publisher, eventType)
      {
        BroadcastSnoc(observers[..i], observers[i], publisher, eventType);
        assert observers[..i + 1] == observers[..i] + [observers[i]];
        deliveries := deliveries + [Delivery(observers[i], publisher, eventType)];
        i := i + 1;
      }
      assert observers[..i] == observers;
    }
  }

  /** An observer added twice is notified twice, in insertion order, and one
      removal takes away only its first subscription. */
  method DuplicateSubscription(a: object, b: object)
    returns (before: seq<Delivery<int, int>>, after: seq<Delivery<int, int>>)
    ensures before == [Delivery(a, 7, 1), Delivery(b, 7, 1), Delivery(a, 7, 1)]
    ensures after == [Delivery(b, 7, 1), Delivery(a, 7, 1)]
  {
    var bus := new EventManager<int, int>();
    bus.AddObserver(a);
    bus.AddObserver(b);
    bus.AddObserver(a);
    before := bus.NotifyObservers(7, 1);
    BroadcastAt(bus.observers, 7, 1);
    bus.RemoveObserver(a);
    after := bus.NotifyObservers(7, 1);
  }
}
