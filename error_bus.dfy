/** The process-wide error bus: a set of listeners, kept in insertion order, that every
    normalised request failure is fanned out to. */
module Bus {

  /** A listener, identified the way a JavaScript `Set` compares functions: by identity. */
  type Listener = nat

  /** What one listener invocation did: return normally or throw. */
  datatype Outcome = Returned | Threw

  /** One invocation made by `emit`: which listener, with which error, and how it ended. */
  datatype Call<E> = Call(listener: Listener, error: E, outcome: Outcome)

  /** The closure `subscribe` hands back; calling it removes `listener` again. */
  datatype Subscription = Subscription(listener: Listener)

  /** No listener occurs twice: the shape of a `Set` in insertion order. */
  predicate Distinct(ls: seq<Listener>) {
    forall i, j :: 0 <= i < j < |ls| ==> ls[i] != ls[j]
  }

  /** The first listener of a sequence without repeats does not recur in its tail. */
  lemma DistinctHead(ls: seq<Listener>)
    requires Distinct(ls) && ls != []
    ensures Distinct(ls[1..]) && ls[0] !in ls[1..]
  {
  }

  /** `Set.prototype.add`: appends a listener that is not there yet. */
  function Added(ls: seq<Listener>, l: Listener): (r: seq<Listener>)
    ensures l in r
    ensures forall x :: x in r <==> x in ls || x == l
    ensures Distinct(ls) ==> Distinct(r)
    ensures |r| == if l in ls then |ls| else |ls| + 1
    ensures forall i :: 0 <= i < |ls| ==> r[i] == ls[i]
  {
    if l in ls then ls else ls + [l]
  }

  /** `Set.prototype.delete`: drops `l` and keeps the others in their order. */
  function Removed(ls: seq<Listener>, l: Listener): (r: seq<Listener>)
    ensures l !in r
    ensures forall x :: x in r <==> x in ls && x != l
    ensures |r| <= |ls|
  {
    if ls == [] then []
    else if ls[0] == l then Removed(ls[1..], l)
    else [ls[0]] + Removed(ls[1..], l)
  }

  /** Deleting the listener at position `k` of a repeat-free set leaves the listeners
      before and after it, in their insertion order. */
  lemma {:induction false} RemovedAt(ls: seq<Listener>, k: nat)
    requires Distinct(ls) && k < |ls|
    ensures Removed(ls, ls[k]) == ls[..k] + ls[k + 1..]
  {
    DistinctHead(ls);
    if k == 0 {
      RemovedAbsent(ls[1..], ls[0]);
    } else {
      RemovedAt(ls[1..], k - 1);
      assert ls[1..][k - 1] == ls[k];
      assert ls[..k] + ls[k + 1..] == [ls[0]] + (ls[1..][..k - 1] + ls[1..][k..]);
    }
  }

  /** Deleting keeps a listener set free of repeats. */
  lemma {:induction false} RemovedDistinct(ls: seq<Listener>, l: Listener)
    requires Distinct(ls)
    ensures Distinct(Removed(ls, l))
  {
    if ls != [] {
      DistinctHead(ls);
      RemovedDistinct(ls[1..], l);
    }
  }

  /** Removing a listener that is not registered changes nothing. */
  lemma {:induction false} RemovedAbsent(ls: seq<Listener>, l: Listener)
    requires l !in ls
    ensures Removed(ls, l) == ls
  {
    if ls != [] {
      RemovedAbsent(ls[1..], l);
    }
  }

  /** Calling the unsubscribe closure a second time is a no-op. */
  lemma {:induction false} UnsubscribeTwice(ls: seq<Listener>, l: Listener)
    ensures Removed(Removed(ls, l), l) == Removed(ls, l)
  {
    RemovedAbsent(Removed(ls, l), l);
  }

  /** Removing the last of several listeners. */
  lemma {:induction false} RemovedAppend(ls: seq<Listener>, l: Listener)
    requires l !in ls
    ensures Removed(ls + [l], l) == ls
  {
    if ls == [] {
    } else {
      assert (ls + [l])[1..] == ls[1..] + [l];
      RemovedAppend(ls[1..], l);
    }
  }

  /** Subscribing a new listener and then calling its unsubscribe closure restores the
      listener set exactly, order included. */
  lemma SubscribeThenUnsubscribe(ls: seq<Listener>, l: Listener)
    requires l !in ls
    ensures Removed(Added(ls, l), l) == ls
  {
    RemovedAppend(ls, l);
  }

  /** Subscribing the same listener twice leaves one entry. */
  lemma SubscribeTwice(ls: seq<Listener>, l: Listener)
    requires Distinct(ls)
    ensures Added(Added(ls, l), l) == Added(ls, l)
    ensures |set i | 0 <= i < |Added(Added(ls, l), l)| && Added(Added(ls, l), l)[i] == l| == 1
  {
    var r := Added(ls, l);
    var k :| 0 <= k < |r| && r[k] == l;
    assert (set i | 0 <= i < |r| && r[i] == l) == {k};
  }

  /** How a listener ends when invoked; `throwing` is the set of listeners that throw. */
  function OutcomeOf(l: Listener, throwing: set<Listener>): Outcome {
    if l in throwing then Threw else Returned
  }

  /** The number of invocations of listener `l` in `calls`. */
  function CallsTo<E>(calls: seq<Call<E>>, l: Listener): nat {
    if calls == [] then 0
    else (if calls[0].listener == l then 1 else 0) + CallsTo(calls[1..], l)
  }

  /** When the calls follow a listener sequence without repeats one for one, every
      registered listener is called exactly once and no other listener is called. */
  lemma {:induction false} EachListenerOnce<E>(calls: seq<Call<E>>, ls: seq<Listener>, l: Listener)
    requires |calls| == |ls| && Distinct(ls)
    requires forall i :: 0 <= i < |calls| ==> calls[i].listener == ls[i]
    ensures CallsTo(calls, l) == if l in ls then 1 else 0
  {
    if calls != [] {
      EachListenerOnce(calls[1..], ls[1..], l);
      assert l in ls <==> l == ls[0] || l in ls[1..];
      DistinctHead(ls);
    }
  }

  class ErrorBus {
    var listeners: seq<Listener>

    ghost predicate Valid()
      reads this
    {
      Distinct(listeners)
    }

    constructor ()
      ensures Valid() && listeners == []
    {
      listeners := [];
    }

    /** `subscribe`: adds the listener (once) and returns its unsubscribe closure. */
    method Subscribe(listener: Listener) returns (unsubscribe: Subscription)
      requires Valid()
      modifies this
      ensures Valid()
      ensures listeners == Added(old(listeners), listener)
      ensures unsubscribe == Subscription(listener)
    {
      if listener !in listeners {
        listeners := listeners + [listener];
      }
      unsubscribe := Subscription(listener);
    }

    /** Calling the closure returned by `subscribe`: deletes exactly that listener. */
    method Unsubscribe(subscription: Subscription)
      requires Valid()
      modifies this
      ensures Valid()
      ensures listeners == Removed(old(listeners), subscription.listener)
    {
      RemovedDistinct(listeners, subscription.listener);
      listeners := Removed(listeners, subscription.listener);
    }

    /** `emit`: invokes every listener once, in insertion order, with the same error.
        A listener that throws is caught and the loop carries on, so the call never
        fails and every listener after it still runs; the listener set is not touched. */
    method Emit<E>(error: E, throwing: set<Listener>) returns (calls: seq<Call<E>>)
      requires Valid()
      ensures |calls| == |listeners|
      ensures forall i :: 0 <= i < |calls| ==>
        calls[i] == Call(listeners[i], error, OutcomeOf(listeners[i], throwing))
      ensures forall l :: CallsTo(calls, l) == if l in listeners then 1 else 0
    {
      calls := [];
      for i := 0 to |listeners|
        invariant |calls| == i
        invariant forall k :: 0 <= k < i ==>
          calls[k] == Call(listeners[k], error, OutcomeOf(listeners[k], throwing))
      {
        var listener := listeners[i];
        var outcome := Returned;
        if listener in throwing {
          outcome := Threw;
        }
        calls := calls + [Call(listener, error, outcome)];
      }
      forall l {
        EachListenerOnce(calls, listeners, l);
      }
    }
  }
}
