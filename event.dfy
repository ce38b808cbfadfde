/** `Event`: a list of subscribed callbacks, notified in subscription order.
  * Calling a callback is foreign code, so `dispatch` is modelled by the
  * sequence of calls it makes. */
module Events {
  import opened Wrappers
  import opened PyLists

  /** One callback invocation made by `dispatch`. */
  datatype Call<C, A> = Call(callback: C, args: A)

  /** The callbacks named by a sequence of calls, in call order. */
  function Callees<C, A>(calls: seq<Call<C, A>>): (r: seq<C>)
    ensures |r| == |calls|
    ensures forall i :: 0 <= i < |calls| ==> r[i] == calls[i].callback
  {
    if calls == [] then [] else [calls[0].callback] + Callees(calls[1..])
  }

  class Event<C(==)> {
    /** The subscribers, in subscription order; duplicates are allowed. */
    var callbacks: seq<C>

    /** A fresh event has no subscribers. */
    constructor()
      ensures callbacks == []
    {
      callbacks := [];
    }

    /** `subscribe` appends, even when the callback is already there. */
    method Subscribe(callback: C)
      modifies this
      ensures callbacks == old(callbacks) + [callback]
    {
      callbacks := callbacks + [callback];
    }

    /** `unsubscribe` removes the first subscription of the callback and
      * fails (`list.remove`'s ValueError) when there is none. */
    method Unsubscribe(callback: C) returns (r: Result<()>)
      modifies this
      ensures r.Ok? <==> callback in old(callbacks)
      ensures r.Ok? ==> callback in old(callbacks) && callbacks == RemoveFirst(old(callbacks), callback)
      ensures r.Err? ==> r.error == ValueError && callbacks == old(callbacks)
    {
      if callback in callbacks {
        callbacks := RemoveFirst(callbacks, callback);
        r := Ok(());
      } else {
        r := Err(ValueError);
      }
    }

    /** `dispatch` calls every subscriber once per subscription, in
      * subscription order, each with the same arguments. */
    method Dispatch<A>(args: A) returns (calls: seq<Call<C, A>>)
      ensures Callees(calls) == callbacks
      ensures forall i :: 0 <= i < |calls| ==> calls[i].args == args
    {
      calls := [];
      var i := 0;
      while i < |callbacks|
        invariant 0 <= i <= |callbacks|
        invariant |calls| == i
        invariant forall k :: 0 <= k < i ==> calls[k] == Call(callbacks[k], args)
      {
        calls := calls + [Call(callbacks[i], args)];
        i := i + 1;
      }
    }

    /** The decorator form: subscribe, then hand the callback back. */
    method EventListener(callback: C) returns (r: C)
      modifies this
      ensures r == callback
      ensures callbacks == old(callbacks) + [callback]
    {
      Subscribe(callback);
      r := callback;
    }
  }

  /** A callback is called as many times as it was subscribed. */
  lemma DispatchCountsSubscriptions<C, A>(callbacks: seq<C>, calls: seq<Call<C, A>>, cb: C)
    requires Callees(calls) == callbacks
    ensures |set i | 0 <= i < |calls| && calls[i].callback == cb| == multiset(callbacks)[cb]
  {
    CountMatches(callbacks, cb);
    assert (set i | 0 <= i < |calls| && calls[i].callback == cb) ==
           (set i | 0 <= i < |callbacks| && callbacks[i] == cb);
  }

  /** The positions holding x number as many as x's multiplicity. */
  lemma {:induction false} CountMatches<C>(s: seq<C>, x: C)
    ensures |set i | 0 <= i < |s| && s[i] == x| == multiset(s)[x]
    decreases |s|
  {
    if s != [] {
      var n := |s| - 1;
      var init := s[..n];
      CountMatches(init, x);
      assert s == init + [s[n]];
      var before := set i | 0 <= i < |init| && init[i] == x;
      var all := set i | 0 <= i < |s| && s[i] == x;
      if s[n] == x {
        assert all == before + {n};
        assert n !in before;
      } else {
        assert all == before;
      }
    }
  }
}
