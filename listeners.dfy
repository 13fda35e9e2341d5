/** The callback registries of the router (`onViewChange`) and of the auth module
    (`onAuthStateChanged`): subscribing appends, the returned unsubscriber splices out the
    first occurrence found by `indexOf`, and notification calls every callback in
    registration order. Callbacks are compared by identity, so they are modelled as values
    of an equality type. */
module Listeners {

  /** `s.indexOf(x)`: the first position of `x`, or -1. */
  function IndexOf<T(==)>(s: seq<T>, x: T): (r: int)
    ensures -1 <= r < |s|
    ensures r >= 0 ==> s[r] == x && x !in s[..r]
    ensures r == -1 <==> x !in s
  {
    if s == [] then -1
    else if s[0] == x then 0
    else
      var i := IndexOf(s[1..], x);
      if i == -1 then -1
      else
        assert s[..i + 1] == [s[0]] + s[1..][..i];
        i + 1
  }

  /** The list after the unsubscriber: the first occurrence spliced out, if any. */
  function RemoveFirst<T(==)>(s: seq<T>, x: T): seq<T> {
    var i := IndexOf(s, x);
    if i > -1 then s[..i] + s[i + 1..] else s
  }

  /** Unsubscribing removes exactly one copy of a registered callback, keeps the others in
      order, and leaves a list without it as it was. */
  lemma RemoveFirstEffect<T>(s: seq<T>, x: T)
    ensures x !in s ==> RemoveFirst(s, x) == s
    ensures x in s ==> multiset(RemoveFirst(s, x)) == multiset(s) - multiset{x}
    ensures x in s ==> |RemoveFirst(s, x)| == |s| - 1
  {
    if x in s {
      var i := IndexOf(s, x);
      assert s == s[..i] + [x] + s[i + 1..];
    }
  }

  /** Subscribing a new callback and calling its unsubscriber gives the list back. */
  lemma SubscribeThenUnsubscribe<T>(s: seq<T>, x: T)
    requires x !in s
    ensures RemoveFirst(s + [x], x) == s
  {
    assert IndexOf(s + [x], x) == |s| by {
      assert (s + [x])[..|s|] == s;
    }
  }

  /** For a callback registered once, a second call of its unsubscriber changes nothing. */
  lemma UnsubscribeTwice<T>(s: seq<T>, x: T)
    requires multiset(s)[x] <= 1
    ensures RemoveFirst(RemoveFirst(s, x), x) == RemoveFirst(s, x)
  {
    RemoveFirstEffect(s, x);
    var r := RemoveFirst(s, x);
    if x in s {
      assert multiset(r)[x] == 0;
      assert x !in r;
    }
    RemoveFirstEffect(r, x);
  }

  class Registry<T(==)> {
    var listeners: seq<T>

    constructor()
      ensures listeners == []
    {
      listeners := [];
    }

    /** `push(callback)`. */
    method Subscribe(callback: T)
      modifies this
      ensures listeners == old(listeners) + [callback]
    {
      listeners := listeners + [callback];
    }

    /** The unsubscriber returned for `callback`. */
    method Unsubscribe(callback: T)
      modifies this
      ensures listeners == RemoveFirst(old(listeners), callback)
    {
      var index := IndexOf(listeners, callback);
      if index > -1 {
        listeners := listeners[..index] + listeners[index + 1..];
      }
    }

    /** `forEach(cb => cb(arg))`: the callbacks called, in order. */
    method Notify() returns (called: seq<T>)
      ensures called == listeners
    {
      called := [];
      var i := 0;
      while i < |listeners|
        invariant 0 <= i <= |listeners|
        invariant called == listeners[..i]
      {
        called := called + [listeners[i]];
        i := i + 1;
      }
    }
  }
}
