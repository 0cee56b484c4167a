/** static/js/state/StateEvents.js: the listener registry. The static `Map`
    of `Set`s is the field `listeners` of the one `Registry` object; each set
    is a sequence without duplicates, in insertion order, as a JavaScript
    `Set` iterates. A callback is known by its identity; calling it is
    recorded in `delivered`, and what it then does is not part of the model. */
module StateEvents {
  import opened Text
  import opened JsValues

  /** The identity of a callback function. */
  type Callback = nat

  /** One call `callback(data)` made by `emit(event, data)`. */
  datatype Delivery = Delivery(callback: Callback, event: string, data: JsValue)

  /** The function `on` returns: it unsubscribes `callback` from `event`. */
  datatype Unsubscriber = Unsubscriber(event: string, callback: Callback)

  predicate NoDuplicates(s: seq<Callback>) {
    forall i, j :: 0 <= i < j < |s| ==> s[i] != s[j]
  }

  /** `set.add(c)`: a new callback goes last, a known one keeps its place. */
  function Added(s: seq<Callback>, c: Callback): seq<Callback> {
    if c in s then s else s + [c]
  }

  /** `set.delete(c)`: the other callbacks stay, in their order. */
  function Removed(s: seq<Callback>, c: Callback): seq<Callback> {
    if s == [] then []
    else if Last(s) == c then Removed(s[..|s| - 1], c)
    else Removed(s[..|s| - 1], c) + [Last(s)]
  }

  /** The calls made for `callbacks`, one each, in order. */
  function Deliveries(callbacks: seq<Callback>, event: string, data: JsValue): (r: seq<Delivery>)
    ensures |r| == |callbacks|
    ensures forall i :: 0 <= i < |r| ==> r[i] == Delivery(callbacks[i], event, data)
  {
    seq(|callbacks|, i requires 0 <= i < |callbacks| => Delivery(callbacks[i], event, data))
  }

  /** `add` makes `c` a member, keeps every other member, and never
      duplicates; adding a member again changes nothing. */
  lemma AddedMembers(s: seq<Callback>, c: Callback)
    ensures c in Added(s, c)
    ensures forall d :: d in Added(s, c) <==> d in s || d == c
    ensures NoDuplicates(s) ==> NoDuplicates(Added(s, c))
    ensures Added(Added(s, c), c) == Added(s, c)
    ensures Added(s, c)[..|s|] == s
  {
  }

  /** `delete` removes exactly `c`, keeps the order of the others and never
      duplicates. */
  lemma {:induction false} RemovedMembers(s: seq<Callback>, c: Callback)
    ensures forall d :: d in Removed(s, c) <==> d in s && d != c
    ensures NoDuplicates(s) ==> NoDuplicates(Removed(s, c))
    ensures c !in s ==> Removed(s, c) == s
  {
    if s != [] {
      var init := s[..|s| - 1];
      RemovedMembers(init, c);
      assert s == init + [Last(s)];
      assert forall d :: d in s <==> d in init || d == Last(s);
      if NoDuplicates(s) {
        assert NoDuplicates(init);
        assert Last(s) !in init;
      }
    }
  }

  /** A list without duplicates holds each callback once or not at all, so
      `emit` calls each registered callback exactly once. */
  lemma {:induction false} EachCalledOnce(s: seq<Callback>, c: Callback)
    requires NoDuplicates(s)
    ensures multiset(s)[c] == if c in s then 1 else 0
  {
    if s != [] {
      var init := s[..|s| - 1];
      assert s == init + [Last(s)];
      assert NoDuplicates(init);
      EachCalledOnce(init, c);
      assert Last(s) !in init;
    }
  }

  class Registry {
    var listeners: map<string, seq<Callback>>
    var delivered: seq<Delivery>

    /** Every set holds each callback once. */
    predicate Valid()
      reads this
    {
      forall e :: e in listeners ==> NoDuplicates(listeners[e])
    }

    /** The callbacks registered for `event`, none for an unknown event. */
    function CallbacksOf(event: string): seq<Callback>
      reads this`listeners
    {
      if event in listeners then listeners[event] else []
    }

    constructor()
      ensures listeners == map[] && delivered == []
      ensures Valid()
    {
      listeners := map[];
      delivered := [];
    }

    /** `on(event, callback)`: an unknown event first gets an empty set;
        `callback` is added to it. */
    method On(event: string, callback: Callback) returns (unsubscribe: Unsubscriber)
      requires Valid()
      modifies this`listeners
      ensures listeners == old(listeners)[event := Added(old(CallbacksOf(event)), callback)]
      ensures callback in listeners[event]
      ensures unsubscribe == Unsubscriber(event, callback)
      ensures Valid()
    {
      var callbacks := if event in listeners then listeners[event] else [];
      AddedMembers(callbacks, callback);
      assert NoDuplicates(callbacks);
      listeners := listeners[event := Added(callbacks, callback)];
      unsubscribe := Unsubscriber(event, callback);
    }

    /** Calling the function `on` returned: `callback` leaves the set of its
        event, which stays (possibly empty); after `clear` nothing happens. */
    method Unsubscribe(u: Unsubscriber)
      requires Valid()
      modifies this`listeners
      ensures u.event in old(listeners) ==>
        listeners == old(listeners)[u.event := Removed(old(listeners)[u.event], u.callback)]
        && u.callback !in listeners[u.event]
      ensures u.event !in old(listeners) ==> listeners == old(listeners)
      ensures Valid()
    {
      if u.event in listeners {
        RemovedMembers(listeners[u.event], u.callback);
        listeners := listeners[u.event := Removed(listeners[u.event], u.callback)];
      }
    }

    /** `emit(event, data)`: each callback of `event`, in insertion order,
        is called with `data`; an unknown event calls nothing. */
    method Emit(event: string, data: JsValue)
      modifies this`delivered
      ensures delivered == old(delivered) + Deliveries(CallbacksOf(event), event, data)
    {
      if event in listeners {
        var callbacks := listeners[event];
        ghost var before := delivered;
        for i := 0 to |callbacks|
          invariant delivered == before + Deliveries(callbacks[..i], event, data)
        {
          delivered := delivered + [Delivery(callbacks[i], event, data)];
          assert Deliveries(callbacks[..i + 1], event, data) == Deliveries(callbacks[..i], event, data) + [Delivery(callbacks[i], event, data)];
        }
        assert callbacks[..|callbacks|] == callbacks;
      }
    }

    /** `clear(event)`: exactly the entry of `event` goes. */
    method Clear(event: string)
      requires Valid()
      modifies this`listeners
      ensures listeners == old(listeners) - {event}
      ensures forall e :: e != event ==> CallbacksOf(e) == old(CallbacksOf(e))
      ensures CallbacksOf(event) == []
      ensures Valid()
    {
      if event in listeners {
        listeners := listeners - {event};
      }
    }

    /** `clearAll()`: no event has listeners. */
    method ClearAll()
      modifies this`listeners
      ensures listeners == map[]
      ensures forall e :: CallbacksOf(e) == []
      ensures Valid()
    {
      listeners := map[];
    }
  }

  /** The set and call sequences the scenario below goes through. */
  lemma ScenarioSteps(event: string, data: JsValue)
    ensures Added([], 1) == [1] && Added([1], 1) == [1] && Added([1], 2) == [1, 2]
    ensures Removed([1, 2], 1) == [2]
    ensures Deliveries([1], event, data) == [Delivery(1, event, data)]
    ensures Deliveries([2], event, data) == [Delivery(2, event, data)]
  {
    assert [1, 2][..1] == [1];
    assert Removed([1], 1) == Removed([], 1);
  }

  /** Subscribing the same callback twice and emitting once calls it once. */
  method SubscribeTwiceScenario(event: string, data: JsValue) returns (delivered: seq<Delivery>)
    ensures delivered == [Delivery(1, event, data)]
  {
    ScenarioSteps(event, data);
    var r := new Registry();
    assert r.CallbacksOf(event) == [];
    var _ := r.On(event, 1);
    assert r.listeners == map[event := [1]];
    var _ := r.On(event, 1);
    assert r.CallbacksOf(event) == [1];
    r.Emit(event, data);
    delivered := r.delivered;
  }

  /** After unsubscribing, a callback is no longer called, while another
      listener of the event still is. */
  method UnsubscribeScenario(event: string, data: JsValue) returns (delivered: seq<Delivery>)
    ensures delivered == [Delivery(2, event, data)]
  {
    ScenarioSteps(event, data);
    var r := new Registry();
    var u := r.On(event, 1);
    var _ := r.On(event, 2);
    assert r.listeners[event] == [1, 2];
    r.Unsubscribe(u);
    assert r.CallbacksOf(event) == [2];
    r.Emit(event, data);
    delivered := r.delivered;
  }
}
