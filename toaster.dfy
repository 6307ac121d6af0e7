/** The toast notifications (components/ui/toaster.tsx): a module-level id counter and listener
    list, a `toast` call that broadcasts to every listener, and each mounted `Toaster`'s list of
    toasts, appended to on arrival and filtered by id when a toast is closed. */
module Toasts {
  import opened Wrappers
  import opened Seqs

  datatype ToastType = Success | Error | Info

  /** The props a listener receives. The id is `String(toastIdCounter++)`; as `String` is
      injective on counter values, the number itself stands for it. */
  datatype ToastData = ToastData(id: nat, title: Option<string>, description: Option<string>, kind: ToastType)

  /** The filter callback `t => t.id !== id`. */
  function HasOtherId(id: nat): ToastData -> bool {
    (t: ToastData) => t.id != id
  }

  /** `prev.filter((t) => t.id !== id)`. */
  function RemoveById(ts: seq<ToastData>, id: nat): seq<ToastData> {
    Filter(ts, HasOtherId(id))
  }

  /** Closing removes every toast with that id and keeps every other one. */
  lemma RemoveByIdMembership(ts: seq<ToastData>, id: nat, t: ToastData)
    ensures t in RemoveById(ts, id) <==> t in ts && t.id != id
  {
    FilterMembership(ts, HasOtherId(id), t);
  }

  /** Closing keeps the remaining toasts in their order. */
  lemma RemoveByIdKeepsOrder(ts: seq<ToastData>, id: nat)
    ensures IsSubsequence(RemoveById(ts, id), ts)
  {
    FilterIsSubsequence(ts, HasOtherId(id));
  }

  /** Closing twice is closing once, which is why the timeout and the close button may both fire. */
  lemma RemoveByIdIdempotent(ts: seq<ToastData>, id: nat)
    ensures RemoveById(RemoveById(ts, id), id) == RemoveById(ts, id)
  {
    FilterIdempotent(ts, HasOtherId(id));
  }

  /** Closing an id that is not shown changes nothing. */
  lemma RemoveAbsentId(ts: seq<ToastData>, id: nat)
    requires forall i :: 0 <= i < |ts| ==> ts[i].id != id
    ensures RemoveById(ts, id) == ts
  {
    FilterAllPass(ts, HasOtherId(id));
  }

  /** The ids of a toast list strictly increase: toasts arrive in the order they were issued. */
  predicate IdsIncreasing(ts: seq<ToastData>) {
    forall i, j :: 0 <= i < j < |ts| ==> ts[i].id < ts[j].id
  }

  /** Every id was issued before the counter reached `bound`. */
  predicate IdsBelow(ts: seq<ToastData>, bound: nat) {
    forall i :: 0 <= i < |ts| ==> ts[i].id < bound
  }

  /** In an increasing list no two toasts share an id. */
  lemma IncreasingIdsUnique(ts: seq<ToastData>, i: nat, j: nat)
    requires IdsIncreasing(ts) && i < |ts| && j < |ts| && ts[i].id == ts[j].id
    ensures i == j
  {
  }

  /** Closing keeps a list increasing and bounded. */
  lemma {:induction false} RemoveByIdKeepsInvariant(ts: seq<ToastData>, id: nat, bound: nat)
    requires IdsIncreasing(ts) && IdsBelow(ts, bound)
    ensures IdsIncreasing(RemoveById(ts, id)) && IdsBelow(RemoveById(ts, id), bound)
  {
    var r := RemoveById(ts, id);
    forall k | 0 <= k < |r| ensures r[k] in ts {
      RemoveByIdMembership(ts, id, r[k]);
    }
    if ts != [] {
      var rest := RemoveById(ts[1..], id);
      RemoveByIdKeepsInvariant(ts[1..], id, bound);
      assert r == (if ts[0].id != id then [ts[0]] else []) + rest;
      forall k | 0 <= k < |rest| ensures ts[0].id < rest[k].id {
        RemoveByIdMembership(ts[1..], id, rest[k]);
      }
    }
  }

  /** In an increasing list, closing the toast at index `k` removes exactly that one toast. */
  lemma {:induction false} CloseRemovesExactlyOne(ts: seq<ToastData>, k: nat)
    requires IdsIncreasing(ts) && k < |ts|
    ensures RemoveById(ts, ts[k].id) == RemoveAt(ts, k)
  {
    var id := ts[k].id;
    assert RemoveById(ts, id) == (if ts[0].id != id then [ts[0]] else []) + RemoveById(ts[1..], id);
    if k == 0 {
      RemoveAbsentId(ts[1..], id);
      assert RemoveAt(ts, 0) == ts[1..];
    } else {
      CloseRemovesExactlyOne(ts[1..], k - 1);
      assert RemoveAt(ts, k) == [ts[0]] + RemoveAt(ts[1..], k - 1);
    }
  }

  /** A mounted `Toaster` component: its `toasts` state. */
  class Toaster {
    var toasts: seq<ToastData>

    /** `useState([])`. */
    constructor ()
      ensures toasts == []
    {
      toasts := [];
    }

    /** The listener: `setToasts((prev) => [...prev, toast])`. */
    method Receive(t: ToastData)
      modifies this
      ensures toasts == old(toasts) + [t]
    {
      toasts := toasts + [t];
    }

    /** The close button and the four-second timeout: drop the toast with this id. */
    method Dismiss(id: nat)
      modifies this
      ensures toasts == RemoveById(old(toasts), id)
    {
      toasts := RemoveById(toasts, id);
    }
  }

  /** The module-level state: `toastIdCounter` and `listeners`. */
  class ToastHub {
    var counter: nat
    var listeners: seq<Toaster>
    /** Every listener call so far, in the order the calls were made. */
    ghost var delivered: seq<Toaster>

    /** Each listener is registered once, and every list it holds has increasing ids below the
        counter. */
    ghost predicate Valid()
      reads this, listeners
    {
      && Distinct(listeners)
      && forall l :: l in listeners ==> IdsIncreasing(l.toasts) && IdsBelow(l.toasts, counter)
    }

    /** The state when the module is loaded. */
    constructor ()
      ensures Valid() && counter == 0 && listeners == [] && delivered == []
    {
      counter := 0;
      listeners := [];
      delivered := [];
    }

    /** `listeners.push(listener)` when a `Toaster` mounts. A mounted component pushes its own new
        closure, so it is not yet registered, and its list is still empty. */
    method Subscribe(l: Toaster)
      requires Valid() && l !in listeners && l.toasts == []
      modifies this
      ensures Valid()
      ensures listeners == old(listeners) + [l] && counter == old(counter) && delivered == old(delivered)
    {
      listeners := listeners + [l];
    }

    /** The effect's cleanup: `indexOf` then `splice(index, 1)` if found. */
    method Unsubscribe(l: Toaster)
      requires Valid()
      modifies this
      ensures Valid()
      ensures counter == old(counter) && delivered == old(delivered)
      ensures listeners == if l in old(listeners) then RemoveAt(old(listeners), IndexOf(old(listeners), l)) else old(listeners)
      ensures l !in listeners
      ensures multiset(listeners) == multiset(old(listeners)) - multiset{l}
    {
      var index := IndexOf(listeners, l);
      if index > -1 {
        RemoveAtMultiset(listeners, index);
        listeners := RemoveAt(listeners, index);
        assert forall x :: x in listeners ==> x in old(listeners);
      }
    }

    /** `toast({ title, description, type })`: takes the next id and delivers the same toast to
        every registered listener, in registration order. `type` defaults to "success". */
    method Toast(title: Option<string>, description: Option<string>, kind: Option<ToastType>) returns (id: nat)
      requires Valid()
      modifies this, listeners
      ensures Valid()
      ensures id == old(counter) && counter == old(counter) + 1 && listeners == old(listeners)
      ensures delivered == old(delivered) + listeners
      ensures forall l :: l in listeners ==>
        l.toasts == old(l.toasts) + [ToastData(id, title, description, kind.GetOr(Success))]
    {
      id := counter;
      counter := counter + 1;
      var t := ToastData(id, title, description, kind.GetOr(Success));
      var i := 0;
      while i < |listeners|
        invariant 0 <= i <= |listeners| && listeners == old(listeners) && counter == old(counter) + 1
        invariant forall j :: 0 <= j < i ==> listeners[j].toasts == old(listeners[j].toasts) + [t]
        invariant forall j :: i <= j < |listeners| ==> listeners[j].toasts == old(listeners[j].toasts)
        invariant delivered == old(delivered) + listeners[..i]
      {
        listeners[i].Receive(t);
        delivered := delivered + [listeners[i]];
        i := i + 1;
      }
      assert listeners[..i] == listeners;
      forall l | l in listeners ensures l.toasts == old(l.toasts) + [t] {
        var j :| 0 <= j < |listeners| && listeners[j] == l;
      }
    }
  }
}
