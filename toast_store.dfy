/** The toast notification store built by `createToastStore`: an active list of
    toasts, newest first and bounded by `TOAST_LIMIT`, and a list of listeners
    that is told the new state after every change. */
module ToastStore {
  import opened Seqs
  import opened ToastIds

  /** At most this many toasts are active at once. */
  const TOAST_LIMIT: nat := 1

  /** One toast as stored in the active list: its identifier and the props it was
      created with. The `dismiss` closure the source also stores is `Store.Dismiss(id)`. */
  datatype ToastEntry = ToastEntry(id: string, title: string, description: string)

  /** The store's state, `{ toasts }`. */
  datatype State = State(toasts: seq<ToastEntry>)

  /** A listener, compared by identity as JavaScript compares function references. */
  type ListenerId = nat

  /** One call `listener(state)` made while broadcasting. */
  datatype Delivery = Delivery(listener: ListenerId, state: State)

  /** What `toast` returns: the new toast's id; its `dismiss` is `Store.Dismiss(id)`. */
  datatype Handle = Handle(id: string)

  /** What `subscribe` returns: the unsubscribe closure for one listener. */
  datatype Unsubscriber = Unsubscriber(listener: ListenerId)

  /** The updater passed by `toast`: `[t, ...toasts].slice(0, TOAST_LIMIT)`. */
  function Enqueued(toasts: seq<ToastEntry>, t: ToastEntry): (r: seq<ToastEntry>)
    ensures |r| == if |toasts| < TOAST_LIMIT then |toasts| + 1 else TOAST_LIMIT
    ensures r[0] == t
    ensures r[1..] == toasts[..|r| - 1]
  {
    var r := Take([t] + toasts, TOAST_LIMIT);
    assert r[1..] == ([t] + toasts)[1..|r|];
    r
  }

  /** With the limit at one, enqueuing keeps only the newest toast: whatever was
      active is evicted and the new toast is never rejected. */
  lemma EnqueuedKeepsOnlyNewest(toasts: seq<ToastEntry>, t: ToastEntry)
    ensures Enqueued(toasts, t) == [t]
  {
  }

  /** The test `t => t.id !== id`. */
  function OtherId(id: string): ToastEntry -> bool
  {
    (t: ToastEntry) => t.id != id
  }

  /** The updater passed by `dismiss`: `toasts.filter(t => t.id !== id)`. */
  function WithoutId(toasts: seq<ToastEntry>, id: string): (r: seq<ToastEntry>)
    ensures forall t :: t in r <==> t in toasts && t.id != id
    ensures forall t :: multiset(r)[t] == if t.id != id then multiset(toasts)[t] else 0
    ensures (forall i :: 0 <= i < |toasts| ==> toasts[i].id != id) ==> r == toasts
  {
    forall t ensures t in Filter(OtherId(id), toasts) <==> t in toasts && t.id != id {
      FilterMembership(OtherId(id), toasts, t);
    }
    forall t ensures multiset(Filter(OtherId(id), toasts))[t]
                     == if t.id != id then multiset(toasts)[t] else 0 {
      FilterCount(OtherId(id), toasts, t);
    }
    if forall i :: 0 <= i < |toasts| ==> toasts[i].id != id then
      FilterKeepsAll(OtherId(id), toasts);
      Filter(OtherId(id), toasts)
    else
      Filter(OtherId(id), toasts)
  }

  /** Dismissal keeps the relative order of the toasts it leaves. */
  lemma WithoutIdPreservesOrder(a: seq<ToastEntry>, b: seq<ToastEntry>, id: string)
    ensures WithoutId(a + b, id) == WithoutId(a, id) + WithoutId(b, id)
  {
    FilterConcat(OtherId(id), a, b);
  }

  /** Dismissing the same id twice (the 4000 ms timer firing after a manual close)
      leaves the same list as dismissing it once. */
  lemma WithoutIdIdempotent(toasts: seq<ToastEntry>, id: string)
    ensures WithoutId(WithoutId(toasts, id), id) == WithoutId(toasts, id)
  {
  }

  /** The test `l => l !== listener`. */
  function OtherListener(listener: ListenerId): ListenerId -> bool
  {
    (l: ListenerId) => l != listener
  }

  /** The unsubscribe update: `listeners.filter(l => l !== listener)`. */
  function WithoutListener(listeners: seq<ListenerId>, listener: ListenerId): (r: seq<ListenerId>)
    ensures forall l :: l in r <==> l in listeners && l != listener
    ensures forall l :: l != listener ==> multiset(r)[l] == multiset(listeners)[l]
  {
    forall l ensures l in Filter(OtherListener(listener), listeners) <==> l in listeners && l != listener {
      FilterMembership(OtherListener(listener), listeners, l);
    }
    forall l ensures multiset(Filter(OtherListener(listener), listeners))[l]
                     == if l != listener then multiset(listeners)[l] else 0 {
      FilterCount(OtherListener(listener), listeners, l);
    }
    Filter(OtherListener(listener), listeners)
  }

  /** Unsubscribing keeps the other listeners in registration order. */
  lemma WithoutListenerPreservesOrder(a: seq<ListenerId>, b: seq<ListenerId>, listener: ListenerId)
    ensures WithoutListener(a + b, listener) == WithoutListener(a, listener) + WithoutListener(b, listener)
  {
    FilterConcat(OtherListener(listener), a, b);
  }

  /** Subscribing a listener that was not registered and then calling the
      unsubscribe it returned restores the listener list. */
  lemma SubscribeThenUnsubscribe(listeners: seq<ListenerId>, listener: ListenerId)
    requires listener !in listeners
    ensures WithoutListener(listeners + [listener], listener) == listeners
  {
    WithoutListenerPreservesOrder(listeners, [listener], listener);
    FilterKeepsAll(OtherListener(listener), listeners);
  }

  /** The calls `listeners.forEach(listener => listener(state))` makes: each
      registered listener once, in registration order, with the same state. */
  function Notifications(listeners: seq<ListenerId>, s: State): (r: seq<Delivery>)
    ensures |r| == |listeners|
    ensures forall i :: 0 <= i < |r| ==> r[i] == Delivery(listeners[i], s)
  {
    if listeners == [] then [] else [Delivery(listeners[0], s)] + Notifications(listeners[1..], s)
  }

  /** The object returned by `createToastStore`. */
  class Store {
    /** The module-level counter the store draws its ids from. */
    const ids: IdGenerator
    /** The closure variable `state`. */
    var state: State
    /** The closure variable `listeners`. */
    var listeners: seq<ListenerId>
    /** Every listener call made so far, oldest first. */
    var delivered: seq<Delivery>

    /** The active list respects the limit and holds only ids already handed out. */
    ghost predicate Valid()
      reads this, ids
    {
      |state.toasts| <= TOAST_LIMIT
      && (forall i :: 0 <= i < |state.toasts| ==> IssuedBefore(state.toasts[i].id, ids.count))
    }

    /** `createToastStore()`: no toasts, no listeners. */
    constructor (ids: IdGenerator)
      ensures Valid()
      ensures this.ids == ids
      ensures state == State([]) && listeners == [] && delivered == []
    {
      this.ids := ids;
      state := State([]);
      listeners := [];
      delivered := [];
    }

    /** `setState` with an updater: install `next`, then call every listener with it.
        Internal to `Toast` and `Dismiss`: the object `createToastStore` returns does not
        expose it, so it is not part of the store's interface. */
    method SetState(next: State)
      modifies this
      ensures state == next
      ensures listeners == old(listeners)
      ensures delivered == old(delivered) + Notifications(listeners, next)
    {
      state := next;
      var i := 0;
      while i < |listeners|
        invariant 0 <= i <= |listeners|
        invariant state == next && listeners == old(listeners)
        invariant |delivered| == |old(delivered)| + i
        invariant delivered[..|old(delivered)|] == old(delivered)
        invariant forall k :: 0 <= k < i ==> delivered[|old(delivered)| + k] == Delivery(listeners[k], next)
      {
        delivered := delivered + [Delivery(listeners[i], state)];
        i := i + 1;
      }
      assert delivered == old(delivered) + Notifications(listeners, next);
    }

    /** `subscribe(listener)`: append the listener; the returned unsubscriber removes it. */
    method Subscribe(listener: ListenerId) returns (u: Unsubscriber)
      requires Valid()
      modifies this
      ensures Valid()
      ensures listeners == old(listeners) + [listener]
      ensures state == old(state) && delivered == old(delivered)
      ensures u.listener == listener
    {
      listeners := listeners + [listener];
      u := Unsubscriber(listener);
    }

    /** Calling the closure `subscribe` returned: drop every occurrence of its listener. */
    method Unsubscribe(u: Unsubscriber)
      requires Valid()
      modifies this
      ensures Valid()
      ensures listeners == WithoutListener(old(listeners), u.listener)
      ensures state == old(state) && delivered == old(delivered)
    {
      listeners := WithoutListener(listeners, u.listener);
    }

    /** `toast(props)`: take a fresh id, put the new toast at the head of the active
        list, truncate to the limit and broadcast. */
    method Toast(title: string, description: string) returns (h: Handle)
      requires Valid()
      modifies this, ids
      ensures Valid()
      ensures h.id == Decimal(old(ids.count)) && ids.count == old(ids.count) + 1
      ensures forall i :: 0 <= i < |old(state.toasts)| ==> old(state.toasts)[i].id != h.id
      ensures state == State(Enqueued(old(state.toasts), ToastEntry(h.id, title, description)))
      ensures state.toasts[0].id == h.id
      ensures listeners == old(listeners)
      ensures delivered == old(delivered) + Notifications(listeners, state)
    {
      var id := ids.Next();
      NextIdFresh(old(ids.count));
      var t := ToastEntry(id, title, description);
      SetState(State(Enqueued(state.toasts, t)));
      h := Handle(id);
    }

    /** The `dismiss` closure of the toast with id `id`: remove its entries and broadcast.
        The auto-dismiss timer is a later call of this same method. */
    method Dismiss(id: string)
      requires Valid()
      modifies this
      ensures Valid()
      ensures state == State(WithoutId(old(state.toasts), id))
      ensures listeners == old(listeners)
      ensures delivered == old(delivered) + Notifications(listeners, state)
    {
      var next := WithoutId(state.toasts, id);
      forall t | t in next ensures t in state.toasts {
      }
      SetState(State(next));
    }

    /** `getState()`. */
    method GetState() returns (s: State)
      ensures s == state
    {
      s := state;
    }
  }

  /** The enqueue/evict/dismiss sequence the store is designed around: a second toast
      evicts the first, and dismissing the survivor twice empties the list once and
      then changes nothing. */
  method Scenario(ids: IdGenerator) returns (store: Store)
    modifies ids
    ensures store.state == State([])
  {
    store := new Store(ids);
    var a := store.Toast("A", "a");
    assert store.state.toasts == [ToastEntry(a.id, "A", "a")];
    var b := store.Toast("B", "b");
    assert store.state.toasts == [ToastEntry(b.id, "B", "b")];
    assert a.id != b.id;
    store.Dismiss(b.id);
    assert store.state.toasts == [];
    store.Dismiss(b.id);
  }
}
