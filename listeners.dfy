/**
  The listener tables the services keep in Node `EventEmitter`s, modelled as
  a map from a key (event kind or method name) to the ordered handlers
  registered under it. As in Node, a key whose last handler is removed is
  deleted, `on` appends, `removeListener` removes the most recently added
  occurrence of the handler, and `emit` calls every handler in order.
 */
module Listeners {

  /** An application callback, identified by an opaque number. */
  type HandlerId = nat

  type Table<K> = map<K, seq<HandlerId>>

  /** No key is left holding an empty list. */
  predicate NoEmpty<K(!new)>(t: Table<K>)
  {
    forall k :: k in t ==> t[k] != []
  }

  /** `emitter.listeners(k)`. */
  function ListenersOf<K(!new)>(t: Table<K>, k: K): seq<HandlerId>
  {
    if k in t then t[k] else []
  }

  /** `emitter.on(k, h)`. */
  function On<K(!new)>(t: Table<K>, k: K, h: HandlerId): (t': Table<K>)
    ensures ListenersOf(t', k) == ListenersOf(t, k) + [h]
    ensures forall o :: o != k ==> ListenersOf(t', o) == ListenersOf(t, o)
    ensures NoEmpty(t) ==> NoEmpty(t')
  {
    t[k := ListenersOf(t, k) + [h]]
  }

  /** The list with the last occurrence of `h` removed (unchanged if absent). */
  function RemoveLast(hs: seq<HandlerId>, h: HandlerId): (r: seq<HandlerId>)
  {
    if hs == [] then []
    else if hs[|hs| - 1] == h then hs[..|hs| - 1]
    else RemoveLast(hs[..|hs| - 1], h) + [hs[|hs| - 1]]
  }

  /** Removing one occurrence takes exactly one copy of `h` out and leaves
      every other handler in place: as a multiset, the list loses `{h}` if it
      held `h` and nothing otherwise. */
  lemma {:induction false} RemoveLastMultiset(hs: seq<HandlerId>, h: HandlerId)
    ensures multiset(RemoveLast(hs, h)) == if h in hs then multiset(hs) - multiset{h} else multiset(hs)
  {
    if hs != [] {
      var init, last := hs[..|hs| - 1], hs[|hs| - 1];
      assert hs == init + [last];
      if last != h {
        RemoveLastMultiset(init, h);
        assert h in hs <==> h in init;
      }
    }
  }

  /** Removing a handler right after adding it restores the list. */
  lemma RemoveLastUndoesAppend(hs: seq<HandlerId>, h: HandlerId)
    ensures RemoveLast(hs + [h], h) == hs
  {
    assert (hs + [h])[..|hs|] == hs;
  }

  /** `emitter.removeListener(k, h)`; the key disappears with its last handler. */
  function RemoveListener<K(!new)>(t: Table<K>, k: K, h: HandlerId): (t': Table<K>)
    ensures ListenersOf(t', k) == RemoveLast(ListenersOf(t, k), h)
    ensures forall o :: o != k ==> ListenersOf(t', o) == ListenersOf(t, o)
    ensures NoEmpty(t) ==> NoEmpty(t')
  {
    var rest := RemoveLast(ListenersOf(t, k), h);
    if rest == [] then t - {k} else t[k := rest]
  }

  /** `emitter.removeAllListeners(k)`. */
  function RemoveAll<K(!new)>(t: Table<K>, k: K): (t': Table<K>)
    ensures ListenersOf(t', k) == []
    ensures forall o :: o != k ==> ListenersOf(t', o) == ListenersOf(t, o)
    ensures NoEmpty(t) ==> NoEmpty(t')
  {
    t - {k}
  }

  /** Adding a handler and then removing it again leaves the table exactly as
      it was (the key is deleted again if the handler was its only one). */
  lemma OnThenRemove<K(!new)>(t: Table<K>, k: K, h: HandlerId)
    requires NoEmpty(t)
    ensures RemoveListener(On(t, k, h), k, h) == t
  {
    RemoveLastUndoesAppend(ListenersOf(t, k), h);
    var t' := RemoveListener(On(t, k, h), k, h);
    if k in t {
      assert t'[k] == t[k];
    }
    assert t'.Keys == t.Keys;
  }

  /** One call of a handler by `emit`. */
  datatype Delivery<N> = Delivery(handler: HandlerId, note: N)

  /** `emitter.emit(k, args...)`: every handler of the list receives the same
      arguments, in registration order. */
  function Fanout<N>(hs: seq<HandlerId>, note: N): (ds: seq<Delivery<N>>)
    ensures |ds| == |hs|
    ensures forall i :: 0 <= i < |hs| ==> ds[i] == Delivery(hs[i], note)
  {
    seq(|hs|, i requires 0 <= i < |hs| => Delivery(hs[i], note))
  }
}
