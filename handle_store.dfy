/**
 * The stable-handle entity store (CIVector and civ::Ref). Its source is not
 * part of this model, so it is stated abstractly: a map from ID to entity and
 * a counter that hands out fresh IDs. A handle (civ::Ref) is an ID; it
 * resolves iff the ID is still in the map.
 *
 * The order in which a range-for visits the entities, which is also the order
 * of the contiguous `data` vector, is ASSUMED to be the increasing order of the
 * live IDs. The store's erase may well reorder `data` (by moving the last
 * entity into the freed slot, say), and then the visiting order differs. The
 * loops of the model run over the IDs 0 .. next - 1 and skip those that no
 * longer resolve. What rests on the assumption: the order in which relaxation
 * solves the links (each solve sees the moves of the earlier ones), and the
 * order of the link vertices in the renderer's buffer.
 */
module HandleStore {

  type ID = nat

  datatype Inserted<T> = Inserted(store: Store<T>, id: ID)

  datatype Store<T> = Store(items: map<ID, T>, next: ID)
  {
    /** Every ID in use was handed out by the counter. */
    ghost predicate Valid() {
      forall id :: id in items ==> id < next
    }

    /** civ::Ref validity: the handle still names a live entity. */
    predicate Resolves(id: ID) {
      id in items
    }

    /** Number of live entities. */
    function Size(): nat {
      |items|
    }

    /** emplace_back: store `v` under an ID never handed out before. */
    function Insert(v: T): (r: Inserted<T>)
      requires Valid()
      ensures r.store.Valid()
      ensures !Resolves(r.id) && r.store.Resolves(r.id) && r.store.items[r.id] == v
      ensures r.id >= next && r.store.next > r.id
      ensures r.store.items.Keys == items.Keys + {r.id}
      ensures forall id :: id in items ==> r.store.items[id] == items[id]
      ensures r.store.Size() == Size() + 1
    {
      Inserted(Store(items[next := v], next + 1), next)
    }

    /** erase: the entity is gone and its ID never resolves again. */
    function Erase(id: ID): (r: Store<T>)
      requires Valid()
      ensures r.Valid() && r.next == next
      ensures !r.Resolves(id)
      ensures r.items.Keys == items.Keys - {id}
      ensures forall k :: k in r.items ==> r.items[k] == items[k]
    {
      Store(items - {id}, next)
    }

    /** The live IDs below `n`, in increasing order. */
    function LayoutBelow(n: nat): (r: seq<ID>)
      ensures forall i :: 0 <= i < |r| ==> r[i] in items && r[i] < n
      ensures forall i, j :: 0 <= i < j < |r| ==> r[i] < r[j]
      decreases n
    {
      if n == 0 then []
      else if n - 1 in items then LayoutBelow(n - 1) + [n - 1]
      else LayoutBelow(n - 1)
    }

    /**
     * The order of the contiguous `data` vector as modelled: the ID of each
     * live entity once, in increasing order (an assumption; see above).
     */
    function Layout(): seq<ID> {
      LayoutBelow(next)
    }

    ghost function IdsBelow(n: nat): set<ID> {
      set id | id in items && id < n
    }

    /** Writes `v` back under a live ID; nothing else changes. */
    function Set(id: ID, v: T): (r: Store<T>)
      requires Valid() && Resolves(id)
      ensures r.Valid() && r.next == next
      ensures r.items.Keys == items.Keys && r.items[id] == v
      ensures forall k :: k in items && k != id ==> r.items[k] == items[k]
    {
      Store(items[id := v], next)
    }
  }

  lemma {:induction false} LayoutBelowSize<T>(s: Store<T>, n: nat)
    ensures |s.LayoutBelow(n)| == |s.IdsBelow(n)|
    decreases n
  {
    if n > 0 {
      LayoutBelowSize(s, n - 1);
      if n - 1 in s.items {
        assert s.IdsBelow(n) == s.IdsBelow(n - 1) + {n - 1};
      } else {
        assert s.IdsBelow(n) == s.IdsBelow(n - 1);
      }
    }
  }

  /** size(): the layout lists every live entity, each once. */
  lemma LayoutSize<T>(s: Store<T>)
    requires s.Valid()
    ensures |s.Layout()| == s.Size()
    ensures forall id :: id in s.items ==> id in s.Layout()
  {
    LayoutBelowSize(s, s.next);
    LayoutBelowComplete(s, s.next);
    assert s.IdsBelow(s.next) == s.items.Keys;
  }

  lemma {:induction false} LayoutBelowComplete<T>(s: Store<T>, n: nat)
    ensures forall id :: id in s.items && id < n ==> id in s.LayoutBelow(n)
    decreases n
  {
    if n > 0 {
      LayoutBelowComplete(s, n - 1);
    }
  }

  function Empty<T>(): (s: Store<T>)
    ensures s.Valid() && s.Size() == 0
    ensures forall id :: !s.Resolves(id)
  {
    Store(map[], 0)
  }

  /** Inserts every value of `vs`, first to last. */
  function InsertAll<T>(s: Store<T>, vs: seq<T>): (r: Store<T>)
    requires s.Valid()
    ensures r.Valid() && r.next >= s.next
    decreases |vs|
  {
    if vs == [] then s else InsertAll(s.Insert(vs[0]).store, vs[1..])
  }

  /**
   * IDs are not reused: once an ID handed out by the store no longer
   * resolves, no later insertion makes it resolve again.
   */
  lemma {:induction false} ErasedStaysAbsent<T>(s: Store<T>, id: ID, vs: seq<T>)
    requires s.Valid() && id < s.next && !s.Resolves(id)
    ensures !InsertAll(s, vs).Resolves(id)
    decreases |vs|
  {
    if vs != [] {
      ErasedStaysAbsent(s.Insert(vs[0]).store, id, vs[1..]);
    }
  }
}
