/**
 * What writing draft points means, independently of batches: each point is put alone, in
 * order. A collection is created with the size of its first vector and refuses others.
 */
module VectorStore {
  import opened Util

  type Vector = seq<real>
  type Payload = map<string, string>

  datatype Stored = Stored(vector: Vector, payload: Payload)

  /** size None: the server does not report one, and takes every vector. */
  datatype Collection = Collection(size: Option<nat>, points: map<string, Stored>)
  type Store = map<string, Collection>

  datatype Item = Item(collection: string, id: string, stored: Stored)

  datatype Slot = Rejected | Missing | Present(c: Collection)

  predicate Fits(size: Option<nat>, known: nat) {
    size.None? || size.value == known
  }

  function At(store: Store, name: string): Slot {
    if name in store then Present(store[name]) else Missing
  }

  function Size(item: Item): nat { |item.stored.vector| }

  function PutOne(slot: Slot, item: Item): Slot {
    match slot
    case Rejected => Rejected
    case Missing => Present(Collection(Some(Size(item)), map[item.id := item.stored]))
    case Present(c) =>
      if Fits(c.size, Size(item)) then Present(c.(points := c.points[item.id := item.stored])) else Rejected
  }

  function PutAll(slot: Slot, items: seq<Item>): Slot
    decreases |items|
  {
    if items == [] then slot else PutAll(PutOne(slot, items[0]), items[1..])
  }

  function WriteAlone(store: Store, item: Item): Option<Store> {
    match PutOne(At(store, item.collection), item)
    case Present(c) => if item.collection == "" then None else Some(store[item.collection := c])
    case _ => None
  }

  /** The reference: one point at a time; None when some point cannot be written. */
  function WriteAll(store: Store, items: seq<Item>): Option<Store>
    decreases |items|
  {
    if items == [] then Some(store)
    else
      match WriteAlone(store, items[0])
      case None => None
      case Some(next) => WriteAll(next, items[1..])
  }

  function InCollection(items: seq<Item>, name: string): seq<Item> {
    if items == [] then []
    else (if items[0].collection == name then [items[0]] else []) + InCollection(items[1..], name)
  }

  lemma {:induction false} InCollectionAppend(a: seq<Item>, b: seq<Item>, name: string)
    ensures InCollection(a + b, name) == InCollection(a, name) + InCollection(b, name)
  {
    if a == [] {
      assert a + b == b;
    } else {
      InCollectionAppend(a[1..], b, name);
      assert (a + b)[1..] == a[1..] + b;
      var head := if a[0].collection == name then [a[0]] else [];
      assert head + (InCollection(a[1..], name) + InCollection(b, name)) ==
             head + InCollection(a[1..], name) + InCollection(b, name);
    }
  }

  lemma {:induction false} InCollectionMembers(items: seq<Item>, name: string, item: Item)
    ensures item in InCollection(items, name) <==> item in items && item.collection == name
  {
    if items != [] {
      assert items == [items[0]] + items[1..];
      InCollectionMembers(items[1..], name, item);
    }
  }

  lemma {:induction false} WriteAllAppend(store: Store, a: seq<Item>, b: seq<Item>)
    ensures WriteAll(store, a + b)
         == if WriteAll(store, a).Some? then WriteAll(WriteAll(store, a).value, b) else None
    decreases |a|
  {
    hide WriteAlone;
    if a == [] {
      assert a + b == b;
    } else {
      assert (a + b)[1..] == a[1..] + b;
      if WriteAlone(store, a[0]).Some? {
        WriteAllAppend(WriteAlone(store, a[0]).value, a[1..], b);
      }
    }
  }

  lemma {:induction false} PutAllRejected(items: seq<Item>)
    ensures PutAll(Rejected, items) == Rejected
  {
    if items != [] {
      PutAllRejected(items[1..]);
    }
  }

  /** Points of one collection never disturb another: the store writes slot by slot. */
  lemma {:induction false} WriteAllBySlot(store: Store, items: seq<Item>, name: string)
    requires WriteAll(store, items).Some?
    ensures At(WriteAll(store, items).value, name) == PutAll(At(store, name), InCollection(items, name))
    decreases |items|
  {
    if items != [] {
      var item := items[0];
      var next := WriteAlone(store, item).value;
      WriteAllBySlot(next, items[1..], name);
      if item.collection == name {
        assert ([item] + InCollection(items[1..], name))[1..] == InCollection(items[1..], name);
      } else {
        assert [] + InCollection(items[1..], name) == InCollection(items[1..], name);
      }
    }
  }

  ghost predicate SlotsAccept(store: Store, items: seq<Item>) {
    forall name :: PutAll(At(store, name), InCollection(items, name)) != Rejected
  }

  lemma {:induction false} WriteAllSucceeds(store: Store, items: seq<Item>)
    requires forall item :: item in items ==> item.collection != ""
    requires SlotsAccept(store, items)
    ensures WriteAll(store, items).Some?
    decreases |items|
  {
    if items != [] {
      var item, rest := items[0], items[1..];
      var here := InCollection(rest, item.collection);
      assert InCollection(items, item.collection) == [item] + here;
      assert ([item] + here)[1..] == here;
      assert PutAll(At(store, item.collection), [item] + here) != Rejected;
      if PutOne(At(store, item.collection), item).Rejected? {
        PutAllRejected(here);
      }
      var next := WriteAlone(store, item).value;
      forall name ensures PutAll(At(next, name), InCollection(rest, name)) != Rejected {
        assert PutAll(At(store, name), InCollection(items, name)) != Rejected;
        if name != item.collection {
          assert InCollection(items, name) == InCollection(rest, name);
        }
      }
      WriteAllSucceeds(next, rest);
    }
  }

  lemma SameSlotsSameStore(a: Store, b: Store)
    requires forall name :: At(a, name) == At(b, name)
    ensures a == b
  {
    forall name ensures name in a <==> name in b {
      assert At(a, name) == At(b, name);
    }
    forall name | name in a ensures a[name] == b[name] {
      assert At(a, name) == At(b, name);
    }
  }

  /** How the server applies one batch: in order, so a repeated id keeps its last version. */
  function Apply(points: map<string, Stored>, items: seq<Item>): map<string, Stored>
    decreases |items|
  {
    if items == [] then points else Apply(points[items[0].id := items[0].stored], items[1..])
  }

  predicate AllFit(size: Option<nat>, items: seq<Item>) {
    forall item :: item in items ==> Fits(size, Size(item))
  }

  lemma {:induction false} PutAllPresent(c: Collection, items: seq<Item>)
    ensures PutAll(Present(c), items)
         == if AllFit(c.size, items) then Present(c.(points := Apply(c.points, items))) else Rejected
    decreases |items|
  {
    if items != [] {
      var item := items[0];
      assert items == [item] + items[1..];
      if Fits(c.size, Size(item)) {
        PutAllPresent(c.(points := c.points[item.id := item.stored]), items[1..]);
        assert AllFit(c.size, items) <==> AllFit(c.size, items[1..]);
      } else {
        assert item in items;
        PutAllRejected(items[1..]);
      }
    }
  }

  /** Creating an empty collection of the first vector's size, then writing, is just writing. */
  lemma PutAllMissing(items: seq<Item>)
    requires items != []
    ensures PutAll(Missing, items) == PutAll(Present(Collection(Some(Size(items[0])), map[])), items)
  {
    assert map[][items[0].id := items[0].stored] == map[items[0].id := items[0].stored];
  }

  ghost predicate Covers(items: seq<Item>, id: string) {
    exists item :: item in items && item.id == id
  }

  ghost predicate SamePoint(a: map<string, Stored>, b: map<string, Stored>, id: string) {
    (id in a <==> id in b) && (id in a ==> a[id] == b[id])
  }

  lemma CoversRest(items: seq<Item>, id: string)
    requires items != [] && Covers(items, id) && items[0].id != id
    ensures Covers(items[1..], id)
  {
    var x :| x in items && x.id == id;
    assert items == [items[0]] + items[1..];
    assert x in items[1..];
  }

  /** A batch overwrites every id it covers: what was there before no longer matters. */
  lemma {:induction false} ApplyForgets(a: map<string, Stored>, b: map<string, Stored>, items: seq<Item>)
    requires forall id :: Covers(items, id) || SamePoint(a, b, id)
    ensures Apply(a, items) == Apply(b, items)
    decreases |items|
  {
    if items == [] {
      forall id ensures SamePoint(a, b, id) { assert !Covers(items, id); }
      assert a.Keys == b.Keys by {
        forall id ensures id in a <==> id in b { assert SamePoint(a, b, id); }
      }
      forall id | id in a ensures a[id] == b[id] { assert SamePoint(a, b, id); }
    } else {
      var item := items[0];
      var a', b' := a[item.id := item.stored], b[item.id := item.stored];
      forall id ensures Covers(items[1..], id) || SamePoint(a', b', id) {
        if id != item.id && Covers(items, id) { CoversRest(items, id); }
      }
      ApplyForgets(a', b', items[1..]);
    }
  }
}
