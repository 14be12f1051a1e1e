/**
 * What the writer guarantees: batching, bisection and regrouping are invisible; a poisoned
 * text stops it exactly there; and retrying after any failures converges to a clean run.
 */
module VectorWriterLaws {
  import opened Util
  import opened VectorStore
  import opened VectorWriter

  /** The provider embeds each text by itself whenever it accepts a batch. */
  ghost predicate PerText(env: Env, v: string -> Vector) {
    forall n: nat, texts: seq<string> :: env.embed(n, texts).Vectors? ==>
      env.embed(n, texts).vectors == EmbedEach(v, texts)
  }

  function EmbedEach(v: string -> Vector, texts: seq<string>): (vectors: seq<Vector>)
    ensures |vectors| == |texts|
  {
    seq(|texts|, i requires 0 <= i < |texts| => v(texts[i]))
  }

  /** The points with their own embeddings: what a point-by-point run writes. */
  function OwnItems(v: string -> Vector, points: seq<DraftPoint>): (items: seq<Item>)
    ensures |items| == |points|
  {
    Items(points, EmbedEach(v, Texts(points)))
  }

  lemma OwnItemsAppend(v: string -> Vector, a: seq<DraftPoint>, b: seq<DraftPoint>)
    ensures OwnItems(v, a + b) == OwnItems(v, a) + OwnItems(v, b)
  {
  }

  // ----- grouping keeps each collection's points, in order

  function ItemsOf(groups: seq<Group>, name: string): seq<Item> {
    if groups == [] then []
    else if groups[0].name == name then groups[0].items
    else ItemsOf(groups[1..], name)
  }

  ghost predicate DistinctNames(groups: seq<Group>) {
    forall i, j :: 0 <= i < j < |groups| ==> groups[i].name != groups[j].name
  }

  ghost predicate HasName(groups: seq<Group>, name: string) {
    exists g :: g in groups && g.name == name
  }

  lemma {:induction false} AddToKeeps(groups: seq<Group>, item: Item, name: string)
    ensures ItemsOf(AddTo(groups, item), name)
         == ItemsOf(groups, name) + (if item.collection == name then [item] else [])
  {
    if groups != [] && groups[0].name != item.collection {
      AddToKeeps(groups[1..], item, name);
    }
  }

  lemma {:induction false} AddToDistinct(groups: seq<Group>, item: Item)
    requires DistinctNames(groups)
    ensures DistinctNames(AddTo(groups, item))
    ensures forall g :: g in AddTo(groups, item) ==> g.name == item.collection || HasName(groups, g.name)
  {
    if groups != [] {
      assert groups == [groups[0]] + groups[1..];
      if groups[0].name == item.collection {
        var head := Group(groups[0].name, groups[0].items + [item]);
        forall g | g in AddTo(groups, item) ensures g.name == item.collection || HasName(groups, g.name) {
          if g != head { assert g in groups; }
        }
      } else {
        AddToDistinct(groups[1..], item);
        var rest := AddTo(groups[1..], item);
        forall g | g in rest ensures g.name != groups[0].name {
          if HasName(groups[1..], g.name) {
            var h :| h in groups[1..] && h.name == g.name;
            var k :| 0 <= k < |groups| - 1 && groups[1..][k] == h;
            assert groups[k + 1].name == h.name;
          }
        }
        forall g | g in AddTo(groups, item) ensures g.name == item.collection || HasName(groups, g.name) {
          if g in rest && HasName(groups[1..], g.name) {
            var h :| h in groups[1..] && h.name == g.name;
            assert h in groups;
          }
        }
      }
    }
  }

  lemma {:induction false} GroupedKeeps(items: seq<Item>, name: string)
    ensures ItemsOf(Grouped(items), name) == InCollection(items, name)
    ensures DistinctNames(Grouped(items))
  {
    if items != [] {
      var front, last := items[..|items| - 1], items[|items| - 1];
      GroupedKeeps(front, name);
      AddToKeeps(Grouped(front), last, name);
      AddToDistinct(Grouped(front), last);
      InCollectionAppend(front, [last], name);
      assert items == front + [last];
      assert [last][1..] == [];
      assert InCollection([last], name) == if last.collection == name then [last] else [];
    }
  }

  // ----- one group, one batch

  /** A passed collection check leaves a collection that takes this size, and nothing else changed. */
  lemma EnsuredSlot(env: Env, w: World, name: string, size: nat)
    ensures var (w1, r) := EnsureCollection(env, w, name, size);
            r.Ok? ==>
              && name in w1.store && Fits(w1.store[name].size, size)
              && w1.store == Created(w.store, name, size)
  {
  }

  lemma WrittenGroup(env: Env, w: World, g: Group, name: string)
    requires g.items != [] && WriteGroup(env, w, g).1.Ok?
    ensures At(WriteGroup(env, w, g).0.store, name)
         == if name == g.name then PutAll(At(w.store, name), g.items) else At(w.store, name)
  {
    hide EnsureCollection;
    EnsuredSlot(env, w, g.name, Size(g.items[0]));
    var (w1, ensured) := EnsureCollection(env, w, g.name, Size(g.items[0]));
    PutAllPresent(w1.store[g.name], g.items);
    if g.name !in w.store {
      PutAllMissing(g.items);
    }
  }

  lemma {:induction false} WrittenGroups(env: Env, w: World, groups: seq<Group>, name: string)
    requires GroupsFilled(groups) && DistinctNames(groups)
    requires WriteGroups(env, w, groups).1.Ok?
    ensures At(WriteGroups(env, w, groups).0.store, name) == PutAll(At(w.store, name), ItemsOf(groups, name))
    decreases |groups|
  {
    hide WriteGroup;
    if groups != [] {
      assert groups[0] in groups;
      var (w1, written) := WriteGroup(env, w, groups[0]);
      WrittenGroup(env, w, groups[0], name);
      WrittenGroups(env, w1, groups[1..], name);
      if groups[0].name == name {
        NotNamedAgain(groups[1..], name);
      }
    }
  }

  lemma {:induction false} NotNamedAgain(groups: seq<Group>, name: string)
    requires forall g :: g in groups ==> g.name != name
    ensures ItemsOf(groups, name) == []
  {
    if groups != [] {
      assert groups[0] in groups;
      NotNamedAgain(groups[1..], name);
    }
  }

  /** Writing group by group is writing point by point. */
  lemma GroupedWriteIsPointwise(env: Env, w: World, items: seq<Item>)
    requires forall item :: item in items ==> item.collection != ""
    requires GroupsFilled(Grouped(items)) && WriteGroups(env, w, Grouped(items)).1.Ok?
    ensures WriteAll(w.store, items) == Some(WriteGroups(env, w, Grouped(items)).0.store)
  {
    hide WriteGroups, Grouped, PutAll, WriteAll;
    var done := WriteGroups(env, w, Grouped(items)).0.store;
    forall name ensures At(done, name) == PutAll(At(w.store, name), InCollection(items, name)) {
      GroupedKeeps(items, name);
      WrittenGroups(env, w, Grouped(items), name);
    }
    forall name ensures PutAll(At(w.store, name), InCollection(items, name)) != Rejected {
      assert At(done, name) != Rejected;
    }
    WriteAllSucceeds(w.store, items);
    var written := WriteAll(w.store, items).value;
    forall name ensures At(written, name) == At(done, name) {
      WriteAllBySlot(w.store, items, name);
    }
    SameSlotsSameStore(written, done);
  }

  /** Bisection is invisible. */
  lemma {:induction false} BatchIsPointwise(env: Env, v: string -> Vector, w: World, points: seq<DraftPoint>)
    requires PerText(env, v) && UpsertBatch(env, w, points).1.Ok?
    ensures WriteAll(w.store, OwnItems(v, points)) == Some(UpsertBatch(env, w, points).0.store)
    decreases |points|
  {
    hide WriteGroups, Grouped, WriteAll;
    var w1 := w.(embeds := w.embeds + 1);
    if env.embed(w.embeds, Texts(points)).EmbedRejected? {
      var mid := |points| / 2;
      var (w2, left) := UpsertBatch(env, w1, points[..mid]);
      BatchIsPointwise(env, v, w1, points[..mid]);
      BatchIsPointwise(env, v, w2, points[mid..]);
      assert points == points[..mid] + points[mid..];
      OwnItemsAppend(v, points[..mid], points[mid..]);
      WriteAllAppend(w.store, OwnItems(v, points[..mid]), OwnItems(v, points[mid..]));
    } else {
      var items := OwnItems(v, points);
      assert env.embed(w.embeds, Texts(points)).vectors == EmbedEach(v, Texts(points));
      forall item | item in items ensures item.collection != "" {
        var i :| 0 <= i < |items| && items[i] == item;
        assert points[i] in points;
      }
      GroupedFilled(items);
      GroupedWriteIsPointwise(env, w1, items);
    }
  }

  lemma {:induction false} ChunksArePointwise(env: Env, v: string -> Vector, w: World, chunks: seq<seq<DraftPoint>>)
    requires PerText(env, v) && UpsertChunks(env, w, chunks).1.Ok?
    ensures WriteAll(w.store, OwnItems(v, Flatten(chunks))) == Some(UpsertChunks(env, w, chunks).0.store)
    decreases |chunks|
  {
    hide UpsertBatch, WriteAll;
    if chunks == [] {
      assert OwnItems(v, []) == [];
      EmptyWrite(w.store);
    } else {
      var (w1, done) := UpsertBatch(env, w, chunks[0]);
      BatchIsPointwise(env, v, w, chunks[0]);
      ChunksArePointwise(env, v, w1, chunks[1..]);
      OwnItemsAppend(v, chunks[0], Flatten(chunks[1..]));
      WriteAllAppend(w.store, OwnItems(v, chunks[0]), OwnItems(v, Flatten(chunks[1..])));
    }
  }

  lemma EmptyWrite(store: Store)
    ensures WriteAll(store, []) == Some(store)
  {
  }

  /**
   * Whatever the batch size, the provider's rejections and the server's faults: a normal
   * return leaves exactly the store of embedding and writing each point alone, in order.
   */
  lemma NormalReturnIsPointwise(env: Env, v: string -> Vector, w: World, points: seq<DraftPoint>, size: nat)
    requires size >= 1 && PerText(env, v)
    requires Upsert(env, w, points, size).1.Ok?
    ensures WriteAll(w.store, OwnItems(v, points)) == Some(Upsert(env, w, points, size).0.store)
  {
    ChunksArePointwise(env, v, w, Chunks(points, size));
  }

  // ----- embedding calls

  /** A batch of n points costs at most 2n - 1 embedding calls, and the writer terminates. */
  lemma {:induction false} BisectionCost(env: Env, w: World, points: seq<DraftPoint>)
    requires points != []
    ensures w.embeds < UpsertBatch(env, w, points).0.embeds <= w.embeds + 2 * |points| - 1
    decreases |points|
  {
    hide WriteGroups, Grouped;
    var w1 := w.(embeds := w.embeds + 1);
    var reply := env.embed(w.embeds, Texts(points));
    if reply.EmbedRejected? {
      if |points| > 1 {
        var mid := |points| / 2;
        var (w2, left) := UpsertBatch(env, w1, points[..mid]);
        BisectionCost(env, w1, points[..mid]);
        BisectionCost(env, w2, points[mid..]);
      }
    } else if |reply.vectors| == |points| && AllNamed(points) {
      GroupedFilled(Items(points, reply.vectors));
      WritesDoNotEmbed(env, w1, Grouped(Items(points, reply.vectors)));
    }
  }

  lemma {:induction false} WritesDoNotEmbed(env: Env, w: World, groups: seq<Group>)
    requires GroupsFilled(groups)
    ensures WriteGroups(env, w, groups).0.embeds == w.embeds
    decreases |groups|
  {
    if groups != [] {
      assert groups[0] in groups;
      var (w1, written) := WriteGroup(env, w, groups[0]);
      WritesDoNotEmbed(env, w1, groups[1..]);
    }
  }
}
