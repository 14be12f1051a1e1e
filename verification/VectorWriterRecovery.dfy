/** Failures of the writer: where a poisoned text stops it, and why retrying is safe. */
module VectorWriterRecovery {
  import opened Util
  import opened VectorStore
  import opened VectorWriter
  import opened VectorWriterLaws

  ghost predicate HealthyServer(env: Env) {
    forall n: nat :: env.fault(n) == Healthy
  }

  predicate Poisoned(poison: string -> bool, texts: seq<string>) {
    exists text :: text in texts && poison(text)
  }

  /** A provider that rejects exactly the batches with a poison text, or above a size limit. */
  ghost predicate RejectsPoison(env: Env, v: string -> Vector, poison: string -> bool, limit: nat) {
    forall n: nat, texts: seq<string> ::
      env.embed(n, texts) ==
      if Poisoned(poison, texts) || |texts| > limit then EmbedRejected else Vectors(EmbedEach(v, texts))
  }

  /** The number of points before the first poisoned one. */
  function CleanPrefix(poison: string -> bool, points: seq<DraftPoint>): (k: nat)
    ensures k <= |points|
    ensures forall i :: 0 <= i < k ==> !poison(points[i].text)
    ensures k < |points| ==> poison(points[k].text)
  {
    if points == [] || poison(points[0].text) then 0 else 1 + CleanPrefix(poison, points[1..])
  }

  lemma PoisonedIffNotClean(poison: string -> bool, points: seq<DraftPoint>)
    ensures Poisoned(poison, Texts(points)) <==> CleanPrefix(poison, points) < |points|
  {
    var k := CleanPrefix(poison, points);
    if k < |points| {
      assert Texts(points)[k] == points[k].text;
    }
    if Poisoned(poison, Texts(points)) {
      var text :| text in Texts(points) && poison(text);
      var i :| 0 <= i < |points| && Texts(points)[i] == text;
    }
  }

  lemma {:induction false} CleanPrefixSplit(poison: string -> bool, a: seq<DraftPoint>, b: seq<DraftPoint>)
    ensures CleanPrefix(poison, a + b)
         == if CleanPrefix(poison, a) < |a| then CleanPrefix(poison, a) else |a| + CleanPrefix(poison, b)
  {
    if a == [] {
      assert a + b == b;
    } else {
      assert (a + b)[1..] == a[1..] + b;
      CleanPrefixSplit(poison, a[1..], b);
    }
  }

  // ----- on a healthy server a write fails only when a point cannot be written

  lemma HealthyGroup(env: Env, w: World, g: Group)
    requires HealthyServer(env) && g.items != []
    requires PutAll(At(w.store, g.name), g.items) != Rejected
    ensures WriteGroup(env, w, g).1.Ok?
  {
    var size := Size(g.items[0]);
    assert g.items[0] in g.items;
    if g.name in w.store {
      PutAllPresent(w.store[g.name], g.items);
    } else {
      PutAllMissing(g.items);
      PutAllPresent(Collection(Some(size), map[]), g.items);
    }
    assert env.fault(w.requests) == env.fault(w.requests + 1) == env.fault(w.requests + 2) == Healthy;
  }

  lemma {:induction false} HealthyGroups(env: Env, w: World, groups: seq<Group>)
    requires HealthyServer(env) && GroupsFilled(groups) && DistinctNames(groups)
    requires forall name :: PutAll(At(w.store, name), ItemsOf(groups, name)) != Rejected
    ensures WriteGroups(env, w, groups).1.Ok?
    decreases |groups|
  {
    hide WriteGroup, PutAll;
    if groups != [] {
      var g := groups[0];
      assert g in groups;
      assert PutAll(At(w.store, g.name), ItemsOf(groups, g.name)) != Rejected;
      HealthyGroup(env, w, g);
      var w1 := WriteGroup(env, w, g).0;
      forall name ensures PutAll(At(w1.store, name), ItemsOf(groups[1..], name)) != Rejected {
        WrittenGroup(env, w, g, name);
        assert PutAll(At(w.store, name), ItemsOf(groups, name)) != Rejected;
        if name == g.name {
          NotNamedAgain(groups[1..], name);
          NothingPut(At(w1.store, name));
        }
      }
      HealthyGroups(env, w1, groups[1..]);
    }
  }

  lemma NothingPut(slot: Slot)
    ensures PutAll(slot, []) == slot
  {
  }

  lemma {:induction false} WrittenNames(store: Store, items: seq<Item>)
    requires WriteAll(store, items).Some?
    ensures forall item :: item in items ==> item.collection != ""
    decreases |items|
  {
    if items != [] {
      assert items == [items[0]] + items[1..];
      WrittenNames(WriteAlone(store, items[0]).value, items[1..]);
    }
  }

  /** An accepted batch on a healthy server writes whenever its points can be written at all. */
  lemma HealthyBatch(env: Env, v: string -> Vector, w: World, points: seq<DraftPoint>)
    requires HealthyServer(env)
    requires env.embed(w.embeds, Texts(points)) == Vectors(EmbedEach(v, Texts(points)))
    requires WriteAll(w.store, OwnItems(v, points)).Some?
    ensures var (w1, r) := UpsertBatch(env, w, points);
            r == Ok && Some(w1.store) == WriteAll(w.store, OwnItems(v, points))
  {
    hide WriteGroups, Grouped, WriteAll, PutAll, InCollection;
    var items := OwnItems(v, points);
    WrittenNames(w.store, items);
    forall p | p in points ensures p.collection != "" {
      var i :| 0 <= i < |points| && points[i] == p;
      assert items[i] in items;
    }
    GroupedFilled(items);
    var w1 := w.(embeds := w.embeds + 1);
    assert DistinctNames(Grouped(items)) by { GroupedKeeps(items, ""); }
    forall name ensures PutAll(At(w1.store, name), ItemsOf(Grouped(items), name)) != Rejected {
      GroupedKeeps(items, name);
      WriteAllBySlot(w.store, items, name);
    }
    HealthyGroups(env, w1, Grouped(items));
    GroupedWriteIsPointwise(env, w1, items);
  }

  lemma OwnItemsOfNone(v: string -> Vector)
    ensures OwnItems(v, []) == []
  {
  }

  /** What a poison-rejecting provider's answer says about the batch. */
  lemma PoisonReply(
    env: Env, v: string -> Vector, poison: string -> bool, limit: nat, n: nat, points: seq<DraftPoint>
  )
    requires limit >= 1 && RejectsPoison(env, v, poison, limit)
    ensures var reply, k := env.embed(n, Texts(points)), CleanPrefix(poison, points);
            && (reply.EmbedRejected? && |points| == 1 ==> k == 0)
            && (reply.Vectors? ==> k == |points| && reply == Vectors(EmbedEach(v, Texts(points))))
  {
    hide CleanPrefix;
    CleanBounds(poison, points);
    PoisonedIffNotClean(poison, points);
    assert |Texts(points)| == |points|;
  }

  /** The batch stops exactly at its first poisoned text, with everything before it written. */
  lemma {:induction false} PoisonStopsBatch(
    env: Env, v: string -> Vector, poison: string -> bool, limit: nat, w: World, points: seq<DraftPoint>
  )
    requires HealthyServer(env) && limit >= 1 && RejectsPoison(env, v, poison, limit)
    requires points != []
    requires WriteAll(w.store, OwnItems(v, points[..CleanPrefix(poison, points)])).Some?
    ensures var k := CleanPrefix(poison, points);
            var (w1, r) := UpsertBatch(env, w, points);
            && r == (if k < |points| then Err(EmbeddingFailed) else Ok)
            && Some(w1.store) == WriteAll(w.store, OwnItems(v, points[..k]))
    decreases |points|
  {
    hide WriteGroups, Grouped, WriteAll, CleanPrefix, OwnItems, HealthyServer, Items, Texts, RejectsPoison;
    OwnItemsOfNone(v);
    var k := CleanPrefix(poison, points);
    CleanBounds(poison, points);
    PoisonReply(env, v, poison, limit, w.embeds, points);
    var reply := env.embed(w.embeds, Texts(points));
    var w1 := w.(embeds := w.embeds + 1);
    if reply.EmbedRejected? {
      if |points| > 1 {
        var mid := |points| / 2;
        var a, b := points[..mid], points[mid..];
        assert points == a + b;
        CleanPrefixSplit(poison, a, b);
        CleanBounds(poison, a);
        CleanBounds(poison, b);
        if CleanPrefix(poison, a) < |a| {
          assert points[..k] == a[..k];
          PoisonStopsBatch(env, v, poison, limit, w1, a);
        } else {
          var kb := CleanPrefix(poison, b);
          assert points[..k] == a + b[..kb];
          assert a[..|a|] == a;
          OwnItemsAppend(v, a, b[..kb]);
          WriteAllAppend(w.store, OwnItems(v, a), OwnItems(v, b[..kb]));
          PoisonStopsBatch(env, v, poison, limit, w1, a);
          var w2 := UpsertBatch(env, w1, a).0;
          PoisonStopsBatch(env, v, poison, limit, w2, b);
        }
      } else {
        assert k == 0;
        assert OwnItems(v, points[..0]) == [];
        EmptyWrite(w.store);
      }
    } else {
      assert points[..k] == points;
      HealthyBatch(env, v, w, points);
    }
  }

  lemma CleanBounds(poison: string -> bool, points: seq<DraftPoint>)
    ensures CleanPrefix(poison, points) <= |points|
    ensures forall i :: 0 <= i < CleanPrefix(poison, points) ==> !poison(points[i].text)
    ensures CleanPrefix(poison, points) < |points| ==> poison(points[CleanPrefix(poison, points)].text)
  {
  }

  lemma {:induction false} PoisonStopsChunks(
    env: Env, v: string -> Vector, poison: string -> bool, limit: nat, w: World, chunks: seq<seq<DraftPoint>>
  )
    requires HealthyServer(env) && limit >= 1 && RejectsPoison(env, v, poison, limit)
    requires forall chunk :: chunk in chunks ==> chunk != []
    requires var points := Flatten(chunks);
             WriteAll(w.store, OwnItems(v, points[..CleanPrefix(poison, points)])).Some?
    ensures var points := Flatten(chunks);
            var k := CleanPrefix(poison, points);
            var (w1, r) := UpsertChunks(env, w, chunks);
            && r == (if k < |points| then Err(EmbeddingFailed) else Ok)
            && Some(w1.store) == WriteAll(w.store, OwnItems(v, points[..k]))
    decreases |chunks|
  {
    hide UpsertBatch, WriteAll, CleanPrefix;
    var points := Flatten(chunks);
    var k := CleanPrefix(poison, points);
    CleanBounds(poison, points);
    if chunks == [] {
      assert OwnItems(v, points[..k]) == [];
      EmptyWrite(w.store);
    } else {
      var a, b := chunks[0], Flatten(chunks[1..]);
      assert a in chunks;
      CleanPrefixSplit(poison, a, b);
      CleanBounds(poison, a);
      CleanBounds(poison, b);
      if CleanPrefix(poison, a) < |a| {
        assert points[..k] == a[..k];
        PoisonStopsBatch(env, v, poison, limit, w, a);
      } else {
        var kb := CleanPrefix(poison, b);
        assert points[..k] == a + b[..kb];
        assert a[..|a|] == a;
        OwnItemsAppend(v, a, b[..kb]);
        WriteAllAppend(w.store, OwnItems(v, a), OwnItems(v, b[..kb]));
        PoisonStopsBatch(env, v, poison, limit, w, a);
        assert forall chunk :: chunk in chunks[1..] ==> chunk in chunks;
        PoisonStopsChunks(env, v, poison, limit, UpsertBatch(env, w, a).0, chunks[1..]);
      }
    }
  }

  /**
   * Given writable points before it, a call succeeds iff no text is poisoned; otherwise it
   * raises having written exactly the points before the first poisoned one.
   */
  lemma PoisonStopsExactly(
    env: Env, v: string -> Vector, poison: string -> bool, limit: nat,
    w: World, points: seq<DraftPoint>, size: nat
  )
    requires HealthyServer(env) && limit >= 1 && size >= 1 && RejectsPoison(env, v, poison, limit)
    requires WriteAll(w.store, OwnItems(v, points[..CleanPrefix(poison, points)])).Some?
    ensures var (w1, r) := Upsert(env, w, points, size);
            && (r == Ok <==> !Poisoned(poison, Texts(points)))
            && (r != Ok ==> r == Err(EmbeddingFailed))
            && Some(w1.store) == WriteAll(w.store, OwnItems(v, points[..CleanPrefix(poison, points)]))
  {
    hide UpsertChunks, WriteAll;
    PoisonStopsChunks(env, v, poison, limit, w, Chunks(points, size));
    PoisonedIffNotClean(poison, points);
  }

  // ----- retrying

  ghost predicate Touched(points: seq<DraftPoint>, name: string, id: string) {
    exists p :: p in points && p.collection == name && p.id == id
  }

  ghost predicate Named(points: seq<DraftPoint>, name: string) {
    exists p :: p in points && p.collection == name
  }

  function PointsAt(store: Store, name: string): map<string, Stored> {
    if name in store then store[name].points else map[]
  }

  /** What a run over these points, however it failed, may have done to the store. */
  ghost predicate Dirty(origin: Store, points: seq<DraftPoint>, store: Store) {
    && (forall name :: name in origin ==> name in store && store[name].size == origin[name].size)
    && (forall name :: name in store && name !in origin ==> store[name].size.Some? && Named(points, name))
    && (forall name, id :: Touched(points, name, id) || SamePoint(PointsAt(store, name), PointsAt(origin, name), id))
  }

  lemma DirtyCreate(origin: Store, points: seq<DraftPoint>, store: Store, name: string, size: nat)
    requires Dirty(origin, points, store) && Named(points, name)
    ensures Dirty(origin, points, Created(store, name, size))
  {
    var next := Created(store, name, size);
    forall n, id ensures Touched(points, n, id) || SamePoint(PointsAt(next, n), PointsAt(origin, n), id) {
      assert PointsAt(next, n) == PointsAt(store, n);
    }
  }

  lemma {:induction false} ApplyElsewhere(points: map<string, Stored>, items: seq<Item>, id: string)
    requires !Covers(items, id)
    ensures SamePoint(Apply(points, items), points, id)
    decreases |items|
  {
    if items != [] {
      assert items[0] in items;
      assert items == [items[0]] + items[1..];
      assert !Covers(items[1..], id);
      ApplyElsewhere(points[items[0].id := items[0].stored], items[1..], id);
    }
  }

  ghost predicate From(items: seq<Item>, points: seq<DraftPoint>) {
    forall item :: item in items ==> Touched(points, item.collection, item.id)
  }

  lemma DirtyPut(origin: Store, points: seq<DraftPoint>, store: Store, name: string, items: seq<Item>)
    requires Dirty(origin, points, store) && name in store
    requires From(items, points) && forall item :: item in items ==> item.collection == name
    ensures Dirty(origin, points, store[name := store[name].(points := Apply(store[name].points, items))])
  {
    var next := store[name := store[name].(points := Apply(store[name].points, items))];
    forall n, id ensures Touched(points, n, id) || SamePoint(PointsAt(next, n), PointsAt(origin, n), id) {
      assert Touched(points, n, id) || SamePoint(PointsAt(store, n), PointsAt(origin, n), id);
      if n == name {
        if Covers(items, id) {
          var item :| item in items && item.id == id;
          assert Touched(points, item.collection, item.id);
        } else {
          ApplyElsewhere(store[name].points, items, id);
        }
      } else {
        assert PointsAt(next, n) == PointsAt(store, n);
      }
    }
  }

  lemma EnsureTouches(env: Env, w: World, name: string, size: nat)
    ensures var next := EnsureCollection(env, w, name, size).0.store;
            next == w.store || next == Created(w.store, name, size)
  {
  }

  lemma PutTouches(env: Env, w: World, name: string, items: seq<Item>)
    ensures var next := PutPoints(env, w, name, items).0.store;
            next == w.store ||
            (name in w.store && next == w.store[name := w.store[name].(points := Apply(w.store[name].points, items))])
  {
  }

  lemma DirtyGroup(env: Env, w: World, g: Group, origin: Store, points: seq<DraftPoint>)
    requires g.items != [] && forall item :: item in g.items ==> item.collection == g.name
    requires From(g.items, points) && Dirty(origin, points, w.store)
    ensures Dirty(origin, points, WriteGroup(env, w, g).0.store)
  {
    hide EnsureCollection, PutPoints, Dirty;
    var size := Size(g.items[0]);
    var (w1, ensured) := EnsureCollection(env, w, g.name, size);
    EnsureTouches(env, w, g.name, size);
    assert Named(points, g.name) by {
      assert g.items[0] in g.items;
      assert Touched(points, g.name, g.items[0].id);
    }
    DirtyCreate(origin, points, w.store, g.name, size);
    PutTouches(env, w1, g.name, g.items);
    if g.name in w1.store { DirtyPut(origin, points, w1.store, g.name, g.items); }
  }

  lemma {:induction false} DirtyGroups(env: Env, w: World, groups: seq<Group>, origin: Store, points: seq<DraftPoint>)
    requires GroupsFilled(groups) && Dirty(origin, points, w.store)
    requires forall g :: g in groups ==> From(g.items, points)
    ensures Dirty(origin, points, WriteGroups(env, w, groups).0.store)
    decreases |groups|
  {
    hide WriteGroup, Dirty, From;
    if groups != [] {
      assert groups[0] in groups;
      DirtyGroup(env, w, groups[0], origin, points);
      DirtyGroups(env, WriteGroup(env, w, groups[0]).0, groups[1..], origin, points);
    }
  }

  lemma {:induction false} AddToFrom(groups: seq<Group>, item: Item, points: seq<DraftPoint>)
    requires forall g :: g in groups ==> From(g.items, points)
    requires Touched(points, item.collection, item.id)
    ensures forall g :: g in AddTo(groups, item) ==> From(g.items, points)
  {
    hide Touched;
    if groups != [] {
      assert groups[0] in groups;
      if groups[0].name != item.collection {
        AddToFrom(groups[1..], item, points);
      }
    }
  }

  lemma {:induction false} GroupedFrom(items: seq<Item>, points: seq<DraftPoint>)
    requires From(items, points)
    ensures forall g :: g in Grouped(items) ==> From(g.items, points)
  {
    hide Touched;
    if items != [] {
      GroupedFrom(items[..|items| - 1], points);
      AddToFrom(Grouped(items[..|items| - 1]), items[|items| - 1], points);
    }
  }

  lemma {:induction false} DirtyBatch(
    env: Env, w: World, batch: seq<DraftPoint>, origin: Store, points: seq<DraftPoint>
  )
    requires Dirty(origin, points, w.store) && forall p :: p in batch ==> p in points
    ensures Dirty(origin, points, UpsertBatch(env, w, batch).0.store)
    decreases |batch|
  {
    hide WriteGroups, Grouped, Dirty;
    var reply := env.embed(w.embeds, Texts(batch));
    var w1 := w.(embeds := w.embeds + 1);
    if reply.EmbedRejected? {
      if |batch| > 1 {
        var mid := |batch| / 2;
        DirtyBatch(env, w1, batch[..mid], origin, points);
        DirtyBatch(env, UpsertBatch(env, w1, batch[..mid]).0, batch[mid..], origin, points);
      }
    } else if |reply.vectors| == |batch| && AllNamed(batch) {
      var items := Items(batch, reply.vectors);
      forall item | item in items ensures Touched(points, item.collection, item.id) {
        var i :| 0 <= i < |items| && items[i] == item;
        assert batch[i] in batch;
      }
      GroupedFilled(items);
      GroupedFrom(items, points);
      DirtyGroups(env, w1, Grouped(items), origin, points);
    }
  }

  lemma {:induction false} DirtyChunks(
    env: Env, w: World, chunks: seq<seq<DraftPoint>>, origin: Store, points: seq<DraftPoint>
  )
    requires Dirty(origin, points, w.store) && forall p :: p in Flatten(chunks) ==> p in points
    ensures Dirty(origin, points, UpsertChunks(env, w, chunks).0.store)
    decreases |chunks|
  {
    hide UpsertBatch, Dirty;
    if chunks != [] {
      DirtyBatch(env, w, chunks[0], origin, points);
      DirtyChunks(env, UpsertBatch(env, w, chunks[0]).0, chunks[1..], origin, points);
    }
  }

  /** Writing the whole list over a dirty store ends where writing it over the origin does. */
  lemma DirtyConverges(origin: Store, store: Store, v: string -> Vector, points: seq<DraftPoint>)
    requires Dirty(origin, points, store)
    requires WriteAll(store, OwnItems(v, points)).Some?
    ensures WriteAll(origin, OwnItems(v, points)) == WriteAll(store, OwnItems(v, points))
  {
    hide WriteAll, PutAll, InCollection, Dirty, OwnItems;
    var items := OwnItems(v, points);
    WrittenNames(store, items);
    forall name
      ensures PutAll(At(origin, name), InCollection(items, name)) == PutAll(At(store, name), InCollection(items, name))
      ensures PutAll(At(store, name), InCollection(items, name)) != Rejected
    {
      WriteAllBySlot(store, items, name);
      DirtySlotConverges(origin, store, v, points, name);
    }
    WriteAllSucceeds(origin, items);
    var a, b := WriteAll(origin, items).value, WriteAll(store, items).value;
    forall name ensures At(a, name) == At(b, name) {
      WriteAllBySlot(origin, items, name);
      WriteAllBySlot(store, items, name);
    }
    SameSlotsSameStore(a, b);
  }

  lemma DirtySlotConverges(origin: Store, store: Store, v: string -> Vector, points: seq<DraftPoint>, name: string)
    requires Dirty(origin, points, store)
    requires PutAll(At(store, name), InCollection(OwnItems(v, points), name)) != Rejected
    ensures var items := InCollection(OwnItems(v, points), name);
            PutAll(At(origin, name), items) == PutAll(At(store, name), items)
  {
    hide InCollection, OwnItems;
    var items := InCollection(OwnItems(v, points), name);
    OwnItemsCover(v, points, name);
    forall id ensures Covers(items, id) || SamePoint(PointsAt(store, name), PointsAt(origin, name), id) {
      assert Touched(points, name, id) || SamePoint(PointsAt(store, name), PointsAt(origin, name), id);
    }
    ApplyForgets(PointsAt(store, name), PointsAt(origin, name), items);
    if name in store {
      PutAllPresent(store[name], items);
      if name in origin {
        PutAllPresent(origin[name], items);
      } else {
        assert items != [];
        PutAllMissing(items);
        assert items[0] in items;
        PutAllPresent(Collection(Some(Size(items[0])), map[]), items);
      }
    }
  }

  /** The items of a collection are exactly the points named for it. */
  lemma OwnItemsCover(v: string -> Vector, points: seq<DraftPoint>, name: string)
    ensures forall id :: Touched(points, name, id) <==> Covers(InCollection(OwnItems(v, points), name), id)
    ensures Named(points, name) ==> InCollection(OwnItems(v, points), name) != []
  {
    hide InCollection;
    var all := OwnItems(v, points);
    forall i | 0 <= i < |points| && points[i].collection == name
      ensures Covers(InCollection(all, name), points[i].id)
    {
      InCollectionMembers(all, name, all[i]);
    }
    forall id | Covers(InCollection(all, name), id) ensures Touched(points, name, id) {
      var item :| item in InCollection(all, name) && item.id == id;
      InCollectionMembers(all, name, item);
      var i :| 0 <= i < |all| && all[i] == item;
      assert points[i] in points;
    }
  }

  /** A run of the same call under some conditions and batch size, ended by any outcome. */
  datatype Attempt = Attempt(env: Env, size: nat)

  /** The store after a series of attempts over the same points, each a fresh process. */
  function AfterAttempts(store: Store, attempts: seq<Attempt>, points: seq<DraftPoint>): Store
    requires forall a :: a in attempts ==> a.size >= 1
    decreases |attempts|
  {
    if attempts == [] then store
    else
      assert attempts[0] in attempts;
      AfterAttempts(Upsert(attempts[0].env, World(store, 0, 0), points, attempts[0].size).0.store, attempts[1..], points)
  }

  lemma {:induction false} DirtyAttempts(
    origin: Store, store: Store, attempts: seq<Attempt>, points: seq<DraftPoint>
  )
    requires forall a :: a in attempts ==> a.size >= 1
    requires Dirty(origin, points, store)
    ensures Dirty(origin, points, AfterAttempts(store, attempts, points))
    decreases |attempts|
  {
    hide UpsertChunks, Dirty;
    if attempts != [] {
      var a := attempts[0];
      assert a in attempts;
      DirtyChunks(a.env, World(store, 0, 0), Chunks(points, a.size), origin, points);
      DirtyAttempts(origin, Upsert(a.env, World(store, 0, 0), points, a.size).0.store, attempts[1..], points);
    }
  }

  /**
   * After any number of attempts, each failing anywhere in any way, a run over the same
   * points that returns normally leaves exactly the store of a single clean run.
   */
  lemma RetryConverges(
    origin: Store, attempts: seq<Attempt>, points: seq<DraftPoint>, env: Env, v: string -> Vector, size: nat
  )
    requires forall a :: a in attempts ==> a.size >= 1
    requires size >= 1 && PerText(env, v)
    requires Upsert(env, World(AfterAttempts(origin, attempts, points), 0, 0), points, size).1.Ok?
    ensures var last := Upsert(env, World(AfterAttempts(origin, attempts, points), 0, 0), points, size).0.store;
            WriteAll(origin, OwnItems(v, points)) == Some(last)
  {
    hide UpsertChunks, WriteAll, AfterAttempts, OwnItems;
    var store := AfterAttempts(origin, attempts, points);
    DirtyAttempts(origin, origin, attempts, points);
    NormalReturnIsPointwise(env, v, World(store, 0, 0), points, size);
    DirtyConverges(origin, store, v, points);
  }

  /** The reference step is what the writer itself does with one point on a healthy server. */
  lemma AloneIsSinglePointRun(env: Env, v: string -> Vector, w: World, point: DraftPoint, size: nat)
    requires HealthyServer(env) && size >= 1
    requires env.embed(w.embeds, [point.text]) == Vectors([v(point.text)])
    ensures var (w1, r) := Upsert(env, w, [point], size);
            var item := Item(point.collection, point.id, Stored(v(point.text), point.payload));
            && (r == Ok <==> WriteAlone(w.store, item).Some?)
            && (r == Ok ==> WriteAlone(w.store, item) == Some(w1.store))
  {
    hide UpsertBatch;
    var item := Item(point.collection, point.id, Stored(v(point.text), point.payload));
    assert Texts([point]) == [point.text] && EmbedEach(v, [point.text]) == [v(point.text)];
    var chunks := Chunks([point], size);
    assert chunks == [[point]] && chunks[1..] == [];
    var (w1, done) := UpsertBatch(env, w, [point]);
    assert UpsertChunks(env, w1, []) == (w1, Ok);
    assert Upsert(env, w, [point], size) == (w1, done);
    assert OwnItems(v, [point]) == [item];
    assert [item][1..] == [];
    assert WriteAll(w.store, [item]) == WriteAlone(w.store, item);
    if WriteAlone(w.store, item).Some? {
      HealthyBatch(env, v, w, [point]);
    } else {
      SinglePointFails(env, v, w, point);
    }
  }

  lemma SinglePointFails(env: Env, v: string -> Vector, w: World, point: DraftPoint)
    requires env.embed(w.embeds, [point.text]) == Vectors([v(point.text)])
    requires var item := Item(point.collection, point.id, Stored(v(point.text), point.payload));
             WriteAlone(w.store, item).None?
    ensures UpsertBatch(env, w, [point]).1.Err?
  {
    hide WriteGroups;
    var item := Item(point.collection, point.id, Stored(v(point.text), point.payload));
    assert Texts([point]) == [point.text];
    assert Items([point], [v(point.text)]) == [item];
    assert [item][1..] == [];
    if point.collection != "" {
      GroupedFilled([item]);
      var w1 := w.(embeds := w.embeds + 1);
      assert WriteAll(w1.store, [item]) == WriteAlone(w1.store, item);
      if WriteGroups(env, w1, Grouped([item])).1.Ok? {
        GroupedWriteIsPointwise(env, w1, [item]);
      }
    } else {
      assert point in [point];
    }
  }
}
