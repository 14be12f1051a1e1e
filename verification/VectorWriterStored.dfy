/** What the writer leaves in the store, point by point, and what it raises, request by request. */
module VectorWriterStored {
  import opened Util
  import opened VectorStore
  import opened VectorWriter
  import opened VectorWriterLaws
  import opened VectorWriterRecovery

  // ----- what is stored after a normal return

  /** The collection reports no size, or this one. */
  predicate Takes(c: Collection, size: nat) { c.size.None? || c.size.value == size }

  ghost predicate Mentions(items: seq<Item>, name: string, id: string) {
    exists i :: 0 <= i < |items| && items[i].collection == name && items[i].id == id
  }

  /** Writing leaves every point alone that it does not mention, and never changes a collection's size. */
  lemma {:induction false} WriteElsewhere(store: Store, items: seq<Item>, name: string, id: string)
    requires WriteAll(store, items).Some? && name in store
    ensures var after := WriteAll(store, items).value;
            && name in after && after[name].size == store[name].size
            && (!Mentions(items, name, id) ==> SamePoint(after[name].points, store[name].points, id))
    decreases |items|
  {
    if items != [] {
      var next := WriteAlone(store, items[0]).value;
      WriteElsewhere(next, items[1..], name, id);
      assert forall i :: 0 <= i < |items[1..]| ==> items[1..][i] == items[i + 1];
      assert !Mentions(items, name, id) ==> !(items[0].collection == name && items[0].id == id);
    }
  }

  /** The last item of a point is what the store holds of it, in a collection that takes its size. */
  lemma {:induction false} LastItemStored(store: Store, items: seq<Item>, i: nat)
    requires WriteAll(store, items).Some? && i < |items|
    requires !Mentions(items[i + 1..], items[i].collection, items[i].id)
    ensures var item, after := items[i], WriteAll(store, items).value;
            && item.collection != "" && item.collection in after
            && item.id in after[item.collection].points && after[item.collection].points[item.id] == item.stored
            && Takes(after[item.collection], |item.stored.vector|)
    decreases |items|
  {
    var next := WriteAlone(store, items[0]).value;
    if i == 0 {
      WriteElsewhere(next, items[1..], items[0].collection, items[0].id);
    } else {
      assert items[1..][i - 1 + 1..] == items[i + 1..];
      LastItemStored(next, items[1..], i - 1);
    }
  }

  /** A collection that was not there before has the size of the first vector written to it. */
  lemma {:induction false} NewCollectionSize(store: Store, items: seq<Item>, name: string)
    requires WriteAll(store, items).Some? && name !in store
    ensures var after := WriteAll(store, items).value;
            if exists i :: 0 <= i < |items| && items[i].collection == name
            then exists i :: && 0 <= i < |items| && items[i].collection == name
                             && (forall j :: 0 <= j < i ==> items[j].collection != name)
                             && name in after && after[name].size == Some(|items[i].stored.vector|)
            else name !in after
    decreases |items|
  {
    if items != [] {
      var next := WriteAlone(store, items[0]).value;
      if items[0].collection == name {
        WriteElsewhere(next, items[1..], name, "");
      } else {
        NewCollectionSize(next, items[1..], name);
        if i :| 0 <= i < |items| && items[i].collection == name {
          assert items[1..][i - 1].collection == name;
          var after := WriteAll(store, items).value;
          var k :| 0 <= k < |items[1..]| && items[1..][k].collection == name
                   && (forall j :: 0 <= j < k ==> items[1..][j].collection != name)
                   && name in after && after[name].size == Some(|items[1..][k].stored.vector|);
          assert items[k + 1] == items[1..][k];
          forall j | 0 <= j < k + 1 ensures items[j].collection != name {
            if j > 0 { assert items[j] == items[1..][j - 1]; }
          }
        } else {
          assert forall j :: 0 <= j < |items[1..]| ==> items[1..][j] == items[j + 1];
        }
      }
    }
  }

  predicate SamePlace(a: DraftPoint, b: DraftPoint) { a.collection == b.collection && a.id == b.id }

  lemma MentionsPoint(v: string -> Vector, points: seq<DraftPoint>, name: string, id: string)
    ensures Mentions(OwnItems(v, points), name, id) <==> exists p :: p in points && p.collection == name && p.id == id
  {
    if p :| p in points && p.collection == name && p.id == id {
      var i :| 0 <= i < |points| && points[i] == p;
      assert OwnItems(v, points)[i].id == id;
    }
    if i :| 0 <= i < |points| && OwnItems(v, points)[i].collection == name && OwnItems(v, points)[i].id == id {
      assert points[i] in points && points[i].id == id;
    }
  }

  /**
   * After a normal return every point is stored under its collection and id with the embedding of its text and
   * its payload, unless a later point has the same collection and id.
   */
  lemma PointsAreStored(env: Env, v: string -> Vector, w: World, points: seq<DraftPoint>, size: nat, i: nat)
    requires size >= 1 && PerText(env, v) && Upsert(env, w, points, size).1.Ok?
    requires i < |points| && forall j :: i < j < |points| ==> !SamePlace(points[i], points[j])
    ensures var p, after := points[i], Upsert(env, w, points, size).0.store;
            && p.collection in after && p.id in after[p.collection].points
            && after[p.collection].points[p.id] == Stored(v(p.text), p.payload)
            && Takes(after[p.collection], |v(p.text)|)
  {
    hide Upsert, WriteAll, PerText;
    NormalReturnIsPointwise(env, v, w, points, size);
    var items := OwnItems(v, points);
    assert items[i] == Item(points[i].collection, points[i].id, Stored(v(points[i].text), points[i].payload)) by {
      assert Texts(points)[i] == points[i].text;
    }
    forall k | i < k < |items| ensures items[i + 1..][k - i - 1] == items[k] && !SamePlace(points[i], points[k]) {
    }
    LastItemStored(w.store, items, i);
  }

  /** And nothing else is: other points stay as they were, collections keep their size. */
  lemma OthersAreUntouched(env: Env, v: string -> Vector, w: World, points: seq<DraftPoint>, size: nat, name: string, id: string)
    requires size >= 1 && PerText(env, v) && Upsert(env, w, points, size).1.Ok? && name in w.store
    ensures var after := Upsert(env, w, points, size).0.store;
            && name in after && after[name].size == w.store[name].size
            && ((forall p :: p in points ==> p.collection != name || p.id != id) ==>
                  SamePoint(after[name].points, w.store[name].points, id))
  {
    hide Upsert, WriteAll, PerText;
    NormalReturnIsPointwise(env, v, w, points, size);
    WriteElsewhere(w.store, OwnItems(v, points), name, id);
    MentionsPoint(v, points, name, id);
  }

  /** A collection the writer creates has the size of the first embedding that goes there. */
  lemma CreatedCollections(env: Env, v: string -> Vector, w: World, points: seq<DraftPoint>, size: nat, name: string)
    requires size >= 1 && PerText(env, v) && Upsert(env, w, points, size).1.Ok? && name !in w.store
    ensures var after := Upsert(env, w, points, size).0.store;
            name in after <==> exists i :: 0 <= i < |points| && points[i].collection == name
    ensures var after := Upsert(env, w, points, size).0.store;
            forall i :: 0 <= i < |points| && points[i].collection == name
                        && (forall j :: 0 <= j < i ==> points[j].collection != name) ==>
              name in after && after[name].size == Some(|v(points[i].text)|)
  {
    hide Upsert, WriteAll, PerText;
    NormalReturnIsPointwise(env, v, w, points, size);
    var items := OwnItems(v, points);
    NewCollectionSize(w.store, items, name);
    forall i | 0 <= i < |points|
      ensures items[i].collection == points[i].collection && items[i].stored.vector == v(points[i].text)
    {
      assert Texts(points)[i] == points[i].text;
    }
  }

  // ----- the collection check, request by request

  function Failure(fault: Fault): Option<int>
    requires !fault.Healthy?
  {
    fault.status
  }

  /** The collection check on a healthy server, and against a first request that fails other than with 404. */
  lemma CheckByRequests(env: Env, w: World, name: string, size: nat)
    ensures var (after, r) := EnsureCollection(env, w, name, size);
            var first, second := env.fault(w.requests), env.fault(w.requests + 1);
            && (!first.Healthy? && Failure(first) != Some(404) ==>
                  after == w.(requests := w.requests + 1) && r == Err(Http(Failure(first))))
            && (first.Healthy? && name in w.store ==>
                  && after == w.(requests := w.requests + 1)
                  && r == if Takes(w.store[name], size) then Ok else Err(SizeMismatch))
            && (first.Healthy? && name !in w.store && second.Healthy? ==>
                  && after == w.(requests := w.requests + 2, store := w.store[name := Collection(Some(size), map[])])
                  && r == Ok)
            && (first.Healthy? && name !in w.store && !second.Healthy? && Failure(second) != Some(409) ==>
                  && after.requests == w.requests + 2 && r == Err(Http(Failure(second)))
                  && after.store == if second.Lost? then w.store else w.store[name := Collection(Some(size), map[])])
  {
  }

  /** A create refused with 409 is settled by the size the collection has when it is read again. */
  lemma ConflictRereads(env: Env, w: World, name: string, size: nat)
    requires env.fault(w.requests) == Lost(Some(409)) && env.fault(w.requests + 1).Healthy? && name in w.store
    ensures var (after, r) := CreateCollection(env, w, name, size);
            && after == w.(requests := w.requests + 2)
            && r == if Takes(w.store[name], size) then Ok else Err(SizeMismatch)
  {
  }

  /** What stops a batch before its first request: nothing is written and nothing is asked. */
  lemma RefusedBatch(env: Env, w: World, points: seq<DraftPoint>)
    requires points != []
    ensures var (after, r) := UpsertBatch(env, w, points);
            var reply := env.embed(w.embeds, Texts(points));
            var refused :=
              if reply.EmbedRejected? then if |points| == 1 then Some(EmbeddingFailed) else None
              else if |reply.vectors| != |points| then Some(CountMismatch)
              else if exists p :: p in points && p.collection == "" then Some(EmptyCollectionName) else None;
            refused.Some? ==> r == Err(refused.value) && after == w.(embeds := w.embeds + 1)
  {
    hide WriteGroups, Grouped;
  }
}
