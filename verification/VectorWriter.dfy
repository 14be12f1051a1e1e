/**
 * The index writer: chunking, bisection when the embedding provider rejects a batch,
 * regrouping by collection, and the collection check before each write.
 * The embedding provider and the server's failures are parameters.
 */
module VectorWriter {
  import opened Util
  import opened VectorStore

  datatype DraftPoint = DraftPoint(collection: string, id: string, text: string, payload: Payload)

  /** One reply of `embed_texts`: vectors, or a VectorStoreEmbeddingError. */
  datatype EmbedReply = Vectors(vectors: seq<Vector>) | EmbedRejected

  /**
   * How one HTTP request goes wrong: the request is lost without effect, or takes effect
   * although the client sees an error. status None: no HTTP status (timeout, bad body).
   */
  datatype Fault = Healthy | Lost(status: Option<int>) | Applied(status: Option<int>)

  /** Replies of the provider and faults of the server, by the index of the call or request. */
  datatype Env = Env(embed: (nat, seq<string>) -> EmbedReply, fault: nat -> Fault)

  datatype World = World(store: Store, embeds: nat, requests: nat)

  datatype WriteError =
    | EmbeddingFailed
    | CountMismatch
    | EmptyCollectionName
    | SizeMismatch
    | Http(status: Option<int>)

  datatype Outcome = Ok | Err(error: WriteError)

  datatype InfoReply = Info(size: Option<nat>) | InfoErr(status: Option<int>)

  // ----- the server, one request at a time

  function GetInfo(env: Env, w: World, name: string): (World, InfoReply) {
    var next := w.(requests := w.requests + 1);
    match env.fault(w.requests)
    case Lost(status) => (next, InfoErr(status))
    case Applied(status) => (next, InfoErr(status))
    case Healthy => if name in w.store then (next, Info(w.store[name].size)) else (next, InfoErr(Some(404)))
  }

  function Created(store: Store, name: string, size: nat): Store {
    if name in store then store else store[name := Collection(Some(size), map[])]
  }

  function SendCreate(env: Env, w: World, name: string, size: nat): (World, Outcome) {
    var next := w.(requests := w.requests + 1);
    var applied := next.(store := Created(w.store, name, size));
    match env.fault(w.requests)
    case Lost(status) => (next, Err(Http(status)))
    case Applied(status) => (applied, Err(Http(status)))
    case Healthy => if name in w.store then (next, Err(Http(Some(409)))) else (applied, Ok)
  }

  predicate Accepted(store: Store, name: string, items: seq<Item>) {
    name in store && AllFit(store[name].size, items)
  }

  function PutPoints(env: Env, w: World, name: string, items: seq<Item>): (World, Outcome) {
    var next := w.(requests := w.requests + 1);
    var applied :=
      if Accepted(w.store, name, items) then
        var c := w.store[name];
        next.(store := w.store[name := c.(points := Apply(c.points, items))])
      else next;
    match env.fault(w.requests)
    case Lost(status) => (next, Err(Http(status)))
    case Applied(status) => (applied, Err(Http(status)))
    case Healthy =>
      if Accepted(w.store, name, items) then (applied, Ok)
      else (next, Err(Http(Some(if name in w.store then 400 else 404))))
  }

  // ----- the writer

  function CheckSize(info: InfoReply, size: nat): Outcome {
    match info
    case InfoErr(status) => Err(Http(status))
    case Info(existing) => if Fits(existing, size) then Ok else Err(SizeMismatch)
  }

  function CreateCollection(env: Env, w: World, name: string, size: nat): (World, Outcome) {
    var (w1, created) := SendCreate(env, w, name, size);
    if created == Err(Http(Some(409))) then
      var (w2, info) := GetInfo(env, w1, name);
      (w2, CheckSize(info, size))
    else (w1, created)
  }

  function EnsureCollection(env: Env, w: World, name: string, size: nat): (World, Outcome) {
    var (w1, info) := GetInfo(env, w, name);
    if info == InfoErr(Some(404)) then CreateCollection(env, w1, name, size)
    else (w1, CheckSize(info, size))
  }

  datatype Group = Group(name: string, items: seq<Item>)

  /** `grouped.setdefault(name, []).append(item)` on an insertion-ordered dict. */
  function AddTo(groups: seq<Group>, item: Item): seq<Group> {
    if groups == [] then [Group(item.collection, [item])]
    else if groups[0].name == item.collection then [Group(groups[0].name, groups[0].items + [item])] + groups[1..]
    else [groups[0]] + AddTo(groups[1..], item)
  }

  function Grouped(items: seq<Item>): seq<Group> {
    if items == [] then [] else AddTo(Grouped(items[..|items| - 1]), items[|items| - 1])
  }

  function WriteGroup(env: Env, w: World, g: Group): (World, Outcome)
    requires g.items != []
  {
    var (w1, ensured) := EnsureCollection(env, w, g.name, Size(g.items[0]));
    if ensured.Err? then (w1, ensured) else PutPoints(env, w1, g.name, g.items)
  }

  predicate GroupsFilled(groups: seq<Group>) {
    forall g :: g in groups ==> g.items != [] && forall item :: item in g.items ==> item.collection == g.name
  }

  function WriteGroups(env: Env, w: World, groups: seq<Group>): (World, Outcome)
    requires GroupsFilled(groups)
    decreases |groups|
  {
    if groups == [] then (w, Ok)
    else
      assert groups[0] in groups;
      var (w1, written) := WriteGroup(env, w, groups[0]);
      if written.Err? then (w1, written) else WriteGroups(env, w1, groups[1..])
  }

  function Texts(points: seq<DraftPoint>): seq<string> {
    seq(|points|, i requires 0 <= i < |points| => points[i].text)
  }

  function Items(points: seq<DraftPoint>, vectors: seq<Vector>): (items: seq<Item>)
    requires |points| == |vectors|
    ensures |items| == |points|
  {
    seq(|points|, i requires 0 <= i < |points| =>
      Item(points[i].collection, points[i].id, Stored(vectors[i], points[i].payload)))
  }

  predicate AllNamed(points: seq<DraftPoint>) {
    forall p :: p in points ==> p.collection != ""
  }

  lemma AddToFilled(groups: seq<Group>, item: Item)
    requires GroupsFilled(groups)
    ensures GroupsFilled(AddTo(groups, item))
  {
    if groups != [] && groups[0].name != item.collection {
      AddToFilled(groups[1..], item);
    }
  }

  lemma {:induction false} GroupedFilled(items: seq<Item>)
    ensures GroupsFilled(Grouped(items))
  {
    if items != [] {
      GroupedFilled(items[..|items| - 1]);
      AddToFilled(Grouped(items[..|items| - 1]), items[|items| - 1]);
    }
  }

  function UpsertBatch(env: Env, w: World, points: seq<DraftPoint>): (World, Outcome)
    decreases |points|
  {
    var reply := env.embed(w.embeds, Texts(points));
    var w1 := w.(embeds := w.embeds + 1);
    match reply
    case EmbedRejected =>
      if |points| > 1 then
        var mid := |points| / 2;
        var (w2, left) := UpsertBatch(env, w1, points[..mid]);
        if left.Err? then (w2, left) else UpsertBatch(env, w2, points[mid..])
      else (w1, Err(EmbeddingFailed))
    case Vectors(vectors) =>
      if |vectors| != |points| then (w1, Err(CountMismatch))
      else if !AllNamed(points) then (w1, Err(EmptyCollectionName))
      else
        GroupedFilled(Items(points, vectors));
        WriteGroups(env, w1, Grouped(Items(points, vectors)))
  }

  /** `_chunks`: consecutive slices of at most size points. */
  function Chunks<T>(values: seq<T>, size: nat): (chunks: seq<seq<T>>)
    requires size >= 1
    ensures Flatten(chunks) == values
    ensures forall chunk :: chunk in chunks ==> 1 <= |chunk| <= size
    decreases |values|
  {
    if values == [] then []
    else if |values| <= size then [values]
    else [values[..size]] + Chunks(values[size..], size)
  }

  function UpsertChunks(env: Env, w: World, chunks: seq<seq<DraftPoint>>): (World, Outcome)
    decreases |chunks|
  {
    if chunks == [] then (w, Ok)
    else
      var (w1, done) := UpsertBatch(env, w, chunks[0]);
      if done.Err? then (w1, done) else UpsertChunks(env, w1, chunks[1..])
  }

  /** `upsert_draft_points`. */
  function Upsert(env: Env, w: World, points: seq<DraftPoint>, size: nat): (World, Outcome)
    requires size >= 1
  {
    UpsertChunks(env, w, Chunks(points, size))
  }

  // ----- the writer as the source runs it

  class IndexWriter {
    const env: Env
    const batchSize: nat
    var store: Store
    var embeds: nat
    var requests: nat

    constructor (env: Env, store: Store, embeddingBatchSize: int)
      ensures this.env == env && Current() == World(store, 0, 0)
      ensures batchSize >= 1 && (embeddingBatchSize >= 1 ==> batchSize == embeddingBatchSize)
    {
      this.env := env;
      this.batchSize := if embeddingBatchSize >= 1 then embeddingBatchSize else 1;
      this.store, this.embeds, this.requests := store, 0, 0;
    }

    function Current(): World
      reads this
    {
      World(store, embeds, requests)
    }

    method SendGet(name: string) returns (info: InfoReply)
      modifies this
      ensures (Current(), info) == GetInfo(env, old(Current()), name)
    {
      var (w, reply) := GetInfo(env, Current(), name);
      store, embeds, requests := w.store, w.embeds, w.requests;
      info := reply;
    }

    method Create(name: string, size: nat) returns (r: Outcome)
      modifies this
      ensures (Current(), r) == CreateCollection(env, old(Current()), name, size)
    {
      var (w, created) := SendCreate(env, Current(), name, size);
      store, embeds, requests := w.store, w.embeds, w.requests;
      if created == Err(Http(Some(409))) {
        var info := SendGet(name);
        r := CheckSize(info, size);
      } else {
        r := created;
      }
    }

    method Ensure(name: string, size: nat) returns (r: Outcome)
      modifies this
      ensures (Current(), r) == EnsureCollection(env, old(Current()), name, size)
    {
      var info := SendGet(name);
      if info == InfoErr(Some(404)) {
        r := Create(name, size);
      } else {
        r := CheckSize(info, size);
      }
    }

    method GroupPoints(points: seq<DraftPoint>, vectors: seq<Vector>) returns (groups: seq<Group>)
      requires |points| == |vectors|
      ensures groups == Grouped(Items(points, vectors))
    {
      ghost var items := Items(points, vectors);
      groups := [];
      var i := 0;
      while i < |points|
        invariant 0 <= i <= |points|
        invariant groups == Grouped(items[..i])
      {
        var p := points[i];
        assert items[..i + 1][..i] == items[..i];
        groups := AddTo(groups, Item(p.collection, p.id, Stored(vectors[i], p.payload)));
        i := i + 1;
      }
      assert items[..i] == items;
    }

    method UpsertDraftPointBatch(points: seq<DraftPoint>) returns (r: Outcome)
      modifies this
      ensures (Current(), r) == UpsertBatch(env, old(Current()), points)
      decreases |points|
    {
      var reply := env.embed(embeds, Texts(points));
      embeds := embeds + 1;
      if reply.EmbedRejected? {
        if |points| > 1 {
          var mid := |points| / 2;
          r := UpsertDraftPointBatch(points[..mid]);
          if r.Ok? {
            r := UpsertDraftPointBatch(points[mid..]);
          }
          return;
        }
        return Err(EmbeddingFailed);
      }
      var vectors := reply.vectors;
      if |vectors| != |points| {
        return Err(CountMismatch);
      }
      if !AllNamed(points) {
        return Err(EmptyCollectionName);
      }
      var groups := GroupPoints(points, vectors);
      GroupedFilled(Items(points, vectors));
      ghost var start := Current();
      var i := 0;
      while i < |groups|
        invariant 0 <= i <= |groups|
        invariant WriteGroups(env, start, groups) == WriteGroups(env, Current(), groups[i..])
      {
        var g := groups[i];
        assert g in groups && groups[i..][0] == g && groups[i..][1..] == groups[i + 1..];
        r := Ensure(g.name, Size(g.items[0]));
        if r.Err? {
          return;
        }
        var (w, put) := PutPoints(env, Current(), g.name, g.items);
        store, embeds, requests := w.store, w.embeds, w.requests;
        r := put;
        if r.Err? {
          return;
        }
        i := i + 1;
      }
      r := Ok;
    }

    method UpsertDraftPoints(points: seq<DraftPoint>) returns (r: Outcome)
      requires batchSize >= 1
      modifies this
      ensures (Current(), r) == Upsert(env, old(Current()), points, batchSize)
    {
      if points == [] {
        return Ok;
      }
      var chunks := Chunks(points, batchSize);
      ghost var start := Current();
      var i := 0;
      while i < |chunks|
        invariant 0 <= i <= |chunks|
        invariant UpsertChunks(env, start, chunks) == UpsertChunks(env, Current(), chunks[i..])
      {
        assert chunks[i..][1..] == chunks[i + 1..];
        r := UpsertDraftPointBatch(chunks[i]);
        if r.Err? {
          return;
        }
        i := i + 1;
      }
      r := Ok;
    }
  }
}
