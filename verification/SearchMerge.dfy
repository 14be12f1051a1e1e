/**
 * The retriever: one search per distinct collection, candidates decoded, sorted by score
 * and cut to top_k. If each collection answers with its own best points, the merge has the
 * scores of the best points overall. Scores are totally ordered (no NaN).
 */
module SearchMerge {
  import opened Util

  datatype PyValue = PyStr(s: string) | PyInt(i: int) | PyOther
  datatype RawPoint = RawPoint(payload: Option<map<string, PyValue>>, score: Option<real>)

  /** A candidate keeps its payload for the optional attributes read from it. */
  datatype Candidate = Candidate(
    chunkId: string, documentId: string, kbId: string, enterpriseId: string,
    indexVersionId: string, ownerDepartmentId: string, visibility: string,
    payload: map<string, PyValue>, rank: int, score: real)

  function PayloadStr(payload: map<string, PyValue>, key: string): string {
    if key in payload && payload[key].PyStr? then payload[key].s else ""
  }

  /** `_candidate_from_point`: None when a required attribute is missing or empty. */
  function Decode(p: RawPoint, rank: int): Option<Candidate> {
    if p.payload.None? then None
    else
      var payload := p.payload.value;
      var document := PayloadStr(payload, "document_id");
      var c := Candidate(
        PayloadStr(payload, "chunk_id"),
        if document != "" then document else PayloadStr(payload, "doc_id"),
        PayloadStr(payload, "kb_id"), PayloadStr(payload, "enterprise_id"),
        PayloadStr(payload, "index_version_id"), PayloadStr(payload, "owner_department_id"),
        PayloadStr(payload, "visibility"), payload, rank,
        if p.score.Some? then p.score.value else 0.0);
      if c.chunkId == "" || c.documentId == "" || c.kbId == "" || c.enterpriseId == ""
         || c.indexVersionId == "" || c.ownerDepartmentId == "" || c.visibility == ""
      then None else Some(c)
  }

  function DecodeAll(points: seq<RawPoint>, found: nat): seq<Candidate>
    decreases |points|
  {
    if points == [] then []
    else
      match Decode(points[0], found + 1)
      case None => DecodeAll(points[1..], found)
      case Some(c) => [c] + DecodeAll(points[1..], found + 1)
  }

  /** `list.sort(key=score, reverse=True)`: stable, best first. */
  function SortByScore(s: seq<Candidate>): (r: seq<Candidate>)
    ensures |r| == |s|
  {
    if s == [] then [] else Insert(s[0], SortByScore(s[1..]))
  }

  function Insert(x: Candidate, t: seq<Candidate>): (r: seq<Candidate>)
    ensures |r| == |t| + 1
  {
    if t == [] || x.score >= t[0].score then [x] + t else [t[0]] + Insert(x, t[1..])
  }

  function Cut<T>(s: seq<T>, topK: int): (r: seq<T>)
    ensures |r| == Min(|s|, Max(topK, 0))
  {
    s[..Min(|s|, Max(topK, 0))]
  }

  function Reranked(s: seq<Candidate>): seq<Candidate> {
    seq(|s|, i requires 0 <= i < |s| => s[i].(rank := i + 1))
  }

  /** What `_search_collections` returns for the points found, in search order. */
  function Merged(points: seq<RawPoint>, topK: int): seq<Candidate> {
    Reranked(Cut(SortByScore(DecodeAll(points, 0)), topK))
  }

  method SearchCollections(replies: seq<seq<RawPoint>>, topK: int) returns (result: seq<Candidate>)
    ensures result == Merged(Flatten(replies), topK)
    ensures |result| <= Max(topK, 0)
    ensures forall i :: 0 <= i < |result| ==> result[i].rank == i + 1
    ensures forall i, j :: 0 <= i < j < |result| ==> result[i].score >= result[j].score
  {
    hide Decode, SortByScore, DecodeAll, Cut, Reranked, Flatten;
    var candidates: seq<Candidate> := [];
    var i := 0;
    ghost var all := DecodeAll(Flatten(replies), 0);
    assert replies[0..] == replies;
    while i < |replies|
      invariant 0 <= i <= |replies|
      invariant all == candidates + DecodeAll(Flatten(replies[i..]), |candidates|)
    {
      var points := replies[i];
      ghost var later := Flatten(replies[i + 1..]);
      FlattenNext(replies, i);
      var k := 0;
      while k < |points|
        invariant 0 <= k <= |points|
        invariant all == candidates + DecodeAll(points[k..] + later, |candidates|)
      {
        DecodeNext(points, k, later, candidates);
        var candidate := Decode(points[k], |candidates| + 1);
        if candidate.Some? {
          candidates := candidates + [candidate.value];
        }
        k := k + 1;
      }
      assert points[k..] + later == later;
      i := i + 1;
    }
    assert replies[i..] == [];
    NothingToDecode(candidates);
    var sorted := SortByScore(candidates);
    SortIsSorted(candidates);
    var best := Cut(sorted, topK);
    CutKeepsSorted(sorted, topK);
    ghost var ranked := Reranked(best);
    RerankedAt(best);
    result := [];
    var rank := 0;
    while rank < |best|
      invariant 0 <= rank <= |best|
      invariant result == ranked[..rank]
    {
      result := result + [best[rank].(rank := rank + 1)];
      rank := rank + 1;
    }
    assert result == ranked;
  }

  lemma FlattenNext(replies: seq<seq<RawPoint>>, i: nat)
    requires i < |replies|
    ensures Flatten(replies[i..]) == replies[i][0..] + Flatten(replies[i + 1..])
  {
    assert replies[i..][1..] == replies[i + 1..];
  }

  lemma DecodeNext(points: seq<RawPoint>, k: nat, later: seq<RawPoint>, candidates: seq<Candidate>)
    requires k < |points|
    ensures var found := Decode(points[k], |candidates| + 1);
            var next := candidates + (if found.Some? then [found.value] else []);
            candidates + DecodeAll(points[k..] + later, |candidates|)
            == next + DecodeAll(points[k + 1..] + later, |next|)
  {
    hide Decode;
    var rest := points[k..] + later;
    assert rest[0] == points[k] && rest[1..] == points[k + 1..] + later;
    assert candidates + [] == candidates;
  }

  lemma NothingToDecode(candidates: seq<Candidate>)
    ensures candidates + DecodeAll(Flatten([]), |candidates|) == candidates
  {
  }

  lemma CutKeepsSorted(s: seq<Candidate>, topK: int)
    requires Sorted(s)
    ensures Sorted(Cut(s, topK))
  {
  }

  lemma RerankedAt(s: seq<Candidate>)
    ensures |Reranked(s)| == |s|
    ensures forall i :: 0 <= i < |s| ==> Reranked(s)[i] == s[i].(rank := i + 1)
  {
  }

  ghost predicate Sorted(s: seq<Candidate>) {
    forall i, j :: 0 <= i < j < |s| ==> s[i].score >= s[j].score
  }

  /** The candidates of one score, in order. */
  function Band(s: seq<Candidate>, t: real): seq<Candidate> {
    if s == [] then [] else (if s[0].score == t then [s[0]] else []) + Band(s[1..], t)
  }

  lemma {:induction false} InsertSorted(x: Candidate, t: seq<Candidate>, bound: real)
    requires Sorted(t) && x.score <= bound && forall c :: c in t ==> c.score <= bound
    ensures Sorted(Insert(x, t)) && forall c :: c in Insert(x, t) ==> c.score <= bound
  {
    if t != [] && x.score < t[0].score {
      InsertSorted(x, t[1..], t[0].score);
    }
  }

  lemma {:induction false} SortIsSorted(s: seq<Candidate>)
    ensures Sorted(SortByScore(s))
  {
    if s != [] {
      SortIsSorted(s[1..]);
      var t := SortByScore(s[1..]);
      InsertSorted(s[0], t, if t == [] || s[0].score >= t[0].score then s[0].score else t[0].score);
    }
  }

  lemma BandCons(x: Candidate, s: seq<Candidate>, v: real)
    ensures Band([x] + s, v) == (if x.score == v then [x] else []) + Band(s, v)
  {
    assert ([x] + s)[0] == x && ([x] + s)[1..] == s;
  }

  lemma {:induction false} InsertBand(x: Candidate, t: seq<Candidate>, v: real)
    requires Sorted(t)
    ensures Band(Insert(x, t), v) == (if x.score == v then [x] else []) + Band(t, v)
  {
    hide Band;
    BandCons(x, t, v);
    if t != [] && x.score < t[0].score {
      assert t == [t[0]] + t[1..];
      InsertBand(x, t[1..], v);
      BandCons(t[0], Insert(x, t[1..]), v);
      BandCons(t[0], t[1..], v);
    }
  }

  /** The sort is stable: equal scores keep their search order. */
  lemma {:induction false} SortIsStable(s: seq<Candidate>, v: real)
    ensures Band(SortByScore(s), v) == Band(s, v)
  {
    if s != [] {
      SortIsStable(s[1..], v);
      SortIsSorted(s[1..]);
      InsertBand(s[0], SortByScore(s[1..]), v);
    }
  }

  /** Any stable sort by descending score is this one. */
  lemma {:induction false} StableSortUnique(p: seq<Candidate>, q: seq<Candidate>)
    requires Sorted(p) && Sorted(q) && forall v :: Band(p, v) == Band(q, v)
    ensures p == q
    decreases |p| + |q|
  {
    if p == [] || q == [] {
      HeadBand(p);
      HeadBand(q);
    } else {
      BandInside(q, p[0].score);
      BandInside(p, q[0].score);
      assert Band(p, p[0].score)[0] == p[0] && Band(q, q[0].score)[0] == q[0];
      assert p[0] == q[0];
      forall v ensures Band(p[1..], v) == Band(q[1..], v) {
        assert Band(p, v) == Band(q, v);
        var head := if p[0].score == v then [p[0]] else [];
        assert Band(p, v)[|head|..] == Band(p[1..], v);
        assert Band(q, v)[|head|..] == Band(q[1..], v);
      }
      StableSortUnique(p[1..], q[1..]);
    }
  }

  lemma HeadBand(s: seq<Candidate>)
    ensures s == [] || Band(s, s[0].score) != []
    ensures forall v :: s == [] ==> Band(s, v) == []
  {
  }

  lemma {:induction false} BandInside(s: seq<Candidate>, v: real)
    requires Sorted(s) && s != []
    ensures Band(s, v) != [] ==> v <= s[0].score
  {
    if |s| > 1 {
      BandInside(s[1..], v);
    } else {
      assert s[1..] == [] && Band(s[1..], v) == [];
    }
  }

  // ----- counting scores

  function CountAtLeast(s: seq<Candidate>, t: real): nat {
    if s == [] then 0 else (if s[0].score >= t then 1 else 0) + CountAtLeast(s[1..], t)
  }

  lemma {:induction false} CountSorted(s: seq<Candidate>, t: real)
    ensures CountAtLeast(SortByScore(s), t) == CountAtLeast(s, t)
  {
    if s != [] {
      CountSorted(s[1..], t);
      CountInsert(s[0], SortByScore(s[1..]), t);
    }
  }

  lemma {:induction false} CountInsert(x: Candidate, s: seq<Candidate>, t: real)
    ensures CountAtLeast(Insert(x, s), t) == CountAtLeast(s, t) + if x.score >= t then 1 else 0
  {
    if s != [] && x.score < s[0].score {
      CountInsert(x, s[1..], t);
      assert ([s[0]] + Insert(x, s[1..]))[1..] == Insert(x, s[1..]);
    } else {
      assert ([x] + s)[1..] == s;
    }
  }

  /** In a sorted list, the i-th score reaches t exactly when more than i scores do. */
  lemma {:induction false} SortedCount(s: seq<Candidate>, t: real, i: nat)
    requires Sorted(s) && i < |s|
    ensures s[i].score >= t <==> CountAtLeast(s, t) > i
  {
    if s[0].score < t {
      NoneAtLeast(s, t);
    } else if i > 0 {
      SortedCount(s[1..], t, i - 1);
    }
  }

  lemma {:induction false} NoneAtLeast(s: seq<Candidate>, t: real)
    requires forall c :: c in s ==> c.score < t
    ensures CountAtLeast(s, t) == 0
  {
    if s != [] {
      assert s[0] in s;
      NoneAtLeast(s[1..], t);
    }
  }

  function WithoutRanks(s: seq<Candidate>): seq<Candidate> {
    seq(|s|, i requires 0 <= i < |s| => s[i].(rank := 0))
  }

  lemma {:induction false} BandWithoutRanks(s: seq<Candidate>, v: real)
    ensures Band(WithoutRanks(s), v) == WithoutRanks(Band(s, v))
  {
    if s != [] {
      BandWithoutRanks(s[1..], v);
      assert WithoutRanks(s)[1..] == WithoutRanks(s[1..]);
    }
  }

  /** Ties come back in search order: but for the new ranks, each score's results are its first candidates found. */
  lemma TiesKeepSearchOrder(points: seq<RawPoint>, topK: int, v: real)
    ensures WithoutRanks(Band(Merged(points, topK), v)) <= WithoutRanks(Band(DecodeAll(points, 0), v))
  {
    hide SortByScore, DecodeAll;
    var found := DecodeAll(points, 0);
    var best := Cut(SortByScore(found), topK);
    SortIsStable(found, v);
    BandPrefix(SortByScore(found), Min(|found|, Max(topK, 0)), v);
    assert Band(best, v) <= Band(found, v);
    assert WithoutRanks(Reranked(best)) == WithoutRanks(best);
    BandWithoutRanks(Reranked(best), v);
    BandWithoutRanks(best, v);
  }

  lemma {:induction false} BandPrefix(s: seq<Candidate>, n: nat, v: real)
    requires n <= |s|
    ensures Band(s[..n], v) <= Band(s, v)
  {
    if n > 0 {
      BandPrefix(s[1..], n - 1, v);
      assert s[..n][1..] == s[1..][..n - 1];
    } else {
      assert s[..n] == [];
    }
  }

  // ----- the public search

  datatype Served = Points(points: seq<RawPoint>) | ServerFailed
  datatype SearchResult = SearchResult(candidates: seq<Candidate>, reason: Option<string>)

  method Unique(values: seq<string>) returns (result: seq<string>)
    ensures result == Dedup(values)
  {
    var seen: set<string> := {};
    result := [];
    var i := 0;
    while i < |values|
      invariant 0 <= i <= |values|
      invariant result == Dedup(values[..i])
      invariant forall x :: x in seen <==> x in result
    {
      assert values[..i + 1][..i] == values[..i];
      if values[i] !in seen {
        seen := seen + {values[i]};
        result := result + [values[i]];
      }
      i := i + 1;
    }
    assert values[..i] == values;
  }

  function Replies(server: string -> Served, names: seq<string>): seq<seq<RawPoint>>
    requires forall name :: name in names ==> server(name).Points?
  {
    seq(|names|, i requires 0 <= i < |names| => server(names[i]).points)
  }

  /** `search`: any failed request degrades the whole result to nothing. */
  method Search(names: seq<string>, topK: int, embedded: bool, server: string -> Served) returns (r: SearchResult)
    ensures names == [] ==> r == SearchResult([], Some("vector_collection_unavailable"))
    ensures names != [] && !embedded ==> r == SearchResult([], Some("query_embedding_failed"))
    ensures names != [] && embedded && (exists name :: name in names && server(name).ServerFailed?) ==>
              r == SearchResult([], Some("vector_search_failed"))
    ensures names != [] && embedded && (forall name :: name in names ==> server(name).Points?) ==>
              (forall name :: name in Dedup(names) ==> server(name).Points?)
              && r == SearchResult(Merged(Flatten(Replies(server, Dedup(names))), topK), None)
  {
    hide Merged;
    if names == [] {
      return SearchResult([], Some("vector_collection_unavailable"));
    }
    if !embedded {
      return SearchResult([], Some("query_embedding_failed"));
    }
    var distinct := Unique(names);
    forall name ensures name in distinct <==> name in names { DedupMembers(names, name); }
    var replies: seq<seq<RawPoint>> := [];
    var i := 0;
    while i < |distinct|
      invariant 0 <= i <= |distinct| && |replies| == i
      invariant forall j :: 0 <= j < i ==> server(distinct[j]) == Points(replies[j])
    {
      var served := server(distinct[i]);
      if served.ServerFailed? {
        assert distinct[i] in names;
        return SearchResult([], Some("vector_search_failed"));
      }
      replies := replies + [served.points];
      i := i + 1;
    }
    forall name | name in names ensures server(name).Points? {
      assert name in distinct;
      var j :| 0 <= j < |distinct| && distinct[j] == name;
    }
    assert replies == Replies(server, distinct);
    var candidates := SearchCollections(replies, topK);
    r := SearchResult(candidates, None);
  }
}
