/** The search results in terms of the points the server returned: which points, in which order, with which fields. */
module SearchLaws {
  import opened Util
  import opened SearchMerge

  // ----- one point

  /** The payload holds a non-empty string under this key. */
  predicate Has(p: RawPoint, key: string) {
    && p.payload.Some? && key in p.payload.value
    && p.payload.value[key].PyStr? && p.payload.value[key].s != ""
  }

  function TextOf(p: RawPoint, key: string): string
    requires Has(p, key)
  {
    p.payload.value[key].s
  }

  const REQUIRED := ["chunk_id", "kb_id", "enterprise_id", "index_version_id", "owner_department_id", "visibility"]

  /** A point that can be shown: six attributes, and a document under either of its two names. */
  predicate Complete(p: RawPoint) {
    (forall i :: 0 <= i < |REQUIRED| ==> Has(p, REQUIRED[i])) && (Has(p, "document_id") || Has(p, "doc_id"))
  }

  function Value(p: RawPoint): real {
    match p.score
    case None => 0.0
    case Some(score) => score
  }

  /** The candidate that shows this point. */
  predicate Shows(c: Candidate, p: RawPoint) {
    && Complete(p) && c.payload == p.payload.value && c.score == Value(p)
    && [c.chunkId, c.kbId, c.enterpriseId, c.indexVersionId, c.ownerDepartmentId, c.visibility]
       == seq(|REQUIRED|, i requires 0 <= i < |REQUIRED| => TextOf(p, REQUIRED[i]))
    && c.documentId == TextOf(p, if Has(p, "document_id") then "document_id" else "doc_id")
  }

  lemma CompleteFields(p: RawPoint)
    ensures Complete(p) <==>
      && Has(p, "chunk_id") && Has(p, "kb_id") && Has(p, "enterprise_id") && Has(p, "index_version_id")
      && Has(p, "owner_department_id") && Has(p, "visibility") && (Has(p, "document_id") || Has(p, "doc_id"))
  {
    assert REQUIRED[0] == "chunk_id" && REQUIRED[1] == "kb_id" && REQUIRED[2] == "enterprise_id";
    assert REQUIRED[3] == "index_version_id" && REQUIRED[4] == "owner_department_id" && REQUIRED[5] == "visibility";
  }

  /** A point becomes a candidate exactly when it is complete, and the candidate shows it. */
  lemma DecodesIffComplete(p: RawPoint, rank: int)
    ensures Decode(p, rank).Some? <==> Complete(p)
    ensures Complete(p) ==> Shows(Decode(p, rank).value, p) && Decode(p, rank).value.rank == rank
  {
    CompleteFields(p);
    hide Complete;
    forall key ensures p.payload.Some? ==> (PayloadStr(p.payload.value, key) != "" <==> Has(p, key)) {}
  }

  // ----- all points

  /** m comes before n in the answer: better, or equal and found earlier. */
  predicate Before(points: seq<RawPoint>, m: nat, n: nat)
    requires m < |points| && n < |points|
  {
    Value(points[m]) > Value(points[n]) || (Value(points[m]) == Value(points[n]) && m < n)
  }

  ghost predicate InOrder(points: seq<RawPoint>, at: seq<nat>) {
    && (forall i :: 0 <= i < |at| ==> at[i] < |points|)
    && forall i, j :: 0 <= i < j < |at| ==> Before(points, at[i], at[j])
  }

  ghost predicate Tracks(points: seq<RawPoint>, found: seq<Candidate>, at: seq<nat>) {
    |found| == |at| && forall i :: 0 <= i < |at| ==> at[i] < |points| && Shows(found[i], points[at[i]])
  }

  /** The first k complete points in the order of the answer: nothing complete outside comes before one inside. */
  ghost predicate BestPoints(points: seq<RawPoint>, at: seq<nat>, k: nat) {
    && InOrder(points, at) && |at| <= k
    && (forall i :: 0 <= i < |at| ==> Complete(points[at[i]]))
    && forall n: nat :: n < |points| && Complete(points[n]) && n !in at ==>
         |at| == k && forall i :: 0 <= i < |at| ==> Before(points, at[i], n)
  }

  lemma ShowsScore(c: Candidate, p: RawPoint)
    requires Shows(c, p)
    ensures c.score == Value(p) && Complete(p)
  {
  }

  lemma AheadOfAll(points: seq<RawPoint>, n: nat, at: seq<nat>)
    requires n < |points| && InOrder(points, at)
    requires at != [] ==> Before(points, n, at[0])
    ensures InOrder(points, [n] + at)
  {
    var next := [n] + at;
    forall i, j | 0 <= i < j < |next| ensures Before(points, next[i], next[j]) {
      if i > 0 {
        assert Before(points, at[i - 1], at[j - 1]);
      } else if j > 1 {
        assert Before(points, at[0], at[j - 1]);
      }
    }
  }

  /** Inserting an earlier point keeps the order of the answer. */
  lemma {:induction false} InsertAt(points: seq<RawPoint>, x: Candidate, n: nat, t: seq<Candidate>, at: seq<nat>)
    returns (next: seq<nat>)
    requires n < |points| && Shows(x, points[n])
    requires Tracks(points, t, at) && InOrder(points, at) && forall i :: 0 <= i < |at| ==> n < at[i]
    ensures Tracks(points, Insert(x, t), next) && InOrder(points, next)
    ensures forall m :: m in next <==> m == n || m in at
    ensures next != [] && (next[0] == n || (at != [] && next[0] == at[0]))
  {
    hide Shows, Value;
    ShowsScore(x, points[n]);
    if t == [] {
      next := [n];
    } else {
      ShowsScore(t[0], points[at[0]]);
      if x.score >= t[0].score {
        AheadOfAll(points, n, at);
        next := [n] + at;
      } else {
        var rest := InsertAt(points, x, n, t[1..], at[1..]);
        assert at == [at[0]] + at[1..];
        AheadOfAll(points, at[0], rest);
        next := [at[0]] + rest;
      }
    }
  }

  /** The complete points from one place on, sorted, are the sorted candidates decoded from there. */
  lemma {:induction false} SortedAt(points: seq<RawPoint>, from: nat, found: nat) returns (at: seq<nat>)
    requires from <= |points|
    ensures Tracks(points, SortByScore(DecodeAll(points[from..], found)), at) && InOrder(points, at)
    ensures forall n: nat :: n in at <==> from <= n < |points| && Complete(points[n])
    decreases |points| - from
  {
    hide Decode, Complete, Shows, Insert, Value;
    if from == |points| {
      at := [];
    } else {
      var p, rest := points[from], points[from + 1..];
      assert points[from..][0] == p && points[from..][1..] == rest;
      DecodesIffComplete(p, found + 1);
      if Complete(p) {
        var c := Decode(p, found + 1).value;
        var later := SortedAt(points, from + 1, found + 1);
        assert forall i :: 0 <= i < |later| ==> later[i] in later;
        at := InsertAt(points, c, from, SortByScore(DecodeAll(rest, found + 1)), later);
        SortCons(c, DecodeAll(rest, found + 1));
      } else {
        at := SortedAt(points, from + 1, found);
      }
    }
  }

  lemma SortCons(c: Candidate, rest: seq<Candidate>)
    ensures SortByScore([c] + rest) == Insert(c, SortByScore(rest))
  {
    assert ([c] + rest)[0] == c && ([c] + rest)[1..] == rest;
  }

  /**
   * The answer shows the first top_k complete points, best score first and equal scores in search order,
   * each point once and with its place as rank.
   */
  lemma MergedShowsBestPoints(points: seq<RawPoint>, topK: int) returns (at: seq<nat>)
    ensures BestPoints(points, at, Max(topK, 0))
    ensures Tracks(points, Merged(points, topK), at)
    ensures forall i :: 0 <= i < |at| ==> Merged(points, topK)[i].rank == i + 1
  {
    hide SortByScore, DecodeAll, Shows, Complete, Value;
    var all := SortedAt(points, 0, 0);
    assert points[0..] == points;
    var sorted := SortByScore(DecodeAll(points, 0));
    var n := Min(|all|, Max(topK, 0));
    at := all[..n];
    forall i | 0 <= i < n ensures Complete(points[at[i]]) && Shows(Merged(points, topK)[i], points[at[i]]) {
      assert all[i] in all;
      RankKeepsShown(sorted[i], i + 1, points[at[i]]);
    }
    assert forall i :: 0 <= i < n ==> all[i] == at[i] && at[i] in at;
    forall m: nat | m < |points| && Complete(points[m]) && m !in at
      ensures |at| == Max(topK, 0) && forall i :: 0 <= i < |at| ==> Before(points, at[i], m)
    {
      assert m in all;
      var j :| 0 <= j < |all| && all[j] == m;
      assert j >= n;
    }
  }

  lemma RankKeepsShown(c: Candidate, rank: int, p: RawPoint)
    requires Shows(c, p)
    ensures Shows(c.(rank := rank), p)
  {
  }

  lemma NothingSkipped(points: seq<RawPoint>, a: seq<nat>, b: seq<nat>, k: nat, i: nat)
    requires BestPoints(points, a, k) && BestPoints(points, b, k)
    requires i < |a| && i <= |b| && a[..i] == b[..i]
    ensures i < |b| && !Before(points, a[i], b[i])
  {
    hide Complete, Value;
    forall j | 0 <= j < i ensures b[j] != a[i] {
      assert a[..i][j] == b[..i][j] && Before(points, a[j], a[i]);
    }
    if a[i] in b {
      var j :| 0 <= j < |b| && b[j] == a[i];
      assert i < j ==> Before(points, b[i], b[j]);
    } else {
      assert Complete(points[a[i]]);
    }
  }

  lemma {:induction false} SamePrefix(points: seq<RawPoint>, a: seq<nat>, b: seq<nat>, k: nat, i: nat)
    requires BestPoints(points, a, k) && BestPoints(points, b, k) && i <= |a|
    ensures i <= |b| && a[..i] == b[..i]
  {
    hide Complete, BestPoints;
    if i > 0 {
      SamePrefix(points, a, b, k, i - 1);
      NothingSkipped(points, a, b, k, i - 1);
      NothingSkipped(points, b, a, k, i - 1);
      ValidPlaces(points, a, k);
      ValidPlaces(points, b, k);
      assert a[i - 1] == b[i - 1];
      assert a[..i] == a[..i - 1] + [a[i - 1]] && b[..i] == b[..i - 1] + [b[i - 1]];
    }
  }

  lemma ValidPlaces(points: seq<RawPoint>, at: seq<nat>, k: nat)
    requires BestPoints(points, at, k)
    ensures forall i :: 0 <= i < |at| ==> at[i] < |points|
  {
  }

  /** The order of the answer leaves no choice: there is one such list. */
  lemma BestPointsUnique(points: seq<RawPoint>, a: seq<nat>, b: seq<nat>, k: nat)
    requires BestPoints(points, a, k) && BestPoints(points, b, k)
    ensures a == b
  {
    hide BestPoints;
    SamePrefix(points, a, b, k, |a|);
    SamePrefix(points, b, a, k, |b|);
    assert a[..|a|] == a && b[..|b|] == b;
  }

  // ----- several collections

  /** How many of the points reach a score. */
  function Reaching(points: seq<RawPoint>, t: real): nat {
    if points == [] then 0 else (if Value(points[0]) >= t then 1 else 0) + Reaching(points[1..], t)
  }

  /** A server's answer for one collection: at most k points, no better one left out. */
  ghost predicate OwnTopK(kept: seq<RawPoint>, dropped: seq<RawPoint>, k: nat) {
    && |kept| <= k
    && (dropped != [] ==> |kept| == k)
    && forall p, q :: p in kept && q in dropped ==> Value(p) >= Value(q)
  }

  lemma {:induction false} ReachingAppend(a: seq<RawPoint>, b: seq<RawPoint>, t: real)
    ensures Reaching(a + b, t) == Reaching(a, t) + Reaching(b, t)
  {
    if a == [] {
      assert a + b == b;
    } else {
      assert (a + b)[0] == a[0] && (a + b)[1..] == a[1..] + b;
      ReachingAppend(a[1..], b, t);
    }
  }

  lemma {:induction false} ReachingBounds(points: seq<RawPoint>, t: real)
    ensures Reaching(points, t) <= |points|
    ensures (forall p :: p in points ==> Value(p) >= t) ==> Reaching(points, t) == |points|
    ensures Reaching(points, t) > 0 ==> exists p :: p in points && Value(p) >= t
  {
    if points != [] {
      assert points == [points[0]] + points[1..];
      ReachingBounds(points[1..], t);
    }
  }

  lemma {:induction false} ReachingMonotone(points: seq<RawPoint>, t: real, u: real)
    requires t <= u
    ensures Reaching(points, u) <= Reaching(points, t)
  {
    if points != [] {
      ReachingMonotone(points[1..], t, u);
    }
  }

  /** Every point left out is reached by at least k points kept. */
  lemma {:induction false} CollectionsDominate(kept: seq<seq<RawPoint>>, dropped: seq<seq<RawPoint>>, k: nat, d: RawPoint)
    requires |kept| == |dropped| && forall i :: 0 <= i < |kept| ==> OwnTopK(kept[i], dropped[i], k)
    requires d in Flatten(dropped)
    ensures Reaching(Flatten(kept), Value(d)) >= k
    decreases |kept|
  {
    hide Value;
    ReachingAppend(kept[0], Flatten(kept[1..]), Value(d));
    if d in dropped[0] {
      assert OwnTopK(kept[0], dropped[0], k);
      ReachingBounds(kept[0], Value(d));
    } else {
      CollectionsDominate(kept[1..], dropped[1..], k, d);
    }
  }

  lemma {:induction false} AllDecoded(points: seq<RawPoint>, found: nat, t: real)
    requires forall p :: p in points ==> Complete(p)
    ensures |DecodeAll(points, found)| == |points|
    ensures CountAtLeast(DecodeAll(points, found), t) == Reaching(points, t)
    decreases |points|
  {
    hide Decode, Complete, Shows, Value;
    if points != [] {
      assert points[0] in points;
      DecodesIffComplete(points[0], found + 1);
      var c := Decode(points[0], found + 1).value;
      ShowsScore(c, points[0]);
      AllDecoded(points[1..], found + 1, t);
      var rest := DecodeAll(points[1..], found + 1);
      assert ([c] + rest)[0] == c && ([c] + rest)[1..] == rest;
    }
  }

  /**
   * If every distinct collection answers with its own top k of displayable points, the i-th score of the merge
   * reaches t exactly when more than i of all the points stored in the collections do.
   */
  lemma MergeIsGlobalTopK(kept: seq<seq<RawPoint>>, dropped: seq<seq<RawPoint>>, topK: int)
    requires |kept| == |dropped| && forall i :: 0 <= i < |kept| ==> OwnTopK(kept[i], dropped[i], Max(topK, 0))
    requires forall p :: p in Flatten(kept) ==> Complete(p)
    ensures var all := Flatten(kept) + Flatten(dropped); var r := Merged(Flatten(kept), topK);
            |r| == Min(|all|, Max(topK, 0))
            && forall i, t :: 0 <= i < |r| ==> (r[i].score >= t <==> Reaching(all, t) > i)
  {
    hide SortByScore, DecodeAll, CountAtLeast, Complete, Reaching, Flatten, Value, OwnTopK;
    var points, out, k := Flatten(kept), Flatten(dropped), Max(topK, 0);
    var r := Merged(points, topK);
    var sorted := SortByScore(DecodeAll(points, 0));
    AllDecoded(points, 0, 0.0);
    if out != [] {
      CollectionsDominate(kept, dropped, k, out[0]);
      ReachingBounds(points, Value(out[0]));
    }
    forall i, t | 0 <= i < |r| ensures r[i].score >= t <==> Reaching(points + out, t) > i {
      assert r[i].score == sorted[i].score;
      SortIsSorted(DecodeAll(points, 0));
      SortedCount(sorted, t, i);
      CountSorted(DecodeAll(points, 0), t);
      AllDecoded(points, 0, t);
      ReachingAppend(points, out, t);
      if Reaching(out, t) > 0 {
        ReachingBounds(out, t);
        var d :| d in out && Value(d) >= t;
        CollectionsDominate(kept, dropped, k, d);
        ReachingMonotone(points, t, Value(d));
      }
    }
  }
}
