/**
 * The section merges on mutable records, as the source runs them. `deepMerge` clones the base but
 * puts the patch's own records into its result wherever the base has none, and the gateway merge then
 * writes into the records of that result. No record reachable from the base or the form is changed.
 */
module ConfigHeap {
  import opened Util
  import opened JsonValue
  import opened ConfigMerge

  /** A JavaScript object. Arrays are never written here and count as leaves. */
  class Record {
    var fields: map<string, Node>

    constructor (fields: map<string, Node>)
      ensures this.fields == fields
    {
      this.fields := fields;
    }
  }

  datatype Node = Leaf(value: Json) | Ref(record: Record)

  type Path = seq<string>

  /** The node stands for the value, in records of the given set. */
  ghost predicate Holds(n: Node, j: Json, rest: set<Record>)
    reads rest
    decreases j
  {
    if j.Obj? then
      && n.Ref? && n.record in rest && n.record.fields.Keys == j.fields.Keys
      && forall k :: k in j.fields ==> Holds(n.record.fields[k], j.fields[k], rest)
    else n == Leaf(j)
  }

  /** `record?.[key]` on nodes. */
  ghost function Child(n: Option<Node>, k: string, rest: set<Record>): Option<Node>
    reads rest
  {
    if n.Some? && n.value.Ref? && n.value.record in rest && k in n.value.record.fields
    then Some(n.value.record.fields[k]) else None
  }

  /**
   * The node stands for the value: each record is either new, at home in exactly this place, or it is
   * the patch's own record of the same place.
   */
  ghost predicate Built(
    n: Node, j: Json, at: Path, home: map<Record, Path>, shared: Option<Node>, rest: set<Record>
  )
    reads rest, home.Keys
    decreases j
  {
    if j.Obj? then
      && n.Ref?
      && if n.record in home then
           && home[n.record] == at && n.record.fields.Keys == j.fields.Keys
           && forall k :: k in j.fields ==>
                Built(n.record.fields[k], j.fields[k], at + [k], home, Child(shared, k, rest), rest)
         else shared == Some(n) && Holds(n, j, rest)
    else n == Leaf(j)
  }

  ghost predicate Extends(home: map<Record, Path>, more: map<Record, Path>) {
    forall r :: r in home ==> r in more && more[r] == home[r]
  }

  lemma {:induction false} BuiltGrows(
    n: Node, j: Json, at: Path, home: map<Record, Path>, more: map<Record, Path>, shared: Option<Node>, rest: set<Record>
  )
    requires Built(n, j, at, home, shared, rest) && Extends(home, more) && more.Keys !! rest
    ensures Built(n, j, at, more, shared, rest)
    decreases j
  {
    if j.Obj? && n.record in home {
      forall k | k in j.fields
        ensures Built(n.record.fields[k], j.fields[k], at + [k], more, Child(shared, k, rest), rest)
      {
        BuiltGrows(n.record.fields[k], j.fields[k], at + [k], home, more, Child(shared, k, rest), rest);
      }
    }
  }

  /** A tree of new records only is one next to any patch. */
  lemma {:induction false} BuiltAlone(
    n: Node, j: Json, at: Path, home: map<Record, Path>, more: map<Record, Path>, shared: Option<Node>, rest: set<Record>
  )
    requires Built(n, j, at, home, None, {}) && Extends(home, more)
    ensures Built(n, j, at, more, shared, rest)
    decreases j
  {
    if j.Obj? {
      forall k | k in j.fields
        ensures Built(n.record.fields[k], j.fields[k], at + [k], more, Child(shared, k, rest), rest)
      {
        BuiltAlone(n.record.fields[k], j.fields[k], at + [k], home, more, Child(shared, k, rest), rest);
      }
    }
  }

  lemma {:induction false} BuiltHolds(
    n: Node, j: Json, at: Path, home: map<Record, Path>, shared: Option<Node>, rest: set<Record>
  )
    requires Built(n, j, at, home, shared, rest)
    ensures Holds(n, j, home.Keys + rest)
    decreases j
  {
    if j.Obj? {
      if n.record in home {
        forall k | k in j.fields ensures Holds(n.record.fields[k], j.fields[k], home.Keys + rest) {
          BuiltHolds(n.record.fields[k], j.fields[k], at + [k], home, Child(shared, k, rest), rest);
        }
      } else {
        HoldsMore(n, j, rest, home.Keys + rest);
      }
    }
  }

  lemma {:induction false} HoldsMore(n: Node, j: Json, rest: set<Record>, more: set<Record>)
    requires Holds(n, j, rest) && rest <= more
    ensures Holds(n, j, more)
    decreases j
  {
    if j.Obj? {
      forall k | k in j.fields ensures Holds(n.record.fields[k], j.fields[k], more) {
        HoldsMore(n.record.fields[k], j.fields[k], rest, more);
      }
    }
  }

  // ----- copying and merging

  /** `cloneJsonRecord`. */
  method CloneRecord(r: Record, ghost j: Json, ghost at: Path, ghost rest: set<Record>)
    returns (copy: Record, ghost home: map<Record, Path>)
    requires j.Obj? && Holds(Ref(r), j, rest)
    ensures fresh(home.Keys) && copy in home
    ensures Built(Ref(copy), j, at, home, None, {})
    decreases j
  {
    var fields: map<string, Node> := map[];
    var keys := r.fields.Keys;
    home := map[];
    while keys != {}
      invariant keys <= r.fields.Keys && fields.Keys == r.fields.Keys - keys
      invariant fresh(home.Keys)
      invariant forall k :: k in fields ==> Built(fields[k], j.fields[k], at + [k], home, None, {})
      decreases keys
    {
      var key :| key in keys;
      var node := r.fields[key];
      assert Holds(node, j.fields[key], rest);
      if node.Ref? {
        ghost var own;
        var child;
        child, own := CloneRecord(node.record, j.fields[key], at + [key], rest);
        ghost var more := home + own;
        forall k | k in fields ensures Built(fields[k], j.fields[k], at + [k], more, None, {}) {
          BuiltGrows(fields[k], j.fields[k], at + [k], home, more, None, {});
        }
        BuiltGrows(Ref(child), j.fields[key], at + [key], own, more, None, {});
        home := more;
        node := Ref(child);
      }
      fields := fields[key := node];
      keys := keys - {key};
    }
    copy := new Record(fields);
    ghost var all := home[copy := at];
    forall k | k in fields ensures Built(fields[k], j.fields[k], at + [k], all, None, {}) {
      BuiltGrows(fields[k], j.fields[k], at + [k], home, all, None, {});
    }
    home := all;
  }

  /** Where base and patch both have a record, the merge has a new one. */
  ghost predicate Apart(n: Node, b: Json, p: Json, home: map<Record, Path>)
    reads home.Keys
    decreases p
  {
    b.Obj? && p.Obj? ==>
      && n.Ref? && n.record in home
      && forall k :: k in b.fields && k in p.fields ==>
           k in n.record.fields && Apart(n.record.fields[k], b.fields[k], p.fields[k], home)
  }

  lemma {:induction false} ApartGrows(n: Node, b: Json, p: Json, home: map<Record, Path>, more: map<Record, Path>)
    requires Apart(n, b, p, home) && Extends(home, more)
    ensures Apart(n, b, p, more)
    decreases p
  {
    if b.Obj? && p.Obj? {
      forall k | k in b.fields && k in p.fields ensures Apart(n.record.fields[k], b.fields[k], p.fields[k], more) {
        ApartGrows(n.record.fields[k], b.fields[k], p.fields[k], home, more);
      }
    }
  }

  /** The node is what the patch's value makes of the base's. */
  ghost predicate Merged(
    n: Node, b: Option<Json>, p: Json, at: Path, home: map<Record, Path>, shared: Node, rest: set<Record>
  )
    reads rest, home.Keys
  {
    Built(n, MergeValue(b, p), at, home, Some(shared), rest) && (b.Some? ==> Apart(n, b.value, p, home))
  }

  lemma MergedGrows(
    n: Node, b: Option<Json>, p: Json, at: Path, home: map<Record, Path>, more: map<Record, Path>, shared: Node,
    rest: set<Record>
  )
    requires Merged(n, b, p, at, home, shared, rest) && Extends(home, more) && more.Keys !! rest
    ensures Merged(n, b, p, at, more, shared, rest)
  {
    BuiltGrows(n, MergeValue(b, p), at, home, more, Some(shared), rest);
    if b.Some? { ApartGrows(n, b.value, p, home, more); }
  }

  /** Between two keys of the patch: the copy of the base, and the fields merged so far. */
  ghost predicate Merging(
    copy: Record, fields: map<string, Node>, done: set<string>, patch: Record, jb: Json, jp: Json, at: Path,
    own: map<Record, Path>, home: map<Record, Path>, rest: set<Record>
  )
    reads rest, own.Keys, home.Keys
  {
    && jb.Obj? && jp.Obj? && Extends(own, home) && home.Keys !! rest
    && copy in own && Built(Ref(copy), jb, at, own, None, {}) && Holds(Ref(patch), jp, rest)
    && done <= jp.fields.Keys && fields.Keys == jb.fields.Keys + done
    && (forall k :: k in jb.fields && k !in done ==> fields[k] == copy.fields[k])
    && (forall k :: k in done ==>
          Merged(fields[k], Field(jb, k), jp.fields[k], at + [k], home, patch.fields[k], rest))
  }

  lemma StartMerging(
    copy: Record, patch: Record, jb: Json, jp: Json, at: Path, own: map<Record, Path>, rest: set<Record>
  )
    requires jb.Obj? && jp.Obj? && copy in own && own.Keys !! rest
    requires Built(Ref(copy), jb, at, own, None, {}) && Holds(Ref(patch), jp, rest)
    ensures Merging(copy, copy.fields, {}, patch, jb, jp, at, own, own, rest)
    ensures patch.fields.Keys == jp.fields.Keys
  {
  }

  /** What merging the next key needs. */
  lemma NextKey(
    copy: Record, fields: map<string, Node>, done: set<string>, patch: Record, jb: Json, jp: Json, at: Path,
    own: map<Record, Path>, home: map<Record, Path>, rest: set<Record>, key: string
  )
    requires Merging(copy, fields, done, patch, jb, jp, at, own, home, rest)
    requires key in jp.fields && key !in done
    ensures key in patch.fields && Holds(patch.fields[key], jp.fields[key], rest)
    ensures key in fields <==> key in jb.fields
    ensures key in fields ==> Holds(fields[key], jb.fields[key], own.Keys)
  {
    if key in fields {
      BuiltHolds(copy.fields[key], jb.fields[key], at + [key], own, None, {});
      assert own.Keys + {} == own.Keys;
    }
  }

  lemma KeyMerged(
    copy: Record, fields: map<string, Node>, done: set<string>, patch: Record, jb: Json, jp: Json, at: Path,
    own: map<Record, Path>, home: map<Record, Path>, rest: set<Record>,
    key: string, child: Node, more: map<Record, Path>
  )
    requires Merging(copy, fields, done, patch, jb, jp, at, own, home, rest)
    requires key in jp.fields && key !in done && key in patch.fields && more.Keys !! home.Keys && more.Keys !! rest
    requires Merged(child, Field(jb, key), jp.fields[key], at + [key], more, patch.fields[key], rest)
    ensures Merging(copy, fields[key := child], done + {key}, patch, jb, jp, at, own, home + more, rest)
  {
    hide Merged, Built;
    var all := home + more;
    forall k | k in done
      ensures Merged(fields[k], Field(jb, k), jp.fields[k], at + [k], all, patch.fields[k], rest)
    {
      MergedGrows(fields[k], Field(jb, k), jp.fields[k], at + [k], home, all, patch.fields[k], rest);
    }
    MergedGrows(child, Field(jb, key), jp.fields[key], at + [key], more, all, patch.fields[key], rest);
  }

  /** What `deepMerge` stores for one key of the patch: the patch's node itself, unless both are records. */
  method MergeNodes(
    stored: Option<Node>, value: Node, ghost b: Option<Json>, ghost p: Json, ghost at: Path,
    ghost baseRest: set<Record>, ghost rest: set<Record>
  ) returns (merged: Node, ghost home: map<Record, Path>)
    requires stored.Some? == b.Some? && (b.Some? ==> Holds(stored.value, b.value, baseRest)) && Holds(value, p, rest)
    ensures fresh(home.Keys) && Merged(merged, b, p, at, home, value, rest)
    decreases p, 2
  {
    if stored.Some? && stored.value.Ref? && value.Ref? {
      var child;
      child, home := DeepMergeRecords(stored.value.record, value.record, b.value, p, at, baseRest, rest);
      merged := Ref(child);
    } else {
      merged, home := value, map[];
    }
  }

  /** One turn of the merge loop. */
  method MergeKey(
    copy: Record, fields: map<string, Node>, patch: Record, key: string, ghost done: set<string>,
    ghost jb: Json, ghost jp: Json, ghost at: Path,
    ghost own: map<Record, Path>, ghost home: map<Record, Path>, ghost rest: set<Record>
  ) returns (child: Node, ghost more: map<Record, Path>)
    requires Merging(copy, fields, done, patch, jb, jp, at, own, home, rest)
    requires key in jp.fields && key !in done
    ensures fresh(more.Keys) && more.Keys !! home.Keys
    ensures Merging(copy, fields[key := child], done + {key}, patch, jb, jp, at, own, home + more, rest)
    decreases jp, 0
  {
    hide Merged;
    NextKey(copy, fields, done, patch, jb, jp, at, own, home, rest, key);
    var stored := if key in fields then Some(fields[key]) else None;
    child, more := MergeNodes(stored, patch.fields[key], Field(jb, key), jp.fields[key], at + [key], own.Keys, rest);
    KeyMerged(copy, fields, done, patch, jb, jp, at, own, home, rest, key, child, more);
  }

  /** With every key merged, the new record is the merge. */
  method AllMerged(
    copy: Record, fields: map<string, Node>, patch: Record, ghost jb: Json, ghost jp: Json, ghost at: Path,
    ghost own: map<Record, Path>, ghost home: map<Record, Path>, ghost rest: set<Record>
  ) returns (result: Record, ghost all: map<Record, Path>)
    requires jp.Obj? && Merging(copy, fields, jp.fields.Keys, patch, jb, jp, at, own, home, rest)
    ensures fresh(result) && all == home[result := at]
    ensures Built(Ref(result), DeepMerge(jb, jp), at, all, Some(Ref(patch)), rest)
    ensures Apart(Ref(result), jb, jp, all)
  {
    result := new Record(fields);
    all := home[result := at];
    MergedAll(result, copy, patch, jb, jp, at, own, home, rest);
  }

  lemma MergedAll(
    result: Record, copy: Record, patch: Record, jb: Json, jp: Json, at: Path,
    own: map<Record, Path>, home: map<Record, Path>, rest: set<Record>
  )
    requires jp.Obj? && Merging(copy, result.fields, jp.fields.Keys, patch, jb, jp, at, own, home, rest)
    requires result !in home && result !in rest
    ensures var all := home[result := at];
            && Built(Ref(result), DeepMerge(jb, jp), at, all, Some(Ref(patch)), rest)
            && Apart(Ref(result), jb, jp, all)
  {
    var all, fields := home[result := at], result.fields;
    var merged := DeepMerge(jb, jp);
    forall k | k in merged.fields
      ensures Built(fields[k], merged.fields[k], at + [k], all, Child(Some(Ref(patch)), k, rest), rest)
      ensures k in jb.fields && k in jp.fields ==> Apart(fields[k], jb.fields[k], jp.fields[k], all)
    {
      MergedField(jb, jp, k);
      if k in jp.fields {
        MergedGrows(fields[k], Field(jb, k), jp.fields[k], at + [k], home, all, patch.fields[k], rest);
      } else {
        BuiltAlone(fields[k], jb.fields[k], at + [k], own, all, None, rest);
      }
    }
  }

  /** `deepMerge`. */
  method DeepMergeRecords(
    base: Record, patch: Record, ghost jb: Json, ghost jp: Json, ghost at: Path,
    ghost baseRest: set<Record>, ghost rest: set<Record>
  ) returns (result: Record, ghost home: map<Record, Path>)
    requires jb.Obj? && jp.Obj? && Holds(Ref(base), jb, baseRest) && Holds(Ref(patch), jp, rest)
    ensures fresh(home.Keys) && result in home
    ensures Built(Ref(result), DeepMerge(jb, jp), at, home, Some(Ref(patch)), rest)
    ensures Apart(Ref(result), jb, jp, home)
    decreases jp, 1
  {
    hide Built, DeepMerge, MergeValue, Apart, Merged, Merging;
    var copy;
    ghost var own;
    copy, own := CloneRecord(base, jb, at, baseRest);
    StartMerging(copy, patch, jb, jp, at, own, rest);
    var fields := copy.fields;
    var keys := patch.fields.Keys;
    ghost var done: set<string> := {};
    home := own;
    while keys != {}
      invariant keys <= jp.fields.Keys && done == jp.fields.Keys - keys
      invariant fresh(home.Keys)
      invariant Merging(copy, fields, done, patch, jb, jp, at, own, home, rest)
      decreases keys
    {
      var key :| key in keys;
      var child;
      ghost var more;
      child, more := MergeKey(copy, fields, patch, key, done, jb, jp, at, own, home, rest);
      home, fields, done := home + more, fields[key := child], done + {key};
      keys := keys - {key};
    }
    assert done == jp.fields.Keys;
    result, home := AllMerged(copy, fields, patch, jb, jp, at, own, home, rest);
  }

  // ----- writing in place

  function Lookup(r: Record, key: string): Option<Node>
    reads r
  {
    if key in r.fields then Some(r.fields[key]) else None
  }

  function Assigned(fields: map<string, Node>, key: string, value: Option<Node>): map<string, Node> {
    if value.Some? then fields[key := value.value] else fields - {key}
  }

  /** `record[key] = value`; undefined is the absent key. */
  method Assign(r: Record, key: string, value: Option<Node>)
    modifies r`fields
    ensures r.fields == Assigned(old(r.fields), key, value)
  {
    r.fields := Assigned(r.fields, key, value);
  }

  /** A place that does not lead to a record is built without it. */
  lemma {:induction false} BuiltWithout(
    n: Node, j: Json, at: Path, home: map<Record, Path>, shared: Option<Node>, rest: set<Record>, r: Record
  )
    requires Built(n, j, at, home, shared, rest) && r in home && r !in rest && !(at <= home[r])
    ensures Built(n, j, at, home - {r}, shared, rest)
    decreases j
  {
    if j.Obj? && n.record in home {
      forall k | k in j.fields
        ensures Built(n.record.fields[k], j.fields[k], at + [k], home - {r}, Child(shared, k, rest), rest)
      {
        assert at <= at + [k];
        BuiltWithout(n.record.fields[k], j.fields[k], at + [k], home, Child(shared, k, rest), rest, r);
      }
    }
  }

  /** The fields of a record other than one. */
  ghost predicate Others(
    fields: map<string, Node>, j: Json, but: string, at: Path, home: map<Record, Path>, shared: Option<Node>,
    rest: set<Record>
  )
    reads rest, home.Keys
  {
    forall k :: k in fields && k != but ==>
      j.Obj? && k in j.fields && Built(fields[k], j.fields[k], at + [k], home, Child(shared, k, rest), rest)
  }

  lemma OthersWithout(
    fields: map<string, Node>, j: Json, but: string, at: Path, home: map<Record, Path>, shared: Option<Node>,
    rest: set<Record>, r: Record, below: Path
  )
    requires Others(fields, j, but, at, home, shared, rest) && r in home && r !in rest
    requires home[r] == at || home[r] == at + [but] + below
    ensures Others(fields, j, but, at, home - {r}, shared, rest)
  {
    forall k | k in fields && k != but
      ensures Built(fields[k], j.fields[k], at + [k], home - {r}, Child(shared, k, rest), rest)
    {
      assert (at + [k])[|at|] == k;
      assert home[r] != at ==> home[r][|at|] == but;
      BuiltWithout(fields[k], j.fields[k], at + [k], home, Child(shared, k, rest), rest, r);
    }
  }

  lemma OthersGrow(
    fields: map<string, Node>, j: Json, but: string, at: Path, home: map<Record, Path>, more: map<Record, Path>,
    shared: Option<Node>, rest: set<Record>
  )
    requires Others(fields, j, but, at, home, shared, rest) && Extends(home, more) && more.Keys !! rest
    ensures Others(fields, j, but, at, more, shared, rest)
  {
    forall k | k in fields && k != but
      ensures Built(fields[k], j.fields[k], at + [k], more, Child(shared, k, rest), rest)
    {
      BuiltGrows(fields[k], j.fields[k], at + [k], home, more, Child(shared, k, rest), rest);
    }
  }

  /** The value and its node may stand in the field `key` of a record at `at`. */
  ghost predicate Fits(
    value: Option<Node>, jv: Option<Json>, at: Path, home: map<Record, Path>, shared: Option<Node>, rest: set<Record>
  )
    reads rest, home.Keys
  {
    value.Some? == jv.Some? && (value.Some? ==> Built(value.value, jv.value, at, home, shared, rest))
  }

  lemma FitsWithout(
    value: Option<Node>, jv: Option<Json>, at: Path, home: map<Record, Path>, shared: Option<Node>,
    rest: set<Record>, r: Record
  )
    requires Fits(value, jv, at, home, shared, rest) && r in home && r !in rest && |at| > |home[r]|
    ensures Fits(value, jv, at, home - {r}, shared, rest)
  {
    if value.Some? { BuiltWithout(value.value, jv.value, at, home, shared, rest, r); }
  }

  /** After one field of a new record was written, the record stands for the written value. */
  lemma FieldWritten(
    r: Record, fields: map<string, Node>, key: string, value: Option<Node>, j: Json, jv: Option<Json>,
    home: map<Record, Path>, shared: Option<Node>, rest: set<Record>
  )
    requires r in home && home.Keys !! rest && j.Obj? && fields.Keys == j.fields.Keys
    requires r.fields == Assigned(fields, key, value)
    requires Others(fields, j, key, home[r], home - {r}, shared, rest)
    requires Fits(value, jv, home[r] + [key], home - {r}, Child(shared, key, rest), rest)
    ensures Built(Ref(r), PutField(j, key, jv), home[r], home, shared, rest)
  {
    var at := home[r];
    OthersGrow(fields, j, key, at, home - {r}, home, shared, rest);
    if value.Some? {
      BuiltGrows(value.value, jv.value, at + [key], home - {r}, home, Child(shared, key, rest), rest);
    }
  }

  // ----- a merged section under way

  function AsRef(n: Option<Node>): Option<Record> {
    if n.Some? && n.value.Ref? then Some(n.value.record) else None
  }

  /** The base and the form of a merge. */
  ghost predicate Inputs(base: Record, form: Record, jb: Json, jf: Json, baseRest: set<Record>, rest: set<Record>)
    reads baseRest, rest
  {
    jb.Obj? && jf.Obj? && Holds(Ref(base), jb, baseRest) && Holds(Ref(form), jf, rest)
  }

  /** The section merged so far: a new record at the top, next to the form's records. */
  ghost predicate Whole(root: Record, j: Json, home: map<Record, Path>, form: Record, rest: set<Record>)
    reads rest, home.Keys
  {
    && root in home && home[root] == [] && home.Keys !! rest
    && j.Obj? && Built(Ref(root), j, [], home, Some(Ref(form)), rest)
  }

  /** Writing a field of the section itself. */
  method WriteTop(
    root: Record, key: string, value: Option<Node>, ghost j: Json, ghost jv: Option<Json>,
    ghost home: map<Record, Path>, ghost form: Record, ghost rest: set<Record>
  )
    requires Whole(root, j, home, form, rest)
    requires Fits(value, jv, [key], home, Child(Some(Ref(form)), key, rest), rest)
    modifies root`fields
    ensures root.fields == Assigned(old(root.fields), key, value)
    ensures Whole(root, PutField(j, key, jv), home, form, rest)
  {
    ghost var fields, shared := root.fields, Some(Ref(form));
    assert [] + [key] == [key];
    assert Others(fields, j, key, [], home, shared, rest);
    OthersWithout(fields, j, key, [], home, shared, rest, root, []);
    FitsWithout(value, jv, [key], home, Child(shared, key, rest), rest, root);
    Assign(root, key, value);
    FieldWritten(root, fields, key, value, j, jv, home, shared, rest);
  }

  function Put2(j: Json, outer: string, key: string, value: Json): (r: Json)
    requires j.Obj? && outer in j.fields && j.fields[outer].Obj?
    ensures r.Obj?
  {
    PutField(j, outer, Some(PutField(j.fields[outer], key, Some(value))))
  }

  /** `c` is the record at `root[outer][key]`. */
  ghost predicate LeadsTo(root: Record, middle: Record, c: Record, outer: string, key: string)
    reads root, middle
  {
    Lookup(root, outer) == Some(Ref(middle)) && Lookup(middle, key) == Some(Ref(c))
  }

  predicate Record2(j: Json, outer: string, key: string) {
    j.Obj? && outer in j.fields && j.fields[outer].Obj?
    && key in j.fields[outer].fields && j.fields[outer].fields[key].Obj?
  }

  /** The record two levels down: new and at home there, or the form's own. */
  lemma TwoDown(
    root: Record, middle: Record, c: Record, outer: string, key: string, j: Json,
    home: map<Record, Path>, form: Record, rest: set<Record>
  )
    requires Whole(root, j, home, form, rest) && LeadsTo(root, middle, c, outer, key)
    ensures Record2(j, outer, key)
    ensures var shared := Child(Child(Some(Ref(form)), outer, rest), key, rest);
            if c in home then
              && middle in home && home[middle] == [outer] && home[c] == [outer, key] && c != root && c != middle
              && Built(Ref(middle), j.fields[outer], [outer], home, Child(Some(Ref(form)), outer, rest), rest)
              && Built(Ref(c), j.fields[outer].fields[key], [outer, key], home, shared, rest)
            else c in rest && shared == Some(Ref(c)) && Holds(Ref(c), j.fields[outer].fields[key], rest)
  {
    assert [] + [outer] == [outer] && [outer] + [key] == [outer, key];
    assert Built(Ref(middle), j.fields[outer], [outer], home, Child(Some(Ref(form)), outer, rest), rest);
    if middle in home {
      assert Built(Ref(c), j.fields[outer].fields[key], [outer, key], home,
          Child(Child(Some(Ref(form)), outer, rest), key, rest), rest);
    } else {
      assert Holds(Ref(c), j.fields[outer].fields[key], rest);
    }
  }

  /** All of the section but the record two levels down. */
  ghost predicate Around(
    root: Record, middle: Record, outer: string, key: string, j: Json,
    home: map<Record, Path>, form: Record, rest: set<Record>
  )
    reads rest, home.Keys
  {
    var shared := Some(Ref(form));
    && root in home && home[root] == [] && middle in home && home[middle] == [outer] && home.Keys !! rest
    && j.Obj? && root.fields.Keys == j.fields.Keys && outer in j.fields && j.fields[outer].Obj?
    && middle.fields.Keys == j.fields[outer].fields.Keys
    && Others(root.fields, j, outer, [], home, shared, rest)
    && Others(middle.fields, j.fields[outer], key, [outer], home, Child(shared, outer, rest), rest)
  }

  lemma TakenOut(
    root: Record, middle: Record, c: Record, outer: string, key: string, j: Json,
    home: map<Record, Path>, form: Record, rest: set<Record>
  )
    requires Whole(root, j, home, form, rest) && LeadsTo(root, middle, c, outer, key) && c in home
    ensures Around(root, middle, outer, key, j, home - {c}, form, rest)
  {
    TwoDown(root, middle, c, outer, key, j, home, form, rest);
    var shared := Some(Ref(form));
    assert Others(root.fields, j, outer, [], home, shared, rest);
    OthersWithout(root.fields, j, outer, [], home, shared, rest, c, [key]);
    assert Others(middle.fields, j.fields[outer], key, [outer], home, Child(shared, outer, rest), rest);
    OthersWithout(middle.fields, j.fields[outer], key, [outer], home, Child(shared, outer, rest), rest, c, []);
  }

  lemma PutBack(
    root: Record, middle: Record, c: Record, outer: string, key: string, j: Json, value: Json,
    home: map<Record, Path>, form: Record, rest: set<Record>
  )
    requires Around(root, middle, outer, key, j, home - {c}, form, rest)
    requires LeadsTo(root, middle, c, outer, key) && c in home && home.Keys !! rest
    requires Built(Ref(c), value, [outer, key], home, Child(Child(Some(Ref(form)), outer, rest), key, rest), rest)
    ensures Whole(root, Put2(j, outer, key, value), home, form, rest)
  {
    var shared := Some(Ref(form));
    assert [] + [outer] == [outer] && [outer] + [key] == [outer, key];
    OthersGrow(root.fields, j, outer, [], home - {c}, home, shared, rest);
    OthersGrow(middle.fields, j.fields[outer], key, [outer], home - {c}, home, Child(shared, outer, rest), rest);
    var middleValue := PutField(j.fields[outer], key, Some(value));
    assert Built(Ref(middle), middleValue, [outer], home, Child(shared, outer, rest), rest);
  }

  /**
   * Writing a field of the record two levels down. A new record takes any value that fits; the form's
   * own record is only ever given what it holds.
   */
  method WriteBelow(
    root: Record, middle: Record, c: Record, outer: string, key: string, field: string, value: Option<Node>,
    ghost j: Json, ghost jv: Option<Json>, ghost home: map<Record, Path>, ghost form: Record, ghost rest: set<Record>
  )
    requires Whole(root, j, home, form, rest) && LeadsTo(root, middle, c, outer, key) && Record2(j, outer, key)
    requires c in home ==>
      Fits(value, jv, [outer, key, field], home, Child(Child(Child(Some(Ref(form)), outer, rest), key, rest), field, rest), rest)
    requires c !in home ==> value == Lookup(c, field) && jv == Field(j.fields[outer].fields[key], field)
    modifies c`fields
    ensures c.fields == Assigned(old(c.fields), field, value)
    ensures c !in home ==> c.fields == old(c.fields)
    ensures root.fields == old(root.fields) && middle.fields == old(middle.fields)
    ensures Whole(root, Put2(j, outer, key, PutField(j.fields[outer].fields[key], field, jv)), home, form, rest)
  {
    ghost var own, fields := j.fields[outer].fields[key], c.fields;
    ghost var shared := Child(Child(Some(Ref(form)), outer, rest), key, rest);
    TwoDown(root, middle, c, outer, key, j, home, form, rest);
    if c in home {
      TakenOut(root, middle, c, outer, key, j, home, form, rest);
      assert Others(fields, own, field, [outer, key], home, shared, rest);
      OthersWithout(fields, own, field, [outer, key], home, shared, rest, c, []);
      assert [outer, key] + [field] == [outer, key, field];
      FitsWithout(value, jv, [outer, key, field], home, Child(shared, field, rest), rest, c);
    }
    Assign(c, field, value);
    if c in home {
      FieldWritten(c, fields, field, value, own, jv, home, shared, rest);
      PutBack(root, middle, c, outer, key, j, PutField(own, field, jv), home, form, rest);
    } else {
      SelfAssigned(fields, field);
      assert unchanged(c);
      assert Built(Ref(root), j, [], home, Some(Ref(form)), rest);
      SamePut2(j, outer, key, field);
    }
  }

  lemma SelfAssigned(fields: map<string, Node>, key: string)
    ensures Assigned(fields, key, if key in fields then Some(fields[key]) else None) == fields
  {
  }

  lemma SamePut2(j: Json, outer: string, key: string, field: string)
    requires Record2(j, outer, key)
    ensures var own := j.fields[outer].fields[key];
            Put2(j, outer, key, PutField(own, field, Field(own, field))) == j
  {
    var own := j.fields[outer].fields[key];
    assert PutField(own, field, Field(own, field)).fields == own.fields;
    assert PutField(j.fields[outer], key, Some(own)).fields == j.fields[outer].fields;
    assert PutField(j, outer, Some(j.fields[outer])).fields == j.fields;
  }

  // ----- reading base and form

  function RecordIn(r: Option<Record>, key: string): Option<Record>
    reads if r.Some? then {r.value} else {}
  {
    if r.Some? then AsRef(Lookup(r.value, key)) else None
  }

  ghost predicate HeldRecord(r: Option<Record>, j: Option<Json>, rest: set<Record>)
    reads rest
  {
    r.Some? == j.Some? && (r.Some? ==> j.value.Obj? && Holds(Ref(r.value), j.value, rest))
  }

  lemma HeldRecordIn(r: Option<Record>, j: Option<Json>, key: string, rest: set<Record>)
    requires HeldRecord(r, j, rest)
    ensures HeldRecord(RecordIn(r, key), AsRecord(FieldOf(j, key)), rest)
    ensures r.Some? ==> Lookup(r.value, key).Some? == Field(j.value, key).Some?
    ensures r.Some? && key in j.value.fields ==> Holds(r.value.fields[key], j.value.fields[key], rest)
  {
    if r.Some? && key in j.value.fields {
      assert Holds(r.value.fields[key], j.value.fields[key], rest);
    }
  }

  lemma {:induction false} HoldsOne(n: Node, a: Json, b: Json, rest: set<Record>)
    requires Holds(n, a, rest) && Holds(n, b, rest)
    ensures a == b
    decreases a
  {
    if a.Obj? && b.Obj? {
      forall k | k in a.fields ensures a.fields[k] == b.fields[k] {
        HoldsOne(n.record.fields[k], a.fields[k], b.fields[k], rest);
      }
      assert a.fields == b.fields;
    }
  }

  /** The form's own node fits where the form has it. */
  lemma OwnNodeFits(n: Node, j: Json, at: Path, home: map<Record, Path>, rest: set<Record>)
    requires Holds(n, j, rest) && home.Keys !! rest
    ensures Built(n, j, at, home, Some(n), rest)
  {
  }

  /** `target[field] = source[field]` two levels down, with the form's record as source. */
  method CopyBelow(
    root: Record, middle: Record, c: Record, formMiddle: Record, source: Record, outer: string, key: string, field: string,
    ghost j: Json, ghost js: Json, ghost home: map<Record, Path>, ghost form: Record, ghost rest: set<Record>
  )
    requires Whole(root, j, home, form, rest) && LeadsTo(root, middle, c, outer, key) && Record2(j, outer, key)
    requires form in rest && formMiddle in rest && LeadsTo(form, formMiddle, source, outer, key)
    requires js.Obj? && Holds(Ref(source), js, rest)
    modifies c`fields
    ensures c !in home ==> c.fields == old(c.fields)
    ensures root.fields == old(root.fields) && middle.fields == old(middle.fields)
    ensures Whole(root, Put2(j, outer, key, PutField(j.fields[outer].fields[key], field, Field(js, field))), home, form, rest)
  {
    ghost var shared := Child(Child(Some(Ref(form)), outer, rest), key, rest);
    assert shared == Some(Ref(source));
    TwoDown(root, middle, c, outer, key, j, home, form, rest);
    HeldRecordIn(Some(source), Some(js), field, rest);
    if field in js.fields {
      OwnNodeFits(source.fields[field], js.fields[field], [outer, key, field], home, rest);
    }
    if c !in home {
      HoldsOne(Ref(c), j.fields[outer].fields[key], js, rest);
    }
    WriteBelow(root, middle, c, outer, key, field, Lookup(source, field), j, Field(js, field), home, form, rest);
  }

  // ----- the gateway

  predicate NodeNonBlank(n: Option<Node>) { n.Some? && n.value.Leaf? && NonBlank(Some(n.value.value)) }

  predicate NodeUnset(n: Option<Node>) { n.None? || (n.value.Leaf? && Unset(Some(n.value.value))) }

  /** Whether `preserveOptionalSecretRef` keeps the base's reference. */
  predicate KeepsSecret(base: Option<Record>, patch: Option<Record>)
    reads if base.Some? then {base.value} else {}, if patch.Some? then {patch.value} else {}
  {
    NodeNonBlank(if base.Some? then Lookup(base.value, SECRET) else None)
    && NodeUnset(if patch.Some? then Lookup(patch.value, SECRET) else None)
  }

  lemma KeepsSecretIff(base: Option<Record>, patch: Option<Record>, jb: Option<Json>, jp: Option<Json>, baseRest: set<Record>, rest: set<Record>)
    requires HeldRecord(base, jb, baseRest) && HeldRecord(patch, jp, rest)
    ensures KeepsSecret(base, patch) <==> NonBlank(FieldOf(jb, SECRET)) && Unset(FieldOf(jp, SECRET))
    ensures KeepsSecret(base, patch) ==> Lookup(base.value, SECRET) == Some(Leaf(FieldOf(jb, SECRET).value))
  {
    HeldRecordIn(base, jb, SECRET, baseRest);
    HeldRecordIn(patch, jp, SECRET, rest);
  }

  /** Where base and form both have a record two levels down, the section has a new one. */
  ghost predicate NewBelow(root: Record, outer: string, jb: Json, jf: Json, home: map<Record, Path>)
    reads root, home.Keys
  {
    forall key :: Record2(jb, outer, key) && Record2(jf, outer, key) ==>
      var middle := AsRef(Lookup(root, outer));
      && middle.Some? && middle.value in home
      && RecordIn(middle, key).Some? && RecordIn(middle, key).value in home
  }

  lemma ApartIsNewBelow(root: Record, outer: string, jb: Json, jf: Json, home: map<Record, Path>)
    requires jb.Obj? && jf.Obj? && Apart(Ref(root), jb, jf, home)
    ensures NewBelow(root, outer, jb, jf, home)
  {
    forall key | Record2(jb, outer, key) && Record2(jf, outer, key)
      ensures AsRef(Lookup(root, outer)).Some? && AsRef(Lookup(root, outer)).value in home
      ensures RecordIn(AsRef(Lookup(root, outer)), key).Some? && RecordIn(AsRef(Lookup(root, outer)), key).value in home
    {
      assert Apart(root.fields[outer], jb.fields[outer], jf.fields[outer], home);
      assert Apart(root.fields[outer].record.fields[key], jb.fields[outer].fields[key], jf.fields[outer].fields[key], home);
    }
  }

  function SubRecord(j: Json, outer: string, key: string): Option<Json> {
    AsRecord(FieldOf(AsRecord(Field(j, outer)), key))
  }

  /** The section after one turn of the provider loop. */
  function WithProvider(j: Json, jb: Json, jf: Json, key: string): (r: Json)
    requires j.Obj?
    ensures r.Obj?
  {
    var provider, formProvider := SubRecord(j, "providers", key), SubRecord(jf, "providers", key);
    if provider.Some? && formProvider.Some?
    then Put2(j, "providers", key, MergeProvider(provider.value, SubRecord(jb, "providers", key), formProvider.value)) else j
  }

  /** The section's record two levels down, as the value has it. */
  lemma WholeBelow(root: Record, outer: string, key: string, j: Json, home: map<Record, Path>, form: Record, rest: set<Record>)
    requires Whole(root, j, home, form, rest)
    ensures var middle := RecordIn(Some(root), outer);
            && RecordIn(middle, key).Some? == SubRecord(j, outer, key).Some?
            && (RecordIn(middle, key).Some? ==>
                  LeadsTo(root, middle.value, RecordIn(middle, key).value, outer, key) && Record2(j, outer, key))
  {
    assert [] + [outer] == [outer];
    if outer in j.fields {
      assert Built(root.fields[outer], j.fields[outer], [outer], home, Child(Some(Ref(form)), outer, rest), rest);
      if j.fields[outer].Obj? {
        var middle := root.fields[outer].record;
        if key in j.fields[outer].fields {
          assert middle !in home ==> Holds(middle.fields[key], j.fields[outer].fields[key], rest);
        }
      }
    }
  }

  lemma Put2Twice(j: Json, outer: string, key: string, a: Json, b: Json)
    requires j.Obj? && outer in j.fields && j.fields[outer].Obj?
    ensures outer in Put2(j, outer, key, a).fields
    ensures var once := Put2(j, outer, key, a);
            && once.fields[outer].Obj? && once.fields[outer].fields[key] == a && key in once.fields[outer].fields
            && Put2(once, outer, key, b) == Put2(j, outer, key, b)
  {
    var once := Put2(j, outer, key, a);
    assert PutField(once.fields[outer], key, Some(b)).fields == PutField(j.fields[outer], key, Some(b)).fields;
    assert Put2(once, outer, key, b).fields == Put2(j, outer, key, b).fields;
  }

  lemma SamePut2Value(j: Json, outer: string, key: string)
    requires Record2(j, outer, key)
    ensures Put2(j, outer, key, j.fields[outer].fields[key]) == j
  {
    assert PutField(j.fields[outer], key, Some(j.fields[outer].fields[key])).fields == j.fields[outer].fields;
    assert PutField(j, outer, Some(j.fields[outer])).fields == j.fields;
  }

  /** `preserveOptionalSecretRef` two levels down; only a new record is ever written. */
  method PreserveBelow(
    root: Record, middle: Record, c: Record, baseRecord: Option<Record>, formRecord: Record, outer: string, key: string,
    ghost j: Json, ghost jb: Option<Json>, ghost jf: Json,
    ghost home: map<Record, Path>, ghost form: Record, ghost baseRest: set<Record>, ghost rest: set<Record>
  )
    requires Whole(root, j, home, form, rest) && LeadsTo(root, middle, c, outer, key) && Record2(j, outer, key)
    requires HeldRecord(baseRecord, jb, baseRest) && HeldRecord(Some(formRecord), Some(jf), rest)
    requires jb.Some? ==> c in home
    modifies c`fields
    ensures c !in home ==> c.fields == old(c.fields)
    ensures root.fields == old(root.fields) && middle.fields == old(middle.fields)
    ensures Whole(root, Put2(j, outer, key, PreserveSecret(j.fields[outer].fields[key], jb, Some(jf), SECRET)), home, form, rest)
  {
    KeepsSecretIff(baseRecord, Some(formRecord), jb, Some(jf), baseRest, rest);
    TwoDown(root, middle, c, outer, key, j, home, form, rest);
    if KeepsSecret(baseRecord, Some(formRecord)) {
      WriteBelow(root, middle, c, outer, key, SECRET, Lookup(baseRecord.value, SECRET), j, FieldOf(jb, SECRET), home, form, rest);
    } else {
      SamePut2Value(j, outer, key);
    }
  }

  /** One turn of the provider loop, on the records found. */
  method UpdateProvider(
    root: Record, middle: Record, c: Record, baseRecord: Option<Record>, formMiddle: Record, formRecord: Record, key: string,
    ghost j: Json, ghost jb: Option<Json>, ghost jf: Json,
    ghost home: map<Record, Path>, ghost form: Record, ghost baseRest: set<Record>, ghost rest: set<Record>
  )
    requires Whole(root, j, home, form, rest) && LeadsTo(root, middle, c, "providers", key) && Record2(j, "providers", key)
    requires HeldRecord(baseRecord, jb, baseRest) && HeldRecord(Some(formRecord), Some(jf), rest)
    requires form in rest && formMiddle in rest && LeadsTo(form, formMiddle, formRecord, "providers", key)
    requires jb.Some? ==> c in home
    modifies c`fields
    ensures c !in home ==> c.fields == old(c.fields)
    ensures root.fields == old(root.fields) && middle.fields == old(middle.fields)
    ensures Whole(root, Put2(j, "providers", key, MergeProvider(j.fields["providers"].fields[key], jb, jf)), home, form, rest)
  {
    ghost var jc := j.fields["providers"].fields[key];
    ghost var kept := PreserveSecret(jc, jb, Some(jf), SECRET);
    ghost var j1 := Put2(j, "providers", key, kept);
    PreserveBelow(root, middle, c, baseRecord, formRecord, "providers", key, j, jb, jf, home, form, baseRest, rest);
    Put2Twice(j, "providers", key, kept, PutField(kept, "base_url", Field(jf, "base_url")));
    CopyBelow(root, middle, c, formMiddle, formRecord, "providers", key, "base_url", j1, jf, home, form, rest);
  }

  method MergeProviderInPlace(
    merged: Record, base: Record, form: Record, key: string, ghost j: Json, ghost jb: Json, ghost jf: Json,
    ghost home: map<Record, Path>, ghost baseRest: set<Record>, ghost rest: set<Record>
  )
    requires Whole(merged, j, home, form, rest) && NewBelow(merged, "providers", jb, jf, home)
    requires Inputs(base, form, jb, jf, baseRest, rest) && home.Keys !! baseRest
    modifies home.Keys`fields, rest`fields
    ensures Whole(merged, WithProvider(j, jb, jf, key), home, form, rest) && NewBelow(merged, "providers", jb, jf, home)
    ensures Inputs(base, form, jb, jf, baseRest, rest)
    ensures forall x :: x in rest ==> x.fields == old(x.fields)
    ensures merged.fields == old(merged.fields)
  {
    HeldRecordIn(Some(base), Some(jb), "providers", baseRest);
    HeldRecordIn(Some(form), Some(jf), "providers", rest);
    var providers := RecordIn(Some(merged), "providers");
    var baseProviders, formProviders := RecordIn(Some(base), "providers"), RecordIn(Some(form), "providers");
    HeldRecordIn(baseProviders, AsRecord(Field(jb, "providers")), key, baseRest);
    HeldRecordIn(formProviders, AsRecord(Field(jf, "providers")), key, rest);
    WholeBelow(merged, "providers", key, j, home, form, rest);
    var provider := RecordIn(providers, key);
    var baseProvider, formProvider := RecordIn(baseProviders, key), RecordIn(formProviders, key);
    if provider.Some? && formProvider.Some? {
      TwoDown(merged, providers.value, provider.value, "providers", key, j, home, form, rest);
      assert SubRecord(jb, "providers", key).Some? ==> Record2(jb, "providers", key) && Record2(jf, "providers", key);
      UpdateProvider(merged, providers.value, provider.value, baseProvider, formProviders.value, formProvider.value, key,
        j, SubRecord(jb, "providers", key), SubRecord(jf, "providers", key).value, home, form, baseRest, rest);
    }
  }

  /** The section after one route was updated. */
  function WithRoute(j: Json, jf: Json, key: string, defaults: seq<string>): (r: Json)
    requires j.Obj?
    ensures r.Obj?
  {
    var route, formRoute := SubRecord(j, "routes", key), SubRecord(jf, "routes", key);
    if route.Some? && formRoute.Some?
    then Put2(j, "routes", key, Overwrite(route.value, formRoute.value, defaults)) else j
  }

  method MergeRouteInPlace(
    merged: Record, form: Record, key: string, defaults: seq<string>, ghost j: Json, ghost jf: Json,
    ghost home: map<Record, Path>, ghost rest: set<Record>
  )
    requires Whole(merged, j, home, form, rest) && jf.Obj? && Holds(Ref(form), jf, rest)
    modifies home.Keys`fields, rest`fields
    ensures Whole(merged, WithRoute(j, jf, key, defaults), home, form, rest)
    ensures forall x :: x in rest ==> x.fields == old(x.fields)
  {
    HeldRecordIn(Some(form), Some(jf), "routes", rest);
    var routes, formRoutes := RecordIn(Some(merged), "routes"), RecordIn(Some(form), "routes");
    HeldRecordIn(formRoutes, AsRecord(Field(jf, "routes")), key, rest);
    WholeBelow(merged, "routes", key, j, home, form, rest);
    var route, formRoute := RecordIn(routes, key), RecordIn(formRoutes, key);
    if route.Some? && formRoute.Some? {
      TwoDown(merged, routes.value, route.value, "routes", key, j, home, form, rest);
      OverwriteBelow(merged, routes.value, route.value, formRoutes.value, formRoute.value, key, defaults,
        j, SubRecord(jf, "routes", key).value, home, form, rest);
    }
  }

  method OverwriteBelow(
    root: Record, middle: Record, c: Record, formMiddle: Record, source: Record, key: string, defaults: seq<string>,
    ghost j: Json, ghost js: Json, ghost home: map<Record, Path>, ghost form: Record, ghost rest: set<Record>
  )
    requires Whole(root, j, home, form, rest) && LeadsTo(root, middle, c, "routes", key) && Record2(j, "routes", key)
    requires form in rest && formMiddle in rest && LeadsTo(form, formMiddle, source, "routes", key)
    requires js.Obj? && Holds(Ref(source), js, rest)
    modifies c`fields
    ensures c !in home ==> c.fields == old(c.fields)
    ensures root.fields == old(root.fields) && middle.fields == old(middle.fields)
    ensures Whole(root, Put2(j, "routes", key, Overwrite(j.fields["routes"].fields[key], js, defaults)), home, form, rest)
    decreases |defaults|
  {
    ghost var jc := j.fields["routes"].fields[key];
    TwoDown(root, middle, c, "routes", key, j, home, form, rest);
    if defaults == [] {
      SamePut2Value(j, "routes", key);
      return;
    }
    ghost var copied := PutField(jc, defaults[0], Field(js, defaults[0]));
    Put2Twice(j, "routes", key, copied, Overwrite(copied, js, defaults[1..]));
    CopyBelow(root, middle, c, formMiddle, source, "routes", key, defaults[0], j, js, home, form, rest);
    OverwriteBelow(root, middle, c, formMiddle, source, key, defaults[1..],
      Put2(j, "routes", key, copied), js, home, form, rest);
  }

  // ----- the section merges

  function WithProviders(j: Json, jb: Json, jf: Json, keys: seq<string>): (r: Json)
    requires j.Obj?
    ensures r.Obj?
    decreases |keys|
  {
    if keys == [] then j else WithProviders(WithProvider(j, jb, jf, keys[0]), jb, jf, keys[1..])
  }

  lemma PutTwice(j: Json, key: string, a: Json, b: Json)
    requires j.Obj?
    ensures PutField(PutField(j, key, Some(a)), key, Some(b)) == PutField(j, key, Some(b))
  {
    assert PutField(PutField(j, key, Some(a)), key, Some(b)).fields == PutField(j, key, Some(b)).fields;
  }

  lemma PutSame(j: Json, key: string)
    requires j.Obj? && key in j.fields
    ensures PutField(j, key, Some(j.fields[key])) == j
  {
    assert j.fields[key := j.fields[key]] == j.fields;
  }

  /** Updating provider by provider through the section is updating the providers record. */
  lemma {:induction false} WithProvidersIs(j: Json, jb: Json, jf: Json, keys: seq<string>)
    requires j.Obj?
    ensures var providers := AsRecord(Field(j, "providers"));
            WithProviders(j, jb, jf, keys) ==
            if providers.Some? then
              PutField(j, "providers", Some(MergeProviders(providers.value,
                AsRecord(Field(jb, "providers")), AsRecord(Field(jf, "providers")), keys)))
            else j
    decreases |keys|
  {
    hide MergeProvider;
    var providers := AsRecord(Field(j, "providers"));
    if keys == [] {
      if providers.Some? { PutSame(j, "providers"); }
    } else {
      var next := WithProvider(j, jb, jf, keys[0]);
      WithProvidersIs(next, jb, jf, keys[1..]);
      if providers.Some? && next != j {
        var written := MergeProviders(AsRecord(Field(next, "providers")).value,
          AsRecord(Field(jb, "providers")), AsRecord(Field(jf, "providers")), keys[1..]);
        PutTwice(j, "providers", next.fields["providers"], written);
      }
    }
  }

  lemma WithRouteIs(j: Json, jf: Json, key: string, defaults: seq<string>)
    requires j.Obj?
    ensures var routes := AsRecord(Field(j, "routes"));
            WithRoute(j, jf, key, defaults) ==
            if routes.Some? then PutField(j, "routes", Some(MergeRoute(routes.value, AsRecord(Field(jf, "routes")), key, defaults)))
            else j
  {
    if AsRecord(Field(j, "routes")).Some? { PutSame(j, "routes"); }
  }

  lemma GatewayByTurns(jb: Json, jf: Json)
    requires jb.Obj? && jf.Obj?
    ensures var m1 := PreserveSecret(DeepMerge(jb, jf), Some(jb), Some(jf), SECRET);
            var m2 := WithProviders(m1, jb, jf, PROVIDERS);
            var r1 := WithRoute(m2, jf, "embedding", ["online_default", "batch_default"]);
            var r2 := WithRoute(r1, jf, "rerank", ["default"]);
            WithRoute(r2, jf, "llm", ["default", "fallback"]) == MergeGateway(jb, jf)
  {
    hide DeepMerge, PreserveSecret, MergeProviders, MergeRoute, WithProviders, WithRoute, PROVIDERS;
    var m1 := PreserveSecret(DeepMerge(jb, jf), Some(jb), Some(jf), SECRET);
    WithProvidersIs(m1, jb, jf, PROVIDERS);
    var m2 := WithProviders(m1, jb, jf, PROVIDERS);
    var formRoutes := AsRecord(Field(jf, "routes"));
    WithRouteIs(m2, jf, "embedding", ["online_default", "batch_default"]);
    var r1 := WithRoute(m2, jf, "embedding", ["online_default", "batch_default"]);
    WithRouteIs(r1, jf, "rerank", ["default"]);
    var r2 := WithRoute(r1, jf, "rerank", ["default"]);
    WithRouteIs(r2, jf, "llm", ["default", "fallback"]);
    if AsRecord(Field(m2, "routes")).Some? {
      var routes := Field(m2, "routes").value;
      var a := MergeRoute(routes, formRoutes, "embedding", ["online_default", "batch_default"]);
      var b := MergeRoute(a, formRoutes, "rerank", ["default"]);
      PutTwice(m2, "routes", a, b);
      PutTwice(m2, "routes", b, MergeRoute(b, formRoutes, "llm", ["default", "fallback"]));
    }
  }

  /** The merge and the section's own secret reference. */
  method MergeTop(
    base: Record, form: Record, ghost jb: Json, ghost jf: Json, ghost baseRest: set<Record>, ghost rest: set<Record>
  ) returns (merged: Record, ghost home: map<Record, Path>)
    requires Inputs(base, form, jb, jf, baseRest, rest)
    ensures fresh(home.Keys)
    ensures Whole(merged, PreserveSecret(DeepMerge(jb, jf), Some(jb), Some(jf), SECRET), home, form, rest)
    ensures NewBelow(merged, "providers", jb, jf, home)
  {
    hide Apart, DeepMerge;
    merged, home := DeepMergeRecords(base, form, jb, jf, [], baseRest, rest);
    ApartIsNewBelow(merged, "providers", jb, jf, home);
    KeepsSecretIff(Some(base), Some(form), Some(jb), Some(jf), baseRest, rest);
    if KeepsSecret(Some(base), Some(form)) {
      WriteTop(merged, SECRET, Lookup(base, SECRET), DeepMerge(jb, jf), Field(jb, SECRET), home, form, rest);
    }
  }

  method MergeProvidersInPlace(
    merged: Record, base: Record, form: Record, ghost j: Json, ghost jb: Json, ghost jf: Json,
    ghost home: map<Record, Path>, ghost baseRest: set<Record>, ghost rest: set<Record>
  )
    requires Whole(merged, j, home, form, rest) && NewBelow(merged, "providers", jb, jf, home)
    requires Inputs(base, form, jb, jf, baseRest, rest) && home.Keys !! baseRest
    modifies home.Keys`fields, rest`fields
    ensures Whole(merged, WithProviders(j, jb, jf, PROVIDERS), home, form, rest)
    ensures Inputs(base, form, jb, jf, baseRest, rest)
    ensures forall x :: x in rest ==> x.fields == old(x.fields)
  {
    hide WithProvider;
    ghost var now := j;
    var i := 0;
    while i < |PROVIDERS|
      invariant 0 <= i <= |PROVIDERS|
      invariant Whole(merged, now, home, form, rest) && NewBelow(merged, "providers", jb, jf, home)
      invariant Inputs(base, form, jb, jf, baseRest, rest)
      invariant forall x :: x in rest ==> x.fields == old(x.fields)
      invariant WithProviders(j, jb, jf, PROVIDERS) == WithProviders(now, jb, jf, PROVIDERS[i..])
    {
      assert PROVIDERS[i..][0] == PROVIDERS[i] && PROVIDERS[i..][1..] == PROVIDERS[i + 1..];
      MergeProviderInPlace(merged, base, form, PROVIDERS[i], now, jb, jf, home, baseRest, rest);
      now := WithProvider(now, jb, jf, PROVIDERS[i]);
      i := i + 1;
    }
    assert PROVIDERS[i..] == [];
  }

  function WithRoutes(j: Json, jf: Json): (r: Json)
    requires j.Obj?
    ensures r.Obj?
  {
    var r1 := WithRoute(j, jf, "embedding", ["online_default", "batch_default"]);
    var r2 := WithRoute(r1, jf, "rerank", ["default"]);
    WithRoute(r2, jf, "llm", ["default", "fallback"])
  }

  method MergeRoutesInPlace(
    merged: Record, form: Record, ghost j: Json, ghost jf: Json, ghost home: map<Record, Path>, ghost rest: set<Record>
  )
    requires Whole(merged, j, home, form, rest) && jf.Obj? && Holds(Ref(form), jf, rest)
    modifies home.Keys`fields, rest`fields
    ensures Whole(merged, WithRoutes(j, jf), home, form, rest)
    ensures forall x :: x in rest ==> x.fields == old(x.fields)
  {
    hide WithRoute;
    ghost var r1 := WithRoute(j, jf, "embedding", ["online_default", "batch_default"]);
    ghost var r2 := WithRoute(r1, jf, "rerank", ["default"]);
    MergeRouteInPlace(merged, form, "embedding", ["online_default", "batch_default"], j, jf, home, rest);
    assert unchanged(rest);
    MergeRouteInPlace(merged, form, "rerank", ["default"], r1, jf, home, rest);
    assert unchanged(rest);
    MergeRouteInPlace(merged, form, "llm", ["default", "fallback"], r2, jf, home, rest);
  }

  /** `mergeModelGatewayConfig` on records. */
  method MergeGatewayInPlace(
    base: Record, form: Record, ghost jb: Json, ghost jf: Json, ghost baseRest: set<Record>, ghost rest: set<Record>
  ) returns (merged: Record, ghost home: map<Record, Path>)
    requires Inputs(base, form, jb, jf, baseRest, rest)
    modifies rest`fields
    ensures fresh(home.Keys) && Whole(merged, MergeGateway(jb, jf), home, form, rest)
    ensures forall x :: x in rest ==> x.fields == old(x.fields)
  {
    hide DeepMerge, PreserveSecret, WithProviders, WithRoute, MergeGateway, NewBelow;
    merged, home := MergeTop(base, form, jb, jf, baseRest, rest);
    ghost var m1 := PreserveSecret(DeepMerge(jb, jf), Some(jb), Some(jf), SECRET);
    MergeProvidersInPlace(merged, base, form, m1, jb, jf, home, baseRest, rest);
    MergeRoutesInPlace(merged, form, WithProviders(m1, jb, jf, PROVIDERS), jf, home, rest);
    GatewayByTurns(jb, jf);
  }

  /** `merged[key] = form[key]`, and the like, on the section itself. */
  method CopyTop(
    merged: Record, form: Record, key: string, ghost j: Json, ghost jf: Json,
    ghost home: map<Record, Path>, ghost rest: set<Record>
  )
    requires Whole(merged, j, home, form, rest) && jf.Obj? && Holds(Ref(form), jf, rest)
    modifies merged`fields
    ensures Whole(merged, PutField(j, key, Field(jf, key)), home, form, rest)
  {
    HeldRecordIn(Some(form), Some(jf), key, rest);
    if key in jf.fields {
      OwnNodeFits(form.fields[key], jf.fields[key], [key], home, rest);
    }
    WriteTop(merged, key, Lookup(form, key), j, Field(jf, key), home, form, rest);
  }

  /** `mergeModelConfig` on records. */
  method MergeModelInPlace(
    base: Record, form: Record, ghost jb: Json, ghost jf: Json, ghost baseRest: set<Record>, ghost rest: set<Record>
  ) returns (merged: Record, ghost home: map<Record, Path>)
    requires Inputs(base, form, jb, jf, baseRest, rest)
    ensures fresh(home.Keys) && Whole(merged, MergeModel(jb, jf), home, form, rest)
  {
    hide DeepMerge, Apart;
    merged, home := DeepMergeRecords(base, form, jb, jf, [], baseRest, rest);
    ghost var j := DeepMerge(jb, jf);
    var i := 0;
    while i < |MODEL_KEYS|
      invariant 0 <= i <= |MODEL_KEYS|
      invariant Whole(merged, j, home, form, rest) && Holds(Ref(form), jf, rest)
      invariant MergeModel(jb, jf) == Overwrite(j, jf, MODEL_KEYS[i..])
    {
      assert MODEL_KEYS[i..][0] == MODEL_KEYS[i] && MODEL_KEYS[i..][1..] == MODEL_KEYS[i + 1..];
      CopyTop(merged, form, MODEL_KEYS[i], j, jf, home, rest);
      j := PutField(j, MODEL_KEYS[i], Field(jf, MODEL_KEYS[i]));
      i := i + 1;
    }
    assert MODEL_KEYS[i..] == [];
  }

  /** `mergeCacheConfig` on records. */
  method MergeCacheInPlace(
    base: Record, form: Record, ghost jb: Json, ghost jf: Json, ghost baseRest: set<Record>, ghost rest: set<Record>
  ) returns (merged: Record, ghost home: map<Record, Path>)
    requires Inputs(base, form, jb, jf, baseRest, rest)
    ensures fresh(home.Keys) && Whole(merged, MergeCache(jb, jf), home, form, rest)
  {
    hide DeepMerge, Apart;
    merged, home := DeepMergeRecords(base, form, jb, jf, [], baseRest, rest);
    HeldRecordIn(Some(form), Some(jf), "final_answer_enabled", rest);
    var ttl := if Lookup(form, "final_answer_enabled") == Some(Leaf(Bool(true))) then 300.0 else 0.0;
    WriteTop(merged, "final_answer_ttl_seconds", Some(Leaf(Num(ttl))), DeepMerge(jb, jf), Some(Num(ttl)), home, form, rest);
  }

  /**
   * `mergeConfigSectionValue` on records. Every record of the base and of the form keeps its fields,
   * although the form's records are shared with the result and written through it.
   */
  method MergeSectionInPlace(
    key: string, stored: Record, form: Record, ghost jb: Json, ghost jf: Json,
    ghost baseRest: set<Record>, ghost rest: set<Record>
  ) returns (merged: Record, ghost home: map<Record, Path>)
    requires Inputs(stored, form, jb, jf, baseRest, rest)
    modifies rest`fields
    ensures forall x :: x in baseRest + rest ==> x.fields == old(x.fields)
    ensures Holds(Ref(stored), jb, baseRest) && Holds(Ref(form), jf, rest)
    ensures fresh(home.Keys) && Holds(Ref(merged), MergeSection(key, jb, jf), home.Keys + rest)
  {
    hide DeepMerge, MergeGateway, MergeModel, MergeCache, Apart;
    var base;
    ghost var own;
    base, own := CloneRecord(stored, jb, [], baseRest);
    BuiltHolds(Ref(base), jb, [], own, None, {});
    assert own.Keys + {} == own.Keys;
    if key == "model_gateway" {
      merged, home := MergeGatewayInPlace(base, form, jb, jf, own.Keys, rest);
    } else if key == "model" {
      merged, home := MergeModelInPlace(base, form, jb, jf, own.Keys, rest);
    } else if key == "cache" {
      merged, home := MergeCacheInPlace(base, form, jb, jf, own.Keys, rest);
    } else {
      merged, home := DeepMergeRecords(base, form, jb, jf, [], own.Keys, rest);
    }
    BuiltHolds(Ref(merged), MergeSection(key, jb, jf), [], home, Some(Ref(form)), rest);
    assert unchanged(rest) && unchanged(baseRest);
  }
}
