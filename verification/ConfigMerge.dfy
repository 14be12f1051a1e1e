/**
 * Merging a printed form over a stored configuration section, on values. Records are maps; a key
 * bound to undefined is an absent key, which no reader of the bundle distinguishes. `ConfigHeap`
 * runs the same merges on mutable records.
 */
module ConfigMerge {
  import opened Util
  import opened JsonValue

  function AsRecord(value: Option<Json>): Option<Json> {
    if value.Some? && value.value.Obj? then value else None
  }

  function PutField(record: Json, key: string, value: Option<Json>): (r: Json)
    requires record.Obj?
    ensures r.Obj?
  {
    if value.Some? then Obj(record.fields[key := value.value]) else Obj(record.fields - {key})
  }

  /** `deepMerge`. */
  function DeepMerge(base: Json, patch: Json): (r: Json)
    requires base.Obj? && patch.Obj?
    ensures r.Obj? && r.fields.Keys == base.fields.Keys + patch.fields.Keys
    decreases patch, 0
  {
    Obj(map k | k in base.fields.Keys + patch.fields.Keys ::
      if k !in patch.fields then base.fields[k]
      else MergeValue(Field(base, k), patch.fields[k]))
  }

  function MergeValue(base: Option<Json>, patch: Json): Json
    decreases patch, 1
  {
    if base.Some? && base.value.Obj? && patch.Obj? then DeepMerge(base.value, patch) else patch
  }

  lemma MergedField(base: Json, patch: Json, k: string)
    requires base.Obj? && patch.Obj?
    ensures Field(DeepMerge(base, patch), k)
         == if k in patch.fields then Some(MergeValue(Field(base, k), patch.fields[k])) else Field(base, k)
  {
  }

  lemma MergedRecords(base: Json, patch: Json)
    requires base.Obj? && patch.Obj?
    ensures MergeValue(Some(base), patch) == DeepMerge(base, patch)
  {
  }

  // ----- what a merge holds, path by path

  function ValueAt(value: Json, path: seq<string>): Option<Json>
    decreases |path|
  {
    if path == [] then Some(value)
    else
      match Field(value, path[0])
      case None => None
      case Some(child) => ValueAt(child, path[1..])
  }

  lemma OneStep(value: Json, path: seq<string>)
    requires |path| == 1
    ensures ValueAt(value, path) == Field(value, path[0])
  {
    assert path[1..] == [];
    if Field(value, path[0]).Some? {
      assert ValueAt(Field(value, path[0]).value, path[1..]) == Some(Field(value, path[0]).value);
    }
  }

  predicate RecordAt(value: Json, path: seq<string>) {
    ValueAt(value, path).Some? && ValueAt(value, path).value.Obj?
  }

  /** Every record above the end of the path is a record on both sides. */
  predicate SharedAbove(base: Json, patch: Json, path: seq<string>)
    decreases |path|
  {
    path == [] ||
    (base.Obj? && patch.Obj? &&
     (|path| == 1 ||
      (path[0] in base.fields && path[0] in patch.fields &&
       SharedAbove(base.fields[path[0]], patch.fields[path[0]], path[1..]))))
  }

  /**
   * Along shared records: where the patch has no value the base survives; where it has one
   * the patch wins whole, unless both are records, which merge again.
   */
  lemma {:induction false} MergeAtSharedPath(base: Json, patch: Json, path: seq<string>)
    requires base.Obj? && patch.Obj? && path != [] && SharedAbove(base, patch, path)
    ensures var merged := ValueAt(DeepMerge(base, patch), path);
            && (ValueAt(patch, path).None? ==> merged == ValueAt(base, path))
            && (ValueAt(patch, path).Some? && !(RecordAt(base, path) && RecordAt(patch, path)) ==>
                  merged == ValueAt(patch, path))
            && (RecordAt(base, path) && RecordAt(patch, path) ==>
                  merged == Some(DeepMerge(ValueAt(base, path).value, ValueAt(patch, path).value)))
    decreases |path|
  {
    var k := path[0];
    MergedField(base, patch, k);
    if |path| == 1 {
      OneStep(base, path);
      OneStep(patch, path);
      OneStep(DeepMerge(base, patch), path);
      if RecordAt(base, path) && RecordAt(patch, path) { MergedRecords(base.fields[k], patch.fields[k]); }
    } else {
      var b, p := base.fields[k], patch.fields[k];
      assert SharedAbove(b, p, path[1..]);
      assert b.Obj? && p.Obj?;
      MergedRecords(b, p);
      MergeAtSharedPath(b, p, path[1..]);
    }
  }

  /** Below a path, a value is read from the value there: this extends the law to every path. */
  lemma {:induction false} ValueBelow(value: Json, path: seq<string>, below: seq<string>)
    ensures ValueAt(value, path + below)
         == if ValueAt(value, path).Some? then ValueAt(ValueAt(value, path).value, below) else None
    decreases |path|
  {
    if path == [] {
      assert path + below == below;
    } else {
      assert (path + below)[1..] == path[1..] + below;
      match Field(value, path[0])
      case None =>
      case Some(child) => ValueBelow(child, path[1..], below);
    }
  }

  /** A leaf of the patch is a leaf of the merge, whatever the base holds. */
  lemma {:induction false} PatchLeafWins(base: Json, patch: Json, path: seq<string>)
    requires base.Obj? && patch.Obj? && path != []
    requires ValueAt(patch, path).Some? && !ValueAt(patch, path).value.Obj?
    ensures ValueAt(DeepMerge(base, patch), path) == ValueAt(patch, path)
    decreases |path|
  {
    var k := path[0];
    var p := patch.fields[k];
    MergedField(base, patch, k);
    if |path| > 1 {
      assert p.Obj? by { assert Field(p, path[1..][0]).Some?; }
      if k in base.fields && base.fields[k].Obj? {
        PatchLeafWins(base.fields[k], p, path[1..]);
      }
    } else {
      assert path[1..] == [];
    }
  }

  lemma {:induction false} MergeWithItself(patch: Json)
    requires patch.Obj?
    ensures DeepMerge(patch, patch) == patch
    decreases patch
  {
    forall k | k in patch.fields && patch.fields[k].Obj?
      ensures DeepMerge(patch.fields[k], patch.fields[k]) == patch.fields[k]
    {
      MergeWithItself(patch.fields[k]);
    }
    assert DeepMerge(patch, patch).fields == patch.fields;
  }

  /** Merging the same patch again changes nothing. */
  lemma {:induction false} MergeIdempotent(base: Json, patch: Json)
    requires base.Obj? && patch.Obj?
    ensures DeepMerge(DeepMerge(base, patch), patch) == DeepMerge(base, patch)
    decreases patch
  {
    var once := DeepMerge(base, patch);
    forall k | k in patch.fields && patch.fields[k].Obj?
      ensures MergeValue(Field(once, k), patch.fields[k]) == once.fields[k]
    {
      var p := patch.fields[k];
      MergedField(base, patch, k);
      if k in base.fields && base.fields[k].Obj? {
        MergedRecords(base.fields[k], p);
        MergedRecords(DeepMerge(base.fields[k], p), p);
        MergeIdempotent(base.fields[k], p);
      } else {
        MergedRecords(p, p);
        MergeWithItself(p);
      }
    }
    forall k | k in once.fields ensures DeepMerge(once, patch).fields[k] == once.fields[k] {
      MergedField(base, patch, k);
      MergedField(once, patch, k);
    }
    assert DeepMerge(once, patch).fields == once.fields;
  }

  /** The base has nothing that the patch does not overwrite. */
  predicate Absorbed(base: Json, patch: Json)
    requires base.Obj? && patch.Obj?
    decreases patch
  {
    forall k :: k in base.fields ==>
      k in patch.fields
      && (base.fields[k].Obj? && patch.fields[k].Obj? ==> Absorbed(base.fields[k], patch.fields[k]))
  }

  lemma {:induction false} MergeIsPatchIff(base: Json, patch: Json)
    requires base.Obj? && patch.Obj?
    ensures DeepMerge(base, patch) == patch <==> Absorbed(base, patch)
    decreases patch
  {
    var merged := DeepMerge(base, patch);
    forall k | k in base.fields && k in patch.fields && base.fields[k].Obj? && patch.fields[k].Obj?
      ensures merged.fields[k] == patch.fields[k] <==> Absorbed(base.fields[k], patch.fields[k])
    {
      MergedField(base, patch, k);
      MergedRecords(base.fields[k], patch.fields[k]);
      MergeIsPatchIff(base.fields[k], patch.fields[k]);
    }
    forall k | k in merged.fields
      ensures k in patch.fields || k in base.fields
      ensures k in patch.fields && !(k in base.fields && base.fields[k].Obj? && patch.fields[k].Obj?) ==>
                merged.fields[k] == patch.fields[k]
    {
      MergedField(base, patch, k);
    }
    if Absorbed(base, patch) {
      assert merged.fields == patch.fields;
    }
  }

  /** Where the middle patch puts a non-record between two records, the last absorbs the first. */
  predicate Associates(a: Json, b: Json, c: Json)
    requires a.Obj? && b.Obj? && c.Obj?
    decreases c
  {
    forall k :: k in a.fields && k in b.fields && k in c.fields && a.fields[k].Obj? && c.fields[k].Obj? ==>
      if b.fields[k].Obj? then Associates(a.fields[k], b.fields[k], c.fields[k])
      else Absorbed(a.fields[k], c.fields[k])
  }

  lemma {:induction false} AssociatesAt(a: Json, b: Json, c: Json, k: string)
    requires a.Obj? && b.Obj? && c.Obj?
    ensures var split := k in a.fields && k in b.fields && k in c.fields && a.fields[k].Obj? && c.fields[k].Obj?;
            var left, right := Field(DeepMerge(DeepMerge(a, b), c), k), Field(DeepMerge(a, DeepMerge(b, c)), k);
            && (!split ==> left == right)
            && (split && b.fields[k].Obj? ==>
                  (left == right <==> Associates(a.fields[k], b.fields[k], c.fields[k])))
            && (split && !b.fields[k].Obj? ==> (left == right <==> Absorbed(a.fields[k], c.fields[k])))
    decreases c, 0
  {
    hide Associates, Absorbed;
    MergedField(a, b, k);
    MergedField(DeepMerge(a, b), c, k);
    MergedField(b, c, k);
    MergedField(a, DeepMerge(b, c), k);
    if k in a.fields && k in b.fields && k in c.fields && a.fields[k].Obj? && c.fields[k].Obj? {
      if b.fields[k].Obj? {
        MergeAssociativeIff(a.fields[k], b.fields[k], c.fields[k]);
      } else {
        MergeIsPatchIff(a.fields[k], c.fields[k]);
      }
    }
  }

  /** Two patches can be merged first, or applied one after the other, exactly under this condition. */
  lemma {:induction false} MergeAssociativeIff(a: Json, b: Json, c: Json)
    requires a.Obj? && b.Obj? && c.Obj?
    ensures DeepMerge(DeepMerge(a, b), c) == DeepMerge(a, DeepMerge(b, c)) <==> Associates(a, b, c)
    decreases c, 1
  {
    hide DeepMerge;
    var left, right := DeepMerge(DeepMerge(a, b), c), DeepMerge(a, DeepMerge(b, c));
    forall k
      ensures var split := k in a.fields && k in b.fields && k in c.fields && a.fields[k].Obj? && c.fields[k].Obj?;
              && (!split ==> Field(left, k) == Field(right, k))
              && (split && b.fields[k].Obj? ==>
                    (Field(left, k) == Field(right, k) <==> Associates(a.fields[k], b.fields[k], c.fields[k])))
              && (split && !b.fields[k].Obj? ==>
                    (Field(left, k) == Field(right, k) <==> Absorbed(a.fields[k], c.fields[k])))
    {
      AssociatesAt(a, b, c, k);
    }
    hide Absorbed;
    if Associates(a, b, c) {
      SameRecord(left, right);
    }
  }

  lemma SameRecord(a: Json, b: Json)
    requires a.Obj? && b.Obj? && forall k :: Field(a, k) == Field(b, k)
    ensures a == b
  {
    assert forall k :: k in a.fields <==> Field(a, k).Some?;
    assert forall k :: k in b.fields <==> Field(b, k).Some?;
    assert forall k :: k in a.fields ==> a.fields[k] == Field(a, k).value == b.fields[k];
    assert a.fields == b.fields;
  }

  /** The middle patch never puts a non-record between two records. */
  predicate NeverFlattens(a: Json, b: Json, c: Json)
    requires a.Obj? && b.Obj? && c.Obj?
    decreases c
  {
    forall k :: k in a.fields && k in b.fields && k in c.fields && a.fields[k].Obj? && c.fields[k].Obj? ==>
      b.fields[k].Obj? && NeverFlattens(a.fields[k], b.fields[k], c.fields[k])
  }

  lemma {:induction false} NeverFlatteningAssociates(a: Json, b: Json, c: Json)
    requires a.Obj? && b.Obj? && c.Obj? && NeverFlattens(a, b, c)
    ensures DeepMerge(DeepMerge(a, b), c) == DeepMerge(a, DeepMerge(b, c))
  {
    AssociatesIfNotFlattened(a, b, c);
    MergeAssociativeIff(a, b, c);
  }

  lemma {:induction false} AssociatesIfNotFlattened(a: Json, b: Json, c: Json)
    requires a.Obj? && b.Obj? && c.Obj? && NeverFlattens(a, b, c)
    ensures Associates(a, b, c)
    decreases c
  {
    forall k | k in a.fields && k in b.fields && k in c.fields && a.fields[k].Obj? && c.fields[k].Obj?
      ensures b.fields[k].Obj? && Associates(a.fields[k], b.fields[k], c.fields[k])
    {
      AssociatesIfNotFlattened(a.fields[k], b.fields[k], c.fields[k]);
    }
  }

  // ----- the sections with their own rules

  const SECRET := "auth_token_ref"
  const PROVIDERS := ["embedding", "rerank", "llm"]
  const MODEL_KEYS := ["embedding_model", "embedding_dimension", "rerank_model", "llm_model", "llm_fallback_model"]

  predicate NonBlank(value: Option<Json>) {
    value.Some? && value.value.Str? && Trim(value.value.s, JsSpace) != ""
  }

  predicate Unset(value: Option<Json>) {
    value == None || value == Some(Null) || value == Some(Str(""))
  }

  function FieldOf(record: Option<Json>, key: string): Option<Json> {
    if record.Some? then Field(record.value, key) else None
  }

  /** `preserveOptionalSecretRef`. */
  function PreserveSecret(target: Json, base: Option<Json>, patch: Option<Json>, key: string): (r: Json)
    requires target.Obj?
    ensures r.Obj?
  {
    if NonBlank(FieldOf(base, key)) && Unset(FieldOf(patch, key)) then PutField(target, key, FieldOf(base, key))
    else target
  }

  /** The fields in `keys` take the patch's values, one after another. */
  function Overwrite(target: Json, patch: Json, keys: seq<string>): (r: Json)
    requires target.Obj?
    ensures r.Obj?
    decreases |keys|
  {
    if keys == [] then target else Overwrite(PutField(target, keys[0], Field(patch, keys[0])), patch, keys[1..])
  }

  function MergeProvider(provider: Json, base: Option<Json>, form: Json): (r: Json)
    requires provider.Obj?
    ensures r.Obj?
  {
    PutField(PreserveSecret(provider, base, Some(form), SECRET), "base_url", Field(form, "base_url"))
  }

  function MergeProviders(providers: Json, base: Option<Json>, form: Option<Json>, keys: seq<string>): (r: Json)
    requires providers.Obj?
    ensures r.Obj?
    decreases |keys|
  {
    if keys == [] then providers
    else
      var key := keys[0];
      var provider, formProvider := AsRecord(Field(providers, key)), AsRecord(FieldOf(form, key));
      var next :=
        if provider.Some? && formProvider.Some? then
          PutField(providers, key, Some(MergeProvider(provider.value, AsRecord(FieldOf(base, key)), formProvider.value)))
        else providers;
      MergeProviders(next, base, form, keys[1..])
  }

  function MergeRoute(routes: Json, form: Option<Json>, key: string, defaults: seq<string>): (r: Json)
    requires routes.Obj?
    ensures r.Obj?
  {
    var route, formRoute := AsRecord(Field(routes, key)), AsRecord(FieldOf(form, key));
    if route.Some? && formRoute.Some? then
      PutField(routes, key, Some(Overwrite(route.value, formRoute.value, defaults)))
    else routes
  }

  function MergeRoutes(routes: Json, form: Option<Json>): (r: Json)
    requires routes.Obj?
    ensures r.Obj?
  {
    var r1 := MergeRoute(routes, form, "embedding", ["online_default", "batch_default"]);
    var r2 := MergeRoute(r1, form, "rerank", ["default"]);
    MergeRoute(r2, form, "llm", ["default", "fallback"])
  }

  /** `mergeModelGatewayConfig`. */
  function MergeGateway(base: Json, form: Json): (r: Json)
    requires base.Obj? && form.Obj?
    ensures r.Obj?
  {
    var m1 := PreserveSecret(DeepMerge(base, form), Some(base), Some(form), SECRET);
    var providers := AsRecord(Field(m1, "providers"));
    var m2 :=
      if providers.Some? then
        PutField(m1, "providers", Some(MergeProviders(providers.value,
          AsRecord(Field(base, "providers")), AsRecord(Field(form, "providers")), PROVIDERS)))
      else m1;
    var routes := AsRecord(Field(m2, "routes"));
    if routes.Some? then PutField(m2, "routes", Some(MergeRoutes(routes.value, AsRecord(Field(form, "routes")))))
    else m2
  }

  function MergeModel(base: Json, form: Json): (r: Json)
    requires base.Obj? && form.Obj?
    ensures r.Obj?
  {
    Overwrite(DeepMerge(base, form), form, MODEL_KEYS)
  }

  function MergeCache(base: Json, form: Json): (r: Json)
    requires base.Obj? && form.Obj?
    ensures r.Obj?
  {
    PutField(DeepMerge(base, form), "final_answer_ttl_seconds",
      Some(Num(if Field(form, "final_answer_enabled") == Some(Bool(true)) then 300.0 else 0.0)))
  }

  /** `mergeConfigSectionValue`. */
  function MergeSection(key: string, base: Json, form: Json): (r: Json)
    requires base.Obj? && form.Obj?
    ensures r.Obj?
  {
    if key == "model_gateway" then MergeGateway(base, form)
    else if key == "model" then MergeModel(base, form)
    else if key == "cache" then MergeCache(base, form)
    else DeepMerge(base, form)
  }
}
