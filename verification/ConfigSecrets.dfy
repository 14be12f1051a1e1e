/**
 * The gateway merge on the forms the client prints: it is a plain merge of the form with
 * the stored secret references put back.
 */
module ConfigSecrets {
  import opened Util
  import opened JsonValue
  import opened ConfigMerge

  predicate Leaf(value: Option<Json>) {
    value.Some? && !value.value.Obj?
  }

  predicate ProviderForm(provider: Option<Json>) {
    provider.Some? && provider.value.Obj?
    && Field(provider.value, SECRET) == Some(Null) && Leaf(Field(provider.value, "base_url"))
  }

  predicate RouteForm(route: Option<Json>, keys: seq<string>) {
    route.Some? && route.value.Obj? && forall k :: k in keys ==> Leaf(Field(route.value, k))
  }

  /** The shape of the printed `model_gateway` section: secrets are printed as null. */
  predicate GatewayForm(form: Json) {
    && form.Obj? && Field(form, SECRET) == Some(Null)
    && RecordAt(form, ["providers"]) && RecordAt(form, ["routes"])
    && (forall k :: k in PROVIDERS ==> ProviderForm(FieldOf(Field(form, "providers"), k)))
    && RouteForm(FieldOf(Field(form, "routes"), "embedding"), ["online_default", "batch_default"])
    && RouteForm(FieldOf(Field(form, "routes"), "rerank"), ["default"])
    && RouteForm(FieldOf(Field(form, "routes"), "llm"), ["default", "fallback"])
  }

  lemma SectionRecords(form: Json)
    requires GatewayForm(form)
    ensures Field(form, "providers").Some? && Field(form, "providers").value.Obj?
    ensures Field(form, "routes").Some? && Field(form, "routes").value.Obj?
  {
    OneStep(form, ["providers"]);
    OneStep(form, ["routes"]);
  }

  function KeptProviders(base: Option<Json>, providers: Json): (r: Json)
    requires providers.Obj?
    ensures r.Obj?
  {
    Obj(map k | k in providers.fields ::
      if k in PROVIDERS && providers.fields[k].Obj? then
        PreserveSecret(providers.fields[k], AsRecord(FieldOf(base, k)), Some(providers.fields[k]), SECRET)
      else providers.fields[k])
  }

  /** The form with the stored secret references put back. */
  function Keep(base: Json, form: Json): (r: Json)
    requires base.Obj? && form.Obj?
    ensures r.Obj?
  {
    var kept := PreserveSecret(form, Some(base), Some(form), SECRET);
    var providers := AsRecord(Field(form, "providers"));
    if providers.Some? then
      PutField(kept, "providers", Some(KeptProviders(AsRecord(Field(base, "providers")), providers.value)))
    else kept
  }

  lemma PreserveThenMerge(base: Json, form: Json)
    requires base.Obj? && form.Obj?
    ensures PreserveSecret(DeepMerge(base, form), Some(base), Some(form), SECRET)
         == DeepMerge(base, PreserveSecret(form, Some(base), Some(form), SECRET))
  {
    hide DeepMerge, NonBlank;
    var kept := PreserveSecret(form, Some(base), Some(form), SECRET);
    var left := PreserveSecret(DeepMerge(base, form), Some(base), Some(form), SECRET);
    var right := DeepMerge(base, kept);
    forall k ensures Field(left, k) == Field(right, k) {
      MergedField(base, form, k);
      MergedField(base, kept, k);
      if NonBlank(Field(base, SECRET)) {
        StoredSecretStays(Field(base, SECRET));
      }
    }
    SameRecord(left, right);
  }

  lemma StoredSecretStays(stored: Option<Json>)
    requires NonBlank(stored)
    ensures stored.Some? && Some(MergeValue(stored, stored.value)) == stored
  {
  }

  lemma SamePut(record: Json, key: string, value: Option<Json>)
    requires record.Obj? && value.Some? && Field(record, key) == value
    ensures PutField(record, key, value) == record
  {
    assert record.fields[key := value.value] == record.fields;
  }

  /** Updating a merged provider is merging the provider with its secret put back. */
  lemma ProviderIsMerge(base: Option<Json>, form: Json)
    requires ProviderForm(Some(form))
    ensures MergeProvider(MergeValue(AsRecord(base), form), AsRecord(base), form)
         == MergeValue(AsRecord(base), PreserveSecret(form, AsRecord(base), Some(form), SECRET))
  {
    if AsRecord(base).Some? {
      PreserveThenMerge(base.value, form);
      MergedRecords(base.value, form);
      var kept := PreserveSecret(form, base, Some(form), SECRET);
      MergedRecords(base.value, kept);
      MergedField(base.value, kept, "base_url");
      SamePut(DeepMerge(base.value, kept), "base_url", Field(form, "base_url"));
    } else {
      SamePut(form, "base_url", Field(form, "base_url"));
    }
  }

  predicate AllDistinct(keys: seq<string>) {
    forall i, j :: 0 <= i < j < |keys| ==> keys[i] != keys[j]
  }

  lemma {:induction false} ProvidersUpdated(providers: Json, base: Option<Json>, form: Json, keys: seq<string>)
    requires providers.Obj? && form.Obj? && AllDistinct(keys)
    requires forall k :: k in keys ==> RecordField(providers, k) && RecordField(form, k)
    ensures var updated := MergeProviders(providers, base, Some(form), keys);
            && updated.fields.Keys == providers.fields.Keys
            && forall k :: k in providers.fields ==>
                 updated.fields[k] ==
                   if k in keys && RecordField(providers, k) && RecordField(form, k)
                   then MergeProvider(providers.fields[k], AsRecord(FieldOf(base, k)), form.fields[k])
                   else providers.fields[k]
    decreases |keys|
  {
    if keys != [] {
      var key := keys[0];
      assert key in keys && RecordField(providers, key) && RecordField(form, key);
      var next := PutField(providers, key,
        Some(MergeProvider(providers.fields[key], AsRecord(FieldOf(base, key)), form.fields[key])));
      assert key !in keys[1..];
      forall k | k in keys[1..] ensures RecordField(next, k) && RecordField(form, k) {
        assert k in keys;
      }
      ProvidersUpdated(next, base, form, keys[1..]);
      assert keys == [key] + keys[1..];
    }
  }

  predicate RecordField(record: Json, k: string) {
    record.Obj? && k in record.fields && record.fields[k].Obj?
  }

  lemma DistinctProviders()
    ensures AllDistinct(PROVIDERS)
  {
    assert PROVIDERS[0] == "embedding" && PROVIDERS[1] == "rerank" && PROVIDERS[2] == "llm";
    assert "embedding" != "rerank" && "rerank" != "llm" && "embedding" != "llm";
  }

  lemma AsRecordTwice(value: Option<Json>, form: Json)
    ensures MergeValue(AsRecord(value), form) == MergeValue(value, form)
  {
  }

  lemma ProvidersAreMerge(base: Option<Json>, form: Json)
    requires form.Obj? && forall k :: k in PROVIDERS ==> ProviderForm(Field(form, k))
    ensures var merged := MergeValue(base, form);
            merged.Obj? && MergeProviders(merged, AsRecord(base), Some(form), PROVIDERS)
                           == MergeValue(base, KeptProviders(AsRecord(base), form))
  {
    hide MergeProviders, PreserveSecret, MergeProvider;
    var merged := MergeValue(base, form);
    var kept := KeptProviders(AsRecord(base), form);
    DistinctProviders();
    if AsRecord(base).Some? {
      MergedRecords(base.value, form);
      MergedRecords(base.value, kept);
    }
    forall k | k in PROVIDERS ensures RecordField(merged, k) && RecordField(form, k) {
      assert ProviderForm(Field(form, k));
      if AsRecord(base).Some? { MergedField(base.value, form, k); }
    }
    ProvidersUpdated(merged, AsRecord(base), form, PROVIDERS);
    var left := MergeProviders(merged, AsRecord(base), Some(form), PROVIDERS);
    var right := MergeValue(base, kept);
    assert left.fields.Keys == right.fields.Keys;
    forall k | k in right.fields ensures left.fields[k] == right.fields[k] {
      var child := FieldOf(AsRecord(base), k);
      if AsRecord(base).Some? {
        MergedField(base.value, form, k);
        MergedField(base.value, kept, k);
      }
      if k in PROVIDERS {
        assert ProviderForm(Field(form, k));
        ProviderIsMerge(child, form.fields[k]);
        AsRecordTwice(child, form.fields[k]);
        AsRecordTwice(child, kept.fields[k]);
        assert merged.fields[k] == MergeValue(child, form.fields[k]);
        assert right.fields[k] == MergeValue(child, kept.fields[k]);
      }
    }
    assert left.fields == right.fields;
  }

  lemma {:induction false} OverwriteSame(target: Json, patch: Json, keys: seq<string>)
    requires target.Obj? && forall k :: k in keys ==> Field(patch, k).Some? && Field(target, k) == Field(patch, k)
    ensures Overwrite(target, patch, keys) == target
    decreases |keys|
  {
    if keys != [] {
      assert keys[0] in keys;
      SamePut(target, keys[0], Field(patch, keys[0]));
      OverwriteSame(target, patch, keys[1..]);
    }
  }

  lemma RouteSame(base: Option<Json>, form: Json, key: string, keys: seq<string>)
    requires form.Obj? && RouteForm(Field(form, key), keys)
    ensures var routes := MergeValue(base, form);
            routes.Obj? && MergeRoute(routes, Some(form), key, keys) == routes
  {
    var routes := MergeValue(base, form);
    var formRoute := form.fields[key];
    if AsRecord(base).Some? {
      MergedRecords(base.value, form);
      MergedField(base.value, form, key);
    }
    var route := routes.fields[key];
    forall k | k in keys ensures Field(formRoute, k).Some? && Field(route, k) == Field(formRoute, k) {
      assert Leaf(Field(formRoute, k));
      if AsRecord(base).Some? && RecordField(base.value, key) {
        MergedRecords(base.value.fields[key], formRoute);
        MergedField(base.value.fields[key], formRoute, k);
      }
    }
    OverwriteSame(route, formRoute, keys);
    SamePut(routes, key, Some(route));
  }

  lemma RoutesSame(base: Option<Json>, form: Json)
    requires form.Obj?
    requires RouteForm(Field(form, "embedding"), ["online_default", "batch_default"])
    requires RouteForm(Field(form, "rerank"), ["default"])
    requires RouteForm(Field(form, "llm"), ["default", "fallback"])
    ensures var routes := MergeValue(base, form);
            routes.Obj? && MergeRoutes(routes, Some(form)) == routes
  {
    hide MergeRoute;
    RouteSame(base, form, "embedding", ["online_default", "batch_default"]);
    RouteSame(base, form, "rerank", ["default"]);
    RouteSame(base, form, "llm", ["default", "fallback"]);
  }

  /** Replacing a merged field is merging the replaced patch. */
  lemma MergePut(base: Json, form: Json, key: string, value: Json)
    requires base.Obj? && form.Obj?
    ensures PutField(DeepMerge(base, form), key, Some(MergeValue(Field(base, key), value)))
         == DeepMerge(base, PutField(form, key, Some(value)))
  {
    hide MergeValue;
    var put := PutField(form, key, Some(value));
    var left := PutField(DeepMerge(base, form), key, Some(MergeValue(Field(base, key), value)));
    var right := DeepMerge(base, put);
    forall k | k in right.fields ensures k in left.fields && left.fields[k] == right.fields[k] {
      MergedField(base, form, k);
      MergedField(base, put, k);
    }
    assert left.fields == right.fields;
  }

  /** On a printed form the whole gateway merge is one plain merge of the kept form. */
  lemma GatewayIsMerge(base: Json, form: Json)
    requires base.Obj? && GatewayForm(form)
    ensures MergeGateway(base, form) == DeepMerge(base, Keep(base, form))
  {
    hide MergeProviders, KeptProviders, MergeRoutes, DeepMerge, MergeValue, ProviderForm, RouteForm, PreserveSecret, RecordAt;
    SectionRecords(form);
    var baseProviders, baseRoutes := Field(base, "providers"), Field(base, "routes");
    var providers, routes := form.fields["providers"], form.fields["routes"];
    PreserveThenMerge(base, form);
    var f1 := PreserveSecret(form, Some(base), Some(form), SECRET);
    var m1 := DeepMerge(base, f1);
    PreservedElsewhere(base, form, "providers");
    PreservedElsewhere(base, form, "routes");
    MergedField(base, f1, "providers");
    assert Field(m1, "providers") == Some(MergeValue(baseProviders, providers));
    ProvidersAreMerge(baseProviders, providers);
    var keptProviders := KeptProviders(AsRecord(baseProviders), providers);
    var kept := Keep(base, form);
    assert kept == PutField(f1, "providers", Some(keptProviders));
    MergePut(base, f1, "providers", keptProviders);
    var m2 := PutField(m1, "providers", Some(MergeValue(baseProviders, keptProviders)));
    assert m2 == DeepMerge(base, kept);
    MergedField(base, kept, "routes");
    assert Field(m2, "routes") == Some(MergeValue(baseRoutes, routes));
    RoutesSame(baseRoutes, routes);
    SamePut(m2, "routes", Field(m2, "routes"));
  }

  lemma PreservedElsewhere(base: Json, form: Json, k: string)
    requires base.Obj? && form.Obj? && k != SECRET
    ensures Field(PreserveSecret(form, Some(base), Some(form), SECRET), k) == Field(form, k)
  {
  }

  /** A stored reference: a text that is not all white space. */
  ghost predicate HoldsText(value: Option<Json>) {
    value.Some? && value.value.Str? && exists i :: 0 <= i < |value.value.s| && !JsSpace(value.value.s[i])
  }

  /** A stored reference stays as it is; anything else gives way to the printed null. */
  ghost function SecretAfter(stored: Option<Json>): (r: Option<Json>)
    ensures r.Some? && !r.value.Obj?
  {
    if HoldsText(stored) then stored else Some(Null)
  }

  lemma NonBlankIsText(value: Option<Json>)
    ensures NonBlank(value) <==> HoldsText(value)
  {
    if value.Some? && value.value.Str? {
      TrimsToNothing(value.value.s, JsSpace);
    }
  }

  lemma PreservedSecret(form: Json, base: Option<Json>)
    requires form.Obj? && Field(form, SECRET) == Some(Null)
    ensures Field(PreserveSecret(form, base, Some(form), SECRET), SECRET) == SecretAfter(FieldOf(base, SECRET))
  {
    NonBlankIsText(FieldOf(base, SECRET));
  }

  /** Exactly the stored references are printed back into the kept form. */
  lemma KeptSecrets(base: Json, form: Json)
    requires base.Obj? && GatewayForm(form)
    ensures ValueAt(Keep(base, form), [SECRET]) == SecretAfter(Field(base, SECRET))
    ensures forall k :: k in PROVIDERS ==>
              ValueAt(Keep(base, form), ["providers", k, SECRET]) == SecretAfter(ValueAt(base, ["providers", k, SECRET]))
  {
    hide NonBlank, HoldsText, SecretAfter, PreserveSecret;
    SectionRecords(form);
    var kept := Keep(base, form);
    OneStep(kept, [SECRET]);
    PreservedSecret(form, Some(base));
    forall k | k in PROVIDERS
      ensures ValueAt(kept, ["providers", k, SECRET]) == SecretAfter(ValueAt(base, ["providers", k, SECRET]))
    {
      ThreeSteps(base, "providers", k, SECRET);
      ThreeSteps(kept, "providers", k, SECRET);
      assert ProviderForm(FieldOf(Field(form, "providers"), k));
      PreservedSecret(form.fields["providers"].fields[k], AsRecord(FieldOf(AsRecord(Field(base, "providers")), k)));
      ProviderField(base, k);
    }
  }

  lemma ProviderField(base: Json, k: string)
    ensures FieldOf(AsRecord(FieldOf(AsRecord(Field(base, "providers")), k)), SECRET)
         == FieldOf(FieldOf(Field(base, "providers"), k), SECRET)
  {
  }

  lemma ThreeSteps(value: Json, a: string, b: string, c: string)
    ensures ValueAt(value, [a, b, c]) == FieldOf(FieldOf(Field(value, a), b), c)
  {
    assert [a, b, c][1..] == [b, c];
    assert [b, c][1..] == [c];
    if Field(value, a).Some? {
      var v := Field(value, a).value;
      assert ValueAt(value, [a, b, c]) == ValueAt(v, [b, c]);
      if Field(v, b).Some? {
        OneStep(Field(v, b).value, [c]);
        assert ValueAt(v, [b, c]) == ValueAt(Field(v, b).value, [c]);
      }
    }
  }

  /** A merge with a printed form keeps exactly the stored references; every other secret becomes the printed null. */
  lemma GatewayKeepsSecrets(base: Json, form: Json)
    requires base.Obj? && GatewayForm(form)
    ensures ValueAt(MergeGateway(base, form), [SECRET]) == SecretAfter(Field(base, SECRET))
    ensures forall k :: k in PROVIDERS ==>
              ValueAt(MergeGateway(base, form), ["providers", k, SECRET]) == SecretAfter(ValueAt(base, ["providers", k, SECRET]))
  {
    hide MergeGateway, Keep, DeepMerge, HoldsText;
    GatewayIsMerge(base, form);
    KeptSecrets(base, form);
    var kept := Keep(base, form);
    PatchLeafWins(base, kept, [SECRET]);
    forall k | k in PROVIDERS
      ensures ValueAt(MergeGateway(base, form), ["providers", k, SECRET]) == SecretAfter(ValueAt(base, ["providers", k, SECRET]))
    {
      PatchLeafWins(base, kept, ["providers", k, SECRET]);
    }
  }

  /** Any form with a secret of its own overrides the stored one; only an unset field lets a stored reference stay. */
  lemma TypedSecretWins(base: Json, form: Json)
    requires base.Obj? && form.Obj?
    ensures var typed, r := Field(form, SECRET), Field(MergeGateway(base, form), SECRET);
            && (typed.Some? && typed.value.Str? && typed.value.s != "" ==> r == typed)
            && (typed in {None, Some(Null), Some(Str(""))} && HoldsText(Field(base, SECRET)) ==> r == Field(base, SECRET))
  {
    hide DeepMerge, MergeProviders, MergeRoutes, HoldsText, MergeValue;
    NonBlankIsText(Field(base, SECRET));
    MergedField(base, form, SECRET);
    if Field(form, SECRET).Some? && !Field(form, SECRET).value.Obj? {
      LeafMerge(Field(base, SECRET), Field(form, SECRET).value);
    }
  }

  lemma KeptProvidersSettle(base: Option<Json>, providers: Json)
    requires providers.Obj? && forall k :: k in PROVIDERS ==> ProviderForm(Field(providers, k))
    ensures var kept := KeptProviders(AsRecord(base), providers);
            KeptProviders(AsRecord(Some(MergeValue(base, kept))), providers) == kept
  {
    hide PreserveSecret;
    var kept := KeptProviders(AsRecord(base), providers);
    var merged := MergeValue(base, kept);
    if AsRecord(base).Some? { MergedRecords(base.value, kept); }
    var again := KeptProviders(AsRecord(Some(merged)), providers);
    forall k | k in providers.fields ensures again.fields[k] == kept.fields[k] {
      if k in PROVIDERS {
        assert ProviderForm(Field(providers, k));
        var child := FieldOf(AsRecord(base), k);
        ProviderSettles(child, providers.fields[k]);
        if AsRecord(base).Some? { MergedField(base.value, kept, k); }
        AsRecordTwice(child, kept.fields[k]);
      }
    }
    assert again.fields == kept.fields;
  }

  lemma KeepSettles(base: Json, form: Json)
    requires base.Obj? && GatewayForm(form)
    ensures Keep(DeepMerge(base, Keep(base, form)), form) == Keep(base, form)
  {
    hide KeptProviders, MergeValue, DeepMerge, ProviderForm, RouteForm, RecordAt;
    SectionRecords(form);
    var kept := Keep(base, form);
    var merged := DeepMerge(base, kept);
    var providers := form.fields["providers"];
    var keptProviders := KeptProviders(AsRecord(Field(base, "providers")), providers);
    KeptProvidersSettle(Field(base, "providers"), providers);
    MergedField(base, kept, "providers");
    assert Field(merged, "providers") == Some(MergeValue(Field(base, "providers"), keptProviders));
    MergedField(base, kept, SECRET);
    LeafMerge(Field(base, SECRET), kept.fields[SECRET]);
  }

  lemma LeafMerge(base: Option<Json>, leaf: Json)
    requires !leaf.Obj?
    ensures MergeValue(base, leaf) == leaf
  {
  }

  lemma ProviderSettles(base: Option<Json>, form: Json)
    requires ProviderForm(Some(form))
    ensures var kept := PreserveSecret(form, AsRecord(base), Some(form), SECRET);
            var merged := MergeValue(AsRecord(base), kept);
            merged.Obj? && PreserveSecret(form, Some(merged), Some(form), SECRET) == kept
  {
    var kept := PreserveSecret(form, AsRecord(base), Some(form), SECRET);
    if AsRecord(base).Some? {
      MergedRecords(base.value, kept);
      MergedField(base.value, kept, SECRET);
    }
  }

  /** Saving the same form twice is saving it once. */
  lemma GatewayIdempotent(base: Json, form: Json)
    requires base.Obj? && GatewayForm(form)
    ensures MergeGateway(MergeGateway(base, form), form) == MergeGateway(base, form)
  {
    hide MergeGateway, Keep, DeepMerge;
    GatewayIsMerge(base, form);
    var once := MergeGateway(base, form);
    GatewayIsMerge(once, form);
    KeepSettles(base, form);
    MergeIdempotent(base, Keep(base, form));
  }
}
