/** What the section merges take over from any form, printed or not: whole fields, also where the form has none. */
module SectionLaws {
  import opened Util
  import opened JsonValue
  import opened ConfigMerge
  import opened ConfigSecrets

  /** Overwriting takes exactly the listed fields over, and drops those the patch does not have. */
  lemma {:induction false} OverwriteTakes(target: Json, patch: Json, keys: seq<string>, k: string)
    requires target.Obj?
    ensures Field(Overwrite(target, patch, keys), k) == if k in keys then Field(patch, k) else Field(target, k)
    decreases |keys|
  {
    if keys != [] {
      OverwriteTakes(PutField(target, keys[0], Field(patch, keys[0])), patch, keys[1..], k);
      assert keys == [keys[0]] + keys[1..];
    }
  }

  /** The five model fields are the form's, even where the form has none; everything else is merged. */
  lemma ModelTakes(base: Json, form: Json, k: string)
    requires base.Obj? && form.Obj?
    ensures Field(MergeSection("model", base, form), k)
         == if k in {"embedding_model", "embedding_dimension", "rerank_model", "llm_model", "llm_fallback_model"}
            then Field(form, k) else Field(DeepMerge(base, form), k)
  {
    hide DeepMerge, Overwrite;
    OverwriteTakes(DeepMerge(base, form), form, MODEL_KEYS, k);
  }

  /** The time to live follows the form's switch, whatever the form or the stored section say about it. */
  lemma CacheTakes(base: Json, form: Json, k: string)
    requires base.Obj? && form.Obj?
    ensures Field(MergeSection("cache", base, form), k)
         == if k != "final_answer_ttl_seconds" then Field(DeepMerge(base, form), k)
            else if Field(form, "final_answer_enabled") == Some(Bool(true)) then Some(Num(300.0)) else Some(Num(0.0))
  {
    hide DeepMerge;
  }

  lemma {:induction false} OtherProviders(providers: Json, base: Option<Json>, form: Option<Json>, keys: seq<string>, k: string)
    requires providers.Obj? && k !in keys
    ensures Field(MergeProviders(providers, base, form, keys), k) == Field(providers, k)
    decreases |keys|
  {
    hide MergeProvider;
    if keys != [] {
      var next := MergeProviders(providers, base, form, [keys[0]]);
      ProviderStep(providers, base, form, keys);
      assert keys == [keys[0]] + keys[1..];
      OtherProviders(next, base, form, keys[1..], k);
    }
  }

  lemma ProviderStep(providers: Json, base: Option<Json>, form: Option<Json>, keys: seq<string>)
    requires providers.Obj? && keys != []
    ensures var key := keys[0];
            var provider, typed := AsRecord(Field(providers, key)), AsRecord(FieldOf(form, key));
            var next := MergeProviders(providers, base, form, [key]);
            && next == (if provider.Some? && typed.Some? then
                          PutField(providers, key, Some(MergeProvider(provider.value, AsRecord(FieldOf(base, key)), typed.value)))
                        else providers)
            && MergeProviders(providers, base, form, keys) == MergeProviders(next, base, form, keys[1..])
  {
    hide MergeProvider;
    assert [keys[0]][1..] == [];
  }

  lemma {:induction false} ProviderTaken(providers: Json, base: Option<Json>, form: Option<Json>, keys: seq<string>, k: string)
    requires providers.Obj? && k in keys && AllDistinct(keys)
    requires AsRecord(Field(providers, k)).Some? && AsRecord(FieldOf(form, k)).Some?
    ensures Field(MergeProviders(providers, base, form, keys), k)
         == Some(MergeProvider(AsRecord(Field(providers, k)).value, AsRecord(FieldOf(base, k)), AsRecord(FieldOf(form, k)).value))
    decreases |keys|
  {
    hide MergeProvider, MergeProviders;
    var next := MergeProviders(providers, base, form, [keys[0]]);
    ProviderStep(providers, base, form, keys);
    assert keys == [keys[0]] + keys[1..];
    assert AllDistinct(keys[1..]);
    if k == keys[0] {
      assert k !in keys[1..];
      OtherProviders(next, base, form, keys[1..], k);
    } else {
      ProviderTaken(next, base, form, keys[1..], k);
    }
  }

  lemma ProviderTakesUrl(provider: Json, base: Option<Json>, form: Json)
    requires provider.Obj?
    ensures Field(MergeProvider(provider, base, form), "base_url") == Field(form, "base_url")
  {
  }

  /** The merged gateway's providers and routes, updated one after the other and apart from each other. */
  lemma GatewayParts(base: Json, form: Json)
    requires base.Obj? && form.Obj?
    ensures var gateway, merged := MergeGateway(base, form), DeepMerge(base, form);
            && (AsRecord(Field(merged, "providers")).Some? ==>
                  Field(gateway, "providers")
                  == Some(MergeProviders(Field(merged, "providers").value,
                            AsRecord(Field(base, "providers")), AsRecord(Field(form, "providers")), PROVIDERS)))
            && (AsRecord(Field(merged, "routes")).Some? ==>
                  Field(gateway, "routes") == Some(MergeRoutes(Field(merged, "routes").value, AsRecord(Field(form, "routes")))))
  {
    hide DeepMerge, MergeProviders, MergeRoutes, NonBlank, Unset;
  }

  lemma FormRecord(base: Json, form: Json, k: string)
    requires base.Obj? && form.Obj? && AsRecord(Field(form, k)).Some?
    ensures AsRecord(Field(DeepMerge(base, form), k)).Some?
    ensures forall key :: AsRecord(Field(Field(form, k).value, key)).Some? ==>
              AsRecord(Field(Field(DeepMerge(base, form), k).value, key)).Some?
  {
    MergedField(base, form, k);
    if AsRecord(Field(base, k)).Some? {
      MergedRecords(base.fields[k], form.fields[k]);
      forall key | AsRecord(Field(form.fields[k], key)).Some?
        ensures AsRecord(Field(Field(DeepMerge(base, form), k).value, key)).Some?
      {
        MergedField(base.fields[k], form.fields[k], key);
      }
    }
  }

  /** Every provider the form holds has the form's address, also if the form gives it none. */
  lemma GatewayTakesUrl(base: Json, form: Json, k: string)
    requires base.Obj? && form.Obj? && k in {"embedding", "rerank", "llm"} && RecordAt(form, ["providers", k])
    ensures ValueAt(MergeSection("model_gateway", base, form), ["providers", k, "base_url"])
         == ValueAt(form, ["providers", k, "base_url"])
  {
    hide DeepMerge, MergeProviders, MergeGateway, MergeProvider;
    var gateway := MergeGateway(base, form);
    TwoSteps(form, "providers", k);
    GatewayParts(base, form);
    FormRecord(base, form, "providers");
    DistinctProviders();
    assert PROVIDERS[0] == "embedding" && PROVIDERS[1] == "rerank" && PROVIDERS[2] == "llm";
    var merged := Field(DeepMerge(base, form), "providers").value;
    var stored, typed := AsRecord(Field(base, "providers")), AsRecord(Field(form, "providers"));
    ProviderTaken(merged, stored, typed, PROVIDERS, k);
    ProviderTakesUrl(Field(merged, k).value, AsRecord(FieldOf(stored, k)), Field(typed.value, k).value);
    ThreeSteps(gateway, "providers", k, "base_url");
    ThreeSteps(form, "providers", k, "base_url");
  }

  lemma TwoSteps(value: Json, a: string, b: string)
    ensures ValueAt(value, [a, b]) == FieldOf(Field(value, a), b)
  {
    assert [a, b][1..] == [b];
    if Field(value, a).Some? {
      OneStep(Field(value, a).value, [b]);
    }
  }

  lemma RouteTaken(routes: Json, form: Option<Json>, key: string, defaults: seq<string>, k: string)
    requires routes.Obj?
    ensures Field(MergeRoute(routes, form, key, defaults), k)
         == if k == key && AsRecord(Field(routes, k)).Some? && AsRecord(FieldOf(form, k)).Some?
            then Some(Overwrite(Field(routes, k).value, FieldOf(form, k).value, defaults)) else Field(routes, k)
  {
    hide Overwrite;
  }

  /** Every route the form holds names the form's models, also where the form names none. */
  lemma GatewayTakesModels(base: Json, form: Json, route: string, k: string)
    requires base.Obj? && form.Obj? && RecordAt(form, ["routes", route])
    requires (route == "embedding" && k in {"online_default", "batch_default"})
             || (route == "rerank" && k == "default") || (route == "llm" && k in {"default", "fallback"})
    ensures ValueAt(MergeSection("model_gateway", base, form), ["routes", route, k]) == ValueAt(form, ["routes", route, k])
  {
    hide DeepMerge, MergeGateway, MergeRoute, Overwrite;
    var gateway := MergeGateway(base, form);
    TwoSteps(form, "routes", route);
    GatewayParts(base, form);
    FormRecord(base, form, "routes");
    var merged := Field(DeepMerge(base, form), "routes").value;
    var typed := AsRecord(Field(form, "routes"));
    RouteKeys(merged, typed, route, k);
    ThreeSteps(gateway, "routes", route, k);
    ThreeSteps(form, "routes", route, k);
  }

  lemma RouteKeys(routes: Json, form: Option<Json>, route: string, k: string)
    requires routes.Obj? && AsRecord(Field(routes, route)).Some? && AsRecord(FieldOf(form, route)).Some?
    requires (route == "embedding" && k in {"online_default", "batch_default"})
             || (route == "rerank" && k == "default") || (route == "llm" && k in {"default", "fallback"})
    ensures FieldOf(Field(MergeRoutes(routes, form), route), k) == FieldOf(FieldOf(form, route), k)
  {
    hide MergeRoute, Overwrite;
    var r1 := MergeRoute(routes, form, "embedding", ["online_default", "batch_default"]);
    var r2 := MergeRoute(r1, form, "rerank", ["default"]);
    RouteTaken(routes, form, "embedding", ["online_default", "batch_default"], route);
    RouteTaken(r1, form, "rerank", ["default"], route);
    RouteTaken(r2, form, "llm", ["default", "fallback"], route);
    var before, typed := Field(routes, route).value, FieldOf(form, route).value;
    OverwriteTakes(before, typed, ["online_default", "batch_default"], k);
    OverwriteTakes(before, typed, ["default"], k);
    OverwriteTakes(before, typed, ["default", "fallback"], k);
  }
}
