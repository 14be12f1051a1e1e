/**
 * Building the edited configuration bundle over a stored one, and reading it back into the
 * form: printing, merging and hydrating are inverse on every editable field.
 */
module ConfigBundle {
  import opened Util
  import opened JsonValue
  import opened ConfigMerge
  import opened ConfigSecrets
  import opened ConfigForm
  import opened ConfigTable

  const GLOBAL_SCOPE := Obj(map["type" := Str("global"), "id" := Str("global")])

  /** `asRecord(config[key]) ?? {}`. */
  function SectionBase(config: Json, key: string): (r: Json)
    ensures r.Obj?
  {
    var stored := AsRecord(Field(config, key));
    if stored.Some? then stored.value else Obj(map[])
  }

  predicate PrintsRecords(sections: seq<Section>) {
    forall s :: s in sections ==> s.template.Node?
  }

  /** What a section's stored value and the form make of it. */
  function SectionValue(config: Json, form: Form, s: Section): (r: Json)
    requires s.template.Node?
    ensures r.Obj?
  {
    MergeSection(s.key, SectionBase(config, s.key), Print(s.template, form))
  }

  function MergeInto(config: Json, form: Form, s: Section): (r: Json)
    requires config.Obj? && s.template.Node?
    ensures r.Obj?
  {
    PutField(config, s.key, Some(SectionValue(config, form, s)))
  }

  function MergeSections(config: Json, form: Form, sections: seq<Section>): (r: Json)
    requires config.Obj? && PrintsRecords(sections)
    ensures r.Obj?
    decreases |sections|
  {
    if sections == [] then config
    else
      assert sections[0] in sections;
      MergeSections(MergeInto(config, form, sections[0]), form, sections[1..])
  }

  function Finish(config: Json, version: nat): (r: Json)
    requires config.Obj?
    ensures r.Obj?
  {
    var c1 := PutField(config, "schema_version", Some(Coerce(AsNumber, Field(config, "schema_version"), Num(1.0))));
    var c2 := PutField(c1, "config_version", Some(Num(version as real)));
    if AsRecord(Field(c2, "scope")).Some? then c2 else PutField(c2, "scope", Some(GLOBAL_SCOPE))
  }

  lemma TemplatesAreNodes()
    ensures SECRET_PROVIDER.Node? && REDIS.Node? && STORAGE.Node? && VECTOR_STORE.Node?
    ensures KEYWORD_SEARCH.Node? && MODEL_GATEWAY.Node? && MODEL.Node? && AUTH.Node?
    ensures RETRIEVAL.Node? && CHUNK.Node? && IMPORT.Node? && CACHE.Node?
    ensures RATE_LIMIT.Node? && AUDIT.Node? && LLM.Node? && PERMISSION.Node?
    ensures SECURITY.Node? && TIMEOUT.Node? && DEGRADE.Node? && OBSERVABILITY.Node?
  {
  }

  lemma SectionsPrintRecords()
    ensures PrintsRecords(SECTIONS)
  {
    hide SECRET_PROVIDER, SECRET_PROVIDER_FIELDS, SECRET_PROVIDER_READS, REDIS, REDIS_FIELDS, REDIS_READS;
    hide STORAGE, STORAGE_FIELDS, STORAGE_READS, VECTOR_STORE, VECTOR_STORE_FIELDS, VECTOR_STORE_READS;
    hide KEYWORD_SEARCH, KEYWORD_SEARCH_FIELDS, KEYWORD_SEARCH_READS, MODEL_GATEWAY, MODEL_GATEWAY_FIELDS, MODEL_GATEWAY_READS;
    hide MODEL, MODEL_FIELDS, MODEL_READS, AUTH, AUTH_FIELDS, AUTH_READS;
    hide RETRIEVAL, RETRIEVAL_FIELDS, RETRIEVAL_READS, CHUNK, CHUNK_FIELDS, CHUNK_READS;
    hide IMPORT, IMPORT_FIELDS, IMPORT_READS, CACHE, CACHE_FIELDS, CACHE_READS;
    hide RATE_LIMIT, RATE_LIMIT_FIELDS, RATE_LIMIT_READS, AUDIT, AUDIT_FIELDS, AUDIT_READS;
    hide LLM, LLM_FIELDS, LLM_READS, PERMISSION, PERMISSION_FIELDS, PERMISSION_READS;
    hide SECURITY, SECURITY_FIELDS, SECURITY_READS, TIMEOUT, TIMEOUT_FIELDS, TIMEOUT_READS;
    hide DEGRADE, DEGRADE_FIELDS, DEGRADE_READS, OBSERVABILITY, OBSERVABILITY_FIELDS, OBSERVABILITY_READS;
    TemplatesAreNodes();
  }

  /** `buildEditedActiveConfigBundle` over the stored bundle of the version being edited. */
  function Build(stored: Json, form: Form, version: nat): (r: Json)
    requires stored.Obj?
    ensures r.Obj?
  {
    SectionsPrintRecords();
    Finish(MergeSections(stored, form, SECTIONS), version)
  }

  /** The builder as the source runs it. */
  method BuildLoop(stored: Json, form: Form, version: nat) returns (config: Json)
    requires stored.Obj?
    ensures config == Build(stored, form, version)
  {
    hide MergeInto, Finish, SECTIONS;
    SectionsPrintRecords();
    config := stored;
    var i := 0;
    while i < |SECTIONS|
      invariant 0 <= i <= |SECTIONS| && config.Obj? && PrintsRecords(SECTIONS[i..])
      invariant MergeSections(stored, form, SECTIONS) == MergeSections(config, form, SECTIONS[i..])
    {
      assert SECTIONS[i..][0] == SECTIONS[i] && SECTIONS[i..][1..] == SECTIONS[i + 1..];
      assert SECTIONS[i] in SECTIONS[i..];
      config := MergeInto(config, form, SECTIONS[i]);
      i := i + 1;
    }
    assert SECTIONS[i..] == [];
    config := Finish(config, version);
  }

  // ----- each section of the result

  lemma {:induction false} UntouchedSection(config: Json, form: Form, sections: seq<Section>, key: string)
    requires config.Obj? && PrintsRecords(sections) && forall s :: s in sections ==> s.key != key
    ensures Field(MergeSections(config, form, sections), key) == Field(config, key)
    decreases |sections|
  {
    if sections != [] {
      assert sections[0] in sections;
      UntouchedSection(MergeInto(config, form, sections[0]), form, sections[1..], key);
    }
  }

  ghost predicate DistinctKeys(sections: seq<Section>) {
    forall i, j :: 0 <= i < j < |sections| ==> sections[i].key != sections[j].key
  }

  lemma {:induction false} MergedSection(config: Json, form: Form, sections: seq<Section>, s: Section)
    requires config.Obj? && PrintsRecords(sections) && DistinctKeys(sections) && s in sections
    ensures Field(MergeSections(config, form, sections), s.key)
         == Some(SectionValue(config, form, s))
    decreases |sections|
  {
    hide MergeSection;
    var first := sections[0];
    assert first in sections;
    var next := MergeInto(config, form, first);
    if s == first {
      UntouchedSection(next, form, sections[1..], s.key);
    } else {
      assert sections == [first] + sections[1..];
      assert s in sections[1..];
      var j :| 0 <= j < |sections| - 1 && sections[1..][j] == s;
      assert sections[j + 1].key != sections[0].key;
      MergedSection(next, form, sections[1..], s);
    }
  }

  lemma ManagedKeysAreNotSections()
    ensures forall s :: s in SECTIONS ==> s.key !in {"schema_version", "config_version", "scope"}
  {
  }

  lemma FinishElsewhere(config: Json, version: nat, key: string)
    requires config.Obj? && key !in {"schema_version", "config_version", "scope"}
    ensures Field(Finish(config, version), key) == Field(config, key)
  {
  }

  /** What the bundle holds for a section. */
  lemma BuiltSection(stored: Json, form: Form, version: nat, s: Section)
    requires stored.Obj? && s in SECTIONS && s.template.Node?
    ensures Field(Build(stored, form, version), s.key)
         == Some(SectionValue(stored, form, s))
  {
    hide MergeSections, MergeSection, Finish, SECTIONS, Print;
    SectionsPrintRecords();
    SectionKeysDistinct();
    MergedSection(stored, form, SECTIONS, s);
    ManagedKeysAreNotSections();
    FinishElsewhere(MergeSections(stored, form, SECTIONS), version, s.key);
  }

  /** Sections outside the table are kept as they are stored. */
  lemma OtherSectionsKept(stored: Json, form: Form, version: nat, key: string)
    requires stored.Obj? && key !in {"schema_version", "config_version", "scope"}
    requires forall s :: s in SECTIONS ==> s.key != key
    ensures Field(Build(stored, form, version), key) == Field(stored, key)
  {
    hide MergeSections, Finish, SECTIONS;
    SectionsPrintRecords();
    UntouchedSection(stored, form, SECTIONS, key);
    FinishElsewhere(MergeSections(stored, form, SECTIONS), version, key);
  }

  // ----- a section merge is a plain merge of what is printed, up to kept secrets

  /** The printed section with the stored secret references put back. */
  function Printed(s: Section, base: Json, form: Form): (r: Json)
    requires base.Obj? && s.template.Node?
    ensures r.Obj?
  {
    var printed := Print(s.template, form);
    if s.key == "model_gateway" then Keep(base, printed) else printed
  }

  lemma PrintedField(t: Template, form: Form, key: string)
    requires t.Node? && key in t.children
    ensures Field(Print(t, form), key) == Some(Print(t.children[key], form))
  {
  }

  lemma FlatValue(form: Form, field: string)
    requires FlatForm(form)
    ensures !Get(form, field).Obj?
  {
  }

  lemma ProviderPrints(t: Template, form: Form, field: string)
    requires t.Node? && "base_url" in t.children && SECRET in t.children
    requires t.children["base_url"] == Value(field) && t.children[SECRET] == Const(Null) && FlatForm(form)
    ensures ProviderForm(Some(Print(t, form)))
  {
    PrintedField(t, form, "base_url");
    PrintedField(t, form, SECRET);
  }

  lemma GatewayPrints(form: Form)
    requires FlatForm(form)
    ensures GatewayForm(Print(MODEL_GATEWAY, form))
  {
    hide Covered;
    var gateway := Print(MODEL_GATEWAY, form);
    PrintedField(MODEL_GATEWAY, form, SECRET);
    PrintedField(MODEL_GATEWAY, form, "providers");
    PrintedField(MODEL_GATEWAY, form, "routes");
    OneStep(gateway, ["providers"]);
    OneStep(gateway, ["routes"]);
    GatewayProvidersPrint(form);
    GatewayRoutesPrint(form);
  }

  lemma GatewayProvidersPrint(form: Form)
    requires FlatForm(form)
    ensures forall k :: k in PROVIDERS ==> ProviderForm(Field(Print(GATEWAY_PROVIDERS, form), k))
  {
    hide ProviderForm;
    PrintedField(GATEWAY_PROVIDERS, form, "embedding");
    PrintedField(GATEWAY_PROVIDERS, form, "rerank");
    PrintedField(GATEWAY_PROVIDERS, form, "llm");
    ProviderPrints(EMBEDDING_PROVIDER, form, "embeddingProviderBaseUrl");
    ProviderPrints(RERANK_PROVIDER, form, "rerankProviderBaseUrl");
    ProviderPrints(LLM_PROVIDER, form, "llmProviderBaseUrl");
  }

  lemma GatewayRoutesPrint(form: Form)
    requires FlatForm(form)
    ensures var routes := Print(GATEWAY_ROUTES, form);
            && RouteForm(Field(routes, "embedding"), ["online_default", "batch_default"])
            && RouteForm(Field(routes, "rerank"), ["default"])
            && RouteForm(Field(routes, "llm"), ["default", "fallback"])
  {
    var routes := GATEWAY_ROUTES.children;
    PrintedField(GATEWAY_ROUTES, form, "embedding");
    PrintedField(GATEWAY_ROUTES, form, "rerank");
    PrintedField(GATEWAY_ROUTES, form, "llm");
    PrintedField(routes["embedding"], form, "online_default");
    PrintedField(routes["embedding"], form, "batch_default");
    PrintedField(routes["rerank"], form, "default");
    PrintedField(routes["llm"], form, "default");
    PrintedField(routes["llm"], form, "fallback");
  }

  lemma ModelOverwritesSame(base: Json, form: Form)
    requires base.Obj? && FlatForm(form)
    ensures MergeModel(base, Print(MODEL, form)) == DeepMerge(base, Print(MODEL, form))
  {
    var printed := Print(MODEL, form);
    forall k | k in MODEL_KEYS
      ensures Field(printed, k).Some? && Field(DeepMerge(base, printed), k) == Field(printed, k)
    {
      assert k in MODEL.children && MODEL.children[k].Value?;
      PrintedField(MODEL, form, k);
      FlatValue(form, MODEL.children[k].field);
      MergedField(base, printed, k);
      LeafMerge(Field(base, k), printed.fields[k]);
    }
    OverwriteSame(DeepMerge(base, printed), printed, MODEL_KEYS);
  }

  lemma CacheTtlSame(base: Json, form: Form)
    requires base.Obj?
    ensures MergeCache(base, Print(CACHE, form)) == DeepMerge(base, Print(CACHE, form))
  {
    var printed := Print(CACHE, form);
    PrintedField(CACHE, form, "final_answer_enabled");
    PrintedField(CACHE, form, "final_answer_ttl_seconds");
    MergedField(base, printed, "final_answer_ttl_seconds");
    SamePut(DeepMerge(base, printed), "final_answer_ttl_seconds", Field(printed, "final_answer_ttl_seconds"));
  }

  lemma SpecialPlaces()
    ensures |SECTIONS| == 20
    ensures SECTIONS[5] == Section("model_gateway", MODEL_GATEWAY, MODEL_GATEWAY_FIELDS, MODEL_GATEWAY_READS)
    ensures SECTIONS[6] == Section("model", MODEL, MODEL_FIELDS, MODEL_READS)
    ensures SECTIONS[11] == Section("cache", CACHE, CACHE_FIELDS, CACHE_READS)
  {
    hide MODEL_GATEWAY, MODEL_GATEWAY_FIELDS, MODEL_GATEWAY_READS;
    hide MODEL, MODEL_FIELDS, MODEL_READS, CACHE, CACHE_FIELDS, CACHE_READS;
  }

  /** The three special templates are the ones of the table. */
  lemma SpecialSections(s: Section)
    requires s in SECTIONS
    ensures s.template.Node?
    ensures s.key == "model_gateway" ==> s.template == MODEL_GATEWAY && s.readers == MODEL_GATEWAY_READS
    ensures s.key == "model" ==> s.template == MODEL
    ensures s.key == "cache" ==> s.template == CACHE
  {
    hide SECTIONS, MODEL_GATEWAY, MODEL, CACHE, MODEL_GATEWAY_READS;
    SectionsPrintRecords();
    SectionKeysDistinct();
    SpecialPlaces();
    var i :| 0 <= i < |SECTIONS| && SECTIONS[i] == s;
  }

  lemma SectionIsMerge(s: Section, base: Json, form: Form)
    requires s in SECTIONS && base.Obj? && FlatForm(form)
    ensures s.template.Node?
    ensures MergeSection(s.key, base, Print(s.template, form)) == DeepMerge(base, Printed(s, base, form))
  {
    hide Print, DeepMerge, MergeGateway, MergeModel, MergeCache, SECTIONS, MODEL_GATEWAY, MODEL, CACHE, Keep;
    SpecialSections(s);
    if s.key == "model_gateway" {
      GatewayPrints(form);
      GatewayIsMerge(base, Print(s.template, form));
    } else if s.key == "model" {
      ModelOverwritesSame(base, form);
    } else if s.key == "cache" {
      CacheTtlSame(base, form);
    }
  }
}
