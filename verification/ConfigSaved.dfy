/**
 * What stands where in a saved bundle and in a form read back, said on JSON values: which stored values a
 * field takes, and what the header, the cache and the secret places of a saved bundle hold.
 */
module ConfigSaved {
  import opened Util
  import opened JsonValue
  import opened ConfigMerge
  import opened ConfigSecrets
  import opened ConfigForm
  import opened ConfigTable
  import opened ConfigBundle
  import opened ConfigLaws

  // ----- which stored values a field takes

  /** The values an input can hold and a reader takes over. */
  ghost function Values(c: Coercion): iset<Json> {
    match c
    case AsString => iset s: string :: Str(s)
    case AsNumber => iset n: real :: Num(n)
    case AsBoolean => iset{Bool(true), Bool(false)}
    case AsVectorDistance => iset{Str("cosine"), Str("dot"), Str("euclidean")}
    case AsModelGatewayMode => iset{Str("external")}
    case AsChunkStrategyMode => iset{Str("heading_paragraph"), Str("fixed_tokens")}
    case AsAuditQueryTextMode => iset{Str("none"), Str("hash"), Str("plain")}
    case AsPermissionVisibility => iset{Str("department"), Str("enterprise")}
  }

  lemma RangeIsValues(c: Coercion, value: Json)
    ensures InRange(c, value) <==> value in Values(c)
  {
    match value
    case Bool(b) =>
    case Num(n) =>
    case Str(s) =>
    case _ =>
  }

  /** A form in range holds in every editable field a value of its input. */
  lemma FormInRangeIff(form: Form)
    ensures FormInRange(form)
       <==> FlatForm(form) && forall s, e :: s in SECTIONS && e in s.readers ==> Get(form, e.field) in Values(e.coercion)
  {
    hide SECTIONS, InRange, Values;
    forall c, v ensures InRange(c, v) <==> v in Values(c) { RangeIsValues(c, v); }
  }

  ghost predicate ReadOnce(entries: seq<Entry>, field: string) {
    forall i, j :: 0 <= i < j < |entries| && entries[i].field == field ==> entries[j].field != field
  }

  /** Hydrating from any bundle: a field read from one place takes the value there if it can, else keeps its own. */
  lemma {:induction false} HydratedField(form: Form, config: Json, entries: seq<Entry>, e: Entry)
    requires e in entries && ReadOnce(entries, e.field)
    ensures var found := ValueAt(config, e.path);
            Get(Hydrate(form, config, entries), e.field)
            == if found.Some? && found.value in Values(e.coercion) then found.value else Get(form, e.field)
    decreases |entries|
  {
    hide Values, InRange;
    var first := entries[0];
    var next := HydrateOne(form, config, first);
    if first.field == e.field {
      var i :| 0 <= i < |entries| && entries[i] == e;
      assert i == 0;
      forall d | d in entries[1..] ensures d.field != e.field {
        var j :| 0 <= j < |entries[1..]| && entries[1..][j] == d;
        assert entries[j + 1] == d;
      }
      HydrateElsewhere(next, config, entries[1..], e.field);
      if ValueAt(config, e.path).Some? {
        RangeIsValues(e.coercion, ValueAt(config, e.path).value);
      }
    } else {
      assert entries == [first] + entries[1..];
      HydratedField(next, config, entries[1..], e);
    }
  }

  // ----- the saved bundle

  /** The header: the edited version's number, and the stored schema and scope if they have the right shape. */
  lemma SavedHeader(stored: Json, form: Form, version: nat)
    requires stored.Obj?
    ensures var built, schema, scope := Build(stored, form, version), Field(stored, "schema_version"), Field(stored, "scope");
            && Field(built, "config_version") == Some(Num(version as real))
            && Field(built, "schema_version") == (if schema.Some? && schema.value.Num? then schema else Some(Num(1.0)))
            && Field(built, "scope")
               == if scope.Some? && scope.value.Obj? then scope
                  else Some(Obj(map["type" := Str("global"), "id" := Str("global")]))
  {
    hide SECTIONS, MergeSections;
    SectionsPrintRecords();
    ManagedKeysAreNotSections();
    UntouchedSection(stored, form, SECTIONS, "schema_version");
    UntouchedSection(stored, form, SECTIONS, "scope");
  }

  lemma PrintedLeaf(stored: Json, form: Form, version: nat, s: Section, path: seq<string>)
    requires stored.Obj? && FlatForm(form) && s in SECTIONS && s.key != "model_gateway" && path != []
    requires s.template.Node? && TemplateAt(s.template, path).Some?
    requires !Print(TemplateAt(s.template, path).value, form).Obj?
    ensures ValueAt(Build(stored, form, version), [s.key] + path) == Some(Print(TemplateAt(s.template, path).value, form))
  {
    hide Build, DeepMerge, MergeSection, SECTIONS, Print;
    var base := SectionBase(stored, s.key);
    var bundle := Build(stored, form, version);
    BuiltSection(stored, form, version, s);
    SectionIsMerge(s, base, form);
    OneStep(bundle, [s.key]);
    ValueBelow(bundle, [s.key], path);
    PrintAt(s.template, form, path);
    PatchLeafWins(base, Print(s.template, form), path);
  }

  lemma PlainSections(cache: Section, vectors: Section)
    requires cache == Section("cache", CACHE, CACHE_FIELDS, CACHE_READS)
    requires vectors == Section("vector_store", VECTOR_STORE, VECTOR_STORE_FIELDS, VECTOR_STORE_READS)
    ensures cache in SECTIONS && vectors in SECTIONS
  {
    hide CACHE, CACHE_FIELDS, CACHE_READS;
    VectorStoreListed(vectors);
    SpecialPlaces();
  }

  lemma PlaceOf(key: string)
    requires key in {"final_answer_enabled", "final_answer_ttl_seconds"}
    ensures CACHE.Node?
    ensures TemplateAt(CACHE, [key])
         == Some(if key == "final_answer_enabled" then Value("finalAnswerEnabled") else Ttl("finalAnswerEnabled"))
  {
    assert [key][1..] == [];
  }

  /** A saved bundle keeps final answers for five minutes if the form asks for them, and not at all otherwise. */
  lemma SavedCache(stored: Json, form: Form, version: nat)
    requires stored.Obj? && FlatForm(form)
    ensures var built := Build(stored, form, version);
            && ValueAt(built, ["cache", "final_answer_enabled"]) == Some(Get(form, "finalAnswerEnabled"))
            && ValueAt(built, ["cache", "final_answer_ttl_seconds"])
               == Some(Num(if Get(form, "finalAnswerEnabled") == Bool(true) then 300.0 else 0.0))
  {
    hide Build, SECTIONS, CACHE;
    var cache := Section("cache", CACHE, CACHE_FIELDS, CACHE_READS);
    PlainSections(cache, Section("vector_store", VECTOR_STORE, VECTOR_STORE_FIELDS, VECTOR_STORE_READS));
    PlaceOf("final_answer_enabled");
    PlaceOf("final_answer_ttl_seconds");
    FlatValue(form, "finalAnswerEnabled");
    PrintedLeaf(stored, form, version, cache, ["final_answer_enabled"]);
    PrintedLeaf(stored, form, version, cache, ["final_answer_ttl_seconds"]);
    assert ["cache"] + ["final_answer_enabled"] == ["cache", "final_answer_enabled"];
    assert ["cache"] + ["final_answer_ttl_seconds"] == ["cache", "final_answer_ttl_seconds"];
  }

  /** The vector store's key reference is saved trimmed, and as null when nothing is left of it. */
  lemma SavedKeyReference(stored: Json, form: Form, version: nat, reference: string)
    requires stored.Obj? && FlatForm(form) && Get(form, "qdrantApiKeyRef") == Str(reference)
    ensures ValueAt(Build(stored, form, version), ["vector_store", "api_key_ref"])
         == Some(if exists i :: 0 <= i < |reference| && !JsSpace(reference[i]) then Str(Trim(reference, JsSpace)) else Null)
  {
    hide Build, SECTIONS, JsSpace, Trim;
    var vectors := Section("vector_store", VECTOR_STORE, VECTOR_STORE_FIELDS, VECTOR_STORE_READS);
    VectorStoreListed(vectors);
    KeyPlace();
    TrimsToNothing(reference, JsSpace);
    PrintedLeaf(stored, form, version, vectors, ["api_key_ref"]);
    assert ["vector_store"] + ["api_key_ref"] == ["vector_store", "api_key_ref"];
  }

  lemma KeyPlace()
    ensures VECTOR_STORE.Node? && TemplateAt(VECTOR_STORE, ["api_key_ref"]) == Some(SecretValue("qdrantApiKeyRef"))
  {
    assert ["api_key_ref"][1..] == [];
  }
}
