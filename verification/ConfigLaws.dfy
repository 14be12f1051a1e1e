/**
 * Laws of editing a configuration: hydrating a built bundle returns the form, building again
 * changes nothing, and no sequence of saves loses a stored secret reference.
 */
module ConfigLaws {
  import opened Util
  import opened JsonValue
  import opened ConfigMerge
  import opened ConfigSecrets
  import opened ConfigForm
  import opened ConfigTable
  import opened ConfigBundle

  function Absolute(s: Section, e: Entry): Entry {
    Entry([s.key] + e.path, e.field, e.coercion)
  }

  /** All readers of a list of sections, from the root of the bundle. */
  function Readers(sections: seq<Section>): seq<Entry>
    decreases |sections|
  {
    if sections == [] then []
    else
      var s := sections[0];
      seq(|s.readers|, i requires 0 <= i < |s.readers| => Absolute(s, s.readers[i])) + Readers(sections[1..])
  }

  lemma {:induction false} ReaderOrigin(sections: seq<Section>, r: Entry)
    requires r in Readers(sections)
    ensures exists s, e :: s in sections && e in s.readers && r == Absolute(s, e)
    decreases |sections|
  {
    var s := sections[0];
    var own := seq(|s.readers|, i requires 0 <= i < |s.readers| => Absolute(s, s.readers[i]));
    if r in own {
      var i :| 0 <= i < |own| && own[i] == r;
      assert s in sections && s.readers[i] in s.readers;
    } else {
      ReaderOrigin(sections[1..], r);
      var t, e :| t in sections[1..] && e in t.readers && r == Absolute(t, e);
      assert t in sections;
    }
  }

  lemma {:induction false} ReaderListed(sections: seq<Section>, s: Section, e: Entry)
    requires s in sections && e in s.readers
    ensures Absolute(s, e) in Readers(sections)
    decreases |sections|
  {
    if s == sections[0] {
      var own := seq(|s.readers|, i requires 0 <= i < |s.readers| => Absolute(s, s.readers[i]));
      var i :| 0 <= i < |s.readers| && s.readers[i] == e;
      assert own[i] == Absolute(s, e);
    } else {
      assert sections == [sections[0]] + sections[1..];
      ReaderListed(sections[1..], s, e);
    }
  }

  /** The form a version's bundle puts on the screen, over the default form. */
  function Hydrated(defaults: Form, config: Json): Form {
    Hydrate(defaults, config, Readers(SECTIONS))
  }

  /** Every field holds a value its input can produce. */
  ghost predicate FormInRange(form: Form) {
    FlatForm(form) && forall s, e :: s in SECTIONS && e in s.readers ==> InRange(e.coercion, Get(form, e.field))
  }

  lemma KeepElsewhere(base: Json, form: Json, path: seq<string>)
    requires base.Obj? && GatewayForm(form)
    requires path == ["mode"] || exists k :: k in PROVIDERS && path == ["providers", k, "base_url"]
    ensures ValueAt(Keep(base, form), path) == ValueAt(form, path)
  {
    SectionRecords(form);
    if path == ["mode"] {
      OneStep(form, path);
      OneStep(Keep(base, form), path);
    } else {
      var k :| k in PROVIDERS && path == ["providers", k, "base_url"];
      ThreeSteps(form, "providers", k, "base_url");
      ThreeSteps(Keep(base, form), "providers", k, "base_url");
      assert ProviderForm(FieldOf(Field(form, "providers"), k));
    }
  }

  /** A leaf a reader looks for is printed, survives the merge, and stands in the bundle. */
  lemma ReaderFindsPrinted(stored: Json, form: Form, version: nat, s: Section, e: Entry)
    requires stored.Obj? && FlatForm(form) && s in SECTIONS && e in s.readers
    ensures ValueAt(Build(stored, form, version), [s.key] + e.path) == ValueAt(Print(s.template, form), e.path)
  {
    hide Build, DeepMerge, Keep, MergeSection, SECTIONS, MODEL_GATEWAY_READS, MODEL_GATEWAY, GatewayForm;
    SpecialSections(s);
    SectionReadersMatch(s, e);
    var base := SectionBase(stored, s.key);
    var printed := Print(s.template, form);
    var bundle := Build(stored, form, version);
    BuiltSection(stored, form, version, s);
    SectionIsMerge(s, base, form);
    OneStep(bundle, [s.key]);
    ValueBelow(bundle, [s.key], e.path);
    PrintAt(s.template, form, e.path);
    assert e.path != [];
    if s.key == "model_gateway" {
      GatewayPrints(form);
      GatewayReaders(e);
      KeepElsewhere(base, printed, e.path);
    }
    PatchLeafWins(base, Printed(s, base, form), e.path);
  }

  lemma EveryReaderReads(stored: Json, form: Form, version: nat, defaults: Form, r: Entry)
    requires stored.Obj? && FormInRange(form) && Get(defaults, SECRET_FIELD) == Str("")
    requires r in Readers(SECTIONS)
    ensures ReadsAs(Build(stored, form, version), r, Get(defaults, r.field), Get(Normalised(form), r.field))
  {
    hide Build, Readers, SECTIONS, Normalised, Print, Trim;
    ReaderOrigin(SECTIONS, r);
    var s, e :| s in SECTIONS && e in s.readers && r == Absolute(s, e);
    SectionReadersMatch(s, e);
    ReaderFindsPrinted(stored, form, version, s, e);
    var bundle := Build(stored, form, version);
    PrintAt(s.template, form, e.path);
    ReadsPrinted(s.template, form, e, Print(s.template, form), Get(defaults, e.field));
  }

  lemma FieldHasReader(s: Section, f: string)
    requires s in SECTIONS && f in s.fields
    ensures exists r :: r in Readers(SECTIONS) && r.field == f
  {
    hide Readers, SECTIONS;
    if s.key != "model_gateway" {
      OwnReader(s, f);
    } else {
      GatewayFieldHasReader(s, f);
    }
  }

  lemma OwnReader(s: Section, f: string)
    requires s in SECTIONS && s.key != "model_gateway" && f in s.fields
    ensures exists r :: r in Readers(SECTIONS) && r.field == f
  {
    hide Readers, SECTIONS;
    SectionNamed(s);
    var i :| 0 <= i < |s.fields| && s.fields[i] == f;
    ReaderListed(SECTIONS, s, s.readers[i]);
    assert Absolute(s, s.readers[i]).field == f;
  }

  lemma GatewaySection(s: Section)
    requires s in SECTIONS && s.key == "model_gateway"
    ensures s.fields == MODEL_GATEWAY_FIELDS && s.readers == MODEL_GATEWAY_READS && |s.fields| == 8
    ensures Section("model", MODEL, MODEL_FIELDS, MODEL_READS) in SECTIONS
  {
    hide SECTIONS, MODEL_GATEWAY, MODEL_GATEWAY_READS, MODEL, MODEL_FIELDS, MODEL_READS;
    SpecialPlaces();
    SectionKeysDistinct();
    var i :| 0 <= i < |SECTIONS| && SECTIONS[i] == s;
    assert i == 5;
  }

  lemma GatewayFieldHasReader(s: Section, f: string)
    requires s in SECTIONS && s.key == "model_gateway" && f in s.fields
    ensures exists r :: r in Readers(SECTIONS) && r.field == f
  {
    hide Readers, SECTIONS, MODEL_GATEWAY_FIELDS, MODEL_GATEWAY_READS, MODEL_READS, MODEL_FIELDS;
    GatewaySection(s);
    var i :| 0 <= i < |s.fields| && s.fields[i] == f;
    if i < 4 {
      ModelGatewayNamed();
      assert s.readers[i].field == MODEL_GATEWAY_FIELDS[..4][i] == f;
      ReaderListed(SECTIONS, s, s.readers[i]);
      assert Absolute(s, s.readers[i]).field == f;
    } else {
      GatewayModelNames();
      assert f == MODEL_GATEWAY_FIELDS[4..][i - 4];
      OwnReader(Section("model", MODEL, MODEL_FIELDS, MODEL_READS), f);
    }
  }

  /**
   * Round trip: whatever is stored, hydrating the built bundle over the defaults gives back
   * every editable field, with the optional key reference trimmed.
   */
  lemma HydratingReturnsForm(stored: Json, form: Form, version: nat, defaults: Form, s: Section, f: string)
    requires stored.Obj? && FormInRange(form) && Get(defaults, SECRET_FIELD) == Str("")
    requires s in SECTIONS && f in s.fields
    ensures Get(Hydrated(defaults, Build(stored, form, version)), f) == Get(Normalised(form), f)
  {
    hide Build, Readers, SECTIONS, Normalised, Hydrate, FormInRange;
    var bundle := Build(stored, form, version);
    forall r | r in Readers(SECTIONS)
      ensures ReadsAs(bundle, r, Get(defaults, r.field), Get(Normalised(form), r.field))
    {
      EveryReaderReads(stored, form, version, defaults, r);
    }
    HydrateDelivers(defaults, Normalised(form), bundle, Readers(SECTIONS), []);
    assert [] + Readers(SECTIONS) == Readers(SECTIONS);
    FieldHasReader(s, f);
  }

  predicate Trimmed(value: Json) {
    value.Str? && Trim(value.s, JsSpace) == value.s
  }

  lemma SecretIsEditable(form: Form)
    requires FormInRange(form)
    ensures Get(form, SECRET_FIELD).Str?
    ensures exists s :: s in SECTIONS && SECRET_FIELD in s.fields
  {
    hide SECTIONS, VECTOR_STORE;
    var s := Section("vector_store", VECTOR_STORE, VECTOR_STORE_FIELDS, VECTOR_STORE_READS);
    VectorStoreListed(s);
    var e := VECTOR_STORE_READS[1];
    assert e in s.readers && e.field == SECRET_FIELD && e.coercion == AsString;
    assert VECTOR_STORE_FIELDS[1] == SECRET_FIELD;
    assert InRange(e.coercion, Get(form, e.field));
  }

  lemma VectorStoreListed(s: Section)
    requires s == Section("vector_store", VECTOR_STORE, VECTOR_STORE_FIELDS, VECTOR_STORE_READS)
    ensures s in SECTIONS
  {
    assert SECTIONS[3] == s;
  }

  /** The form itself comes back on every editable field iff its key reference is trimmed. */
  lemma RoundTripIffTrimmed(stored: Json, form: Form, version: nat, defaults: Form)
    requires stored.Obj? && FormInRange(form) && Get(defaults, SECRET_FIELD) == Str("")
    ensures (forall s, f :: s in SECTIONS && f in s.fields ==>
               Get(Hydrated(defaults, Build(stored, form, version)), f) == Get(form, f))
         <==> Trimmed(Get(form, SECRET_FIELD))
  {
    hide Build, SECTIONS, Hydrated, FormInRange, Trim, JsSpace;
    SecretIsEditable(form);
    forall s, f | s in SECTIONS && f in s.fields
      ensures Get(Hydrated(defaults, Build(stored, form, version)), f) == Get(Normalised(form), f)
    {
      HydratingReturnsForm(stored, form, version, defaults, s, f);
    }
  }

  /** Forms that differ in an editable field, up to that trimming, build different bundles over any base. */
  lemma BuildsDiffer(stored: Json, a: Form, b: Form, version: nat, s: Section, f: string)
    requires stored.Obj? && FormInRange(a) && FormInRange(b) && s in SECTIONS && f in s.fields
    requires Get(Normalised(a), f) != Get(Normalised(b), f)
    ensures Build(stored, a, version) != Build(stored, b, version)
  {
    hide Build, SECTIONS, Normalised, Hydrated, FormInRange;
    var defaults: Form := map[SECRET_FIELD := Str("")];
    HydratingReturnsForm(stored, a, version, defaults, s, f);
    HydratingReturnsForm(stored, b, version, defaults, s, f);
  }

  // ----- building again

  lemma SamePrint(s: Section, a: Form, b: Form)
    requires s in SECTIONS
    requires forall t, f :: t in SECTIONS && f in t.fields ==> Get(a, f) == Get(Normalised(b), f)
    ensures Print(s.template, a) == Print(s.template, b)
  {
    hide SECTIONS, Print, Normalised, Covered;
    SectionCovered(s);
    PrintDepends(s.template, a, b, s.fields);
  }

  lemma NodePrintsRecord(t: Template, form: Form)
    requires t.Node?
    ensures Print(t, form).Obj?
  {
  }

  lemma SectionMergeSettles(s: Section, base: Json, form: Form)
    requires s in SECTIONS && s.template.Node? && base.Obj? && FlatForm(form)
    ensures var once := MergeSection(s.key, base, Print(s.template, form));
            MergeSection(s.key, once, Print(s.template, form)) == once
  {
    hide SECTIONS, Print, DeepMerge, MergeGateway, MergeModel, MergeCache, Keep, MODEL_GATEWAY;
    SpecialSections(s);
    NodePrintsRecord(s.template, form);
    var printed := Print(s.template, form);
    var once := MergeSection(s.key, base, printed);
    if s.key == "model_gateway" {
      GatewayPrints(form);
      GatewayIdempotent(base, printed);
    } else {
      SectionIsMerge(s, base, form);
      SectionIsMerge(s, once, form);
      MergeIdempotent(base, printed);
    }
  }

  lemma {:induction false} NothingToMerge(config: Json, form: Form, sections: seq<Section>)
    requires config.Obj? && PrintsRecords(sections)
    requires forall s :: s in sections ==> s.template.Node? && MergeInto(config, form, s) == config
    ensures MergeSections(config, form, sections) == config
    decreases |sections|
  {
    hide MergeInto;
    if sections != [] {
      assert sections[0] in sections;
      NothingToMerge(config, form, sections[1..]);
    }
  }

  lemma FinishTwice(config: Json, version: nat)
    requires config.Obj?
    ensures Finish(Finish(config, version), version) == Finish(config, version)
  {
    var once := Finish(config, version);
    assert Finish(once, version).fields == once.fields;
  }

  /** Building again from a form that prints the same changes nothing at all. */
  lemma BuildSettles(stored: Json, form: Form, again: Form, version: nat)
    requires stored.Obj? && FlatForm(form)
    requires forall s :: s in SECTIONS ==> Print(s.template, again) == Print(s.template, form)
    ensures Build(Build(stored, form, version), again, version) == Build(stored, form, version)
  {
    hide MergeSections, MergeSection, Finish, SECTIONS, Print;
    SectionsPrintRecords();
    var built := Build(stored, form, version);
    forall s | s in SECTIONS ensures MergeInto(built, again, s) == built {
      BuiltSection(stored, form, version, s);
      SectionMergeSettles(s, SectionBase(stored, s.key), form);
      SamePut(built, s.key, Field(built, s.key));
    }
    NothingToMerge(built, again, SECTIONS);
    FinishTwice(MergeSections(stored, form, SECTIONS), version);
  }

  /** Save, read back, build again with the same version: the identical bundle. */
  lemma RebuildIsIdentical(stored: Json, form: Form, version: nat, defaults: Form)
    requires stored.Obj? && FormInRange(form) && Get(defaults, SECRET_FIELD) == Str("")
    ensures var built := Build(stored, form, version);
            Build(built, Hydrated(defaults, built), version) == built
  {
    hide Build, SECTIONS, Hydrated, Print, Normalised, Covered;
    var built := Build(stored, form, version);
    var again := Hydrated(defaults, built);
    forall t, f | t in SECTIONS && f in t.fields ensures Get(again, f) == Get(Normalised(form), f) {
      HydratingReturnsForm(stored, form, version, defaults, t, f);
    }
    forall s | s in SECTIONS ensures Print(s.template, again) == Print(s.template, form) {
      SamePrint(s, again, form);
    }
    BuildSettles(stored, form, again, version);
  }

  // ----- sequences of saves

  datatype Save = Save(form: Form, version: nat)

  function AfterSaves(stored: Json, saves: seq<Save>): (r: Json)
    requires stored.Obj?
    ensures r.Obj?
    decreases |saves|
  {
    if saves == [] then stored
    else AfterSaves(Build(stored, saves[0].form, saves[0].version), saves[1..])
  }

  /** The places of the stored secret references. */
  predicate SecretPath(path: seq<string>) {
    || path == ["model_gateway", "auth_token_ref"]
    || path == ["model_gateway", "providers", "embedding", "auth_token_ref"]
    || path == ["model_gateway", "providers", "rerank", "auth_token_ref"]
    || path == ["model_gateway", "providers", "llm", "auth_token_ref"]
  }

  lemma SecretPathInside(path: seq<string>)
    requires SecretPath(path)
    ensures path == ["model_gateway"] + path[1..]
    ensures path[1..] == [SECRET] || exists k :: k in PROVIDERS && path[1..] == ["providers", k, SECRET]
  {
    if path[1..] != [SECRET] {
      var k := path[2];
      assert path[1..] == ["providers", k, SECRET];
      assert PROVIDERS[0] == "embedding" && PROVIDERS[1] == "rerank" && PROVIDERS[2] == "llm";
    }
  }

  /** A save keeps a stored reference as it is, and leaves the printed null wherever none is stored. */
  lemma BuildKeepsSecret(stored: Json, form: Form, version: nat, path: seq<string>)
    requires stored.Obj? && FlatForm(form) && SecretPath(path)
    ensures ValueAt(Build(stored, form, version), path) == SecretAfter(ValueAt(stored, path))
  {
    hide Build, MergeGateway, MODEL_GATEWAY, HoldsText, Print, SecretPath;
    var s := Section("model_gateway", MODEL_GATEWAY, MODEL_GATEWAY_FIELDS, MODEL_GATEWAY_READS);
    GatewayListed(s);
    var bundle := Build(stored, form, version);
    SecretPathInside(path);
    var inner := path[1..];
    BuiltSection(stored, form, version, s);
    GatewayPrints(form);
    var base := SectionBase(stored, "model_gateway");
    GatewayKeepsSecrets(base, Print(MODEL_GATEWAY, form));
    ValueBelow(stored, ["model_gateway"], inner);
    ValueBelow(bundle, ["model_gateway"], inner);
    OneStep(stored, ["model_gateway"]);
    OneStep(bundle, ["model_gateway"]);
    BaseValue(stored, inner);
    if inner == [SECRET] {
      OneStep(base, inner);
    }
  }

  lemma BaseValue(stored: Json, inner: seq<string>)
    requires inner != []
    ensures ValueAt(SectionBase(stored, "model_gateway"), inner)
         == (var section := Field(stored, "model_gateway"); if section.Some? then ValueAt(section.value, inner) else None)
  {
  }

  lemma GatewayListed(s: Section)
    requires s == Section("model_gateway", MODEL_GATEWAY, MODEL_GATEWAY_FIELDS, MODEL_GATEWAY_READS)
    ensures s in SECTIONS && s.template.Node?
  {
    assert SECTIONS[5] == s;
  }

  /**
   * Any sequence of saves, whatever the forms: a stored reference stays as it is, and a place without one holds
   * the printed null from the first save on.
   */
  lemma {:induction false} SavesKeepSecrets(stored: Json, saves: seq<Save>, path: seq<string>)
    requires stored.Obj? && SecretPath(path)
    requires forall save :: save in saves ==> FlatForm(save.form)
    ensures ValueAt(AfterSaves(stored, saves), path)
         == if saves == [] then ValueAt(stored, path) else SecretAfter(ValueAt(stored, path))
    decreases |saves|
  {
    hide Build, SecretPath, HoldsText;
    if saves != [] {
      assert saves[0] in saves;
      BuildKeepsSecret(stored, saves[0].form, saves[0].version, path);
      NullIsNoText();
      SavesKeepSecrets(Build(stored, saves[0].form, saves[0].version), saves[1..], path);
    }
  }

  lemma NullIsNoText()
    ensures !HoldsText(Some(Null))
  {
  }

  /** No sequence of saves touches a section outside the table. */
  lemma {:induction false} SavesKeepOtherSections(stored: Json, saves: seq<Save>, key: string)
    requires stored.Obj? && key !in {"schema_version", "config_version", "scope"}
    requires forall s :: s in SECTIONS ==> s.key != key
    ensures Field(AfterSaves(stored, saves), key) == Field(stored, key)
    decreases |saves|
  {
    hide Build, SECTIONS;
    if saves != [] {
      OtherSectionsKept(stored, saves[0].form, saves[0].version, key);
      SavesKeepOtherSections(Build(stored, saves[0].form, saves[0].version), saves[1..], key);
    }
  }
}
