/**
 * Forms, templates and tables: how a form is printed into a JSON section and how fields are
 * read back with coercions. The laws hold for any template and any table of readers.
 */
module ConfigForm {
  import opened Util
  import opened JsonValue
  import opened ConfigMerge

  /** The editable form model: field name to string, number or boolean. */
  type Form = map<string, Json>

  function Get(form: Form, field: string): Json {
    if field in form then form[field] else Null
  }

  /** A printed section: nested records with constants and form values at the leaves. */
  datatype Template =
    | Const(value: Json)
    | Value(field: string)
    | SecretValue(field: string)
    | Ttl(field: string)
    | Node(children: map<string, Template>)

  /** `normalizeOptionalSecretValue`: blank references are printed as null. */
  function NormalizeSecret(value: Json): Json {
    if value.Str? && Trim(value.s, JsSpace) != "" then Str(Trim(value.s, JsSpace)) else Null
  }

  function Print(t: Template, form: Form): Json
    decreases t
  {
    match t
    case Const(value) => value
    case Value(field) => Get(form, field)
    case SecretValue(field) => NormalizeSecret(Get(form, field))
    case Ttl(field) => Num(if Get(form, field) == Bool(true) then 300.0 else 0.0)
    case Node(children) => Obj(map k | k in children :: Print(children[k], form))
  }

  function TemplateAt(t: Template, path: seq<string>): Option<Template>
    decreases |path|
  {
    if path == [] then Some(t)
    else if t.Node? && path[0] in t.children then TemplateAt(t.children[path[0]], path[1..])
    else None
  }

  lemma {:induction false} PrintAt(t: Template, form: Form, path: seq<string>)
    requires TemplateAt(t, path).Some?
    ensures ValueAt(Print(t, form), path) == Some(Print(TemplateAt(t, path).value, form))
    decreases |path|
  {
    if path != [] {
      PrintAt(t.children[path[0]], form, path[1..]);
    }
  }

  datatype Coercion =
    | AsString
    | AsNumber
    | AsBoolean
    | AsVectorDistance
    | AsModelGatewayMode
    | AsChunkStrategyMode
    | AsAuditQueryTextMode
    | AsPermissionVisibility

  predicate InRange(c: Coercion, value: Json) {
    match c
    case AsString => value.Str?
    case AsNumber => value.Num?
    case AsBoolean => value.Bool?
    case AsVectorDistance => value in {Str("cosine"), Str("dot"), Str("euclidean")}
    case AsModelGatewayMode => value == Str("external")
    case AsChunkStrategyMode => value in {Str("heading_paragraph"), Str("fixed_tokens")}
    case AsAuditQueryTextMode => value in {Str("none"), Str("hash"), Str("plain")}
    case AsPermissionVisibility => value in {Str("department"), Str("enterprise")}
  }

  /** `asString`, `asNumber`, ...: the value if it has the right shape, else the fallback. */
  function Coerce(c: Coercion, value: Option<Json>, fallback: Json): Json {
    if value.Some? && InRange(c, value.value) then value.value else fallback
  }

  datatype Entry = Entry(path: seq<string>, field: string, coercion: Coercion)

  function HydrateOne(form: Form, config: Json, e: Entry): Form {
    form[e.field := Coerce(e.coercion, ValueAt(config, e.path), Get(form, e.field))]
  }

  /** `hydrateConfigForm` over a table of readers. */
  function Hydrate(form: Form, config: Json, entries: seq<Entry>): Form
    decreases |entries|
  {
    if entries == [] then form else Hydrate(HydrateOne(form, config, entries[0]), config, entries[1..])
  }

  class FormModel {
    var values: Form

    method HydrateConfigForm(config: Json, entries: seq<Entry>)
      modifies this
      ensures values == Hydrate(old(values), config, entries)
    {
      hide Coerce, ValueAt;
      var i := 0;
      while i < |entries|
        invariant 0 <= i <= |entries|
        invariant Hydrate(values, config, entries[i..]) == Hydrate(old(values), config, entries)
      {
        var e := entries[i];
        assert entries[i..][0] == e && entries[i..][1..] == entries[i + 1..];
        values := values[e.field := Coerce(e.coercion, ValueAt(config, e.path), Get(values, e.field))];
        i := i + 1;
      }
    }
  }

  lemma {:induction false} HydrateElsewhere(form: Form, config: Json, entries: seq<Entry>, field: string)
    requires forall e :: e in entries ==> e.field != field
    ensures Get(Hydrate(form, config, entries), field) == Get(form, field)
    decreases |entries|
  {
    if entries != [] {
      assert entries[0] in entries;
      HydrateElsewhere(HydrateOne(form, config, entries[0]), config, entries[1..], field);
    }
  }

  /** The stored value of a reader's path gives back `wanted`, whatever the field held before. */
  predicate ReadsAs(config: Json, e: Entry, before: Json, wanted: Json) {
    && Coerce(e.coercion, ValueAt(config, e.path), before) == wanted
    && Coerce(e.coercion, ValueAt(config, e.path), wanted) == wanted
  }

  /** If every reader finds the wanted value, hydration delivers it in every field. */
  lemma {:induction false} HydrateDelivers(form: Form, wanted: Form, config: Json, entries: seq<Entry>, done: seq<Entry>)
    requires forall e :: e in done ==> Get(form, e.field) == Get(wanted, e.field)
    requires forall e :: e in entries ==>
               ReadsAs(config, e, Get(form, e.field), Get(wanted, e.field))
    ensures forall e :: e in done + entries ==>
              Get(Hydrate(form, config, entries), e.field) == Get(wanted, e.field)
    decreases |entries|
  {
    if entries == [] {
      assert done + entries == done;
    } else {
      var e := entries[0];
      var next := HydrateOne(form, config, e);
      assert e in entries;
      assert done + entries == (done + [e]) + entries[1..];
      assert Get(next, e.field) == Get(wanted, e.field);
      forall d | d in done + [e] ensures Get(next, d.field) == Get(wanted, d.field) {
        if d != e { assert d in done; }
      }
      forall d | d in entries[1..] ensures ReadsAs(config, d, Get(next, d.field), Get(wanted, d.field)) {
        assert d in entries;
        if d.field != e.field { assert Get(next, d.field) == Get(form, d.field); }
      }
      HydrateDelivers(next, wanted, config, entries[1..], done + [e]);
    }
  }

  /** The one field printed as an optional secret. */
  const SECRET_FIELD := "qdrantApiKeyRef"

  /** A reader matches a template: it reads the leaf where the template prints its field. */
  predicate Matches(t: Template, e: Entry) {
    TemplateAt(t, e.path) == Some(if e.field == SECRET_FIELD then SecretValue(e.field) else Value(e.field))
    && (e.field == SECRET_FIELD ==> e.coercion == AsString)
  }

  /** The form with its optional secret trimmed, as printing normalises it. */
  function Normalised(form: Form): Form {
    var secret := Get(form, SECRET_FIELD);
    if secret.Str? then form[SECRET_FIELD := Str(Trim(secret.s, JsSpace))] else form
  }

  /** One reader over one printed section gives back the normalised field. */
  lemma ReadsPrinted(t: Template, form: Form, e: Entry, config: Json, before: Json)
    requires Matches(t, e) && InRange(e.coercion, Get(form, e.field))
    requires ValueAt(config, e.path) == ValueAt(Print(t, form), e.path)
    requires e.field == SECRET_FIELD ==> before == Str("")
    ensures ReadsAs(config, e, before, Get(Normalised(form), e.field))
  {
    hide Trim, JsSpace;
    PrintAt(t, form, e.path);
  }

  // ----- what a template depends on

  /** The readers read these fields, in this order. */
  predicate Named(readers: seq<Entry>, fields: seq<string>) {
    |readers| == |fields| && forall i :: 0 <= i < |readers| ==> readers[i].field == fields[i]
  }

  /** Every field the template prints is in the list. */
  predicate Covered(t: Template, fields: seq<string>)
    decreases t
  {
    match t
    case Const(_) => true
    case Value(field) => field != SECRET_FIELD && field in fields
    case SecretValue(field) => field == SECRET_FIELD && field in fields
    case Ttl(field) => field != SECRET_FIELD && field in fields
    case Node(children) => forall k :: k in children ==> Covered(children[k], fields)
  }

  lemma CoveredLeaves(field: string, fields: seq<string>)
    requires field != SECRET_FIELD && field in fields
    ensures Covered(Value(field), fields) && forall v :: Covered(Const(v), fields)
  {
  }

  lemma CoveredNode(children: map<string, Template>, fields: seq<string>)
    requires forall k :: k in children ==> Covered(children[k], fields)
    ensures Covered(Node(children), fields)
  {
  }

  /** Two forms that agree on every covered field print the same section, up to secret white space. */
  lemma {:induction false} PrintDepends(t: Template, a: Form, b: Form, fields: seq<string>)
    requires Covered(t, fields)
    requires forall f :: f in fields ==> Get(a, f) == Get(Normalised(b), f)
    ensures Print(t, a) == Print(t, b)
    decreases t
  {
    match t
    case Const(_) =>
    case Value(field) =>
    case Ttl(field) =>
    case SecretValue(field) =>
      if Get(b, field).Str? { TrimTwice(Get(b, field).s, JsSpace); }
    case Node(children) =>
      forall k | k in children ensures Print(children[k], a) == Print(children[k], b) {
        PrintDepends(children[k], a, b, fields);
      }
      assert Print(t, a).fields == Print(t, b).fields;
  }

  /** No field of the form is a record: printed leaves stay leaves. */
  predicate FlatForm(form: Form) {
    forall f :: f in form ==> !form[f].Obj?
  }
}
