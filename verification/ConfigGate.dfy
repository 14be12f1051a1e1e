/**
 * The configuration editor: validate, then save. Handlers are split at their awaits. The
 * save gate compares the text recorded at validation with the text of the editor, which is
 * refreshed by some steps only; printing a signature is injective.
 */
module ConfigGate {
  import opened Util
  import opened JsonValue
  import opened ConfigMerge
  import opened ConfigForm
  import opened ConfigTable
  import opened ConfigBundle
  import opened ConfigLaws

  /** `configFormSignature`: the selected version and the bundle built for it. */
  datatype Signature = Signature(version: Option<nat>, bundle: Json)

  datatype Mode = CreateMode | EditMode

  datatype Busy = Busy(loading: bool, validating: bool, saving: bool, publishing: bool, deleting: bool)

  const IDLE := Busy(false, false, false, false, false)

  /** The default form, and whether a form passes `validateConfigForm`. */
  datatype Page = Page(defaults: Form, formOk: Form -> bool)

  /** `accepted` and `saved` record what the backend accepted, and what was sent to be saved. */
  datatype State = State(
    details: map<nat, Json>,
    active: nat,
    selected: Option<nat>,
    form: Form,
    canManage: bool,
    mode: Option<Mode>,
    busy: Busy,
    editorText: Option<Signature>,
    validatedText: Option<Signature>,
    result: Option<bool>,
    pending: seq<Json>,
    accepted: set<Json>,
    saved: seq<Json>)

  datatype Step =
    | EditField(form: Form)
    | StartValidation
    | ValidationAbandoned(index: nat)
    | ValidationSent
    | ValidationReply(index: nat, valid: bool)
    | ValidationFailed(index: nat)
    | DetailArrived(version: nat, config: Json)
    | RefreshStarted
    | ListArrived(active: nat)
    | RefreshSynced
    | RefreshFailed
    | CreateOpening
    | CreateOpened
    | EditOpened(version: nat)
    | ModalClosed
    | SaveClicked
    | SaveSent
    | SaveReply(version: nat, config: Json)
    | SaveEnded
    | SaveFailed
    | PublishStarted
    | PublishReply
    | PublishEnded
    | PublishFailed
    | ArchiveStarted
    | ArchiveEnded
    | Cleared

  function EditedVersion(s: State): nat {
    if s.selected.Some? then s.selected.value else s.active
  }

  function AsBundle(config: Json): (r: Json)
    ensures r.Obj?
  {
    if config.Obj? then config else Obj(map[])
  }

  /** `currentEditableConfigBundle`. */
  function BaseConfig(s: State): (r: Json)
    ensures r.Obj?
  {
    var v := EditedVersion(s);
    if v in s.details then AsBundle(s.details[v]) else Obj(map[])
  }

  function Bundle(s: State): (r: Json)
    ensures r.Obj?
  {
    Build(BaseConfig(s), s.form, EditedVersion(s))
  }

  function Sign(s: State): Signature {
    Signature(s.selected, Bundle(s))
  }

  function Resigned(s: State): State {
    s.(editorText := Some(Sign(s)))
  }

  function Unvalidated(s: State): State {
    s.(result := None, validatedText := None)
  }

  /** `syncConfigFormFromVersion`: defaults, then the version's or the active bundle's values. */
  function Synced(page: Page, s: State, version: nat): State {
    var config := if version in s.details then s.details[version]
                  else if s.active in s.details then s.details[s.active] else Obj(map[]);
    Resigned(s.(form := Hydrated(page.defaults, config)))
  }

  /** `canValidateSelectedConfig`. */
  predicate CanValidate(page: Page, s: State) {
    s.mode.Some? && s.canManage && s.busy == IDLE && page.formOk(s.form)
  }

  /** `configValidationFresh`. */
  predicate Fresh(s: State) {
    s.result == Some(true) && s.validatedText.Some? && s.validatedText == s.editorText
  }

  /** `canSaveSelectedConfigDraft`. */
  predicate CanSave(page: Page, s: State) {
    CanValidate(page, s) && Fresh(s)
  }

  /** What `saveSelectedDraft` sends when it runs. */
  function Sent(s: State): State {
    if s.mode == Some(EditMode) && s.selected.None? then s else s.(saved := s.saved + [Bundle(s)])
  }

  function Without(pending: seq<Json>, i: nat): seq<Json>
    requires i < |pending|
  {
    pending[..i] + pending[i + 1..]
  }

  function Next(page: Page, s: State, step: Step): State {
    match step
    case EditField(form) => Resigned(Unvalidated(s.(form := form)))
    case StartValidation => s.(pending := s.pending + [Bundle(s)])
    case ValidationAbandoned(i) => if i >= |s.pending| then s else s.(pending := Without(s.pending, i))
    case ValidationSent => s.(busy := s.busy.(validating := true))
    case ValidationReply(i, valid) =>
      if i >= |s.pending| then s
      else
        var signed := Resigned(s.(result := Some(valid), busy := s.busy.(validating := false)));
        signed.(
          validatedText := if valid then signed.editorText else None,
          accepted := if valid then s.accepted + {s.pending[i]} else s.accepted,
          pending := Without(s.pending, i))
    case ValidationFailed(i) =>
      if i >= |s.pending| then s
      else Unvalidated(s).(busy := s.busy.(validating := false), pending := Without(s.pending, i))
    case DetailArrived(v, config) => s.(details := s.details[v := config])
    case RefreshStarted => s.(busy := s.busy.(loading := true))
    case ListArrived(active) => s.(active := active)
    case RefreshSynced => Synced(page, s, s.active).(busy := s.busy.(loading := false))
    case RefreshFailed => s.(busy := s.busy.(loading := false))
    case CreateOpening => s.(selected := None)
    case CreateOpened => Resigned(Unvalidated(Synced(page, s, s.active))).(mode := Some(CreateMode))
    case EditOpened(v) =>
      Resigned(Unvalidated(Synced(page, s.(selected := Some(v)), v))).(mode := Some(EditMode))
    case ModalClosed => s.(mode := None)
    case SaveClicked => if CanSave(page, s) then Sent(s) else s
    case SaveSent => s.(busy := s.busy.(saving := true))
    case SaveReply(v, config) => s.(selected := Some(v), details := s.details[v := config])
    case SaveEnded => s.(mode := None, busy := s.busy.(saving := false))
    case SaveFailed => s.(busy := s.busy.(saving := false))
    case PublishStarted => s.(busy := s.busy.(publishing := true))
    case PublishReply => Unvalidated(s)
    case PublishEnded => s.(mode := None, busy := s.busy.(publishing := false))
    case PublishFailed => s.(busy := s.busy.(publishing := false))
    case ArchiveStarted => s.(busy := s.busy.(deleting := true))
    case ArchiveEnded => s.(busy := s.busy.(deleting := false))
    case Cleared =>
      Unvalidated(s).(details := map[], selected := None, editorText := None, mode := None)
  }

  function Execute(page: Page, s: State, steps: seq<Step>): State
    decreases |steps|
  {
    if steps == [] then s else Execute(page, Next(page, s, steps[0]), steps[1..])
  }

  lemma ReplyIs(page: Page, s: State, i: nat, valid: bool)
    ensures Next(page, s, ValidationReply(i, valid)) ==
            if i >= |s.pending| then s
            else
              var told := s.(result := Some(valid), busy := s.busy.(validating := false));
              told.(
                editorText := Some(Sign(told)),
                validatedText := if valid then Some(Sign(told)) else None,
                accepted := if valid then s.accepted + {s.pending[i]} else s.accepted,
                pending := Without(s.pending, i))
  {
    hide SECTIONS, Build, Without, Bundle, Sign;
  }

  // ----- the editor as an object whose handlers update its fields

  class ConfigEditor {
    const page: Page
    var details: map<nat, Json>
    var active: nat
    var selected: Option<nat>
    var form: Form
    var canManage: bool
    var mode: Option<Mode>
    var busy: Busy
    var editorText: Option<Signature>
    var validatedText: Option<Signature>
    var result: Option<bool>
    var pending: seq<Json>
    ghost var accepted: set<Json>
    ghost var saved: seq<Json>

    constructor (page: Page, active: nat, canManage: bool)
      ensures this.page == page
      ensures View() == State(map[], active, None, page.defaults, canManage, None, IDLE, None, None, None, [], {}, [])
    {
      this.page, this.active, this.canManage := page, active, canManage;
      details, selected, form, mode, busy := map[], None, page.defaults, None, IDLE;
      editorText, validatedText, result := None, None, None;
      pending, accepted, saved := [], {}, [];
    }

    ghost function View(): State
      reads this
    {
      State(details, active, selected, form, canManage, mode, busy, editorText, validatedText, result,
            pending, accepted, saved)
    }

    method BuildEditedActiveConfigBundle() returns (bundle: Json)
      ensures bundle == Bundle(View())
    {
      hide SECTIONS, Build;
      var edited := if selected.Some? then selected.value else active;
      var base := if edited in details then AsBundle(details[edited]) else Obj(map[]);
      bundle := BuildLoop(base, form, edited);
    }

    method ConfigFormSignature() returns (signature: Signature)
      ensures signature == Sign(View())
    {
      hide SECTIONS, Build, Bundle;
      var bundle := BuildEditedActiveConfigBundle();
      signature := Signature(selected, bundle);
    }

    method ResetValidation()
      modifies this`result, this`validatedText, this`editorText
      ensures View() == Resigned(Unvalidated(old(View())))
    {
      hide SECTIONS, Build;
      result, validatedText := None, None;
      var signature := ConfigFormSignature();
      editorText := Some(signature);
    }

    method UpdateField(changed: Form)
      modifies this
      ensures View() == Next(page, old(View()), EditField(changed))
    {
      hide SECTIONS, Build;
      form := changed;
      ResetValidation();
    }

    method SyncConfigFormFromVersion(version: nat)
      modifies this`form, this`editorText
      ensures View() == Synced(page, old(View()), version)
    {
      hide SECTIONS, Build, Hydrated;
      var config := if version in details then details[version]
                    else if active in details then details[active] else Obj(map[]);
      form := Hydrated(page.defaults, config);
      var signature := ConfigFormSignature();
      editorText := Some(signature);
    }

    method OnRefreshed()
      modifies this
      ensures View() == Next(page, old(View()), RefreshSynced)
    {
      hide SECTIONS, Build, Hydrated;
      SyncConfigFormFromVersion(active);
      busy := busy.(loading := false);
    }

    method OnCreateOpened()
      modifies this
      ensures View() == Next(page, old(View()), CreateOpened)
    {
      hide SECTIONS, Build, Hydrated;
      SyncConfigFormFromVersion(active);
      ResetValidation();
      mode := Some(CreateMode);
    }

    method OnEditOpened(version: nat)
      modifies this
      ensures View() == Next(page, old(View()), EditOpened(version))
    {
      hide SECTIONS, Build, Hydrated, Bundle, BaseConfig;
      selected := Some(version);
      SyncConfigFormFromVersion(version);
      ResetValidation();
      mode := Some(EditMode);
    }

    /** Up to the request: the bundle sent is the one built at the click. */
    method ValidateSelectedConfig()
      modifies this`pending
      ensures View() == Next(page, old(View()), StartValidation)
    {
      hide SECTIONS, Build;
      var bundle := BuildEditedActiveConfigBundle();
      pending := pending + [bundle];
    }

    /** The segment after the reply: the signature is taken now. */
    method OnValidated(i: nat, valid: bool)
      modifies this
      ensures View() == Next(page, old(View()), ValidationReply(i, valid))
    {
      hide SECTIONS, Build, Without, Bundle, Sign, Next;
      ReplyIs(page, View(), i, valid);
      if i >= |pending| {
        return;
      }
      result, busy := Some(valid), busy.(validating := false);
      var signature := ConfigFormSignature();
      editorText := Some(signature);
      validatedText := if valid then editorText else None;
      accepted := if valid then accepted + {pending[i]} else accepted;
      pending := Without(pending, i);
    }

    method OnValidationFailed(i: nat)
      modifies this
      ensures View() == Next(page, old(View()), ValidationFailed(i))
    {
      hide SECTIONS, Build, Without;
      if i < |pending| {
        result, validatedText, busy := None, None, busy.(validating := false);
        pending := Without(pending, i);
      }
    }

    /** The handler itself looks at the mode only; the button in front of it asks the gate. */
    method SaveSelectedDraft()
      modifies this`saved
      ensures View() == Sent(old(View()))
    {
      hide SECTIONS, Build;
      if !(mode == Some(EditMode) && selected.None?) {
        var bundle := BuildEditedActiveConfigBundle();
        saved := saved + [bundle];
      }
    }

    method OnSaveButton()
      modifies this`saved
      ensures View() == Next(page, old(View()), SaveClicked)
    {
      hide SECTIONS, Build;
      if mode.Some? && canManage && busy == IDLE && page.formOk(form)
         && result == Some(true) && validatedText.Some? && validatedText == editorText {
        SaveSelectedDraft();
      }
    }

    method OnSaved(version: nat, config: Json)
      modifies this
      ensures View() == Next(page, old(View()), SaveReply(version, config))
    {
      hide SECTIONS, Build;
      selected, details := Some(version), details[version := config];
    }
  }

  // ----- what an open gate is worth

  /** The step leaves the bundle alone while a validation is out. */
  predicate Rests(page: Page, s: State, step: Step) {
    s.pending != [] ==> Bundle(Next(page, s, step)) == Bundle(s)
  }

  predicate RestingRun(page: Page, s: State, steps: seq<Step>)
    decreases |steps|
  {
    steps == [] || (Rests(page, s, steps[0]) && RestingRun(page, Next(page, s, steps[0]), steps[1..]))
  }

  /** Validated bundles were accepted, and what is out for validation is what is built now. */
  predicate Sound(s: State) {
    && (s.validatedText.Some? ==> s.validatedText.value.bundle in s.accepted)
    && (forall b :: b in s.pending ==> b == Bundle(s))
  }

  /** The editor's text, if any, speaks of the bundle built now. */
  predicate Current(s: State) {
    s.editorText.Some? ==> s.editorText.value.bundle == Bundle(s)
  }

  /** What the bundle depends on. */
  predicate SameEdit(a: State, b: State) {
    a.details == b.details && a.active == b.active && a.selected == b.selected && a.form == b.form
  }

  lemma SameEditBundle(a: State, b: State)
    requires SameEdit(a, b)
    ensures Bundle(a) == Bundle(b)
  {
    hide SECTIONS, Build;
  }

  lemma WithoutMembers(pending: seq<Json>, i: nat)
    requires i < |pending|
    ensures forall b :: b in Without(pending, i) ==> b in pending
  {
  }

  lemma StepSound(page: Page, s: State, step: Step)
    requires Sound(s) && Rests(page, s, step)
    ensures Sound(Next(page, s, step))
  {
    hide SECTIONS, Build, Hydrated, Bundle, Without;
    var next := Next(page, s, step);
    match step
    case StartValidation => SameEditBundle(s, next);
    case ValidationReply(i, valid) =>
      ReplyIs(page, s, i, valid);
      if i < |s.pending| {
        SameEditBundle(s, next);
        SameEditBundle(s, s.(result := Some(valid), busy := s.busy.(validating := false)));
        WithoutMembers(s.pending, i);
        assert s.pending[i] in s.pending;
      }
    case ValidationAbandoned(i) => if i < |s.pending| { WithoutMembers(s.pending, i); }
    case ValidationFailed(i) => if i < |s.pending| { WithoutMembers(s.pending, i); }
    case _ =>
  }

  /**
   * In every run where nothing changes the bundle while a validation is out, an open gate with a
   * current text means the backend accepted exactly the bundle now built.
   */
  lemma {:induction false} CurrentGateIsAccepted(page: Page, s: State, steps: seq<Step>)
    requires Sound(s) && RestingRun(page, s, steps)
    ensures var last := Execute(page, s, steps);
            && Sound(last)
            && (CanSave(page, last) && Current(last) ==> Bundle(last) in last.accepted)
    decreases |steps|
  {
    hide SECTIONS, Build, Next, Bundle, Rests;
    if steps != [] {
      StepSound(page, s, steps[0]);
      CurrentGateIsAccepted(page, Next(page, s, steps[0]), steps[1..]);
    }
  }

  // ----- when the gate stands open over another bundle

  /** Exactly the steps that open, or leave open, the gate over a bundle its text does not speak of. */
  predicate OpensStale(page: Page, s: State, step: Step) {
    match step
    case ListArrived(active) => CanSave(page, s) && s.selected.None? && active != s.active
    case CreateOpening => CanSave(page, s) && s.selected.Some? && s.selected.value != s.active
    case DetailArrived(v, config) =>
      CanSave(page, s) && v == EditedVersion(s) && Build(AsBundle(config), s.form, v) != Bundle(s)
    case SaveReply(v, config) =>
      CanSave(page, s) && (v != EditedVersion(s) || Build(AsBundle(config), s.form, v) != Bundle(s))
    case RefreshFailed => CanSave(page, s.(busy := s.busy.(loading := false))) && !Current(s)
    case SaveFailed => CanSave(page, s.(busy := s.busy.(saving := false))) && !Current(s)
    case PublishFailed => CanSave(page, s.(busy := s.busy.(publishing := false))) && !Current(s)
    case ArchiveEnded => CanSave(page, s.(busy := s.busy.(deleting := false))) && !Current(s)
    case _ => false
  }

  predicate GateCurrent(page: Page, s: State) { CanSave(page, s) ==> Current(s) }

  lemma VersionPrinted(a: Json, form: Form, v: nat)
    requires a.Obj?
    ensures Field(Build(a, form, v), "config_version") == Some(Num(v as real))
  {
    hide MergeSections;
    SectionsPrintRecords();
  }

  lemma BundlesOfVersionsDiffer(a: Json, b: Json, form: Form, v: nat, w: nat)
    requires a.Obj? && b.Obj? && v != w
    ensures Build(a, form, v) != Build(b, form, w)
  {
    hide SECTIONS, Build;
    VersionPrinted(a, form, v);
    VersionPrinted(b, form, w);
  }

  lemma ListChangesBundle(s: State, active: nat)
    ensures Bundle(s.(active := active)) == Bundle(s) <==> s.selected.Some? || active == s.active
  {
    hide SECTIONS, Build;
    var next := s.(active := active);
    if s.selected.None? && active != s.active {
      BundlesOfVersionsDiffer(BaseConfig(s), BaseConfig(next), s.form, s.active, active);
    }
  }

  lemma CreateChangesBundle(s: State)
    ensures Bundle(s.(selected := None)) == Bundle(s) <==> s.selected.None? || s.selected.value == s.active
  {
    hide SECTIONS, Build;
    var next := s.(selected := None);
    if s.selected.Some? && s.selected.value != s.active {
      BundlesOfVersionsDiffer(BaseConfig(s), BaseConfig(next), s.form, s.selected.value, s.active);
    }
  }

  lemma DetailChangesBundle(s: State, v: nat, config: Json)
    ensures Bundle(s.(details := s.details[v := config]))
         == if v == EditedVersion(s) then Build(AsBundle(config), s.form, v) else Bundle(s)
  {
    hide SECTIONS, Build;
  }

  lemma SaveChangesBundle(s: State, v: nat, config: Json)
    ensures var next := s.(selected := Some(v), details := s.details[v := config]);
            && Bundle(next) == Build(AsBundle(config), s.form, v)
            && (v != EditedVersion(s) ==> Bundle(next) != Bundle(s))
  {
    hide SECTIONS, Build;
    if v != EditedVersion(s) {
      BundlesOfVersionsDiffer(BaseConfig(s), AsBundle(config), s.form, EditedVersion(s), v);
    }
  }

  /** Whether a step leaves the gate open with a stale text can be told before it. */
  lemma StepOpensStaleIff(page: Page, s: State, step: Step)
    requires GateCurrent(page, s)
    ensures !GateCurrent(page, Next(page, s, step)) <==> OpensStale(page, s, step)
  {
    hide SECTIONS, Build, Hydrated, Bundle, Without, EditedVersion, AsBundle;
    var next := Next(page, s, step);
    forall y: State | SameEdit(y, next) ensures Bundle(y) == Bundle(next) {
      SameEditBundle(y, next);
    }
    match step
    case ListArrived(active) => ListChangesBundle(s, active);
    case CreateOpening => CreateChangesBundle(s);
    case DetailArrived(v, config) => DetailChangesBundle(s, v, config);
    case SaveReply(v, config) => SaveChangesBundle(s, v, config);
    case ValidationReply(i, valid) => ReplyIs(page, s, i, valid);
    case _ =>
  }

  predicate AlwaysCurrent(page: Page, s: State, steps: seq<Step>)
    decreases |steps|
  {
    GateCurrent(page, s) && (steps == [] || AlwaysCurrent(page, Next(page, s, steps[0]), steps[1..]))
  }

  predicate NeverOpensStale(page: Page, s: State, steps: seq<Step>)
    decreases |steps|
  {
    steps == [] || (!OpensStale(page, s, steps[0]) && NeverOpensStale(page, Next(page, s, steps[0]), steps[1..]))
  }

  /** A run keeps every open gate current exactly when none of its steps is one of those. */
  lemma {:induction false} AlwaysCurrentIff(page: Page, s: State, steps: seq<Step>)
    requires GateCurrent(page, s)
    ensures AlwaysCurrent(page, s, steps) <==> NeverOpensStale(page, s, steps)
    decreases |steps|
  {
    hide SECTIONS, Build, Next, Bundle, OpensStale, GateCurrent;
    if steps != [] {
      var next := Next(page, s, steps[0]);
      StepOpensStaleIff(page, s, steps[0]);
      if GateCurrent(page, next) {
        AlwaysCurrentIff(page, next, steps[1..]);
      }
    }
  }

  predicate SavedAccepted(s: State) { forall b :: b in s.saved ==> b in s.accepted }

  lemma StepSavesAccepted(page: Page, s: State, step: Step)
    requires Sound(s) && GateCurrent(page, s) && SavedAccepted(s)
    ensures SavedAccepted(Next(page, s, step))
  {
    hide SECTIONS, Build, Hydrated, Bundle, Without;
  }

  /**
   * Over a resting run without such a step, past saves, refreshes and reopened modals, an open gate
   * means the backend accepted exactly the bundle now built, and only accepted bundles were ever
   * sent to be saved.
   */
  lemma {:induction false} OpenGateIsAccepted(page: Page, s: State, steps: seq<Step>)
    requires Sound(s) && GateCurrent(page, s) && SavedAccepted(s)
    requires RestingRun(page, s, steps) && NeverOpensStale(page, s, steps)
    ensures var last := Execute(page, s, steps);
            && (CanSave(page, last) ==> Bundle(last) in last.accepted)
            && SavedAccepted(last)
    decreases |steps|
  {
    hide SECTIONS, Build, Next, Bundle, OpensStale, Rests, CanValidate;
    if steps != [] {
      StepSound(page, s, steps[0]);
      StepOpensStaleIff(page, s, steps[0]);
      StepSavesAccepted(page, s, steps[0]);
      OpenGateIsAccepted(page, Next(page, s, steps[0]), steps[1..]);
    }
  }

  lemma NeverStaleCons(page: Page, s: State, step: Step, rest: seq<Step>)
    ensures NeverOpensStale(page, s, [step] + rest)
       <==> !OpensStale(page, s, step) && NeverOpensStale(page, Next(page, s, step), rest)
  {
    hide SECTIONS, Build, Next, OpensStale;
    assert ([step] + rest)[1..] == rest;
  }

  lemma SavingKeepsClosed(page: Page, s: State, step: Step)
    requires s.busy.saving && (step.SaveReply? || step.RefreshStarted? || step.ListArrived? || step.RefreshSynced?)
    ensures !OpensStale(page, s, step) && Next(page, s, step).busy.saving
  {
    hide SECTIONS, Build, Bundle, Hydrated;
  }

  lemma ModalKeepsClosed(page: Page, s: State)
    ensures !OpensStale(page, s, SaveEnded) && Next(page, s, SaveEnded).mode == None
    ensures s.mode == None ==> !OpensStale(page, s, CreateOpening)
    ensures !OpensStale(page, s, CreateOpened)
  {
    hide SECTIONS, Build, Bundle, Hydrated;
  }

  /** The steps that end a save, refresh the list and open the editor anew are none of them. */
  lemma SaveRoundNeverOpensStale(page: Page, s: State, v: nat, config: Json, active: nat)
    requires s.busy.saving
    ensures NeverOpensStale(page, s,
              [SaveReply(v, config)] + ([RefreshStarted] + ([ListArrived(active)] + ([RefreshSynced]
              + ([SaveEnded] + ([CreateOpening] + ([CreateOpened] + [])))))))
  {
    hide SECTIONS, NeverOpensStale, Next, OpensStale;
    var s1 := Next(page, s, SaveReply(v, config));
    var s2 := Next(page, s1, RefreshStarted);
    var s3 := Next(page, s2, ListArrived(active));
    var s4 := Next(page, s3, RefreshSynced);
    var s5 := Next(page, s4, SaveEnded);
    var s6 := Next(page, s5, CreateOpening);
    SavingKeepsClosed(page, s, SaveReply(v, config));
    SavingKeepsClosed(page, s1, RefreshStarted);
    SavingKeepsClosed(page, s2, ListArrived(active));
    SavingKeepsClosed(page, s3, RefreshSynced);
    ModalKeepsClosed(page, s4);
    ModalKeepsClosed(page, s5);
    ModalKeepsClosed(page, s6);
    var e7 := [CreateOpened] + [];
    var e6 := [CreateOpening] + e7;
    var e5 := [SaveEnded] + e6;
    var e4 := [RefreshSynced] + e5;
    var e3 := [ListArrived(active)] + e4;
    NothingOpensStale(page, Next(page, s6, CreateOpened));
    NeverStaleCons(page, s6, CreateOpened, []);
    NeverStaleCons(page, s5, CreateOpening, e7);
    NeverStaleCons(page, s4, SaveEnded, e6);
    NeverStaleCons(page, s3, RefreshSynced, e5);
    NeverStaleCons(page, s2, ListArrived(active), e4);
    NeverStaleCons(page, s1, RefreshStarted, e3);
    NeverStaleCons(page, s, SaveReply(v, config), [RefreshStarted] + e3);
  }

  lemma NothingOpensStale(page: Page, s: State)
    ensures NeverOpensStale(page, s, [])
  {
  }

  /** Where the gate does stand open with a stale text, the bundle built is not the one it was opened for. */
  lemma StaleGateIsUnbacked(page: Page, s: State)
    requires CanSave(page, s)
    ensures Current(s) <==> Bundle(s) == s.validatedText.value.bundle
  {
    hide SECTIONS, Build, Bundle;
  }

  // ----- the two ways to get there

  lemma ThreeSteps(page: Page, s: State, a: Step, b: Step, c: Step)
    ensures Execute(page, s, [a, b, c]) == Next(page, Next(page, Next(page, s, a), b), c)
  {
    hide Next;
    assert [a, b, c][1..] == [b, c] && [b, c][1..] == [c] && [c][1..] == [];
    var s1 := Next(page, s, a);
    var s2 := Next(page, s1, b);
    assert Execute(page, s2, [c]) == Execute(page, Next(page, s2, c), []);
    assert Execute(page, s1, [b, c]) == Execute(page, s2, [c]);
  }

  /**
   * A refresh that reads the list and then fails leaves an open gate open. The bundle then built is
   * the one the gate was opened for iff a version was selected or the active version is still the
   * same; where the backend has accepted no other, it is an accepted one iff so.
   */
  lemma FailedRefreshIff(page: Page, s: State, active: nat)
    requires CanSave(page, s) && Current(s)
    ensures var last := Execute(page, s, [RefreshStarted, ListArrived(active), RefreshFailed]);
            && CanSave(page, last)
            && (Current(last) <==> s.selected.Some? || active == s.active)
            && (s.accepted == {s.validatedText.value.bundle} ==>
                  (Bundle(last) in last.accepted <==> s.selected.Some? || active == s.active))
  {
    hide SECTIONS, Build, Bundle, Execute;
    ThreeSteps(page, s, RefreshStarted, ListArrived(active), RefreshFailed);
    RefreshIs(page, s, active);
    ListChangesBundle(s, active);
  }

  lemma RefreshIs(page: Page, s: State, active: nat)
    requires s.busy == IDLE
    ensures Next(page, Next(page, Next(page, s, RefreshStarted), ListArrived(active)), RefreshFailed)
         == s.(active := active)
  {
    hide SECTIONS, Build, Bundle;
  }

  /**
   * A positive reply opens the gate's text comparison in any state. The bundle now built is
   * accepted iff it is the one that was sent, or one accepted before.
   */
  lemma ReplyAcceptsIffUnchanged(page: Page, s: State, i: nat)
    requires i < |s.pending|
    ensures var next := Next(page, s, ValidationReply(i, true));
            && Fresh(next) && Current(next)
            && (Bundle(next) in next.accepted <==> Bundle(s) == s.pending[i] || Bundle(s) in s.accepted)
  {
    hide SECTIONS, Build, Bundle, Without;
    ReplyIs(page, s, i, true);
    var next := Next(page, s, ValidationReply(i, true));
    SameEditBundle(s, next);
    SameEditBundle(s.(result := Some(true), busy := s.busy.(validating := false)), next);
  }

  lemma ReplyKeeps(page: Page, s: State, i: nat, valid: bool)
    requires i < |s.pending|
    ensures var next := Next(page, s, ValidationReply(i, valid));
            && next.mode == s.mode && next.canManage == s.canManage && next.form == s.form
            && next.busy == s.busy.(validating := false)
  {
    hide SECTIONS, Build, Bundle, Sign, Without;
  }

  /** The editor just opened, nothing validated yet. */
  predicate Opened(page: Page, s: State) {
    CanValidate(page, s) && s.pending == [] && s.accepted == {}
  }

  /**
   * An edit while the validation request is out: the reply opens the gate over the edited form.
   * The bundle then built is an accepted one iff the edit did not change it.
   */
  lemma EditInFlightIff(page: Page, s: State, edited: Form)
    requires Opened(page, s) && page.formOk(edited)
    ensures var last := Execute(page, s, [StartValidation, EditField(edited), ValidationReply(0, true)]);
            && CanSave(page, last) && last.form == edited
            && (Bundle(last) in last.accepted <==> Bundle(s.(form := edited)) == Bundle(s))
  {
    hide SECTIONS, Build, Bundle, BaseConfig, Execute, Without, Next, Sign, Fresh;
    ThreeSteps(page, s, StartValidation, EditField(edited), ValidationReply(0, true));
    var out := Resigned(Unvalidated(s.(pending := [Bundle(s)], form := edited)));
    EditWhileOut(page, s, edited);
    ReplyKeeps(page, out, 0, true);
    ReplyAcceptsIffUnchanged(page, out, 0);
    SameEditBundle(out, s.(form := edited));
  }

  lemma EditWhileOut(page: Page, s: State, edited: Form)
    requires s.pending == []
    ensures Next(page, Next(page, s, StartValidation), EditField(edited))
         == Resigned(Unvalidated(s.(pending := [Bundle(s)], form := edited)))
  {
    hide SECTIONS, Build, Bundle, Sign;
    assert s.pending + [Bundle(s)] == [Bundle(s)];
  }

  /** Any edit in range that changes an editable field, beyond white space around the key reference, does. */
  lemma EditInFlightOpensGate(page: Page, s: State, edited: Form, section: Section, f: string)
    requires Opened(page, s) && page.formOk(edited) && FormInRange(s.form) && FormInRange(edited)
    requires section in SECTIONS && f in section.fields
    requires Get(Normalised(s.form), f) != Get(Normalised(edited), f)
    ensures var last := Execute(page, s, [StartValidation, EditField(edited), ValidationReply(0, true)]);
            CanSave(page, last) && Bundle(last) !in last.accepted
  {
    hide SECTIONS, Build, Execute, FormInRange, Normalised, CanSave, Opened;
    EditInFlightIff(page, s, edited);
    BuildsDiffer(BaseConfig(s), s.form, edited, EditedVersion(s), section, f);
  }
}
