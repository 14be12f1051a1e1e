/** The editor across saving and opening: which stored bundle the form shows, when a save goes out, and what it holds. */
module ConfigOpened {
  import opened Util
  import opened JsonValue
  import opened ConfigMerge
  import opened ConfigSecrets
  import opened ConfigForm
  import opened ConfigTable
  import opened ConfigBundle
  import opened ConfigLaws
  import opened ConfigSaved
  import opened ConfigGate

  // ----- what the form shows

  /** The stored bundle a step puts on the screen: the opened version's, else the active one's, else none. */
  ghost predicate Opens(s: State, step: Step, config: Option<Json>) {
    var fallback := if s.active in s.details then Some(s.details[s.active]) else None;
    || (step.EditOpened? && step.version in s.details && config == Some(s.details[step.version]))
    || (step.EditOpened? && step.version !in s.details && config == fallback)
    || (step in {CreateOpened, RefreshSynced} && config == fallback)
  }

  lemma OpenedForm(page: Page, s: State, step: Step, config: Option<Json>)
    requires Opens(s, step, config)
    ensures Next(page, s, step).form == Hydrated(page.defaults, if config.Some? then config.value else Obj(map[]))
  {
    hide SECTIONS, Build, Hydrated, Bundle;
  }

  /** Opening shows, in each field read from one place, the stored value there if the field can hold it, else the default. */
  lemma OpeningShowsStored(page: Page, s: State, step: Step, config: Option<Json>, e: Entry)
    requires Opens(s, step, config) && e in Readers(SECTIONS) && ReadOnce(Readers(SECTIONS), e.field)
    ensures var found := if config.Some? then ValueAt(config.value, e.path) else None;
            Get(Next(page, s, step).form, e.field)
            == if found.Some? && found.value in Values(e.coercion) then found.value else Get(page.defaults, e.field)
  {
    hide SECTIONS, Next, Readers, Values, ReadOnce;
    OpenedForm(page, s, step, config);
    var shown := if config.Some? then config.value else Obj(map[]);
    HydratedField(page.defaults, shown, Readers(SECTIONS), e);
    PathsInside(e);
    assert config.None? ==> ValueAt(shown, e.path) == None;
  }

  lemma PathsInside(e: Entry)
    requires e in Readers(SECTIONS)
    ensures e.path != []
  {
    hide SECTIONS, Readers;
    ReaderOrigin(SECTIONS, e);
  }

  /** What a field shows of the form a bundle was saved from: its value, the key reference trimmed. */
  function AsSaved(form: Form, field: string): Json {
    var value := Get(form, field);
    if field == "qdrantApiKeyRef" && value.Str? then Str(Trim(value.s, JsSpace)) else value
  }

  /** Opening a version saved from a form, whatever it was saved over, shows that form. */
  lemma OpeningShowsSaved(page: Page, s: State, step: Step, stored: Json, form: Form, version: nat, section: Section, f: string)
    requires stored.Obj? && FormInRange(form) && Get(page.defaults, "qdrantApiKeyRef") == Str("")
    requires Opens(s, step, Some(Build(stored, form, version))) && section in SECTIONS && f in section.fields
    ensures Get(Next(page, s, step).form, f) == AsSaved(form, f)
  {
    hide SECTIONS, Build, Next, Hydrated, FormInRange, Trim, JsSpace;
    OpenedForm(page, s, step, Some(Build(stored, form, version)));
    HydratingReturnsForm(stored, form, version, page.defaults, section, f);
  }

  /** Saving as version v and opening v again shows the form as it was saved, whichever version is active by then. */
  lemma SaveThenEdit(page: Page, s: State, v: nat, active: nat, section: Section, f: string)
    requires FormInRange(s.form) && Get(page.defaults, "qdrantApiKeyRef") == Str("")
    requires section in SECTIONS && f in section.fields
    ensures var shown := Execute(page, s,
              [SaveReply(v, Bundle(s)), RefreshStarted, ListArrived(active), RefreshSynced, SaveEnded, EditOpened(v)]);
            shown.mode == Some(EditMode) && shown.selected == Some(v) && Get(shown.form, f) == AsSaved(s.form, f)
  {
    hide SECTIONS, Next, Execute, FormInRange, Build, AsSaved, Hydrated, Bundle;
    var s5 := AfterSave(page, s, v, active);
    SavedDetails(page, s, v, active, s5);
    assert Opens(s5, EditOpened(v), Some(Bundle(s)));
    BundleIsBuild(s);
    OpeningShowsSaved(page, s5, EditOpened(v), BaseConfig(s), s.form, EditedVersion(s), section, f);
    EditSelects(page, s5, v);
    SixSteps(page, s, v, active);
  }

  lemma BundleIsBuild(s: State)
    ensures Bundle(s) == Build(BaseConfig(s), s.form, EditedVersion(s))
  {
    hide SECTIONS, Build;
  }

  function AfterSave(page: Page, s: State, v: nat, active: nat): State {
    var s1 := Next(page, s, SaveReply(v, Bundle(s)));
    var s2 := Next(page, s1, RefreshStarted);
    var s3 := Next(page, s2, ListArrived(active));
    var s4 := Next(page, s3, RefreshSynced);
    Next(page, s4, SaveEnded)
  }

  lemma DetailsStay(page: Page, s: State, step: Step)
    requires step.RefreshStarted? || step.ListArrived? || step.RefreshSynced? || step.SaveEnded?
    ensures Next(page, s, step).details == s.details
  {
    hide SECTIONS, Build, Hydrated, Bundle;
  }

  lemma SavedDetails(page: Page, s: State, v: nat, active: nat, s5: State)
    requires s5 == AfterSave(page, s, v, active)
    ensures s5.details == s.details[v := Bundle(s)]
  {
    hide SECTIONS, Next, Bundle;
    var s1 := Next(page, s, SaveReply(v, Bundle(s)));
    var s2 := Next(page, s1, RefreshStarted);
    var s3 := Next(page, s2, ListArrived(active));
    ReplyStores(page, s, v, Bundle(s));
    DetailsStay(page, s1, RefreshStarted);
    DetailsStay(page, s2, ListArrived(active));
    DetailsStay(page, s3, RefreshSynced);
    DetailsStay(page, Next(page, s3, RefreshSynced), SaveEnded);
  }

  lemma ReplyStores(page: Page, s: State, v: nat, config: Json)
    ensures Next(page, s, SaveReply(v, config)).details == s.details[v := config]
  {
    hide SECTIONS, Build, Hydrated, Bundle;
  }

  lemma EditSelects(page: Page, s: State, v: nat)
    ensures Next(page, s, EditOpened(v)).mode == Some(EditMode) && Next(page, s, EditOpened(v)).selected == Some(v)
  {
    hide SECTIONS, Build, Hydrated, Bundle;
  }

  lemma SixSteps(page: Page, s: State, v: nat, active: nat)
    ensures Execute(page, s,
              [SaveReply(v, Bundle(s)), RefreshStarted, ListArrived(active), RefreshSynced, SaveEnded, EditOpened(v)])
         == Next(page, AfterSave(page, s, v, active), EditOpened(v))
  {
    hide SECTIONS, Next, Bundle, Execute;
    var a, b, c, d, e, f := SaveReply(v, Bundle(s)), RefreshStarted, ListArrived(active), RefreshSynced, SaveEnded, EditOpened(v);
    ExecuteStep(page, s, a, [b, c, d, e, f]);
    assert [a] + [b, c, d, e, f] == [a, b, c, d, e, f];
    var s1 := Next(page, s, a);
    ExecuteStep(page, s1, b, [c, d, e, f]);
    assert [b] + [c, d, e, f] == [b, c, d, e, f];
    var s2 := Next(page, s1, b);
    ExecuteStep(page, s2, c, [d, e, f]);
    assert [c] + [d, e, f] == [c, d, e, f];
    var s3 := Next(page, s2, c);
    ConfigGate.ThreeSteps(page, s3, d, e, f);
  }

  lemma ExecuteStep(page: Page, s: State, step: Step, rest: seq<Step>)
    ensures Execute(page, s, [step] + rest) == Execute(page, Next(page, s, step), rest)
  {
    hide SECTIONS, Next;
    assert ([step] + rest)[0] == step && ([step] + rest)[1..] == rest;
  }

  // ----- what a save sends

  /** Everything the save button asks for, field by field. */
  predicate SaveAllowed(page: Page, s: State) {
    && (s.mode == Some(CreateMode) || (s.mode == Some(EditMode) && s.selected.Some?))
    && s.canManage
    && !s.busy.loading && !s.busy.validating && !s.busy.saving && !s.busy.publishing && !s.busy.deleting
    && page.formOk(s.form)
    && s.result == Some(true)
    && s.validatedText.Some? && s.editorText == s.validatedText
  }

  /** A click saves one bundle exactly under those conditions, and nothing otherwise. */
  lemma SaveClickedIff(page: Page, s: State)
    ensures var saved := Next(page, s, SaveClicked).saved;
            && (saved != s.saved <==> SaveAllowed(page, s))
            && (saved != s.saved ==> |saved| == |s.saved| + 1 && saved[..|s.saved|] == s.saved)
  {
    hide SECTIONS, Build, Bundle;
    assert |s.saved + [Bundle(s)]| == |s.saved| + 1;
    var busy := s.busy;
    assert busy == Busy(busy.loading, busy.validating, busy.saving, busy.publishing, busy.deleting);
    if s.mode.Some? {
      assert s.mode.value.CreateMode? || s.mode.value.EditMode?;
    }
  }

  /**
   * The bundle a click saves carries the number of the version edited, and the other sections and the secret
   * references of that version's stored bundle.
   */
  lemma SavedBundleKeeps(page: Page, s: State, b: Json, key: string, path: seq<string>)
    requires Next(page, s, SaveClicked).saved == s.saved + [b] && FlatForm(s.form) && SecretPath(path)
    requires key !in {"schema_version", "config_version", "scope"} && forall t :: t in SECTIONS ==> t.key != key
    ensures var v := if s.selected.Some? then s.selected.value else s.active;
            && Field(b, "config_version") == Some(Num(v as real))
            && Field(b, key) == (if v in s.details then Field(s.details[v], key) else None)
            && ValueAt(b, path) == SecretAfter(if v in s.details then ValueAt(s.details[v], path) else None)
  {
    hide SECTIONS, Build, SecretPath, HoldsText, Next;
    SentIsBundle(page, s, b);
    var base, v := BaseConfig(s), EditedVersion(s);
    SavedHeader(base, s.form, v);
    OtherSectionsKept(base, s.form, v, key);
    BuildKeepsSecret(base, s.form, v, path);
    NothingInside(path);
  }

  /** And it carries the values on the screen: reading it back shows them again. */
  lemma SavedBundleShows(page: Page, s: State, b: Json, section: Section, f: string)
    requires Next(page, s, SaveClicked).saved == s.saved + [b]
    requires section in SECTIONS && f in section.fields
    requires FormInRange(s.form) && Get(page.defaults, "qdrantApiKeyRef") == Str("")
    ensures Get(Hydrated(page.defaults, b), f) == AsSaved(s.form, f)
  {
    hide SECTIONS, Build, FormInRange, Hydrated, Trim, JsSpace, Next;
    SentIsBundle(page, s, b);
    HydratingReturnsForm(BaseConfig(s), s.form, EditedVersion(s), page.defaults, section, f);
  }

  lemma SentIsBundle(page: Page, s: State, b: Json)
    requires Next(page, s, SaveClicked).saved == s.saved + [b]
    ensures b == Build(BaseConfig(s), s.form, EditedVersion(s))
  {
    hide SECTIONS, Build, CanSave;
    assert (s.saved + [b])[|s.saved|] == b;
  }

  lemma NothingInside(path: seq<string>)
    requires SecretPath(path)
    ensures forall value: Json :: !value.Obj? || value == Obj(map[]) ==> ValueAt(value, path) == None
  {
  }

  // ----- runs that save nothing

  lemma StepSaves(page: Page, s: State, step: Step)
    ensures Next(page, s, step).saved != s.saved ==> step == SaveClicked && SaveAllowed(page, s)
  {
    hide SECTIONS, Build, Bundle, Hydrated, CanSave, BaseConfig, Without;
    SaveClickedIff(page, s);
    if step != SaveClicked {
      OthersSaveNothing(page, s, step);
    }
  }

  lemma OthersSaveNothing(page: Page, s: State, step: Step)
    requires step != SaveClicked
    ensures Next(page, s, step).saved == s.saved
  {
    hide SECTIONS, Build, Bundle, Hydrated, CanSave, BaseConfig, Without;
  }

  lemma StepKeeps(page: Page, s: State, step: Step)
    ensures Next(page, s, step).canManage == s.canManage
    ensures s.result != Some(true) && !(step.ValidationReply? && step.valid) ==> Next(page, s, step).result != Some(true)
    ensures s.mode == None && step != CreateOpened && !step.EditOpened? ==> Next(page, s, step).mode == None
  {
    hide SECTIONS, Build, Bundle, Hydrated, CanSave, BaseConfig, Without;
  }

  /** Without a positive reply nothing is saved, from a page where none stands. */
  lemma {:induction false} UnvalidatedNeverSaves(page: Page, s: State, steps: seq<Step>)
    requires s.result != Some(true) && forall step :: step in steps ==> !(step.ValidationReply? && step.valid)
    ensures Execute(page, s, steps).saved == s.saved
    decreases |steps|
  {
    hide SECTIONS, Next;
    if steps != [] {
      assert steps[0] in steps && forall step :: step in steps[1..] ==> step in steps;
      StepSaves(page, s, steps[0]);
      StepKeeps(page, s, steps[0]);
      UnvalidatedNeverSaves(page, Next(page, s, steps[0]), steps[1..]);
    }
  }

  /** Nor without the right to manage. */
  lemma {:induction false} ReadersNeverSave(page: Page, s: State, steps: seq<Step>)
    requires !s.canManage
    ensures Execute(page, s, steps).saved == s.saved
    decreases |steps|
  {
    hide SECTIONS, Next;
    if steps != [] {
      StepSaves(page, s, steps[0]);
      StepKeeps(page, s, steps[0]);
      ReadersNeverSave(page, Next(page, s, steps[0]), steps[1..]);
    }
  }

  /** Nor while the editor stays closed. */
  lemma {:induction false} ClosedNeverSaves(page: Page, s: State, steps: seq<Step>)
    requires s.mode == None && forall step :: step in steps ==> step != CreateOpened && !step.EditOpened?
    ensures Execute(page, s, steps).saved == s.saved
    decreases |steps|
  {
    hide SECTIONS, Next;
    if steps != [] {
      assert steps[0] in steps && forall step :: step in steps[1..] ==> step in steps;
      StepSaves(page, s, steps[0]);
      StepKeeps(page, s, steps[0]);
      ClosedNeverSaves(page, Next(page, s, steps[0]), steps[1..]);
    }
  }

  /** What takes a positive reply back: an edit, an opened editor, a negative or failed reply, a publication, clearing. */
  lemma ClosingSteps(page: Page, s: State, step: Step)
    requires step.EditField? || step.CreateOpened? || step.EditOpened? || step.PublishReply? || step.Cleared?
             || (step.ValidationReply? && !step.valid && step.index < |s.pending|)
             || (step.ValidationFailed? && step.index < |s.pending|)
    ensures Next(page, s, step).result != Some(true) && Next(page, s, step).validatedText == None
  {
    hide SECTIONS, Build, Bundle, Hydrated, Without;
  }

  /** The request a step starts is still out. */
  predicate Out(s: State, start: Step) {
    match start
    case ValidationSent => s.busy.validating
    case RefreshStarted => s.busy.loading
    case SaveSent => s.busy.saving
    case PublishStarted => s.busy.publishing
    case ArchiveStarted => s.busy.deleting
    case _ => false
  }

  /** The step ends the request that the other one started. */
  predicate Ends(start: Step, step: Step) {
    match start
    case ValidationSent => step.ValidationReply? || step.ValidationFailed?
    case RefreshStarted => step.RefreshSynced? || step.RefreshFailed?
    case SaveSent => step.SaveEnded? || step.SaveFailed?
    case PublishStarted => step.PublishEnded? || step.PublishFailed?
    case ArchiveStarted => step.ArchiveEnded?
    case _ => true
  }

  /** The busy flags after a step; a reply to no pending request changes nothing. */
  function BusyAfter(b: Busy, step: Step, pending: nat): Busy {
    match step
    case ValidationSent => b.(validating := true)
    case ValidationReply(i, _) => if i < pending then b.(validating := false) else b
    case ValidationFailed(i) => if i < pending then b.(validating := false) else b
    case RefreshStarted => b.(loading := true)
    case RefreshSynced => b.(loading := false)
    case RefreshFailed => b.(loading := false)
    case SaveSent => b.(saving := true)
    case SaveEnded => b.(saving := false)
    case SaveFailed => b.(saving := false)
    case PublishStarted => b.(publishing := true)
    case PublishEnded => b.(publishing := false)
    case PublishFailed => b.(publishing := false)
    case ArchiveStarted => b.(deleting := true)
    case ArchiveEnded => b.(deleting := false)
    case _ => b
  }

  lemma SameBusy(page: Page, s: State, version: nat)
    ensures Synced(page, s, version).busy == s.busy && Resigned(s).busy == s.busy && Unvalidated(s).busy == s.busy
    ensures Sent(s).busy == s.busy
  {
    hide SECTIONS, Build, Bundle, Hydrated;
  }

  lemma BusyIs(page: Page, s: State, step: Step)
    ensures Next(page, s, step).busy == BusyAfter(s.busy, step, |s.pending|)
  {
    hide SECTIONS, Bundle, Synced, Resigned, Unvalidated, Sent, CanSave, Without, Sign;
    forall t: State, v: nat ensures Synced(page, t, v).busy == t.busy { SameBusy(page, t, v); }
    forall t: State ensures Resigned(t).busy == t.busy { SameBusy(page, t, 0); }
    forall t: State ensures Unvalidated(t).busy == t.busy { SameBusy(page, t, 0); }
    forall t: State ensures Sent(t).busy == t.busy { SameBusy(page, t, 0); }
  }

  lemma StepStaysOut(page: Page, s: State, start: Step, step: Step)
    requires Out(s, start) && !Ends(start, step)
    ensures Out(Next(page, s, step), start)
  {
    hide SECTIONS, Next;
    BusyIs(page, s, step);
  }

  lemma Starts(page: Page, s: State, start: Step)
    requires start in {ValidationSent, RefreshStarted, SaveSent, PublishStarted, ArchiveStarted}
    ensures Out(Next(page, s, start), start)
  {
    hide SECTIONS, Build, Bundle, Hydrated, CanSave, BaseConfig, Without;
  }

  lemma OutIsBusy(page: Page, s: State, start: Step)
    ensures Out(s, start) ==> !SaveAllowed(page, s)
  {
  }

  lemma {:induction false} OutNeverSaves(page: Page, s: State, start: Step, steps: seq<Step>)
    requires Out(s, start) && forall step :: step in steps ==> !Ends(start, step)
    ensures Execute(page, s, steps).saved == s.saved
    decreases |steps|
  {
    hide SECTIONS, Next, Out, Ends, SaveAllowed;
    if steps != [] {
      assert steps[0] in steps && forall step :: step in steps[1..] ==> step in steps;
      OutIsBusy(page, s, start);
      StepSaves(page, s, steps[0]);
      StepStaysOut(page, s, start, steps[0]);
      OutNeverSaves(page, Next(page, s, steps[0]), start, steps[1..]);
    }
  }

  /** Nor between the start of a validation, refresh, save, publication or archiving and its end. */
  lemma BusyNeverSaves(page: Page, s: State, start: Step, steps: seq<Step>)
    requires start in {ValidationSent, RefreshStarted, SaveSent, PublishStarted, ArchiveStarted}
    requires forall step :: step in steps ==> !Ends(start, step)
    ensures Execute(page, Next(page, s, start), steps).saved == s.saved
  {
    hide SECTIONS, Next, Out, Ends;
    Starts(page, s, start);
    OthersSaveNothing(page, s, start);
    OutNeverSaves(page, Next(page, s, start), start, steps);
  }

  /** After clearing the page every opening shows the defaults, in an editor that was closed. */
  lemma ClearingForgets(page: Page, s: State, step: Step)
    requires step.EditOpened? || step in {CreateOpened, RefreshSynced}
    ensures var cleared := Next(page, s, Cleared);
            cleared.mode == None && cleared.selected == None && Opens(cleared, step, None)
  {
    hide SECTIONS, Build, Bundle, Hydrated;
  }
}
