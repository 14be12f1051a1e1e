/**
 * Department access rules of a knowledge base: building them from department ids, reading the ids
 * back, the permission form that is saved and synced again, and the parent checks that use the rules.
 */
module PermissionRules {
  import opened Util
  import opened JsonValue

  datatype Rule = Rule(subjectType: string, subjectId: string, permission: string)

  datatype KnowledgeBase = KnowledgeBase(
    visibility: string,
    documentVisibility: string,
    owner: Option<string>,
    documentOwner: Option<string>,
    rules: Option<seq<Rule>>)

  datatype PermissionForm = PermissionForm(
    visibility: string, documentVisibility: string, documentOwner: string, access: seq<string>)

  const ENTERPRISE := "enterprise"

  // ----- rules

  function LetsQuery(): Rule -> bool {
    (rule: Rule) => rule.subjectType == "department" && rule.permission in ["query", "manage"]
  }

  function Subjects(rules: seq<Rule>): seq<string> {
    if rules == [] then [] else [rules[0].subjectId] + Subjects(rules[1..])
  }

  function RulesOf(kb: KnowledgeBase): seq<Rule> { if kb.rules.Some? then kb.rules.value else [] }

  /** `queryDepartmentIdsForKnowledgeBase`. */
  function QueryIds(rules: seq<Rule>): seq<string> { Dedup(Subjects(Filter(rules, LetsQuery()))) }

  function DepartmentRules(id: string): seq<Rule> {
    [Rule("department", id, "discover"), Rule("department", id, "query"), Rule("department", id, "manage")]
  }

  function RulesFor(ids: seq<string>): seq<Rule> {
    if ids == [] then [] else RulesFor(ids[..|ids| - 1]) + DepartmentRules(ids[|ids| - 1])
  }

  function NonEmpty(): string -> bool { (id: string) => id != "" }

  function Cleaned(ids: seq<string>): seq<string> { Dedup(Filter(ids, NonEmpty())) }

  /** `buildDepartmentKnowledgeBaseAccessRules`. */
  function BuildRules(ids: seq<string>): seq<Rule> { RulesFor(Cleaned(ids)) }

  lemma SubjectsStep(a: seq<Rule>, b: seq<Rule>)
    requires a != []
    ensures Subjects(a) == [a[0].subjectId] + Subjects(a[1..])
    ensures Subjects(a + b) == [a[0].subjectId] + Subjects(a[1..] + b)
  {
    assert (a + b)[0] == a[0] && (a + b)[1..] == a[1..] + b;
  }

  lemma {:induction false} SubjectsAppend(a: seq<Rule>, b: seq<Rule>)
    ensures Subjects(a + b) == Subjects(a) + Subjects(b)
  {
    if a == [] {
      assert a + b == b;
    } else {
      hide Subjects;
      SubjectsStep(a, b);
      SubjectsAppend(a[1..], b);
      ConcatAssociative([a[0].subjectId], Subjects(a[1..]), Subjects(b));
    }
  }

  lemma QuerySubjectsSnoc(rules: seq<Rule>, rule: Rule)
    ensures Subjects(Filter(rules + [rule], LetsQuery()))
            == Subjects(Filter(rules, LetsQuery())) + if LetsQuery()(rule) then [rule.subjectId] else []
  {
    var kept := if LetsQuery()(rule) then [rule] else [];
    FilterAppend(rules, [rule], LetsQuery());
    assert Filter([rule], LetsQuery()) == kept;
    SubjectsAppend(Filter(rules, LetsQuery()), kept);
  }

  method QueryDepartmentIds(kb: KnowledgeBase) returns (ids: seq<string>)
    ensures ids == QueryIds(RulesOf(kb))
  {
    hide Dedup, Filter, Subjects;
    var rules := RulesOf(kb);
    ids := [];
    QueryIdsOfNothing();
    assert rules[..0] == [];
    for i := 0 to |rules|
      invariant ids == QueryIds(rules[..i])
    {
      var rule := rules[i];
      assert rules[..i + 1] == rules[..i] + [rule];
      QuerySubjectsSnoc(rules[..i], rule);
      var before := Subjects(Filter(rules[..i], LetsQuery()));
      assert before + [] == before;
      if rule.subjectType == "department" && (rule.permission == "query" || rule.permission == "manage") {
        DedupSnoc(before, rule.subjectId);
        if rule.subjectId !in ids {
          ids := ids + [rule.subjectId];
        }
      }
    }
    assert rules[..|rules|] == rules;
  }

  lemma QueryIdsOfNothing()
    ensures QueryIds([]) == []
  {
  }

  method BuildDepartmentRules(departmentIds: seq<string>) returns (rules: seq<Rule>)
    ensures rules == BuildRules(departmentIds)
  {
    hide Dedup, Filter;
    var ids := Cleaned(departmentIds);
    rules := [];
    for i := 0 to |ids|
      invariant rules == RulesFor(ids[..i])
    {
      assert ids[..i + 1][..i] == ids[..i];
      rules := rules + DepartmentRules(ids[i]);
    }
    assert ids[..|ids|] == ids;
  }

  lemma {:induction false} RulesForReads(ids: seq<string>)
    requires NoDuplicates(ids)
    ensures QueryIds(RulesFor(ids)) == ids
  {
    if ids != [] {
      var front, id := ids[..|ids| - 1], ids[|ids| - 1];
      RulesForReads(front);
      assert id !in front && ids == front + [id];
      assert RulesFor(ids) == RulesFor(front) + DepartmentRules(id);
      hide Dedup, Filter, Subjects, RulesFor, DepartmentRules;
      var known := Subjects(Filter(RulesFor(front), LetsQuery()));
      QuerySubjectsTrio(RulesFor(front), id);
      DedupSnoc(known, id);
      DedupSnoc(known + [id], id);
    }
  }

  lemma QuerySubjectsTrio(rules: seq<Rule>, id: string)
    ensures Subjects(Filter(rules + DepartmentRules(id), LetsQuery()))
            == Subjects(Filter(rules, LetsQuery())) + [id] + [id]
  {
    var d := DepartmentRules(id);
    hide Filter, Subjects;
    assert rules + d == rules + [d[0]] + [d[1]] + [d[2]];
    QuerySubjectsSnoc(rules, d[0]);
    QuerySubjectsSnoc(rules + [d[0]], d[1]);
    QuerySubjectsSnoc(rules + [d[0]] + [d[1]], d[2]);
  }

  /** Reading back the rules built for any ids gives the non-empty ones, each at its first place. */
  lemma RulesReadBack(ids: seq<string>)
    ensures QueryIds(BuildRules(ids)) == Cleaned(ids)
  {
    DedupNoDuplicates(Filter(ids, NonEmpty()));
    RulesForReads(Cleaned(ids));
  }

  lemma CleanedMembers(ids: seq<string>, id: string)
    ensures id in Cleaned(ids) <==> id != "" && id in ids
  {
    FilterMembers(ids, NonEmpty(), id);
    DedupMembers(Filter(ids, NonEmpty()), id);
  }

  lemma {:induction false} FilterKeepsAll(ids: seq<string>)
    requires "" !in ids
    ensures Filter(ids, NonEmpty()) == ids
  {
    if ids != [] {
      assert ids[0] in ids && forall id :: id in ids[1..] ==> id in ids;
      FilterKeepsAll(ids[1..]);
    }
  }

  /** Appending an id that is empty or already read leaves the cleaned list as it is. */
  lemma CleanedAgain(ids: seq<string>, id: string)
    requires id == "" || id in ids
    ensures Cleaned(Cleaned(ids) + [id]) == Cleaned(ids)
  {
    var cleaned := Cleaned(ids);
    forall x ensures x in cleaned <==> x != "" && x in ids {
      CleanedMembers(ids, x);
    }
    DedupNoDuplicates(Filter(ids, NonEmpty()));
    FilterKeepsAll(cleaned);
    DedupFixesUnique(cleaned);
    FilterAppend(cleaned, [id], NonEmpty());
    var last := if id != "" then [id] else [];
    assert Filter([id], NonEmpty()) == last;
    hide Dedup, Filter, Cleaned;
    DedupKnownSuffix(cleaned, last);
    assert Cleaned(cleaned + [id]) == Dedup(Filter(cleaned + [id], NonEmpty())) by { CleanedIs(cleaned + [id]); }
  }

  lemma CleanedIs(ids: seq<string>)
    ensures Cleaned(ids) == Dedup(Filter(ids, NonEmpty()))
  {
  }

  // ----- saving and syncing the permission form

  function Owner(form: PermissionForm): string { Trim(form.documentOwner, JsSpace) }

  /** What saving the form puts on the knowledge base. */
  function Saved(kb: KnowledgeBase, form: PermissionForm): KnowledgeBase {
    kb.(visibility := form.visibility,
        documentVisibility := form.documentVisibility,
        documentOwner := Some(Owner(form)),
        rules := Some(BuildRules(if form.visibility == ENTERPRISE then [] else form.access + [Owner(form)])))
  }

  /** `default_document_owner_department_id ?? owner_department_id ?? ""`. */
  function DefaultOwner(kb: KnowledgeBase): string {
    if kb.documentOwner.Some? then kb.documentOwner.value else if kb.owner.Some? then kb.owner.value else ""
  }

  /** `syncKnowledgeBasePermissionForm`. */
  function Synced(kb: KnowledgeBase): PermissionForm {
    PermissionForm(kb.visibility, kb.documentVisibility, DefaultOwner(kb), QueryIds(RulesOf(kb)))
  }

  /** What the form reads after a save: the access list gains the trimmed default owner. */
  lemma SyncAfterSave(kb: KnowledgeBase, form: PermissionForm)
    ensures Synced(Saved(kb, form)) == PermissionForm(
              form.visibility, form.documentVisibility, Trim(form.documentOwner, JsSpace),
              if form.visibility == "enterprise" then [] else Cleaned(form.access + [Trim(form.documentOwner, JsSpace)]))
  {
    var ids := if form.visibility == ENTERPRISE then [] else form.access + [Owner(form)];
    RulesReadBack(ids);
    assert Cleaned([]) == [];
  }

  /** Save, sync, save: the second save stores what the first did, and syncing again changes nothing. */
  lemma SaveSyncSettles(kb: KnowledgeBase, form: PermissionForm)
    ensures var stored := Saved(kb, form);
            Saved(stored, Synced(stored)) == stored
            && Synced(Saved(stored, Synced(stored))) == Synced(stored)
  {
    var stored := Saved(kb, form);
    var again := Synced(stored);
    SyncAfterSave(kb, form);
    TrimTwice(form.documentOwner, JsSpace);
    if form.visibility != ENTERPRISE {
      CleanedAgain(form.access + [Owner(form)], Owner(form));
    }
  }

  // ----- parent checks

  /** `departmentCanQueryKnowledgeBase`. */
  predicate CanQuery(kb: KnowledgeBase, department: string) {
    kb.visibility == ENTERPRISE || department in QueryIds(RulesOf(kb))
  }

  /** `importUploadPermissionParentConflict`, for the knowledge base the upload goes to. */
  predicate UploadConflict(kb: KnowledgeBase, uploadVisibility: string) {
    uploadVisibility != ENTERPRISE && DefaultOwner(kb) != "" && !CanQuery(kb, DefaultOwner(kb))
  }

  /** `documentPermissionParentConflict`, for an owner typed into the document form. */
  predicate DocumentConflict(kb: KnowledgeBase, visibility: string, owner: string) {
    visibility != ENTERPRISE && Trim(owner, JsSpace) != "" && !CanQuery(kb, Trim(owner, JsSpace))
  }

  /** After a save exactly the listed departments and the default owner can query. */
  lemma WhoCanQuery(kb: KnowledgeBase, form: PermissionForm, department: string)
    ensures CanQuery(Saved(kb, form), department) <==>
              form.visibility == "enterprise"
              || (department != "" && (department in form.access || department == Trim(form.documentOwner, JsSpace)))
  {
    var ids := form.access + [Owner(form)];
    RulesReadBack(ids);
    CleanedMembers(ids, department);
  }

  /** The default owner that was saved never stands in the way of an upload. */
  lemma SavedOwnerUploads(kb: KnowledgeBase, form: PermissionForm, uploadVisibility: string)
    ensures !UploadConflict(Saved(kb, form), uploadVisibility)
  {
    WhoCanQuery(kb, form, Owner(form));
  }

  /** A document owner conflicts after a save exactly when it was neither listed nor the default owner. */
  lemma DocumentOwnerConflicts(kb: KnowledgeBase, form: PermissionForm, visibility: string, owner: string)
    ensures DocumentConflict(Saved(kb, form), visibility, owner) <==>
              && visibility != "enterprise" && form.visibility != "enterprise"
              && var id := Trim(owner, JsSpace); id != "" && id !in form.access && id != Trim(form.documentOwner, JsSpace)
  {
    WhoCanQuery(kb, form, Trim(owner, JsSpace));
  }

  // ----- who is granted what

  lemma {:induction false} SubjectMembers(rules: seq<Rule>, id: string)
    ensures id in Subjects(rules) <==> exists rule :: rule in rules && rule.subjectId == id
  {
    if rules != [] {
      assert rules == [rules[0]] + rules[1..];
      SubjectMembers(rules[1..], id);
    }
  }

  /** Read back are exactly the departments with a rule that lets them query or manage. */
  lemma ReadsGrants(rules: seq<Rule>, id: string)
    ensures id in QueryIds(rules) <==>
              exists rule :: rule in rules && rule.subjectType == "department" && rule.subjectId == id
                             && (rule.permission == "query" || rule.permission == "manage")
  {
    var kept := Filter(rules, LetsQuery());
    DedupMembers(Subjects(kept), id);
    SubjectMembers(kept, id);
    forall rule ensures rule in kept <==> rule in rules && LetsQuery()(rule) {
      FilterMembers(rules, LetsQuery(), rule);
    }
  }

  lemma {:induction false} RulesForMembers(ids: seq<string>, rule: Rule)
    ensures rule in RulesFor(ids) <==>
              rule.subjectType == "department" && rule.subjectId in ids
              && rule.permission in {"discover", "query", "manage"}
  {
    if ids != [] {
      var front, id := ids[..|ids| - 1], ids[|ids| - 1];
      assert ids == front + [id];
      RulesForMembers(front, rule);
      assert rule == Rule(rule.subjectType, rule.subjectId, rule.permission);
    }
  }

  /** Built are exactly the three permissions of every non-empty department id. */
  lemma BuildsGrants(ids: seq<string>, rule: Rule)
    ensures rule in BuildRules(ids) <==>
              rule.subjectType == "department" && rule.subjectId != "" && rule.subjectId in ids
              && rule.permission in {"discover", "query", "manage"}
  {
    RulesForMembers(Cleaned(ids), rule);
    CleanedMembers(ids, rule.subjectId);
  }

  lemma JoinedOnce<T>(a: seq<T>, b: seq<T>)
    requires NoDuplicates(a) && NoDuplicates(b) && forall x :: x in b ==> x !in a
    ensures NoDuplicates(a + b)
  {
    forall i, j | 0 <= i < j < |a + b| ensures (a + b)[i] != (a + b)[j] {
      if i < |a| <= j {
        assert b[j - |a|] in b && a[i] in a;
      }
    }
  }

  lemma DepartmentRulesOnce(id: string)
    ensures NoDuplicates(DepartmentRules(id))
  {
    assert "discover"[0] == 'd' && "query"[0] == 'q' && "manage"[0] == 'm';
  }

  lemma {:induction false} RulesForOnce(ids: seq<string>)
    requires NoDuplicates(ids)
    ensures NoDuplicates(RulesFor(ids))
  {
    if ids != [] {
      var front, id := ids[..|ids| - 1], ids[|ids| - 1];
      RulesForOnce(front);
      forall rule | rule in DepartmentRules(id) ensures rule !in RulesFor(front) {
        RulesForMembers(front, rule);
      }
      DepartmentRulesOnce(id);
      JoinedOnce(RulesFor(front), DepartmentRules(id));
    }
  }

  /** No rule is built twice, however often an id is listed. */
  lemma BuildsOnce(ids: seq<string>)
    ensures NoDuplicates(BuildRules(ids))
  {
    DedupNoDuplicates(Filter(ids, NonEmpty()));
    RulesForOnce(Cleaned(ids));
  }

  ghost predicate Grants(rules: seq<Rule>, department: string) {
    exists rule :: && rule in rules && rule.subjectType == "department" && rule.subjectId == department
                   && (rule.permission == "query" || rule.permission == "manage")
  }

  /** A department can query an enterprise-wide knowledge base, and any other by a rule of its own. */
  lemma CanQueryIff(kb: KnowledgeBase, department: string)
    ensures CanQuery(kb, department) <==>
              kb.visibility == "enterprise" || (kb.rules.Some? && Grants(kb.rules.value, department))
  {
    ReadsGrants(RulesOf(kb), department);
  }

  /** An upload for departments only conflicts when the default owner, if there is one, cannot query. */
  lemma UploadConflictsIff(kb: KnowledgeBase, uploadVisibility: string)
    ensures var owner := if kb.documentOwner.Some? then kb.documentOwner else kb.owner;
            UploadConflict(kb, uploadVisibility) <==>
              uploadVisibility != "enterprise" && owner.Some? && owner.value != "" && !CanQuery(kb, owner.value)
  {
  }
}
