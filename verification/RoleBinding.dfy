/**
 * Choosing what role and scope to grant next to a user. Keys are strings built from role,
 * scope type and scope; a target is free when its key is not among the displayed bindings.
 */
module RoleBinding {
  import opened Util

  datatype ScopeType = Enterprise | DepartmentScope | KnowledgeBaseScope

  datatype Role = Role(id: string, active: bool, scope: ScopeType)

  datatype Department = Department(id: string, isPrimary: bool)

  function ScopeName(t: ScopeType): string {
    match t
    case Enterprise => "enterprise"
    case DepartmentScope => "department"
    case KnowledgeBaseScope => "knowledge_base"
  }

  function KeyScope(t: ScopeType, scopeId: Option<string>): string {
    if t == Enterprise then "enterprise" else if scopeId.Some? then scopeId.value else ""
  }

  /** `roleBindingKeyFromParts`. */
  function Key(roleId: string, t: ScopeType, scopeId: Option<string>): string {
    roleId + ":" + ScopeName(t) + ":" + KeyScope(t, scopeId)
  }

  /** The text of a key: role, scope type and scope, with one fixed scope for the whole enterprise. */
  lemma KeyText(r: string, s: string)
    ensures forall scope :: Key(r, Enterprise, scope) == r + ":enterprise:enterprise"
    ensures Key(r, DepartmentScope, Some(s)) == r + ":department:" + s
    ensures Key(r, KnowledgeBaseScope, Some(s)) == r + ":knowledge_base:" + s
  {
    assert r + ":" + "enterprise" + ":" + "enterprise" == r + ":enterprise:enterprise";
    assert r + ":" + "department" + ":" + s == r + ":department:" + s;
    assert r + ":" + "knowledge_base" + ":" + s == r + ":knowledge_base:" + s;
  }

  lemma {:induction false} FirstColon(a: string, b: string, x: string, y: string)
    requires ':' !in a && ':' !in b
    requires a + ":" + x == b + ":" + y
    ensures a == b && x == y
  {
    var s, t := a + ":" + x, b + ":" + y;
    assert s[|a|] == ':' && t[|b|] == ':';
    assert forall i :: 0 <= i < |b| ==> t[i] == b[i] && t[i] != ':';
    assert forall i :: 0 <= i < |a| ==> s[i] == a[i] && s[i] != ':';
    assert s[..|a|] == a && t[..|b|] == b;
    assert s[|a| + 1..] == x && t[|b| + 1..] == y;
  }

  function KeyRest(t: ScopeType, scopeId: Option<string>): string {
    ScopeName(t) + ":" + KeyScope(t, scopeId)
  }

  lemma KeyShape(roleId: string, t: ScopeType, scopeId: Option<string>)
    ensures Key(roleId, t, scopeId) == roleId + ":" + KeyRest(t, scopeId)
  {
  }

  lemma ScopeNames(a: ScopeType, b: ScopeType)
    ensures ':' !in ScopeName(a)
    ensures ScopeName(a) == ScopeName(b) ==> a == b
  {
    assert ScopeName(Enterprise)[0] == 'e' && ScopeName(DepartmentScope)[0] == 'd' && ScopeName(KnowledgeBaseScope)[0] == 'k';
  }

  /** For one role the key tells scope type and scope apart, whatever the ids. */
  lemma SameRoleKeys(r: string, t1: ScopeType, s1: Option<string>, t2: ScopeType, s2: Option<string>)
    requires Key(r, t1, s1) == Key(r, t2, s2)
    ensures t1 == t2 && KeyScope(t1, s1) == KeyScope(t2, s2)
  {
    KeyShape(r, t1, s1);
    KeyShape(r, t2, s2);
    hide Key, KeyScope, ScopeName;
    DropFront(r + ":", KeyRest(t1, s1), KeyRest(t2, s2));
    ScopeNames(t1, t2);
    ScopeNames(t2, t1);
    FirstColon(ScopeName(t1), ScopeName(t2), KeyScope(t1, s1), KeyScope(t2, s2));
  }

  lemma DropFront(front: string, x: string, y: string)
    requires front + x == front + y
    ensures x == y
  {
    assert (front + x)[|front|..] == x && (front + y)[|front|..] == y;
  }

  /** The longer id is the shorter one followed by a scope type, and then nothing more or a colon. */
  predicate Extends(short: string, long: string, t: ScopeType) {
    t != Enterprise
    && (long == short + ":" + ScopeName(t) || short + ":" + ScopeName(t) + ":" <= long)
  }

  /** One text read with two first words: the longer word starts with the shorter one and its colon. */
  lemma LongerWord(short: string, x: string, long: string, y: string)
    requires |short| < |long| && short + ":" + x == long + ":" + y
    ensures short + ":" <= long && ':' in long && x == long[|short| + 1..] + ":" + y
  {
    var n := |short|;
    var s, t := short + ":" + x, long + ":" + y;
    assert s[n] == ':' && t[n] == long[n];
    assert long[..n + 1] == t[..n + 1] && s[..n + 1] == short + ":";
    assert s[n + 1..] == x && t[n + 1..] == long[n + 1..] + ":" + y;
  }

  lemma SameLengthWords(a: string, x: string, b: string, y: string)
    requires |a| == |b| && a + ":" + x == b + ":" + y
    ensures a == b && x == y
  {
    var s, t := a + ":" + x, b + ":" + y;
    assert s[..|a|] == a && t[..|b|] == b && s[|a| + 1..] == x && t[|b| + 1..] == y;
  }

  /** The same where the first of the two words holds no colon: it is the shorter one, or they are equal. */
  lemma WordBefore(word: string, x: string, w: string, y: string)
    requires ':' !in word && word + ":" + x == w + ":" + y
    ensures (w == word && x == y) || (word + ":" <= w && x == w[|word| + 1..] + ":" + y)
  {
    if |w| < |word| {
      LongerWord(w, y, word, x);
    } else if |w| == |word| {
      SameLengthWords(word, x, w, y);
    } else {
      LongerWord(word, x, w, y);
    }
  }

  /** Two roles share a key only if one id extends the other, and then through a scope id with a colon. */
  lemma ClashExtends(r1: string, t1: ScopeType, s1: Option<string>, r2: string, t2: ScopeType, s2: Option<string>)
    requires r1 != r2 && |r1| <= |r2| && Key(r1, t1, s1) == Key(r2, t2, s2)
    ensures Extends(r1, r2, t1) && ':' in KeyScope(t1, s1) && ':' in r2
  {
    KeyShape(r1, t1, s1);
    KeyShape(r2, t2, s2);
    hide Key, KeyRest, ScopeName, KeyScope;
    if |r1| == |r2| {
      SameLengthWords(r1, KeyRest(t1, s1), r2, KeyRest(t2, s2));
    }
    LongerWord(r1, KeyRest(t1, s1), r2, KeyRest(t2, s2));
    var w := r2[|r1| + 1..];
    RestShape(t1, s1);
    RestShape(t2, s2);
    ScopeNames(t1, t1);
    WordBefore(ScopeName(t1), KeyScope(t1, s1), w, KeyRest(t2, s2));
    ColonInScope(t1, s1);
    assert r2 == r1 + ":" + w;
    ColonKept(w, KeyRest(t2, s2), KeyScope(t1, s1), |ScopeName(t1)|);
    ExtendsBy(r1, w, t1);
  }

  lemma RestShape(t: ScopeType, s: Option<string>)
    ensures KeyRest(t, s) == ScopeName(t) + ":" + KeyScope(t, s) && ':' in KeyRest(t, s)
  {
    assert KeyRest(t, s)[|ScopeName(t)|] == ':';
  }

  lemma ColonKept(w: string, rest: string, scope: string, n: nat)
    requires ':' in rest && (scope == rest || (n + 1 <= |w| && scope == w[n + 1..] + ":" + rest))
    ensures ':' in scope
  {
    if scope != rest {
      assert scope[|w| - n - 1] == ':';
    }
  }

  lemma ExtendsBy(r: string, w: string, t: ScopeType)
    requires t != Enterprise && (w == ScopeName(t) || ScopeName(t) + ":" <= w)
    ensures Extends(r, r + ":" + w, t)
  {
    hide ScopeName;
    var long := r + ":" + w;
    if w != ScopeName(t) {
      var front := r + ":" + ScopeName(t) + ":";
      assert long[..|front|] == front;
    }
  }

  lemma ColonInScope(t: ScopeType, s: Option<string>)
    ensures ':' in KeyScope(t, s) ==> t != Enterprise
  {
  }

  lemma ExtensionClashes(r1: string, r2: string, t: ScopeType)
    requires Extends(r1, r2, t)
    ensures exists s1, s2 :: Key(r1, t, Some(s1)) == Key(r2, Enterprise, s2)
  {
    var rest := KeyRest(Enterprise, None);
    KeyShape(r2, Enterprise, None);
    hide Key, KeyRest, ScopeName;
    var name := r1 + ":" + ScopeName(t);
    if r2 == name {
      ScopeKey(r1, t, rest);
      assert Key(r1, t, Some(rest)) == Key(r2, Enterprise, None);
    } else {
      var u := r2[|name| + 1..];
      ScopeKey(r1, t, u + ":" + rest);
      SplitAtColons(name, u, r2, rest);
      assert Key(r1, t, Some(u + ":" + rest)) == Key(r2, Enterprise, None);
    }
  }

  lemma SplitAtColons(name: string, u: string, long: string, rest: string)
    requires name + ":" <= long && u == long[|name| + 1..]
    ensures name + ":" + (u + ":" + rest) == long + ":" + rest
  {
    assert long == name + ":" + u;
  }

  lemma ScopeKey(r: string, t: ScopeType, scope: string)
    requires t != Enterprise
    ensures Key(r, t, Some(scope)) == r + ":" + ScopeName(t) + ":" + scope
  {
  }

  ghost predicate CanClash(r1: string, r2: string) {
    exists t1, s1, t2, s2 :: Key(r1, t1, s1) == Key(r2, t2, s2)
  }

  /** Exactly which two roles can share a key: one id is the other, a colon and a scope type, then its end or a colon. */
  lemma KeysClashIff(r1: string, r2: string)
    requires r1 != r2
    ensures CanClash(r1, r2) <==> exists t :: Extends(r1, r2, t) || Extends(r2, r1, t)
  {
    hide Key, Extends;
    if t1, s1, t2, s2 :| Key(r1, t1, s1) == Key(r2, t2, s2) {
      if |r1| <= |r2| {
        ClashExtends(r1, t1, s1, r2, t2, s2);
      } else {
        ClashExtends(r2, t2, s2, r1, t1, s1);
      }
    }
    if t :| Extends(r1, r2, t) || Extends(r2, r1, t) {
      if Extends(r1, r2, t) {
        ExtensionClashes(r1, r2, t);
      } else {
        ExtensionClashes(r2, r1, t);
        var s1, s2 :| Key(r2, t, Some(s1)) == Key(r1, Enterprise, s2);
        assert Key(r1, Enterprise, s2) == Key(r2, t, Some(s1));
      }
    }
  }

  /** Keys are injective as soon as either the role ids or the scope ids hold no colon. */
  lemma KeysInjective(r1: string, t1: ScopeType, s1: Option<string>, r2: string, t2: ScopeType, s2: Option<string>)
    requires (':' !in r1 && ':' !in r2) || (':' !in KeyScope(t1, s1) && ':' !in KeyScope(t2, s2))
    requires Key(r1, t1, s1) == Key(r2, t2, s2)
    ensures r1 == r2 && t1 == t2 && KeyScope(t1, s1) == KeyScope(t2, s2)
  {
    if r1 == r2 {
      SameRoleKeys(r1, t1, s1, t2, s2);
    } else if |r1| <= |r2| {
      ClashExtends(r1, t1, s1, r2, t2, s2);
    } else {
      ClashExtends(r2, t2, s2, r1, t1, s1);
    }
  }

  /** What the page knows: roles, scopes, the user's departments, and the displayed binding keys. */
  datatype Page = Page(
    roles: seq<Role>,
    departments: seq<string>,
    knowledgeBases: seq<string>,
    userDepartments: seq<Department>,
    bound: set<string>)

  datatype Form = Form(roleId: string, scopeId: string, confirmedHighRisk: bool)

  datatype Candidate = Candidate(role: Role, scopeId: Option<string>)

  function CandidateKey(c: Candidate): string {
    Key(c.role.id, c.role.scope, c.scopeId)
  }

  function Scopes(page: Page, t: ScopeType): seq<string> {
    if t == DepartmentScope then page.departments else page.knowledgeBases
  }

  function RoleCandidates(page: Page, role: Role): seq<Candidate> {
    if role.scope == Enterprise then [Candidate(role, None)]
    else
      var scopes := Scopes(page, role.scope);
      seq(|scopes|, i requires 0 <= i < |scopes| => Candidate(role, Some(scopes[i])))
  }

  /** `roleBindingCandidates`: active roles with their scopes, in order. */
  function Candidates(page: Page, roles: seq<Role>): seq<Candidate>
    decreases |roles|
  {
    if roles == [] then []
    else (if roles[0].active then RoleCandidates(page, roles[0]) else []) + Candidates(page, roles[1..])
  }

  predicate Free(page: Page, key: string) { key !in page.bound }

  function FreeCandidate(page: Page): Candidate -> bool {
    (c: Candidate) => Free(page, CandidateKey(c))
  }

  function FreeScope(page: Page, role: Role): string -> bool {
    (id: string) => Free(page, Key(role.id, role.scope, Some(id)))
  }

  function FreeDepartment(page: Page, role: Role): string -> bool {
    (id: string) => id in page.departments && Free(page, Key(role.id, DepartmentScope, Some(id)))
  }

  function OfRole(role: Option<Role>): Candidate -> bool {
    (c: Candidate) => role.Some? && c.role.id == role.value.id
  }

  function IsPrimary(): Department -> bool { (d: Department) => d.isPrimary }

  /** `availableRoleBindingCandidates`. */
  function Available(page: Page): seq<Candidate> {
    Filter(Candidates(page, page.roles), FreeCandidate(page))
  }

  function FindRole(roles: seq<Role>, id: string): (r: Option<Role>)
    ensures r.Some? ==> r.value in roles && r.value.id == id
    ensures r.None? ==> forall role :: role in roles ==> role.id != id
  {
    if roles == [] then None else if roles[0].id == id then Some(roles[0]) else FindRole(roles[1..], id)
  }

  /** The first element that satisfies p. */
  function Find<T>(s: seq<T>, p: T -> bool): (r: Option<T>)
    ensures r.Some? ==> r.value in s && p(r.value)
    ensures r.None? ==> forall x :: x in s ==> !p(x)
  {
    if s == [] then None else if p(s[0]) then Some(s[0]) else Find(s[1..], p)
  }

  function SelectedRole(page: Page, form: Form): Option<Role> { FindRole(page.roles, form.roleId) }

  function SelectedKey(role: Role, form: Form): string {
    Key(role.id, role.scope, if role.scope == Enterprise then None else Some(form.scopeId))
  }

  predicate ScopeReady(role: Role, form: Form) {
    role.scope == Enterprise || form.scopeId != ""
  }

  function Ids(departments: seq<Department>): seq<string> {
    seq(|departments|, i requires 0 <= i < |departments| => departments[i].id)
  }

  lemma IdsLength(departments: seq<Department>)
    ensures |Ids(departments)| == |departments|
  {
  }

  lemma IdsGrow(first: seq<string>, departments: seq<Department>, i: nat)
    requires i < |departments|
    ensures |Ids(departments)| == |departments|
    ensures first + Ids(departments)[..i + 1] == first + Ids(departments)[..i] + [departments[i].id]
  {
  }

  /** `selectedUserPreferredDepartmentIds`: the primary department first, each id once. */
  function PreferredIds(page: Page): seq<string> {
    var primary := Find(page.userDepartments, IsPrimary());
    var first := if primary.Some? then [primary.value.id] else [];
    Dedup(first + Ids(page.userDepartments))
  }

  /** `preferredDepartmentScopeForRole`. */
  function PreferredDepartment(page: Page, role: Role): (r: Option<string>)
    ensures r.Some? ==> role.scope == DepartmentScope && r.value in page.departments
                        && Free(page, Key(role.id, DepartmentScope, r))
  {
    if role.scope != DepartmentScope then None
    else Find(PreferredIds(page), FreeDepartment(page, role))
  }

  /** `syncRoleBindingScopeDefault`. */
  function SyncScope(page: Page, form: Form): Form {
    var role := SelectedRole(page, form);
    if role.None? || role.value.scope == Enterprise then form.(scopeId := "")
    else
      var r := role.value;
      var scopes := Scopes(page, r.scope);
      if form.scopeId in scopes && Free(page, Key(r.id, r.scope, Some(form.scopeId))) then form
      else
        var preferred := PreferredDepartment(page, r);
        if preferred.Some? then form.(scopeId := preferred.value)
        else
          var next := Find(scopes, FreeScope(page, r));
          form.(scopeId := if next.Some? then next.value else if scopes != [] then scopes[0] else "")
  }

  function OrEmpty(s: Option<string>): string { if s.Some? then s.value else "" }

  /** `selectNextAvailableRoleBindingTarget`. */
  function SelectNext(page: Page, form: Form): Form {
    var current := SelectedRole(page, form);
    var preferred := if current.Some? then PreferredDepartment(page, current.value) else None;
    if preferred.Some? then Form(current.value.id, preferred.value, false)
    else
      var available := Available(page);
      var own := Find(available, OfRole(current));
      if own.None? && available == [] then Form("", "", false)
      else
        var candidate := if own.Some? then own.value else available[0];
        var scope :=
          if candidate.role.scope == DepartmentScope && PreferredDepartment(page, candidate.role).Some?
          then PreferredDepartment(page, candidate.role) else candidate.scopeId;
        Form(candidate.role.id, OrEmpty(scope), false)
  }

  class RoleBindingSelection {
    var page: Page
    var form: Form

    constructor (page: Page)
      ensures this.page == page && form == Form("", "", false)
    {
      this.page, this.form := page, Form("", "", false);
    }

    method PreferredDepartmentIds() returns (ids: seq<string>)
      ensures ids == PreferredIds(page)
    {
      hide Find, Dedup, Ids, IsPrimary;
      var departments := page.userDepartments;
      var primary := Find(departments, IsPrimary());
      ids := if primary.Some? then [primary.value.id] else [];
      ghost var first, all := ids, Ids(departments);
      DedupFixesUnique(first);
      assert first + all[..0] == first;
      assert |all| == |departments| by { IdsLength(departments); }
      var i := 0;
      while i < |departments|
        invariant 0 <= i <= |departments|
        invariant |all| == |departments|
        invariant ids == Dedup(first + all[..i])
      {
        DedupSnoc(first + all[..i], departments[i].id);
        IdsGrow(first, departments, i);
        if departments[i].id !in ids {
          ids := ids + [departments[i].id];
        }
        i := i + 1;
      }
      assert all[..i] == all;
    }

    method PreferredDepartmentScope(role: Role) returns (scope: Option<string>)
      ensures scope == PreferredDepartment(page, role)
    {
      if role.scope != DepartmentScope {
        return None;
      }
      var ids := PreferredDepartmentIds();
      ghost var p := FreeDepartment(page, role);
      var i := 0;
      while i < |ids|
        invariant 0 <= i <= |ids|
        invariant Find(ids, p) == Find(ids[i..], p)
      {
        var id := ids[i];
        assert ids[i..][0] == id && ids[i..][1..] == ids[i + 1..];
        if id in page.departments && Key(role.id, DepartmentScope, Some(id)) !in page.bound {
          return Some(id);
        }
        i := i + 1;
      }
      scope := None;
    }

    method SyncRoleBindingScopeDefault()
      modifies this`form
      ensures form == SyncScope(page, old(form))
    {
      hide Key, ScopeName, KeyScope, Dedup, Ids, PreferredIds, PreferredDepartment, Find, FindRole;
      var role := SelectedRole(page, form);
      if role.None? || role.value.scope == Enterprise {
        form := form.(scopeId := "");
        return;
      }
      var r := role.value;
      var scopes := Scopes(page, r.scope);
      if form.scopeId in scopes && Key(r.id, r.scope, Some(form.scopeId)) !in page.bound {
        return;
      }
      var preferred := PreferredDepartmentScope(r);
      if preferred.Some? {
        form := form.(scopeId := preferred.value);
        return;
      }
      var next := Find(scopes, FreeScope(page, r));
      form := form.(scopeId := if next.Some? then next.value else if scopes != [] then scopes[0] else "");
    }

    method SelectNextAvailableRoleBindingTarget()
      modifies this`form
      ensures form == SelectNext(page, old(form))
    {
      hide Key, ScopeName, KeyScope, Dedup, Ids, PreferredIds;
      var current := SelectedRole(page, form);
      if current.Some? {
        var preferred := PreferredDepartmentScope(current.value);
        if preferred.Some? {
          form := Form(current.value.id, preferred.value, false);
          return;
        }
      }
      var available := Available(page);
      var own := Find(available, OfRole(current));
      if own.None? && available == [] {
        form := Form("", "", false);
        return;
      }
      var candidate := if own.Some? then own.value else available[0];
      var scope := candidate.scopeId;
      if candidate.role.scope == DepartmentScope {
        var preferred := PreferredDepartmentScope(candidate.role);
        if preferred.Some? {
          scope := preferred;
        }
      }
      form := Form(candidate.role.id, OrEmpty(scope), false);
    }
  }

  // ----- laws

  /** Role ids are unique; all ids are non-empty; the empty id is no role. */
  ghost predicate WellFormed(page: Page) {
    && (forall i, j :: 0 <= i < j < |page.roles| ==> page.roles[i].id != page.roles[j].id)
    && (forall r :: r in page.roles ==> r.id != "")
    && (forall d :: d in page.departments ==> d != "")
    && (forall k :: k in page.knowledgeBases ==> k != "")
  }

  ghost predicate ValidCandidate(page: Page, c: Candidate) {
    && c.role in page.roles && c.role.active
    && (c.role.scope == Enterprise ==> c.scopeId == None)
    && (c.role.scope != Enterprise ==> c.scopeId.Some? && c.scopeId.value in Scopes(page, c.role.scope))
  }

  lemma {:induction false} CandidatesValid(page: Page, roles: seq<Role>, c: Candidate)
    requires c in Candidates(page, roles) && forall r :: r in roles ==> r in page.roles
    ensures ValidCandidate(page, c) && c.role in roles
    decreases |roles|
  {
    assert roles[0] in roles;
    if !(roles[0].active && c in RoleCandidates(page, roles[0])) {
      CandidatesValid(page, roles[1..], c);
    }
  }

  lemma FoundRoleIsIt(page: Page, role: Role)
    requires WellFormed(page) && role in page.roles
    ensures FindRole(page.roles, role.id) == Some(role)
  {
    var found := FindRole(page.roles, role.id);
    assert found.Some?;
    var i :| 0 <= i < |page.roles| && page.roles[i] == role;
    var j :| 0 <= j < |page.roles| && page.roles[j] == found.value;
  }

  /** A form that names a role of the page, a usable scope, and a key not yet bound. */
  ghost predicate FreeTarget(page: Page, form: Form) {
    var role := SelectedRole(page, form);
    role.Some? && ScopeReady(role.value, form) && Free(page, SelectedKey(role.value, form))
  }

  /** Whenever a candidate is free, selecting ends on a free, ready target. */
  lemma SelectNextFindsFree(page: Page, form: Form)
    requires WellFormed(page) && Available(page) != []
    ensures FreeTarget(page, SelectNext(page, form))
  {
    hide Key, ScopeName, KeyScope, Dedup, Ids, PreferredIds, Candidates, RoleCandidates;
    var current := SelectedRole(page, form);
    var next := SelectNext(page, form);
    var preferred := if current.Some? then PreferredDepartment(page, current.value) else None;
    if preferred.Some? {
      FoundRoleIsIt(page, current.value);
    } else {
      var available := Available(page);
      var own := Find(available, OfRole(current));
      var candidate := if own.Some? then own.value else available[0];
      assert candidate in available;
      FilterMembers(Candidates(page, page.roles), FreeCandidate(page), candidate);
      CandidatesValid(page, page.roles, candidate);
      FoundRoleIsIt(page, candidate.role);
    }
  }

  /** Selecting empties the form only when nothing can be granted any more. */
  lemma EmptyOnlyWhenExhausted(page: Page, form: Form)
    requires WellFormed(page) && SelectNext(page, form).roleId == ""
    ensures Available(page) == []
    ensures forall c :: c in Candidates(page, page.roles) ==> CandidateKey(c) in page.bound
  {
    if Available(page) != [] {
      SelectNextFindsFree(page, form);
    }
    forall c | c in Candidates(page, page.roles) ensures CandidateKey(c) in page.bound {
      FilterMembers(Candidates(page, page.roles), FreeCandidate(page), c);
    }
  }

  /** Syncing the scope twice is syncing it once. */
  lemma SyncIdempotent(page: Page, form: Form)
    ensures SyncScope(page, SyncScope(page, form)) == SyncScope(page, form)
  {
    hide Key, ScopeName, KeyScope, Dedup, Ids, PreferredIds;
    var once := SyncScope(page, form);
    assert SelectedRole(page, once) == SelectedRole(page, form);
  }

  /** Syncing lands on a free scope of the selected role whenever there is one. */
  lemma SyncFindsFree(page: Page, form: Form, scope: string)
    requires SelectedRole(page, form).Some?
    requires var r := SelectedRole(page, form).value;
             r.scope != Enterprise && scope in Scopes(page, r.scope) && Free(page, Key(r.id, r.scope, Some(scope)))
    ensures var r := SelectedRole(page, form).value;
            var synced := SyncScope(page, form);
            synced.scopeId in Scopes(page, r.scope) && Free(page, Key(r.id, r.scope, Some(synced.scopeId)))
  {
    hide Key, ScopeName, KeyScope, Dedup, Ids, PreferredIds, FindRole;
  }

  // ----- granting until nothing is left

  /** All keys a selection could ever produce: every role of the page, active or not. */
  function TargetKeys(page: Page): set<string> {
    set r, s | r in page.roles && s in [""] + page.departments + page.knowledgeBases
      :: Key(r.id, r.scope, Some(s))
  }

  lemma TargetListed(page: Page, form: Form)
    requires WellFormed(page)
    ensures var next := SelectNext(page, form);
            next.roleId != "" ==>
              && FreeTarget(page, next)
              && SelectedKey(SelectedRole(page, next).value, next) in TargetKeys(page) - page.bound
  {
    var next := SelectNext(page, form);
    if next.roleId != "" {
      SelectedIsFree(page, form);
      var role := SelectedRole(page, next).value;
      assert next.scopeId in [""] + page.departments + page.knowledgeBases;
      assert Key(role.id, role.scope, Some(next.scopeId)) == SelectedKey(role, next);
    }
  }

  lemma SelectedIsFree(page: Page, form: Form)
    requires WellFormed(page) && SelectNext(page, form).roleId != ""
    ensures FreeTarget(page, SelectNext(page, form))
    ensures SelectNext(page, form).scopeId in [""] + page.departments + page.knowledgeBases
  {
    var current := SelectedRole(page, form);
    var preferred := if current.Some? then PreferredDepartment(page, current.value) else None;
    if preferred.Some? {
      FoundRoleIsIt(page, current.value);
    } else {
      SelectNextFindsFree(page, form);
      var available := Available(page);
      var own := Find(available, OfRole(current));
      var candidate := if own.Some? then own.value else available[0];
      assert candidate in available;
      FilterMembers(Candidates(page, page.roles), FreeCandidate(page), candidate);
      CandidatesValid(page, page.roles, candidate);
    }
  }

  /** Select, grant, select again: the displayed bindings after every grant has been made. */
  ghost function GrantAll(page: Page, form: Form): (r: Page)
    requires WellFormed(page)
    ensures WellFormed(r) && r == page.(bound := r.bound) && page.bound <= r.bound
    ensures forall c :: c in Candidates(page, page.roles) ==> CandidateKey(c) in r.bound
    decreases |TargetKeys(page) - page.bound|
  {
    var next := SelectNext(page, form);
    if next.roleId == "" then
      EmptyOnlyWhenExhausted(page, form);
      page
    else
      TargetListed(page, form);
      var key := SelectedKey(SelectedRole(page, next).value, next);
      var granted := page.(bound := page.bound + {key});
      assert TargetKeys(granted) == TargetKeys(page);
      GrantShrinks(TargetKeys(page), page.bound, key);
      SameCandidates(page, granted, page.roles);
      GrantAll(granted, next)
  }

  lemma GrantShrinks(all: set<string>, bound: set<string>, key: string)
    requires key in all - bound
    ensures |all - (bound + {key})| < |all - bound|
  {
    assert all - (bound + {key}) == (all - bound) - {key};
  }

  lemma {:induction false} SameCandidates(a: Page, b: Page, roles: seq<Role>)
    requires b == a.(bound := b.bound)
    ensures Candidates(a, roles) == Candidates(b, roles)
    decreases |roles|
  {
    if roles != [] {
      SameCandidates(a, b, roles[1..]);
    }
  }

  // ----- which target is chosen

  /** x is the first element with p. */
  ghost predicate IsFirst<T(!new)>(s: seq<T>, p: T -> bool, x: T) {
    exists i :: 0 <= i < |s| && s[i] == x && p(x) && forall j :: 0 <= j < i ==> !p(s[j])
  }

  lemma {:induction false} FindsFirst<T(!new)>(s: seq<T>, p: T -> bool)
    requires exists x :: x in s && p(x)
    ensures Find(s, p).Some? && IsFirst(s, p, Find(s, p).value)
  {
    if p(s[0]) {
      assert IsFirst(s, p, s[0]);
    } else {
      assert s == [s[0]] + s[1..];
      FindsFirst(s[1..], p);
      var x := Find(s[1..], p).value;
      var i :| 0 <= i < |s[1..]| && s[1..][i] == x && forall j :: 0 <= j < i ==> !p(s[1..][j]);
      assert s[i + 1] == x;
      forall j | 0 <= j < i + 1 ensures !p(s[j]) {
        if j > 0 { assert s[j] == s[1..][j - 1]; }
      }
    }
  }

  function NotId(id: string): string -> bool { (other: string) => other != id }

  lemma FilterOne<T>(x: T, p: T -> bool)
    ensures Filter([x], p) == if p(x) then [x] else []
  {
  }

  lemma FilteredSnoc(s: seq<string>, last: string, x: string)
    ensures Filter(s + [last], NotId(x)) == Filter(s, NotId(x)) + if last != x then [last] else []
  {
    hide Filter;
    FilterAppend(s, [last], NotId(x));
    FilterOne(last, NotId(x));
  }

  lemma {:induction false} DedupAfterHead(x: string, s: seq<string>)
    ensures Dedup([x] + s) == [x] + Filter(Dedup(s), NotId(x))
  {
    if s == [] {
      assert [x] + s == [x] && [x][..0] == [];
      assert Dedup([x]) == [x];
    } else {
      var front, last := s[..|s| - 1], s[|s| - 1];
      DedupAfterHead(x, front);
      assert s == front + [last];
      assert [x] + s == [x] + front + [last];
      DedupHeadStep(x, front, last);
    }
  }

  lemma DedupHeadStep(x: string, front: seq<string>, last: string)
    requires Dedup([x] + front) == [x] + Filter(Dedup(front), NotId(x))
    ensures Dedup([x] + front + [last]) == [x] + Filter(Dedup(front + [last]), NotId(x))
  {
    hide Dedup, Filter;
    var d := Dedup(front);
    var kept := Filter(d, NotId(x));
    DedupSnoc([x] + front, last);
    DedupSnoc(front, last);
    FilterMembers(d, NotId(x), last);
    FilteredSnoc(d, last, x);
    if last == x {
      assert kept + [] == kept;
    } else if last !in d {
      ConcatAssociative([x], kept, [last]);
    }
  }

  /** The user's departments in order, each once, with the first primary one moved to the front. */
  lemma PrimaryFirst(page: Page)
    ensures var ids := PreferredIds(page);
            && NoDuplicates(ids)
            && (forall id :: id in ids <==> exists d :: d in page.userDepartments && d.id == id)
            && (forall i :: && 0 <= i < |page.userDepartments| && page.userDepartments[i].isPrimary
                            && (forall j :: 0 <= j < i ==> !page.userDepartments[j].isPrimary) ==>
                  var id := page.userDepartments[i].id;
                  ids == [id] + Filter(Dedup(Ids(page.userDepartments)), NotId(id)))
            && ((forall d :: d in page.userDepartments ==> !d.isPrimary) ==> ids == Dedup(Ids(page.userDepartments)))
  {
    var departments := page.userDepartments;
    var primary := Find(departments, IsPrimary());
    var first := if primary.Some? then [primary.value.id] else [];
    var listed := first + Ids(departments);
    DedupNoDuplicates(listed);
    forall id ensures id in PreferredIds(page) <==> exists d :: d in departments && d.id == id {
      DedupMembers(listed, id);
      if d :| d in departments && d.id == id {
        var i :| 0 <= i < |departments| && departments[i] == d;
        assert Ids(departments)[i] == id;
      }
    }
    if primary.Some? {
      FindsFirst(departments, IsPrimary());
      DedupAfterHead(primary.value.id, Ids(departments));
    } else {
      assert listed == Ids(departments);
      assert forall i :: 0 <= i < |departments| ==> departments[i] in departments;
    }
  }

  /** A candidate is an active role of the page with one of the scopes of its type, or none for the enterprise. */
  lemma CandidatesIff(page: Page, c: Candidate)
    ensures c in Candidates(page, page.roles) <==> ValidCandidate(page, c)
  {
    if c in Candidates(page, page.roles) {
      CandidatesValid(page, page.roles, c);
    }
    if ValidCandidate(page, c) {
      CandidateListed(page, page.roles, c);
    }
  }

  lemma {:induction false} CandidateListed(page: Page, roles: seq<Role>, c: Candidate)
    requires c.role in roles && ValidCandidate(page, c)
    ensures c in Candidates(page, roles)
    decreases |roles|
  {
    assert roles == [roles[0]] + roles[1..];
    if roles[0] == c.role {
      if c.role.scope == Enterprise {
        assert c == Candidate(c.role, None);
      } else {
        var scopes := Scopes(page, c.role.scope);
        var i :| 0 <= i < |scopes| && scopes[i] == c.scopeId.value;
        assert RoleCandidates(page, c.role)[i] == c;
      }
    } else {
      CandidateListed(page, roles[1..], c);
    }
  }

  /** Some preferred department of the user is open to the role. */
  ghost predicate HasPreferred(page: Page, role: Role) {
    role.scope == DepartmentScope
    && exists d :: d in page.userDepartments && d.id in page.departments
                   && Key(role.id, DepartmentScope, Some(d.id)) !in page.bound
  }

  lemma PreferredIsFirst(page: Page, role: Role)
    ensures PreferredDepartment(page, role).Some? <==> HasPreferred(page, role)
    ensures HasPreferred(page, role) ==>
              IsFirst(PreferredIds(page), FreeDepartment(page, role), PreferredDepartment(page, role).value)
  {
    hide Key, Dedup, PreferredIds;
    PrimaryFirst(page);
    if HasPreferred(page, role) {
      var d :| d in page.userDepartments && d.id in page.departments
               && Key(role.id, DepartmentScope, Some(d.id)) !in page.bound;
      assert d.id in PreferredIds(page);
      FindsFirst(PreferredIds(page), FreeDepartment(page, role));
    }
  }

  /**
   * What a sync leaves of the scope: nothing without a scoped role; a free choice as it is; else the first free
   * preferred department, the first free scope, or the first scope at all.
   */
  lemma SyncChooses(page: Page, form: Form)
    ensures var synced := SyncScope(page, form);
            && synced.roleId == form.roleId && synced.confirmedHighRisk == form.confirmedHighRisk
            && match SelectedRole(page, form)
               case None => synced.scopeId == ""
               case Some(role) =>
                 var scopes := Scopes(page, role.scope);
                 if role.scope == Enterprise then synced.scopeId == ""
                 else if form.scopeId in scopes && Key(role.id, role.scope, Some(form.scopeId)) !in page.bound
                 then synced == form
                 else if HasPreferred(page, role) then IsFirst(PreferredIds(page), FreeDepartment(page, role), synced.scopeId)
                 else if exists id :: id in scopes && Key(role.id, role.scope, Some(id)) !in page.bound
                 then IsFirst(scopes, FreeScope(page, role), synced.scopeId)
                 else synced.scopeId == if scopes == [] then "" else scopes[0]
  {
    hide Key, PreferredIds, PreferredDepartment, HasPreferred, FindRole;
    var selected := SelectedRole(page, form);
    if selected.Some? && selected.value.scope != Enterprise {
      var role := selected.value;
      var scopes := Scopes(page, role.scope);
      PreferredIsFirst(page, role);
      if id :| id in scopes && Key(role.id, role.scope, Some(id)) !in page.bound {
        assert FreeScope(page, role)(id);
        FindsFirst(scopes, FreeScope(page, role));
      }
    }
  }

  /** A candidate of this role is still to be granted. */
  ghost predicate Grantable(page: Page, roleId: string) {
    exists c :: ValidCandidate(page, c) && c.role.id == roleId && CandidateKey(c) !in page.bound
  }

  lemma AvailableMembers(page: Page, c: Candidate)
    ensures c in Available(page) <==> ValidCandidate(page, c) && CandidateKey(c) !in page.bound
  {
    hide Key, Candidates;
    CandidatesIff(page, c);
    FilterMembers(Candidates(page, page.roles), FreeCandidate(page), c);
  }

  /**
   * Selecting unconfirms, stays with the current role as long as it has something to grant, and otherwise goes to
   * the first free candidate; a department role gets the first free preferred department, if there is one.
   */
  lemma SelectNextChooses(page: Page, form: Form)
    requires WellFormed(page)
    ensures var next, role := SelectNext(page, form), SelectedRole(page, form);
            && !next.confirmedHighRisk
            && (role.Some? && (HasPreferred(page, role.value) || Grantable(page, form.roleId)) ==> next.roleId == form.roleId)
            && (!(role.Some? && (HasPreferred(page, role.value) || Grantable(page, form.roleId))) && Available(page) != [] ==>
                  next.roleId == Available(page)[0].role.id)
            && (forall r :: r in page.roles && r.id == next.roleId && HasPreferred(page, r) ==>
                  IsFirst(PreferredIds(page), FreeDepartment(page, r), next.scopeId))
  {
    hide Key, PreferredIds, PreferredDepartment, HasPreferred, Candidates, Available;
    var current := SelectedRole(page, form);
    forall r: Role ensures PreferredDepartment(page, r).Some? <==> HasPreferred(page, r) {
      PreferredIsFirst(page, r);
    }
    forall c ensures c in Available(page) <==> ValidCandidate(page, c) && CandidateKey(c) !in page.bound {
      AvailableMembers(page, c);
    }
    var next := SelectNext(page, form);
    forall r | r in page.roles && r.id == next.roleId && HasPreferred(page, r)
      ensures IsFirst(PreferredIds(page), FreeDepartment(page, r), next.scopeId)
    {
      PreferredIsFirst(page, r);
      FoundRoleIsIt(page, r);
      ChosenScope(page, form, r);
    }
  }

  /** The scope selected for a department role is its preferred department. */
  lemma ChosenScope(page: Page, form: Form, r: Role)
    requires WellFormed(page) && r in page.roles && r.id == SelectNext(page, form).roleId && HasPreferred(page, r)
    ensures PreferredDepartment(page, r) == Some(SelectNext(page, form).scopeId)
  {
    hide Key, PreferredIds, PreferredDepartment, Candidates, Available;
    PreferredIsFirst(page, r);
    FoundRoleIsIt(page, r);
    var current := SelectedRole(page, form);
    if !(current.Some? && PreferredDepartment(page, current.value).Some?) {
      var available := Available(page);
      var own := Find(available, OfRole(current));
      var candidate := if own.Some? then own.value else available[0];
      assert candidate in available;
      AvailableMembers(page, candidate);
      FoundRoleIsIt(page, candidate.role);
    }
  }
}
