/**
 * Selecting list items by id: documents for a batch rebuild, index versions for cleanup, failed
 * index jobs for a retry. Some items are eligible; a confirmation box goes with the selection.
 */
module Selection {
  import opened Util

  datatype Item = Item(id: string, eligible: bool)

  function IsEligible(): Item -> bool { (item: Item) => item.eligible }

  function Ids(items: seq<Item>): (ids: seq<string>)
    ensures |ids| == |items| && forall i :: 0 <= i < |ids| ==> ids[i] == items[i].id
  {
    seq(|items|, i requires 0 <= i < |items| => items[i].id)
  }

  function EligibleIds(items: seq<Item>): seq<string> { Ids(Filter(items, IsEligible())) }

  function Among(ids: seq<string>): string -> bool { (id: string) => id in ids }

  function OtherThan(id: string): string -> bool { (other: string) => other != id }

  datatype State = State(items: seq<Item>, selected: seq<string>, confirmed: bool) {
    /** The ids a rebuild or cleanup would be asked for. */
    function Offered(): seq<string> { Filter(selected, Among(EligibleIds(items))) }

    /** The flag behind the select-all box: it compares two lengths. */
    predicate AllSelected() {
      |EligibleIds(items)| > 0 && |Offered()| == |EligibleIds(items)|
    }
  }

  datatype Op =
    | Toggle(id: string, checked: bool)
    | ToggleAll(checked: bool)
    | Prune
    | Clear
    | Reload(items: seq<Item>)
    | Confirm(checked: bool)

  /** A JavaScript Set made from the list, with one id added or deleted. */
  function Toggled(selected: seq<string>, id: string, checked: bool): seq<string> {
    if checked then Dedup(selected + [id]) else Filter(Dedup(selected), OtherThan(id))
  }

  /** Losing the last selected id takes the confirmation with it. */
  function Select(s: State, selected: seq<string>): State {
    s.(selected := selected, confirmed := s.confirmed && selected != [])
  }

  function Step(s: State, op: Op): State {
    match op
    case Toggle(id, checked) => Select(s, Toggled(s.selected, id, checked))
    case ToggleAll(checked) =>
      if checked then s.(selected := EligibleIds(s.items)) else s.(selected := [], confirmed := false)
    case Prune => Select(s, s.Offered())
    case Clear => s.(selected := [], confirmed := false)
    case Reload(items) => s.(items := items)
    case Confirm(checked) => s.(confirmed := checked)
  }

  function Run(s: State, ops: seq<Op>): State
    decreases |ops|
  {
    if ops == [] then s else Run(Step(s, ops[0]), ops[1..])
  }

  class IdSelection {
    var items: seq<Item>
    var selected: seq<string>
    var confirmed: bool

    constructor ()
      ensures Value() == State([], [], false)
    {
      items, selected, confirmed := [], [], false;
    }

    function Value(): State
      reads this
    {
      State(items, selected, confirmed)
    }

    method ToggleId(id: string, checked: bool)
      modifies this
      ensures Value() == Step(old(Value()), Toggle(id, checked))
    {
      var next := Dedup(selected);
      DedupSnoc(selected, id);
      if checked {
        if id !in next {
          next := next + [id];
        }
      } else {
        next := Filter(next, OtherThan(id));
      }
      selected := next;
      if |selected| == 0 {
        confirmed := false;
      }
    }

    method ToggleEvery(checked: bool)
      modifies this
      ensures Value() == Step(old(Value()), ToggleAll(checked))
    {
      selected := if checked then EligibleIds(items) else [];
      if !checked {
        confirmed := false;
      }
    }

    method PruneSelected()
      modifies this
      ensures Value() == Step(old(Value()), Prune)
    {
      selected := Filter(selected, Among(EligibleIds(items)));
      if |selected| == 0 {
        confirmed := false;
      }
    }

    method ClearSelection()
      modifies this
      ensures Value() == Step(old(Value()), Clear)
    {
      selected := [];
      confirmed := false;
    }
  }

  // ----- laws

  /** No two eligible items share an id. */
  predicate DistinctEligible(items: seq<Item>) { NoDuplicates(EligibleIds(items)) }

  /** The lists handed out are all among the given ones. */
  predicate From(ops: seq<Op>, lists: set<seq<Item>>) {
    forall op :: op in ops && op.Reload? ==> op.items in lists
  }

  predicate DistinctReloads(ops: seq<Op>) {
    forall op :: op in ops && op.Reload? ==> DistinctEligible(op.items)
  }

  const START := State([], [], false)

  ghost predicate Sound(s: State) { DistinctEligible(s.items) && NoDuplicates(s.selected) }

  /** Unique ids are enough: eligible items then have distinct ones. */
  lemma ItemsUnique(items: seq<Item>)
    requires NoDuplicates(Ids(items))
    ensures DistinctEligible(items)
  {
    assert NoDuplicates(items) by {
      forall i, j | 0 <= i < j < |items| ensures items[i] != items[j] {
        assert Ids(items)[i] != Ids(items)[j];
      }
    }
    var eligible := Filter(items, IsEligible());
    FilterNoDuplicates(items, IsEligible());
    forall i, j | 0 <= i < j < |eligible| ensures eligible[i].id != eligible[j].id {
      FilterMembers(items, IsEligible(), eligible[i]);
      FilterMembers(items, IsEligible(), eligible[j]);
      var a :| 0 <= a < |items| && items[a] == eligible[i];
      var b :| 0 <= b < |items| && items[b] == eligible[j];
      assert eligible[i] != eligible[j];
      assert Ids(items)[a] != Ids(items)[b];
    }
  }

  lemma EligibleMembers(items: seq<Item>, id: string)
    ensures id in EligibleIds(items) <==> exists item :: item in items && item.eligible && item.id == id
  {
    var eligible := Filter(items, IsEligible());
    if id in EligibleIds(items) {
      var i :| 0 <= i < |eligible| && eligible[i].id == id;
      FilterMembers(items, IsEligible(), eligible[i]);
    }
    if item :| item in items && item.eligible && item.id == id {
      FilterMembers(items, IsEligible(), item);
      var i :| 0 <= i < |eligible| && eligible[i] == item;
      assert Ids(eligible)[i] == id;
    }
  }

  lemma StepSound(s: State, op: Op)
    requires Sound(s) && (op.Reload? ==> DistinctEligible(op.items))
    ensures Sound(Step(s, op))
  {
    match op
    case Toggle(id, checked) =>
      DedupNoDuplicates(s.selected + [id]);
      DedupNoDuplicates(s.selected);
      FilterNoDuplicates(Dedup(s.selected), OtherThan(id));
    case Prune => FilterNoDuplicates(s.selected, Among(EligibleIds(s.items)));
    case _ =>
  }

  /** No sequence of clicks, prunes and reloads ever selects an id twice. */
  lemma {:induction false} RunSound(s: State, ops: seq<Op>)
    requires Sound(s) && DistinctReloads(ops)
    ensures Sound(Run(s, ops))
    decreases |ops|
  {
    if ops != [] {
      assert ops[0] in ops;
      StepSound(s, ops[0]);
      RunSound(Step(s, ops[0]), ops[1..]);
    }
  }

  lemma {:induction false} NoDuplicatesCount<T>(s: seq<T>)
    requires NoDuplicates(s)
    ensures |(set x | x in s)| == |s|
  {
    if s != [] {
      var last := |s| - 1;
      NoDuplicatesCount(s[..last]);
      assert (set x | x in s) == (set x | x in s[..last]) + {s[last]};
    }
  }

  /** Among lists without repeats, one inside the other: equally long means equal membership. */
  lemma SameLengthSameMembers<T>(inner: seq<T>, outer: seq<T>)
    requires NoDuplicates(inner) && NoDuplicates(outer)
    requires forall x :: x in inner ==> x in outer
    ensures |inner| == |outer| <==> forall x :: x in outer ==> x in inner
  {
    var a, b := set x | x in inner, set x | x in outer;
    NoDuplicatesCount(inner);
    NoDuplicatesCount(outer);
    assert a <= b;
    if forall x :: x in outer ==> x in inner {
      assert a == b;
    }
    if |inner| == |outer| {
      assert |b - a| == 0;
      forall x | x in outer ensures x in inner {
        assert x in b && x !in b - a;
      }
    }
  }

  /** What the select-all box should say. */
  ghost predicate FlagRight(s: State) {
    s.AllSelected() <==>
      && (exists item :: item in s.items && item.eligible)
      && (forall item :: item in s.items && item.eligible ==> item.id in s.selected)
  }

  /**
   * In every state reached over lists with distinct eligible ids, exactly the eligible selected ids
   * are offered, none twice, and the length comparison behind select-all says what it should.
   */
  lemma ReachableFlags(ops: seq<Op>)
    requires DistinctReloads(ops)
    ensures var s := Run(START, ops);
            && FlagRight(s)
            && NoDuplicates(s.Offered())
            && (forall id :: id in s.Offered() <==>
                  id in s.selected && exists item :: item in s.items && item.eligible && item.id == id)
  {
    assert EligibleIds([]) == [];
    RunSound(START, ops);
    FlagsOfSound(Run(START, ops));
  }

  lemma FlagsOfSound(s: State)
    requires Sound(s)
    ensures NoDuplicates(s.Offered())
    ensures forall id :: id in s.Offered() <==>
                  id in s.selected && exists item :: item in s.items && item.eligible && item.id == id
    ensures FlagRight(s)
  {
    var eligible, offered := EligibleIds(s.items), s.Offered();
    FilterNoDuplicates(s.selected, Among(eligible));
    forall id ensures id in offered <==> id in s.selected && id in eligible {
      FilterMembers(s.selected, Among(eligible), id);
    }
    forall id ensures id in eligible <==> exists item :: item in s.items && item.eligible && item.id == id {
      EligibleMembers(s.items, id);
    }
    SameLengthSameMembers(offered, eligible);
    assert (exists item :: item in s.items && item.eligible) <==> |eligible| > 0 by {
      if |eligible| > 0 {
        assert eligible[0] in eligible;
      }
      if item :| item in s.items && item.eligible {
        assert item.id in eligible;
      }
    }
    assert (forall id :: id in eligible ==> id in offered)
           <==> forall item :: item in s.items && item.eligible ==> item.id in s.selected by {
      if forall id :: id in eligible ==> id in offered {
        forall item | item in s.items && item.eligible ensures item.id in s.selected {
          assert item.id in eligible;
        }
      }
    }
  }

  lemma RunThree(s: State, a: Op, b: Op, c: Op)
    ensures Run(s, [a, b, c]) == Step(Step(Step(s, a), b), c)
  {
    hide Step;
    assert [a, b, c][1..] == [b, c] && [b, c][1..] == [c] && [c][1..] == [];
    assert Run(s, [a, b, c]) == Run(Step(s, a), [b, c]);
    assert Run(Step(s, a), [b, c]) == Run(Step(Step(s, a), b), [c]);
    assert Run(Step(Step(s, a), b), [c]) == Run(Step(Step(Step(s, a), b), c), []);
  }

  lemma {:induction false} FilterKeepsAll(ids: seq<string>, p: string -> bool)
    requires forall id :: id in ids ==> p(id)
    ensures Filter(ids, p) == ids
  {
    if ids != [] {
      assert ids[0] in ids && forall id :: id in ids[1..] ==> id in ids;
      FilterKeepsAll(ids[1..], p);
    }
  }

  /** Over a list that repeats an eligible id, select-all and one more tick leave the flag wrong. */
  lemma RepeatedIdsMislead(items: seq<Item>, x: string)
    requires !DistinctEligible(items) && x in EligibleIds(items)
    ensures !FlagRight(Run(START, [Reload(items), ToggleAll(true), Toggle(x, true)]))
  {
    var ids := EligibleIds(items);
    var s := State(items, Dedup(ids), false);
    RunThree(START, Reload(items), ToggleAll(true), Toggle(x, true));
    DedupKnownSuffix(ids, [x]);
    DedupLength(ids);
    hide Run;
    assert Run(START, [Reload(items), ToggleAll(true), Toggle(x, true)]) == s;
    forall id ensures id in Dedup(ids) <==> id in ids {
      DedupMembers(ids, id);
    }
    FilterKeepsAll(Dedup(ids), Among(ids));
    assert s.Offered() == Dedup(ids);
    EligibleMembers(items, x);
    forall item | item in items && item.eligible ensures item.id in s.selected {
      EligibleMembers(items, item.id);
    }
  }

  /** The flag is right in every state reachable over the lists exactly when each has distinct eligible ids. */
  lemma FlagsRightIff(lists: set<seq<Item>>)
    ensures (forall ops :: From(ops, lists) ==> FlagRight(Run(START, ops)))
       <==> (forall items :: items in lists ==> DistinctEligible(items))
  {
    if forall items :: items in lists ==> DistinctEligible(items) {
      forall ops | From(ops, lists) ensures FlagRight(Run(START, ops)) {
        ReachableFlags(ops);
      }
    } else {
      var items :| items in lists && !DistinctEligible(items);
      var x := EligibleIds(items)[0];
      var ops := [Reload(items), ToggleAll(true), Toggle(x, true)];
      assert From(ops, lists);
      RepeatedIdsMislead(items, x);
    }
  }

  /** An operation that empties a selection drops its confirmation. */
  lemma EmptyingUnconfirms(s: State, op: Op)
    requires s.selected != [] && Step(s, op).selected == []
    ensures Step(s, op).confirmed <==>
              op == ToggleAll(true) && s.confirmed && forall item :: item in s.items ==> !item.eligible
  {
    if op == ToggleAll(true) {
      forall item | item in s.items ensures !item.eligible {
        EligibleMembers(s.items, item.id);
      }
    }
  }

  // ----- what each operation selects

  /** Membership after an operation, for every id: only the toggled id changes, only eligible ids are taken or kept. */
  lemma StepSelects(s: State, op: Op, id: string)
    ensures id in Step(s, op).selected <==>
              match op
              case Toggle(toggled, checked) => if id == toggled then checked else id in s.selected
              case ToggleAll(checked) => checked && exists item :: item in s.items && item.eligible && item.id == id
              case Prune => id in s.selected && exists item :: item in s.items && item.eligible && item.id == id
              case Clear => false
              case Reload(_) => id in s.selected
              case Confirm(_) => id in s.selected
  {
    EligibleMembers(s.items, id);
    match op
    case Toggle(toggled, checked) =>
      DedupMembers(s.selected + [toggled], id);
      DedupMembers(s.selected, id);
      FilterMembers(Dedup(s.selected), OtherThan(toggled), id);
    case Prune => FilterMembers(s.selected, Among(EligibleIds(s.items)), id);
    case _ =>
  }

  /** Ticking a new id puts it last and leaves the rest in place; unticking it again takes the tick back. */
  lemma ToggleUndone(s: State, id: string)
    requires NoDuplicates(s.selected) && id !in s.selected
    ensures var ticked := Step(s, Toggle(id, true));
            && ticked.selected == s.selected + [id] && ticked.confirmed == s.confirmed
            && Step(ticked, Toggle(id, false)).selected == s.selected
  {
    DedupFixesUnique(s.selected);
    DedupSnoc(s.selected, id);
    var both := s.selected + [id];
    assert NoDuplicates(both);
    DedupFixesUnique(both);
    FilterAppend(s.selected, [id], OtherThan(id));
    assert forall other :: other in s.selected ==> OtherThan(id)(other);
    FilterKeepsAll(s.selected, OtherThan(id));
    assert Filter([id], OtherThan(id)) == [];
  }
}
