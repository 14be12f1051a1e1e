/**
 * Page arithmetic of the admin lists, and the refresh that steps back when the page it asked for
 * has become empty. Servers answer with their list of the moment; the list may change between calls.
 */
module Paging {
  import opened Util
  import opened Selection

  /** `Math.ceil(a / b)` for a positive divisor. */
  function CeilDiv(a: int, b: int): int
    requires b > 0
  {
    -((-a) / b)
  }

  lemma CeilDivBounds(a: int, b: int)
    requires b > 0
    ensures (CeilDiv(a, b) - 1) * b < a <= CeilDiv(a, b) * b
  {
    var q, r := (-a) / b, (-a) % b;
    assert -a == q * b + r;
    assert CeilDiv(a, b) * b == -(q * b);
    assert (CeilDiv(a, b) - 1) * b == -(q * b) - b;
  }

  /** The ceiling is the least multiple that covers a. */
  lemma CeilDivLeast(a: int, b: int, n: int)
    requires b > 0
    ensures a <= n * b <==> CeilDiv(a, b) <= n
  {
    CeilDivBounds(a, b);
    hide CeilDiv;
    var c := CeilDiv(a, b);
    if c <= n {
      MulLe(c, n, b);
    } else {
      MulLe(n, c - 1, b);
    }
  }

  lemma MulLe(x: int, y: int, b: int)
    requires x <= y && b > 0
    ensures x * b <= y * b
  {
    assert (y - x) * b >= 0;
  }

  function TotalPages(total: int, pageSize: int): int { Max(1, CeilDiv(total, Max(pageSize, 1))) }

  function Start(page: int, pageSize: int, total: int): int {
    if total == 0 then 0 else (page - 1) * pageSize + 1
  }

  function End(page: int, pageSize: int, total: int): int { Min(total, page * pageSize) }

  /** Item number i is among those the page says it shows. */
  predicate Shows(page: int, pageSize: int, total: int, i: int) {
    Start(page, pageSize, total) <= i <= End(page, pageSize, total)
  }

  // ----- the ranges

  /** Every item is on exactly one page of 1..totalPages, unless a page size below one was set. */
  lemma PagesPartition(pageSize: int, total: nat, i: int)
    requires 1 <= i <= total
    ensures pageSize >= 1 <==> exists p :: 1 <= p <= TotalPages(total, pageSize) && Shows(p, pageSize, total, i)
    ensures forall p, q :: Shows(p, pageSize, total, i) && Shows(q, pageSize, total, i) && 1 <= p && 1 <= q ==> p == q
  {
    if pageSize >= 1 {
      var p := CeilDiv(i, pageSize);
      CeilDivBounds(i, pageSize);
      CeilDivLeast(i, pageSize, 0);
      CeilDivBounds(total, pageSize);
      CeilDivLeast(i, pageSize, CeilDiv(total, pageSize));
      assert Shows(p, pageSize, total, i);
      forall q | Shows(q, pageSize, total, i) ensures q == p {
        CeilDivLeast(i, pageSize, q);
        CeilDivLeast(i, pageSize, q - 1);
      }
    } else {
      forall p | 1 <= p ensures !Shows(p, pageSize, total, i) {
        NonPositive(p, pageSize);
      }
    }
  }

  lemma NonPositive(p: int, n: int)
    requires p >= 1 && n <= 0
    ensures p * n <= 0
  {
  }

  /** The ranges follow one another without gap, from item one to the last. */
  lemma RangesChain(page: int, pageSize: int, total: nat)
    requires pageSize >= 1 && 1 <= page <= TotalPages(total, pageSize)
    ensures Start(1, pageSize, total) == Min(1, total)
    ensures End(TotalPages(total, pageSize), pageSize, total) == total
    ensures page < TotalPages(total, pageSize) ==> Start(page + 1, pageSize, total) == End(page, pageSize, total) + 1
    ensures total > 0 ==> Start(page, pageSize, total) <= End(page, pageSize, total)
  {
    var last := CeilDiv(total, pageSize);
    CeilDivBounds(total, pageSize);
    CeilDivLeast(total, pageSize, page - 1);
    CeilDivLeast(total, pageSize, page);
    CeilDivLeast(total, pageSize, 0);
  }

  /** The honest slice of a list for a page. */
  function Slice<T>(items: seq<T>, page: int, pageSize: int): seq<T>
    requires pageSize >= 1
  {
    if page < 1 || (page - 1) * pageSize >= |items| then []
    else items[(page - 1) * pageSize..Min(|items|, page * pageSize)]
  }

  function Pages<T>(items: seq<T>, count: nat, pageSize: int): seq<seq<T>>
    requires pageSize >= 1
  {
    if count == 0 then [] else Pages(items, count - 1, pageSize) + [Slice(items, count, pageSize)]
  }

  lemma {:induction false} PagesAreAPrefix<T>(items: seq<T>, count: nat, pageSize: int)
    requires pageSize >= 1
    ensures count * pageSize >= 0
    ensures Flatten(Pages(items, count, pageSize)) == items[..Min(|items|, count * pageSize)]
  {
    if count > 0 {
      PagesAreAPrefix(items, count - 1, pageSize);
      var front, slice := Pages(items, count - 1, pageSize), Slice(items, count, pageSize);
      FlattenAppend(front, [slice]);
      assert Flatten([slice]) == slice;
      var from := (count - 1) * pageSize;
      assert count * pageSize == from + pageSize;
      assert items[..Min(|items|, from)] + slice == items[..Min(|items|, from + pageSize)];
    }
  }

  /** The page shows as many items as its range announces. */
  lemma SliceFillsRange<T>(items: seq<T>, page: int, pageSize: int)
    requires pageSize >= 1 && items != [] && 1 <= page <= TotalPages(|items|, pageSize)
    ensures |Slice(items, page, pageSize)| == End(page, pageSize, |items|) - Start(page, pageSize, |items|) + 1
  {
    RangesChain(page, pageSize, |items|);
    hide TotalPages;
    var from := (page - 1) * pageSize;
    assert page * pageSize == from + pageSize;
  }

  /** Paging through 1..totalPages shows the list, each item once and in order. */
  lemma PagesShowTheList<T>(items: seq<T>, pageSize: int)
    requires pageSize >= 1
    ensures Flatten(Pages(items, TotalPages(|items|, pageSize), pageSize)) == items
  {
    var last := TotalPages(|items|, pageSize);
    assert |items| <= last * pageSize by {
      CeilDivLeast(|items|, pageSize, last);
    }
    hide *;
    PagesAreAPrefix(items, last, pageSize);
    MinLeft(|items|, last * pageSize);
    assert items[..|items|] == items;
  }

  lemma MinLeft(a: int, b: int)
    requires a <= b
    ensures Min(a, b) == a
  {
  }

  // ----- moving and refreshing

  datatype View = View(
    page: int, pageSize: int, total: int,
    jobs: seq<Item>, selected: seq<string>, confirmed: bool)

  /** What one call meets: no permission to read, a failure, or the server's list and page size. */
  datatype Reply = Denied | Failed | Listed(items: seq<Item>, pageSize: int)

  /** The answer to the n-th call, for the page and size asked for. Page sizes are at least one. */
  type Server = (nat, int, int) -> Reply

  ghost predicate Honest(server: Server) {
    forall n, page, size :: server(n, page, size).Listed? ==> server(n, page, size).pageSize >= 1
  }

  lemma AnswersHonestly(server: Server, n: nat, page: int, size: int)
    requires Honest(server)
    ensures server(n, page, size).Listed? ==> server(n, page, size).pageSize >= 1
  {
  }

  function Cleared(v: View): View { v.(page := 1, total := 0, jobs := [], selected := []) }

  /** The view after an answer has been taken in and the selection cut down to it. */
  function Shown(v: View, items: seq<Item>, pageSize: int): View
    requires pageSize >= 1
  {
    var jobs := Slice(items, v.page, pageSize);
    var kept := Filter(v.selected, Among(Ids(jobs)));
    View(v.page, pageSize, |items|, jobs, kept, v.confirmed && kept != [])
  }

  predicate StepsBack(v: View, items: seq<Item>, pageSize: int)
    requires pageSize >= 1
  {
    Slice(items, v.page, pageSize) == [] && |items| > 0 && v.page > 1
  }

  /**
   * The honest slice beyond page one is empty exactly when stepping back leads to an earlier page:
   * an empty answer where the honest slice is not would send the refresh to the same page or a later one.
   */
  lemma BackIsEarlier(items: seq<Item>, page: int, pageSize: int)
    requires pageSize >= 1 && page > 1 && |items| > 0
    ensures Slice(items, page, pageSize) == [] <==> TotalPages(|items|, pageSize) < page
  {
    CeilDivLeast(|items|, pageSize, page - 1);
    CeilDivLeast(|items|, pageSize, 0);
  }

  datatype Ending = WasDenied | HadNoToken | WasFailed | WasListed

  /** The refresh with a token at hand: the view it leaves, how it ended, and the calls it took. */
  function Refreshed(server: Server, n: nat, v: View): (r: (View, Ending, nat))
    requires Honest(server)
    decreases Max(v.page, 0)
  {
    match server(n, v.page, v.pageSize)
    case Denied => (Cleared(v), WasDenied, n + 1)
    case Failed => (Cleared(v), WasFailed, n + 1)
    case Listed(items, pageSize) =>
      if StepsBack(v, items, pageSize) then
        BackIsEarlier(items, v.page, pageSize);
        var back := TotalPages(|items|, pageSize);
        Refreshed(server, n + 1, v.(page := back, pageSize := pageSize, total := |items|, jobs := []))
      else (Shown(v, items, pageSize), WasListed, n + 1)
  }

  /** `refreshFailedIndexJobs`: permission is looked at first; without a token the view stays as it is. */
  function RefreshedFrom(server: Server, n: nat, v: View, token: bool): (r: (View, Ending, nat))
    requires Honest(server)
  {
    if server(n, v.page, v.pageSize).Denied? || token then Refreshed(server, n, v) else (v, HadNoToken, n)
  }

  class FailedIndexJobs {
    var page: int
    var pageSize: int
    var total: int
    var jobs: seq<Item>
    var selected: seq<string>
    var confirmed: bool

    constructor (pageSize: int)
      ensures Value() == View(1, pageSize, 0, [], [], false)
    {
      page, this.pageSize, total, jobs, selected, confirmed := 1, pageSize, 0, [], [], false;
    }

    function Value(): View
      reads this
    {
      View(page, pageSize, total, jobs, selected, confirmed)
    }

    method Clear()
      modifies this
      ensures Value() == Cleared(old(Value()))
    {
      jobs, selected := [], [];
      page, total := 1, 0;
    }

    method Refresh(server: Server, n: nat) returns (end: Ending, calls: nat)
      requires Honest(server)
      modifies this
      ensures (Value(), end, calls) == Refreshed(server, n, old(Value()))
      decreases Max(page, 0)
    {
      var reply := server(n, page, pageSize);
      AnswersHonestly(server, n, page, pageSize);
      match reply
      case Denied =>
        Clear();
        end, calls := WasDenied, n + 1;
      case Failed =>
        Clear();
        end, calls := WasFailed, n + 1;
      case Listed(items, size) =>
        jobs := Slice(items, page, size);
        pageSize, total := size, |items|;
        if |jobs| == 0 && total > 0 && page > 1 {
          BackIsEarlier(items, page, size);
          page := TotalPages(total, pageSize);
          end, calls := Refresh(server, n + 1);
          return;
        }
        selected := Filter(selected, Among(Ids(jobs)));
        if |selected| == 0 {
          confirmed := false;
        }
        end, calls := WasListed, n + 1;
    }

    method RefreshFailedIndexJobs(server: Server, n: nat, token: bool) returns (end: Ending, calls: nat)
      requires Honest(server)
      modifies this
      ensures (Value(), end, calls) == RefreshedFrom(server, n, old(Value()), token)
    {
      if server(n, page, pageSize).Denied? {
        Clear();
        return WasDenied, n + 1;
      }
      if !token {
        return HadNoToken, n;
      }
      end, calls := Refresh(server, n);
    }

    /** `changePaginationPage`: clamp, and ask for a refresh only when the page moved. */
    method ChangePage(to: int) returns (refresh: bool)
      modifies this`page
      ensures page == Max(1, Min(to, TotalPages(total, pageSize)))
      ensures refresh <==> page != old(page)
    {
      var next := Min(Max(to, 1), TotalPages(total, pageSize));
      refresh := page != next;
      if refresh {
        page := next;
      }
    }
  }

  /** The refresh ends within as many calls as the page number it started from. */
  lemma {:induction false} RefreshCalls(server: Server, n: nat, v: View)
    requires Honest(server)
    ensures n < Refreshed(server, n, v).2 <= n + Max(v.page, 1)
    ensures Refreshed(server, n, v).0.page <= Max(v.page, 1)
    decreases Max(v.page, 0)
  {
    match server(n, v.page, v.pageSize)
    case Denied =>
    case Failed =>
    case Listed(items, pageSize) =>
      if StepsBack(v, items, pageSize) {
        BackIsEarlier(items, v.page, pageSize);
        RefreshCalls(server, n + 1,
          v.(page := TotalPages(|items|, pageSize), pageSize := pageSize, total := |items|, jobs := []));
      }
  }

  /**
   * Whatever the server does, a view that came from a list never shows an empty later page of a list
   * that has items, and keeps selected what it still shows. The confirmation falls with the last
   * selected id when a list was read; a refused or failed refresh empties the selection and leaves it
   * ticked; without a token nothing changes.
   */
  lemma RefreshLeaves(server: Server, n: nat, v: View, token: bool)
    requires Honest(server)
    ensures var (after, end, calls) := RefreshedFrom(server, n, v, token);
            && (end == HadNoToken <==> !token && !server(n, v.page, v.pageSize).Denied?)
            && (end == HadNoToken ==> after == v)
            && (end == WasDenied || end == WasFailed ==> after.selected == [] && after.confirmed == v.confirmed)
            && (end == WasListed ==>
                  && (after.jobs == [] && after.total > 0 ==> after.page <= 1)
                  && (forall id :: id in after.selected <==> id in v.selected && id in Ids(after.jobs))
                  && (after.selected == [] ==> !after.confirmed))
  {
    RefreshedIsSettled(server, n, v);
  }

  lemma {:induction false} RefreshedIsSettled(server: Server, n: nat, v: View)
    requires Honest(server)
    ensures var (after, end, calls) := Refreshed(server, n, v);
            && (after.jobs == [] && after.total > 0 ==> after.page <= 1)
            && (forall id :: id in after.selected <==> id in v.selected && id in Ids(after.jobs))
            && end != HadNoToken
            && (end == WasListed && after.selected == [] ==> !after.confirmed)
            && (end != WasListed ==> after.confirmed == v.confirmed && after.selected == [])
    decreases Max(v.page, 0)
  {
    match server(n, v.page, v.pageSize)
    case Denied =>
    case Failed =>
    case Listed(items, pageSize) =>
      if StepsBack(v, items, pageSize) {
        BackIsEarlier(items, v.page, pageSize);
        RefreshedIsSettled(server, n + 1,
          v.(page := TotalPages(|items|, pageSize), pageSize := pageSize, total := |items|, jobs := []));
      } else {
        forall id ensures id in Shown(v, items, pageSize).selected
                          <==> id in v.selected && id in Ids(Shown(v, items, pageSize).jobs) {
          FilterMembers(v.selected, Among(Ids(Slice(items, v.page, pageSize))), id);
        }
      }
  }

  /** Against a list that holds still, at most one step back: the page asked for, or the last one. */
  lemma StillServer(server: Server, n: nat, v: View, items: seq<Item>, size: int)
    requires Honest(server) && v.page >= 1 && size >= 1
    requires forall m, page, asked :: server(m, page, asked) == Listed(items, size)
    ensures var (after, end, calls) := Refreshed(server, n, v);
            && end == WasListed && calls <= n + 2
            && after.page == (if items == [] then v.page else Min(v.page, TotalPages(|items|, size)))
            && after.jobs == Slice(items, after.page, size)
  {
    if StepsBack(v, items, size) {
      BackIsEarlier(items, v.page, size);
      var back := TotalPages(|items|, size);
      if back > 1 {
        BackIsEarlier(items, back, size);
      }
    } else if v.page > 1 && items != [] {
      BackIsEarlier(items, v.page, size);
    }
    if items != [] && v.page == 1 {
      CeilDivLeast(|items|, size, 0);
    }
  }

  /** The view shows its page of the list that the given call answered. */
  ghost predicate ShowsAnswer(server: Server, call: nat, after: View) {
    && after.pageSize >= 1
    && exists asked, items :: server(call, after.page, asked) == Listed(items, after.pageSize)
                              && after.jobs == Slice(items, after.page, after.pageSize) && after.total == |items|
  }

  lemma AnswerShown(server: Server, n: nat, v: View)
    requires Honest(server) && server(n, v.page, v.pageSize).Listed?
    ensures var reply := server(n, v.page, v.pageSize);
            && reply.pageSize >= 1 && ShowsAnswer(server, n, Shown(v, reply.items, reply.pageSize))
            && Shown(v, reply.items, reply.pageSize).confirmed
               == (v.confirmed && Shown(v, reply.items, reply.pageSize).selected != [])
  {
    hide Slice, Filter;
    var reply := server(n, v.page, v.pageSize);
    var after := Shown(v, reply.items, reply.pageSize);
    assert server(n, after.page, v.pageSize) == Listed(reply.items, after.pageSize);
  }

  lemma ClearedShows(v: View)
    ensures Cleared(v).page == 1 && Cleared(v).total == 0 && Cleared(v).jobs == []
  {
  }

  /**
   * What a refresh leaves on screen: after a list was read, the last answer's page of it, its page size and its
   * length, and as confirmed only what still is; after a refusal or a failure, nothing on page one.
   */
  lemma {:induction false} RefreshShows(server: Server, n: nat, v: View)
    requires Honest(server)
    ensures var (after, end, calls) := Refreshed(server, n, v);
            if end == WasListed then
              calls > 0 && ShowsAnswer(server, calls - 1, after) && after.confirmed == (v.confirmed && after.selected != [])
            else after.page == 1 && after.total == 0 && after.jobs == []
    decreases Max(v.page, 0)
  {
    hide Shown, Slice, Filter, ShowsAnswer, Cleared, TotalPages;
    AnswersHonestly(server, n, v.page, v.pageSize);
    ClearedShows(v);
    if server(n, v.page, v.pageSize).Listed? {
      var items, pageSize := server(n, v.page, v.pageSize).items, server(n, v.page, v.pageSize).pageSize;
      if StepsBack(v, items, pageSize) {
        BackIsEarlier(items, v.page, pageSize);
        RefreshShows(server, n + 1,
          v.(page := TotalPages(|items|, pageSize), pageSize := pageSize, total := |items|, jobs := []));
      } else {
        AnswerShown(server, n, v);
      }
    }
  }
}
