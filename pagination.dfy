/** The paginated-list controller `usePagination`: the list state shown to the
    screen, the two guards against duplicate requests (an in-flight flag and
    the last page merged), a retry loop of three attempts around the fetch
    function, and the load-more merge that drops products already listed.

    The fetch function is an oracle: a fixed script of outcomes, one per
    call, and a log of the parameters it was called with. Every
    `await` is one sequential step and the 500 ms backoff wait is a no-op. */
module Pagination {
  import opened Wrappers
  import opened Seqs
  import Messages

  const DefaultPage: int := 1
  const DefaultPerPage: int := 25
  /** The hook's own `maxRetries`: attempts per fetch, not re-sends. */
  const MaxRetries: nat := 3

  /** A product; identity for deduplication is `id` alone. */
  datatype Product = Product(id: int, name: string)

  /** What a call of the fetch function resolves to; `products` and
      `has_more` may each be absent. */
  datatype PageResponse = PageResponse(products: Option<seq<Product>>, hasMore: Option<bool>)

  datatype FetchOutcome = Resolved(response: PageResponse) | Rejected

  /** The argument `{page, per_page}` of the fetch function. */
  datatype PageParams = PageParams(page: int, perPage: int)

  /** The hook's `state` record, replaced as a whole by every `setState`. */
  datatype PaginationState = PaginationState(
    data: seq<Product>,
    loading: bool,
    loadingMore: bool,
    error: Option<string>,
    currentPage: int,
    hasMore: bool)

  function InitialState(initialPage: int): PaginationState {
    PaginationState([], true, false, None, initialPage, true)
  }

  /** The two loading flags are never both set. */
  predicate FlagsExclusive(s: PaginationState) {
    !(s.loading && s.loadingMore)
  }

  function Ids(s: seq<Product>): set<int> {
    set p | p in s :: p.id
  }

  predicate UniqueIds(s: seq<Product>) {
    forall i, j :: 0 <= i < j < |s| ==> s[i].id != s[j].id
  }

  /** The products of a page whose id is not in `known`, in server order.
      Only ids already known are filtered: two products of the same page
      with one id both stay. */
  function Unseen(known: set<int>, page: seq<Product>): (r: seq<Product>)
    ensures |r| <= |page|
    ensures forall p :: p in r <==> p in page && p.id !in known
  {
    if page == [] then []
    else (if page[0].id in known then [] else [page[0]]) + Unseen(known, page[1..])
  }

  /** Each product of the page keeps its multiplicity unless its id is known. */
  lemma {:induction false} UnseenCounts(known: set<int>, page: seq<Product>)
    ensures forall p :: multiset(Unseen(known, page))[p] == if p.id in known then 0 else multiset(page)[p]
  {
    if page != [] {
      assert page == [page[0]] + page[1..];
      UnseenCounts(known, page[1..]);
    }
  }

  /** The load-more merge: the old list, then the unseen products of the page. */
  function Merge(existing: seq<Product>, page: seq<Product>): (r: seq<Product>)
    ensures |existing| <= |r| <= |existing| + |page|
    ensures r[..|existing|] == existing
    ensures forall p :: p in r[|existing|..] <==> p in page && p.id !in Ids(existing)
  {
    existing + Unseen(Ids(existing), page)
  }

  /** The state while a request is outstanding (the first `setState` of each
      attempt): exactly one loading flag is set and the error is cleared. */
  function InFlight(s: PaginationState, isLoadMore: bool): (r: PaginationState)
    ensures r.loading != r.loadingMore && r.loadingMore == isLoadMore && r.error == None
    ensures r.data == s.data && r.currentPage == s.currentPage && r.hasMore == s.hasMore
  {
    s.(loading := !isLoadMore, loadingMore := isLoadMore, error := None)
  }

  /** `response?.products || []`: the page's products, `[]` when missing. */
  function ProductsOf(response: PageResponse): seq<Product> {
    if response.products.Some? then response.products.value else []
  }

  /** The `setState` updater of a resolved attempt: a missing `products` is
      `[]`, a missing `has_more` is `false`. */
  function Succeed(s: PaginationState, page: int, isLoadMore: bool, response: PageResponse): (r: PaginationState)
    ensures !r.loading && !r.loadingMore && r.error == None && r.currentPage == page
    ensures r.hasMore == (response.hasMore == Some(true))
    ensures isLoadMore ==> r.data == Merge(s.data, ProductsOf(response))
    ensures !isLoadMore ==> r.data == ProductsOf(response)
  {
    var hasMore := if response.hasMore.Some? then response.hasMore.value else false;
    PaginationState(if isLoadMore then Merge(s.data, ProductsOf(response)) else ProductsOf(response), false, false, None, page, hasMore)
  }

  /** The `setState` updater after the last failed attempt. */
  function GiveUp(s: PaginationState): (r: PaginationState)
    ensures !r.loading && !r.loadingMore && r.error == Some(Messages.LoadFailed)
    ensures r.data == s.data && r.currentPage == s.currentPage && r.hasMore == s.hasMore
  {
    s.(loading := false, loadingMore := false, error := Some(Messages.LoadFailed))
  }

  /** The outcome of the call numbered `i`; past the end of the script every
      call is rejected. */
  function OutcomeAt(script: seq<FetchOutcome>, i: nat): FetchOutcome {
    if i < |script| then script[i] else Rejected
  }

  /** The state, the last page merged, and how many times the fetch function
      was called. */
  datatype FetchEffect = FetchEffect(state: PaginationState, lastPageLoaded: int, calls: nat)

  /** The retry loop from attempt `r` on, when the script's call number
      `from + k` answers attempt `k`. */
  function Attempts(s: PaginationState, lastPage: int, page: int, isLoadMore: bool,
                    script: seq<FetchOutcome>, from: nat, r: nat): (e: FetchEffect)
    requires r < MaxRetries
    decreases MaxRetries - r
    ensures r < e.calls <= MaxRetries
  {
    match OutcomeAt(script, from + r)
    case Resolved(response) => FetchEffect(Succeed(s, page, isLoadMore, response), page, r + 1)
    case Rejected =>
      if r + 1 >= MaxRetries then FetchEffect(GiveUp(s), lastPage, r + 1)
      else Attempts(s, lastPage, page, isLoadMore, script, from, r + 1)
  }

  /** The retry loop makes calls until the first resolved one, at most three:
      every call before the last was rejected, and the last call decides. */
  lemma {:induction false} AttemptsOutcome(s: PaginationState, lastPage: int, page: int, isLoadMore: bool,
                                           script: seq<FetchOutcome>, from: nat, r: nat)
    requires r < MaxRetries
    decreases MaxRetries - r
    ensures var e := Attempts(s, lastPage, page, isLoadMore, script, from, r);
      && (forall i :: from + r <= i < from + e.calls - 1 ==> OutcomeAt(script, i).Rejected?)
      && match OutcomeAt(script, from + (e.calls - 1))
           case Resolved(response) =>
             e == FetchEffect(Succeed(s, page, isLoadMore, response), page, e.calls)
           case Rejected =>
             e == FetchEffect(GiveUp(s), lastPage, MaxRetries)
  {
    if OutcomeAt(script, from + r).Rejected? && r + 1 < MaxRetries {
      AttemptsOutcome(s, lastPage, page, isLoadMore, script, from, r + 1);
    }
  }

  /** A resolved attempt `r` ends the loop with the page merged into the
      in-flight state of that attempt (the `prev` of its updater). */
  lemma StepResolved(s: PaginationState, lastPage: int, page: int, isLoadMore: bool,
                     script: seq<FetchOutcome>, from: nat, r: nat, response: PageResponse)
    requires r < MaxRetries && OutcomeAt(script, from + r) == Resolved(response)
    ensures Attempts(s, lastPage, page, isLoadMore, script, from, r) ==
      FetchEffect(Succeed(InFlight(s, isLoadMore), page, isLoadMore, response), page, r + 1)
  {
  }

  /** A rejected last attempt ends the loop with the error set on the
      in-flight state. */
  lemma StepGiveUp(s: PaginationState, lastPage: int, page: int, isLoadMore: bool,
                   script: seq<FetchOutcome>, from: nat, r: nat)
    requires r + 1 == MaxRetries && OutcomeAt(script, from + r).Rejected?
    ensures Attempts(s, lastPage, page, isLoadMore, script, from, r) ==
      FetchEffect(GiveUp(InFlight(s, isLoadMore)), lastPage, MaxRetries)
  {
  }

  /** A rejected attempt before the last hands over to the next one. */
  lemma StepRetry(s: PaginationState, lastPage: int, page: int, isLoadMore: bool,
                  script: seq<FetchOutcome>, from: nat, r: nat)
    requires r + 1 < MaxRetries && OutcomeAt(script, from + r).Rejected?
    ensures Attempts(s, lastPage, page, isLoadMore, script, from, r) ==
      Attempts(s, lastPage, page, isLoadMore, script, from, r + 1)
  {
  }

  /** `fetchData(page, isLoadMore)` as a function of the state before it. */
  function FetchSpec(s: PaginationState, isFetching: bool, lastPage: int, page: int, isLoadMore: bool,
                     script: seq<FetchOutcome>, from: nat): (e: FetchEffect)
    ensures e.calls <= MaxRetries
    ensures e.calls > 0 ==> e.state.error.Some? || (e.lastPageLoaded == page && e.state.currentPage == page)
  {
    AttemptsOutcome(s, lastPage, page, isLoadMore, script, from, 0);
    if isFetching || (isLoadMore && lastPage >= page) then FetchEffect(s, lastPage, 0)
    else Attempts(s, lastPage, page, isLoadMore, script, from, 0)
  }

  // ---------------------------------------------------------------------
  // Properties of the specification

  /** The guards: a fetch makes no call exactly when one is in flight or a
      load-more asks for a page already merged, and then nothing changes. */
  lemma GuardsSkipFetch(s: PaginationState, isFetching: bool, lastPage: int, page: int, isLoadMore: bool,
                        script: seq<FetchOutcome>, from: nat)
    ensures var e := FetchSpec(s, isFetching, lastPage, page, isLoadMore, script, from);
      && (e.calls == 0 <==> isFetching || (isLoadMore && lastPage >= page))
      && (e.calls == 0 ==> e.state == s && e.lastPageLoaded == lastPage)
  {
  }

  /** A fetch that runs gives up exactly when its three calls are all
      rejected; giving up sets the fixed message, clears both flags, and
      leaves the list, the page and `hasMore` as they were. */
  lemma GiveUpAfterThreeRejections(s: PaginationState, lastPage: int, page: int, isLoadMore: bool,
                                   script: seq<FetchOutcome>, from: nat)
    ensures var e := Attempts(s, lastPage, page, isLoadMore, script, from, 0);
      && (e.state.error.Some? <==> forall i :: from <= i < from + MaxRetries ==> OutcomeAt(script, i).Rejected?)
      && (e.state.error.Some? ==>
            && e.calls == MaxRetries && e.lastPageLoaded == lastPage
            && e.state == s.(loading := false, loadingMore := false, error := Some(Messages.LoadFailed)))
  {
    AttemptsOutcome(s, lastPage, page, isLoadMore, script, from, 0);
    var e := Attempts(s, lastPage, page, isLoadMore, script, from, 0);
    var last := e.calls - 1;
    if forall i :: from <= i < from + MaxRetries ==> OutcomeAt(script, i).Rejected? {
      assert OutcomeAt(script, from + last).Rejected?;
    }
  }

  /** A fetch that runs succeeds with the first resolved call among the
      first three: the page becomes current and is recorded as merged. */
  lemma SucceedOnFirstResolved(s: PaginationState, lastPage: int, page: int, isLoadMore: bool,
                               script: seq<FetchOutcome>, from: nat, k: nat)
    requires k < MaxRetries && OutcomeAt(script, from + k).Resolved?
    requires forall i :: from <= i < from + k ==> OutcomeAt(script, i).Rejected?
    ensures var e := Attempts(s, lastPage, page, isLoadMore, script, from, 0);
      && e.calls == k + 1
      && e.state == Succeed(s, page, isLoadMore, OutcomeAt(script, from + k).response)
      && e.state.currentPage == page && e.lastPageLoaded == page
      && !e.state.loading && !e.state.loadingMore && e.state.error == None
  {
    AttemptsOutcome(s, lastPage, page, isLoadMore, script, from, 0);
  }

  /** Whatever happens, the flags end exclusive and the last page merged is
      either reset (0) or the current page. */
  lemma FetchKeepsInvariant(s: PaginationState, isFetching: bool, lastPage: int, page: int, isLoadMore: bool,
                            script: seq<FetchOutcome>, from: nat)
    requires FlagsExclusive(s) && (lastPage == 0 || lastPage == s.currentPage)
    ensures var e := FetchSpec(s, isFetching, lastPage, page, isLoadMore, script, from);
      && FlagsExclusive(e.state)
      && (e.lastPageLoaded == 0 || e.lastPageLoaded == e.state.currentPage)
      && e.calls <= MaxRetries
      && (e.calls > 0 ==> !e.state.loading && !e.state.loadingMore)
  {
  }

  /** A replacing (not load-more) success shows exactly the page's products. */
  lemma ReplaceWholesale(s: PaginationState, page: int, response: PageResponse)
    ensures Succeed(s, page, false, response).data == (if response.products.Some? then response.products.value else [])
    ensures Succeed(s, page, false, response).hasMore == (response.hasMore == Some(true))
  {
  }

  /** A load-more success keeps the old list in front and appends each product
      of the page (`[]` when missing) as often as the page holds it, unless
      its id is already listed; the ids are the union, and unique ids stay
      unique. */
  lemma LoadMoreMerges(s: PaginationState, page: int, response: PageResponse)
    ensures var r := Succeed(s, page, true, response);
      var products := if response.products.Some? then response.products.value else [];
      && |r.data| >= |s.data| && r.data[..|s.data|] == s.data
      && (forall p :: multiset(r.data[|s.data|..])[p] == if p.id in Ids(s.data) then 0 else multiset(products)[p])
      && Ids(r.data) == Ids(s.data) + Ids(products)
      && (UniqueIds(s.data) && UniqueIds(products) ==> UniqueIds(r.data))
      && r.hasMore == (response.hasMore == Some(true))
  {
    var products := ProductsOf(response);
    var r := Succeed(s, page, true, response);
    assert r.data[|s.data|..] == Unseen(Ids(s.data), products);
    UnseenCounts(Ids(s.data), products);
    MergeIds(s.data, products);
    if UniqueIds(s.data) && UniqueIds(products) {
      MergeUnique(s.data, products);
    }
  }

  lemma {:induction false} UnseenConcat(known: set<int>, a: seq<Product>, b: seq<Product>)
    ensures Unseen(known, a + b) == Unseen(known, a) + Unseen(known, b)
  {
    if a == [] {
      assert a + b == b;
    } else {
      assert (a + b)[0] == a[0] && (a + b)[1..] == a[1..] + b;
      UnseenConcat(known, a[1..], b);
    }
  }

  /** The merge keeps server order: the new products of a page made of two
      parts are those of the first part, then those of the second, both
      checked against the ids of the old list only (so a repeat inside the
      page is not dropped). */
  lemma MergeInServerOrder(existing: seq<Product>, a: seq<Product>, b: seq<Product>)
    ensures Merge(existing, a + b) == existing + Unseen(Ids(existing), a) + Unseen(Ids(existing), b)
  {
    UnseenConcat(Ids(existing), a, b);
  }

  lemma UniqueTail(s: seq<Product>)
    requires s != [] && UniqueIds(s)
    ensures UniqueIds(s[1..]) && s[0].id !in Ids(s[1..])
  {
    assert forall i :: 0 <= i < |s[1..]| ==> s[1..][i] == s[i + 1];
  }

  lemma UniqueCons(x: Product, t: seq<Product>)
    requires UniqueIds(t) && x.id !in Ids(t)
    ensures UniqueIds([x] + t)
  {
    var r := [x] + t;
    forall i, j | 0 <= i < j < |r| ensures r[i].id != r[j].id {
      assert r[j] == t[j - 1] && r[j] in t;
      if i > 0 {
        assert r[i] == t[i - 1];
      }
    }
  }

  lemma {:induction false} UnseenUnique(known: set<int>, page: seq<Product>)
    requires UniqueIds(page)
    ensures UniqueIds(Unseen(known, page))
  {
    if page != [] {
      var tail := Unseen(known, page[1..]);
      UniqueTail(page);
      UnseenUnique(known, page[1..]);
      if page[0].id !in known {
        assert Ids(tail) <= Ids(page[1..]);
        UniqueCons(page[0], tail);
      }
    }
  }

  /** If the list and the page each have unique ids, so does the merge. */
  lemma MergeUnique(existing: seq<Product>, page: seq<Product>)
    requires UniqueIds(existing) && UniqueIds(page)
    ensures UniqueIds(Merge(existing, page))
  {
    var unseen := Unseen(Ids(existing), page);
    UnseenUnique(Ids(existing), page);
    var r := existing + unseen;
    forall i, j | 0 <= i < j < |r| ensures r[i].id != r[j].id {
      if j >= |existing| {
        assert r[j] == unseen[j - |existing|];
        if i < |existing| {
          assert r[i] in existing;
          assert r[j] in unseen;
        } else {
          assert r[i] == unseen[i - |existing|];
        }
      }
    }
  }

  /** The merged list lists every id of the old list and of the page. */
  lemma MergeIds(existing: seq<Product>, page: seq<Product>)
    ensures Ids(Merge(existing, page)) == Ids(existing) + Ids(page)
  {
    var r := Merge(existing, page);
    forall x | x in Ids(existing) + Ids(page) ensures x in Ids(r) {
      if x in Ids(existing) {
        var p :| p in existing && p.id == x;
        assert p in r;
      } else {
        var p :| p in page && p.id == x;
        assert p in r[|existing|..];
        assert p in r;
      }
    }
    forall x | x in Ids(r) ensures x in Ids(existing) + Ids(page) {
      var p :| p in r && p.id == x;
      var i :| 0 <= i < |r| && r[i] == p;
      if i >= |existing| {
        assert p in r[|existing|..];
      } else {
        assert p in existing;
      }
    }
  }

  /** Duplicates inside one page are not filtered. */
  lemma InPageDuplicatesKept()
    ensures Merge([], [Product(7, "a"), Product(7, "b")]) == [Product(7, "a"), Product(7, "b")]
  {
    var page := [Product(7, "a"), Product(7, "b")];
    assert Ids([]) == {};
    assert Unseen({}, page[1..]) == [Product(7, "b")] by {
      assert page[1..][1..] == [];
    }
  }

  /** First page [1, 2], then a load-more page [2, 3]: the list is [1, 2, 3]. */
  lemma OverlappingPagesScenario(p1: Product, p2: Product, p3: Product)
    requires p1.id == 1 && p2.id == 2 && p3.id == 3
    ensures Merge([p1, p2], [p2, p3]) == [p1, p2, p3]
  {
    var known := Ids([p1, p2]);
    assert p2 in [p1, p2];
    assert p2.id in known;
    assert forall p :: p in [p1, p2] ==> p.id == 1 || p.id == 2;
    assert p3.id !in known;
    UnseenConcat(known, [p2], [p3]);
    assert [p2] + [p3] == [p2, p3];
    assert Unseen(known, [p2]) == [] by {
      assert [p2][1..] == [];
    }
    assert Unseen(known, [p3]) == [p3] by {
      assert [p3][1..] == [];
    }
  }

  // ---------------------------------------------------------------------
  // The fetch function and the controller

  class Paginator {
    /** The answers of the fetch function handed to the hook (`getProducts`
        on the home screen), one per call. */
    const script: seq<FetchOutcome>
    /** The parameters of every call of the fetch function so far. */
    var requests: seq<PageParams>
    const perPage: int
    const initialPage: int

    var state: PaginationState
    /** `isFetchingRef` */
    var isFetching: bool
    /** `lastPageLoadedRef` */
    var lastPageLoaded: int
    /** The state shown while each request was outstanding, one per call. */
    ghost var inFlight: seq<PaginationState>

    ghost predicate Valid()
      reads this
    {
      FlagsExclusive(state) && (lastPageLoaded == 0 || lastPageLoaded == state.currentPage)
    }

    /** The current state is `fetchData(page, isLoadMore)` applied to the given
        earlier state. */
    ghost predicate FetchedFrom(s: PaginationState, wasFetching: bool, lastPage: int,
                                requested: seq<PageParams>, shown: seq<PaginationState>,
                                page: int, isLoadMore: bool)
      reads this
    {
      var e := FetchSpec(s, wasFetching, lastPage, page, isLoadMore, script, |requested|);
      && state == e.state
      && lastPageLoaded == e.lastPageLoaded
      && isFetching == wasFetching
      && requests == requested + Repeat(PageParams(page, perPage), e.calls)
      && inFlight == shown + Repeat(InFlight(s, isLoadMore), e.calls)
    }

    /** `usePagination(fetchFunction, {perPage, initialPage})`. */
    constructor (script: seq<FetchOutcome>, perPage: Option<int>, initialPage: Option<int>)
      ensures Valid()
      ensures this.script == script && requests == []
      ensures this.perPage == (if perPage.Some? then perPage.value else DefaultPerPage)
      ensures this.initialPage == (if initialPage.Some? then initialPage.value else DefaultPage)
      ensures state == InitialState(this.initialPage) && !isFetching && lastPageLoaded == 0
      ensures inFlight == []
    {
      this.script := script;
      requests := [];
      this.perPage := if perPage.Some? then perPage.value else DefaultPerPage;
      var first := if initialPage.Some? then initialPage.value else DefaultPage;
      this.initialPage := first;
      state := InitialState(first);
      isFetching := false;
      lastPageLoaded := 0;
      inFlight := [];
    }

    /** The current state is the retry loop of `fetchData` run from the given
        earlier state, with no request in flight and the page guard passed. */
    ghost predicate AttemptedFrom(s: PaginationState, lastPage: int,
                                  requested: seq<PageParams>, shown: seq<PaginationState>,
                                  page: int, isLoadMore: bool)
      reads this
    {
      Settled(Attempts(s, lastPage, page, isLoadMore, script, |requested|, 0),
              s, requested, shown, page, isLoadMore)
    }

    /** The retry loop has ended with effect `e`. */
    ghost predicate Settled(e: FetchEffect, s: PaginationState,
                            requested: seq<PageParams>, shown: seq<PaginationState>,
                            page: int, isLoadMore: bool)
      reads this
    {
      && state == e.state
      && lastPageLoaded == e.lastPageLoaded
      && !isFetching
      && requests == requested + Repeat(PageParams(page, perPage), e.calls)
      && inFlight == shown + Repeat(InFlight(s, isLoadMore), e.calls)
    }

    /** `fetchData(page, isLoadMore)`. */
    method FetchData(page: int, isLoadMore: bool)
      requires Valid()
      modifies this
      ensures Valid()
      ensures FetchedFrom(old(state), old(isFetching), old(lastPageLoaded), old(requests),
                          old(inFlight), page, isLoadMore)
    {
      // Prevent duplicate requests
      if isFetching {
        return;
      }
      // Prevent loading the same page twice
      if isLoadMore && lastPageLoaded >= page {
        return;
      }
      RetryLoop(page, isLoadMore);
    }

    /** The `while (retryCount < maxRetries)` loop of `fetchData`. */
    method RetryLoop(page: int, isLoadMore: bool)
      requires Valid() && !isFetching
      modifies this
      ensures Valid()
      ensures AttemptedFrom(old(state), old(lastPageLoaded), old(requests), old(inFlight), page, isLoadMore)
    {
      ghost var s0, lastPage0, requested0, shown0 := state, lastPageLoaded, requests, inFlight;
      ghost var e := Attempts(s0, lastPage0, page, isLoadMore, script, |requested0|, 0);
      var retryCount := 0;
      while retryCount < MaxRetries
        invariant Retrying(e, s0, lastPage0, requested0, shown0, page, isLoadMore, retryCount)
      {
        var outcome := StartAttempt(page, isLoadMore, retryCount, e, s0, lastPage0, requested0, shown0);
        var done := FinishAttempt(page, isLoadMore, retryCount, outcome, e, s0, lastPage0, requested0, shown0);
        if done {
          return;
        }
        retryCount := retryCount + 1;
      }
      assert false;
    }

    /** The loop of `fetchData` before attempt `r`, on its way to effect `e`:
        attempts `0 .. r-1` of the retry loop from `s` were all rejected. */
    ghost predicate Retrying(e: FetchEffect, s: PaginationState, lastPage: int,
                             requested: seq<PageParams>, shown: seq<PaginationState>,
                             page: int, isLoadMore: bool, r: nat)
      reads this
    {
      && r < MaxRetries
      && FlagsExclusive(s) && (lastPage == 0 || lastPage == s.currentPage)
      && !isFetching
      && state == (if r == 0 then s else InFlight(s, isLoadMore))
      && lastPageLoaded == lastPage
      && requests == requested + Repeat(PageParams(page, perPage), r)
      && inFlight == shown + Repeat(InFlight(s, isLoadMore), r)
      && Attempts(s, lastPage, page, isLoadMore, script, |requested|, r) == e
    }

    /** The attempt `r` of the loop of `fetchData` on its way to effect `e`
        has called the fetch function and shows the in-flight state. */
    ghost predicate Flying(e: FetchEffect, s: PaginationState, lastPage: int,
                           requested: seq<PageParams>, shown: seq<PaginationState>,
                           page: int, isLoadMore: bool, r: nat)
      reads this
    {
      && r < MaxRetries
      && FlagsExclusive(s) && (lastPage == 0 || lastPage == s.currentPage)
      && state == InFlight(s, isLoadMore)
      && lastPageLoaded == lastPage
      && requests == requested + Repeat(PageParams(page, perPage), r + 1)
      && inFlight == shown + Repeat(InFlight(s, isLoadMore), r + 1)
      && Attempts(s, lastPage, page, isLoadMore, script, |requested|, r) == e
    }

    /** The first half of the loop body: show the in-flight state and call
        the fetch function. */
    method StartAttempt(page: int, isLoadMore: bool, retryCount: nat, ghost e: FetchEffect,
                        ghost s: PaginationState, ghost lastPage: int,
                        ghost requested: seq<PageParams>, ghost shown: seq<PaginationState>)
      returns (outcome: FetchOutcome)
      requires Retrying(e, s, lastPage, requested, shown, page, isLoadMore, retryCount)
      modifies this
      ensures Flying(e, s, lastPage, requested, shown, page, isLoadMore, retryCount)
      ensures outcome == OutcomeAt(script, |requested| + retryCount)
    {
      ghost var params, flying := PageParams(page, perPage), InFlight(s, isLoadMore);
      outcome := BeginAttempt(page, isLoadMore);
      assert state == flying;
      assert Repeat(params, retryCount) + [params] == Repeat(params, retryCount + 1);
      assert Repeat(flying, retryCount) + [flying] == Repeat(flying, retryCount + 1);
    }

    /** The second half of the loop body: settle the state on the outcome
        (`done`), or count the failure and go round again. */
    method FinishAttempt(page: int, isLoadMore: bool, retryCount: nat, outcome: FetchOutcome,
                         ghost e: FetchEffect, ghost s: PaginationState, ghost lastPage: int,
                         ghost requested: seq<PageParams>, ghost shown: seq<PaginationState>)
      returns (done: bool)
      requires Flying(e, s, lastPage, requested, shown, page, isLoadMore, retryCount)
      requires outcome == OutcomeAt(script, |requested| + retryCount)
      modifies this`state, this`lastPageLoaded, this`isFetching
      ensures done ==> Valid() && Settled(e, s, requested, shown, page, isLoadMore)
      ensures !done ==> Retrying(e, s, lastPage, requested, shown, page, isLoadMore, retryCount + 1)
    {
      match outcome {
        case Resolved(response) =>
          StepResolved(s, lastPage, page, isLoadMore, script, |requested|, retryCount, response);
          Resolve(page, isLoadMore, response);
          done := true;
        case Rejected =>
          if retryCount + 1 >= MaxRetries {
            StepGiveUp(s, lastPage, page, isLoadMore, script, |requested|, retryCount);
            Fail();
            done := true;
          } else {
            StepRetry(s, lastPage, page, isLoadMore, script, |requested|, retryCount);
            // The in-flight flag is cleared before the (unmodelled) backoff wait.
            isFetching := false;
            done := false;
          }
      }
    }

    /** The updater of a resolved attempt: the page replaces or extends the
        list, and the page guard remembers it. */
    method Resolve(page: int, isLoadMore: bool, response: PageResponse)
      modifies this`state, this`lastPageLoaded, this`isFetching
      ensures state == Succeed(old(state), page, isLoadMore, response)
      ensures lastPageLoaded == page && !isFetching
    {
      state := Succeed(state, page, isLoadMore, response);
      lastPageLoaded := page;
      isFetching := false;
    }

    /** The updater after the last failed attempt. */
    method Fail()
      modifies this`state, this`isFetching
      ensures state == GiveUp(old(state)) && !isFetching
    {
      state := GiveUp(state);
      isFetching := false;
    }

    /** The start of one attempt: mark the request in flight, show the
        loading flag for its kind, clear the error, and call the fetch
        function with `{page, per_page}`. */
    method BeginAttempt(page: int, isLoadMore: bool) returns (outcome: FetchOutcome)
      modifies this
      ensures isFetching && state == InFlight(old(state), isLoadMore)
      ensures lastPageLoaded == old(lastPageLoaded)
      ensures inFlight == old(inFlight) + [state]
      ensures requests == old(requests) + [PageParams(page, perPage)]
      ensures outcome == OutcomeAt(script, |old(requests)|)
    {
      isFetching := true;
      state := InFlight(state, isLoadMore);
      inFlight := inFlight + [state];
      outcome := CallFetchFunction(PageParams(page, perPage));
    }

    /** One call of the fetch function. */
    method CallFetchFunction(params: PageParams) returns (outcome: FetchOutcome)
      modifies this`requests
      ensures requests == old(requests) + [params]
      ensures outcome == OutcomeAt(script, |old(requests)|)
    {
      outcome := OutcomeAt(script, |requests|);
      requests := requests + [params];
    }

    /** `loadMore()`: the next page, unless there is none or one is loading. */
    method LoadMore()
      requires Valid()
      modifies this
      ensures Valid()
      ensures if !old(state.hasMore) || old(state.loadingMore)
              then state == old(state) && isFetching == old(isFetching)
                   && lastPageLoaded == old(lastPageLoaded)
                   && requests == old(requests) && inFlight == old(inFlight)
              else FetchedFrom(old(state), old(isFetching), old(lastPageLoaded), old(requests),
                               old(inFlight), old(state.currentPage) + 1, true)
      ensures old(state.hasMore) && !old(state.loadingMore) && !old(isFetching) && old(state.currentPage) >= 0
              ==> |requests| > |old(requests)|
    {
      if !state.hasMore || state.loadingMore {
        return;
      }
      var nextPage := state.currentPage + 1;
      FetchData(nextPage, true);
    }

    /** `refresh()`: forget the last page merged and fetch the first page again. */
    method Refresh()
      requires Valid()
      modifies this
      ensures Valid()
      ensures FetchedFrom(old(state), old(isFetching), 0, old(requests),
                          old(inFlight), initialPage, false)
    {
      lastPageLoaded := 0;
      FetchData(initialPage, false);
    }

    /** `reset()`: the initial state, both guards cleared, no request. */
    method Reset()
      modifies this
      ensures Valid()
      ensures state == InitialState(initialPage) && !isFetching && lastPageLoaded == 0
      ensures requests == old(requests) && inFlight == old(inFlight)
    {
      state := InitialState(initialPage);
      isFetching := false;
      lastPageLoaded := 0;
    }
  }

  /** The overlapping-pages scenario, driven through the controller: page 1
      gives [p1, p2] with more to come, the load-more page 2 gives [p2, p3]
      and no more; the list ends as [p1, p2, p3] after two requests. */
  method OverlappingPagesThroughController(p1: Product, p2: Product, p3: Product)
    returns (data: seq<Product>, hasMore: bool, requests: seq<PageParams>)
    requires p1.id == 1 && p2.id == 2 && p3.id == 3
    ensures data == [p1, p2, p3] && !hasMore
    ensures requests == [PageParams(1, DefaultPerPage), PageParams(2, DefaultPerPage)]
  {
    var pager := new Paginator([Resolved(PageResponse(Some([p1, p2]), Some(true))),
                                Resolved(PageResponse(Some([p2, p3]), Some(false)))], None, None);
    pager.FetchData(1, false);
    assert pager.state.data == [p1, p2] && pager.state.currentPage == 1 && pager.state.hasMore;
    pager.LoadMore();
    OverlappingPagesScenario(p1, p2, p3);
    data, hasMore, requests := pager.state.data, pager.state.hasMore, pager.requests;
  }
}
