/**
 * The admin transaction history page: the type and name/email filters, page
 * slicing and the numbered page window under the table.
 */
module UserTransaction {
  import opened Wrappers
  import opened Strings
  import opened Seqs

  datatype TxType = Deposit | Deduct

  /** The `filterType` select: "all", "deposit" or "deduct". */
  datatype FilterType = All | OfType(txType: TxType)

  datatype TxUser = TxUser(id: string, name: string, email: string)

  /** The fields of a wallet transaction that the page filters on. */
  datatype Transaction = Transaction(id: string, user: TxUser, txType: TxType, amount: int, status: string)

  const ItemsPerPage := 10
  const MaxVisible := 5
  const FetchFailedMessage := "Failed to fetch transactions"

  // ---- Filtering ----

  /** The lower-cased name or email contains the (already lower-cased) query. */
  predicate MatchesQuery(t: Transaction, query: string) {
    Contains(ToLower(t.user.name), query) || Contains(ToLower(t.user.email), query)
  }

  /** The type test. */
  predicate TypeOk(filter: FilterType, t: Transaction) {
    filter.All? || t.txType == filter.txType
  }

  /** The search test: its emptiness is judged on the trimmed query, the match uses the untrimmed one. */
  predicate SearchOk(searchQuery: string, t: Transaction) {
    IsBlank(searchQuery) || MatchesQuery(t, ToLower(searchQuery))
  }

  /** The type step. */
  function ByType(txs: seq<Transaction>, filter: FilterType): seq<Transaction> {
    if filter.All? then txs else Filter((t: Transaction) => TypeOk(filter, t), txs)
  }

  /** The search step: skipped when the trimmed query is empty. */
  function BySearch(txs: seq<Transaction>, searchQuery: string): seq<Transaction> {
    if Trim(searchQuery) == "" then txs
    else Filter((t: Transaction) => SearchOk(searchQuery, t), txs)
  }

  lemma ByTypeFacts(txs: seq<Transaction>, filter: FilterType)
    ensures var r := ByType(txs, filter);
      IsSubsequence(r, txs)
      && (forall i :: 0 <= i < |r| ==> TypeOk(filter, r[i]))
      && (forall i :: 0 <= i < |txs| && TypeOk(filter, txs[i]) ==> txs[i] in r)
      && (filter.All? ==> r == txs)
      && (forall t :: multiset(r)[t] == if TypeOk(filter, t) then multiset(txs)[t] else 0)
  {
    if filter.All? {
      SubsequenceRefl(txs);
    } else {
      FilterMultiset((t: Transaction) => TypeOk(filter, t), txs);
    }
  }

  lemma BySearchFacts(txs: seq<Transaction>, searchQuery: string)
    ensures var r := BySearch(txs, searchQuery);
      IsSubsequence(r, txs)
      && (forall i :: 0 <= i < |r| ==> SearchOk(searchQuery, r[i]))
      && (forall i :: 0 <= i < |txs| && SearchOk(searchQuery, txs[i]) ==> txs[i] in r)
      && (IsBlank(searchQuery) ==> r == txs)
      && (forall t :: multiset(r)[t] == if SearchOk(searchQuery, t) then multiset(txs)[t] else 0)
  {
    if Trim(searchQuery) == "" {
      SubsequenceRefl(txs);
    } else {
      FilterMultiset((t: Transaction) => SearchOk(searchQuery, t), txs);
    }
  }

  /** The transactions `filterTransactions` keeps: the type step, then the search step. */
  function FilteredTransactions(txs: seq<Transaction>, filter: FilterType, searchQuery: string): (r: seq<Transaction>)
    ensures |r| <= |txs|
  {
    BySearch(ByType(txs, filter), searchQuery)
  }

  /** The kept transactions are an order-preserving subsequence of the fetched ones. */
  lemma FilteredIsSubsequence(txs: seq<Transaction>, filter: FilterType, searchQuery: string)
    ensures IsSubsequence(FilteredTransactions(txs, filter, searchQuery), txs)
  {
    var typed := ByType(txs, filter);
    ByTypeFacts(txs, filter);
    BySearchFacts(typed, searchQuery);
    SubsequenceTrans(BySearch(typed, searchQuery), typed, txs);
  }

  /** A transaction is kept exactly when it passes both the type test and the search test. */
  lemma FilteredKeepsExactly(txs: seq<Transaction>, filter: FilterType, searchQuery: string)
    ensures var r := FilteredTransactions(txs, filter, searchQuery);
      (forall i :: 0 <= i < |r| ==> TypeOk(filter, r[i]) && SearchOk(searchQuery, r[i]))
      && (forall i :: 0 <= i < |txs| && TypeOk(filter, txs[i]) && SearchOk(searchQuery, txs[i]) ==> txs[i] in r)
  {
    var r := FilteredTransactions(txs, filter, searchQuery);
    FilteredCounts(txs, filter, searchQuery);
    forall i | 0 <= i < |r| ensures TypeOk(filter, r[i]) && SearchOk(searchQuery, r[i]) {
      assert r[i] in multiset(r);
    }
    forall i | 0 <= i < |txs| && TypeOk(filter, txs[i]) && SearchOk(searchQuery, txs[i]) ensures txs[i] in r {
      assert txs[i] in multiset(txs);
      assert txs[i] in multiset(r);
    }
  }

  /** Each transaction passing both steps is kept as often as it occurs; every other one is dropped. */
  lemma FilteredCounts(txs: seq<Transaction>, filter: FilterType, searchQuery: string)
    ensures var r := FilteredTransactions(txs, filter, searchQuery);
      forall t :: multiset(r)[t] == if TypeOk(filter, t) && SearchOk(searchQuery, t) then multiset(txs)[t] else 0
  {
    ByTypeFacts(txs, filter);
    BySearchFacts(ByType(txs, filter), searchQuery);
  }

  /** With "all" types and a blank search nothing is dropped. */
  lemma FilteredAllBlank(txs: seq<Transaction>, searchQuery: string)
    requires IsBlank(searchQuery)
    ensures FilteredTransactions(txs, All, searchQuery) == txs
  {
    BySearchFacts(txs, searchQuery);
  }

  /** Under a type filter every kept transaction has that type. */
  lemma FilteredHasType(txs: seq<Transaction>, t: TxType, searchQuery: string)
    ensures forall x :: x in FilteredTransactions(txs, OfType(t), searchQuery) ==> x.txType == t
  {
    FilteredKeepsExactly(txs, OfType(t), searchQuery);
  }

  /** `filterTransactions`: narrows `filtered` one test at a time. */
  method FilterTransactions(transactions: seq<Transaction>, filterType: FilterType, searchQuery: string)
    returns (filtered: seq<Transaction>)
    ensures filtered == FilteredTransactions(transactions, filterType, searchQuery)
  {
    filtered := transactions;
    if filterType != All {
      filtered := Filter((t: Transaction) => TypeOk(filterType, t), filtered);
    }
    if Trim(searchQuery) != "" {
      filtered := Filter((t: Transaction) => SearchOk(searchQuery, t), filtered);
    }
  }

  // ---- Paging ----

  /** `Math.ceil(n / itemsPerPage)`. */
  function TotalPages(n: nat): (r: nat)
    ensures r * ItemsPerPage >= n
    ensures r > 0 ==> (r - 1) * ItemsPerPage < n
    ensures r == 0 <==> n == 0
  {
    (n + ItemsPerPage - 1) / ItemsPerPage
  }

  /** An index argument of `Array.prototype.slice`: negative counts from the end, then clamped to [0, n]. */
  function SliceIndex(k: int, n: nat): (r: nat)
    ensures r <= n
    ensures 0 <= k ==> r == if k < n then k else n
    ensures k < 0 ==> r == if n + k > 0 then n + k else 0
  {
    if k < 0 then (if n + k > 0 then n + k else 0) else if k < n then k else n
  }

  /** `s.slice(start, end)`. */
  function JsSlice<T>(s: seq<T>, start: int, end: int): (r: seq<T>)
    ensures |r| <= |s|
    ensures 0 <= start <= end <= |s| ==> r == s[start..end]
    ensures 0 <= end <= start ==> r == []
  {
    var lo := SliceIndex(start, |s|);
    var hi := SliceIndex(end, |s|);
    if lo < hi then s[lo..hi] else []
  }

  /** `currentTransactions`: the slice from `(currentPage - 1) * itemsPerPage`, at most one page long. */
  function PageSlice<T>(items: seq<T>, currentPage: int): (r: seq<T>)
    ensures |r| <= ItemsPerPage
    ensures currentPage >= 1 ==>
      var lo := (currentPage - 1) * ItemsPerPage;
      r == items[if lo < |items| then lo else |items| .. if lo + ItemsPerPage < |items| then lo + ItemsPerPage else |items|]
    ensures 1 <= currentPage <= TotalPages(|items|) ==> r != []
    ensures 1 <= currentPage < TotalPages(|items|) ==> |r| == ItemsPerPage
    ensures currentPage > TotalPages(|items|) ==> r == []
  {
    var start := (currentPage - 1) * ItemsPerPage;
    JsSlice(items, start, start + ItemsPerPage)
  }

  /** The first k pages, one after the other. */
  function FirstPages<T>(items: seq<T>, k: nat): seq<T>
  {
    if k == 0 then [] else FirstPages(items, k - 1) + PageSlice(items, k)
  }

  lemma {:induction false} FirstPagesPrefix<T>(items: seq<T>, k: nat)
    ensures FirstPages(items, k) == items[..if k * ItemsPerPage < |items| then k * ItemsPerPage else |items|]
  {
    if k > 0 {
      FirstPagesPrefix(items, k - 1);
      var a := (k - 1) * ItemsPerPage;
      var lo := if a < |items| then a else |items|;
      var hi := if a + ItemsPerPage < |items| then a + ItemsPerPage else |items|;
      assert items[..lo] + items[lo..hi] == items[..hi];
    }
  }

  /** Paging loses and repeats nothing: pages 1 to totalPages, read in turn, are the whole list. */
  lemma PagesCoverItems<T>(items: seq<T>)
    ensures FirstPages(items, TotalPages(|items|)) == items
  {
    FirstPagesPrefix(items, TotalPages(|items|));
  }

  // ---- The page window ----

  /** An entry of the pagination bar: a page button or an ellipsis. */
  datatype PageItem = Page(n: int) | Ellipsis

  /** The buttons lo, lo+1, ..., hi. */
  function PageRun(lo: int, hi: int): (r: seq<PageItem>)
    ensures |r| == if lo <= hi then hi - lo + 1 else 0
    ensures forall i :: 0 <= i < |r| ==> r[i] == Page(lo + i)
    decreases hi - lo + 1
  {
    if lo > hi then [] else [Page(lo)] + PageRun(lo + 1, hi)
  }

  predicate IsPage(r: seq<PageItem>, i: int) {
    0 <= i < |r| && r[i].Page?
  }

  /** The page numbers rise strictly from left to right. */
  ghost predicate Increasing(r: seq<PageItem>) {
    forall i, j :: IsPage(r, i) && IsPage(r, j) && i < j ==> r[i].n < r[j].n
  }

  /** Every button names an existing page. */
  ghost predicate WithinPages(r: seq<PageItem>, totalPages: int) {
    forall i :: IsPage(r, i) ==> 1 <= r[i].n <= totalPages
  }

  /**
   * Neighbouring buttons are consecutive pages, and an ellipsis sits between
   * two buttons and stands for at least one hidden page.
   */
  ghost predicate NothingSkipped(r: seq<PageItem>) {
    (forall i :: IsPage(r, i) && IsPage(r, i + 1) ==> r[i + 1].n == r[i].n + 1)
    && (forall i :: 0 <= i < |r| && r[i].Ellipsis? ==>
          IsPage(r, i - 1) && IsPage(r, i + 1) && r[i + 1].n >= r[i - 1].n + 2)
  }

  /**
   * What `getPaginationRange` returns: every page when there are at most
   * five, otherwise the first and last pages with the pages around the
   * current one; `PaginationRangeSkipsNothing` and `PaginationRangeShowsCurrent`
   * state what the bar shows.
   */
  function PaginationRange(totalPages: nat, currentPage: int): (r: seq<PageItem>)
    ensures totalPages <= MaxVisible ==> r == PageRun(1, totalPages)
    ensures totalPages > MaxVisible ==>
      |r| == (if currentPage <= 3 || currentPage >= totalPages - 2 then 6 else 7)
      && r[0] == Page(1) && r[|r| - 1] == Page(totalPages)
  {
    if totalPages <= MaxVisible then PageRun(1, totalPages)
    else if currentPage <= 3 then [Page(1), Page(2), Page(3), Page(4), Ellipsis, Page(totalPages)]
    else if currentPage >= totalPages - 2 then
      [Page(1), Ellipsis, Page(totalPages - 3), Page(totalPages - 2), Page(totalPages - 1), Page(totalPages)]
    else
      [Page(1), Ellipsis, Page(currentPage - 1), Page(currentPage), Page(currentPage + 1), Ellipsis, Page(totalPages)]
  }

  /** The numbers of the bar rise strictly, name existing pages, and every hidden run of pages has an ellipsis. */
  lemma PaginationRangeSkipsNothing(totalPages: nat, currentPage: int)
    ensures var r := PaginationRange(totalPages, currentPage);
      Increasing(r) && WithinPages(r, totalPages) && NothingSkipped(r)
  {
    var r := PaginationRange(totalPages, currentPage);
    if totalPages <= MaxVisible {
      assert WithinPages(r, totalPages) && NothingSkipped(r);
    } else if currentPage <= 3 {
      HeadBar(totalPages, r);
    } else if currentPage >= totalPages - 2 {
      TailBar(totalPages, r);
    } else {
      MiddleBar(totalPages, currentPage, r);
    }
    NothingSkippedIncreasing(r);
  }

  lemma HeadBar(totalPages: nat, r: seq<PageItem>)
    requires totalPages > MaxVisible
    requires r == [Page(1), Page(2), Page(3), Page(4), Ellipsis, Page(totalPages)]
    ensures WithinPages(r, totalPages) && NothingSkipped(r)
  {
  }

  lemma TailBar(totalPages: nat, r: seq<PageItem>)
    requires totalPages > MaxVisible
    requires r == [Page(1), Ellipsis, Page(totalPages - 3), Page(totalPages - 2), Page(totalPages - 1), Page(totalPages)]
    ensures WithinPages(r, totalPages) && NothingSkipped(r)
  {
  }

  lemma MiddleBar(totalPages: nat, currentPage: int, r: seq<PageItem>)
    requires 3 < currentPage < totalPages - 2
    requires r == [Page(1), Ellipsis, Page(currentPage - 1), Page(currentPage), Page(currentPage + 1), Ellipsis, Page(totalPages)]
    ensures WithinPages(r, totalPages) && NothingSkipped(r)
  {
  }

  /** The current page, when it exists, has a button. */
  lemma PaginationRangeShowsCurrent(totalPages: nat, currentPage: int)
    requires 1 <= currentPage <= totalPages
    ensures Page(currentPage) in PaginationRange(totalPages, currentPage)
  {
    var r := PaginationRange(totalPages, currentPage);
    if totalPages <= MaxVisible || currentPage <= 3 {
      assert r[currentPage - 1] == Page(currentPage);
    } else if currentPage >= totalPages - 2 {
      assert r[currentPage - totalPages + 5] == Page(currentPage);
    } else {
      assert r[3] == Page(currentPage);
    }
  }

  /** A bar that skips nothing rises strictly: each step to the next button goes up by one, or by two or more across an ellipsis. */
  lemma NothingSkippedIncreasing(r: seq<PageItem>)
    requires NothingSkipped(r)
    ensures Increasing(r)
  {
    forall i, j | IsPage(r, i) && IsPage(r, j) && i < j ensures r[i].n < r[j].n {
      Rises(r, i, j);
    }
  }

  lemma {:induction false} Rises(r: seq<PageItem>, i: int, j: int)
    requires NothingSkipped(r) && IsPage(r, i) && IsPage(r, j) && i < j
    ensures r[i].n < r[j].n
    decreases j - i
  {
    if IsPage(r, i + 1) {
      if i + 1 < j {
        Rises(r, i + 1, j);
      }
    } else {
      assert r[i + 1].Ellipsis?;
      if i + 2 < j {
        Rises(r, i + 2, j);
      }
    }
  }

  /** `getPaginationRange`: pushes the entries one by one. */
  method GetPaginationRange(totalPages: nat, currentPage: int) returns (range: seq<PageItem>)
    ensures range == PaginationRange(totalPages, currentPage)
  {
    range := [];
    if totalPages <= MaxVisible {
      range := PushPages(range, 1, totalPages);
    } else if currentPage <= 3 {
      range := PushPages(range, 1, 4);
      range := range + [Ellipsis];
      range := range + [Page(totalPages)];
      assert range == [Page(1), Page(2), Page(3), Page(4), Ellipsis, Page(totalPages)];
    } else if currentPage >= totalPages - 2 {
      range := range + [Page(1)];
      range := range + [Ellipsis];
      range := PushPages(range, totalPages - 3, totalPages);
    } else {
      range := range + [Page(1)];
      range := range + [Ellipsis];
      range := range + [Page(currentPage - 1)];
      range := range + [Page(currentPage)];
      range := range + [Page(currentPage + 1)];
      range := range + [Ellipsis];
      range := range + [Page(totalPages)];
    }
  }

  /** One `for (let i = lo; i <= hi; i++) range.push(i)` loop of `getPaginationRange`. */
  method PushPages(range: seq<PageItem>, lo: int, hi: int) returns (out: seq<PageItem>)
    ensures out == range + PageRun(lo, hi)
  {
    out := range;
    if lo <= hi {
      for i := lo to hi + 1
        invariant out == range + PageRun(lo, i - 1)
      {
        out := out + [Page(i)];
      }
    }
  }

  // ---- The page state ----

  /** The page's state: the fetched list, the two filters, the current page and the fetch status. */
  class TransactionsView {
    var transactions: seq<Transaction>
    var filteredTransactions: seq<Transaction>
    var filterType: FilterType
    var searchQuery: string
    var currentPage: int
    var loading: bool
    var error: Option<string>

    /** The filter effect has run on the latest inputs. */
    ghost predicate Valid()
      reads this
    {
      filteredTransactions == FilteredTransactions(transactions, filterType, searchQuery)
    }

    constructor ()
      ensures Valid()
      ensures transactions == [] && filteredTransactions == []
      ensures filterType == All && searchQuery == "" && currentPage == 1
      ensures loading && error == None
    {
      transactions := [];
      filteredTransactions := [];
      filterType := All;
      searchQuery := "";
      currentPage := 1;
      loading := true;
      error := None;
    }

    function TotalPageCount(): (r: nat)
      reads this
      ensures r == 0 <==> filteredTransactions == []
      ensures r * ItemsPerPage >= |filteredTransactions|
    {
      TotalPages(|filteredTransactions|)
    }

    function CurrentTransactions(): (r: seq<Transaction>)
      reads this
      ensures |r| <= ItemsPerPage
    {
      PageSlice(filteredTransactions, currentPage)
    }

    /** The effect on `[filterType, transactions, searchQuery]`: the list is filtered again. */
    method ApplyFilter()
      modifies this
      ensures Valid()
      ensures transactions == old(transactions) && filterType == old(filterType) && searchQuery == old(searchQuery)
      ensures currentPage == old(currentPage) && loading == old(loading) && error == old(error)
    {
      filteredTransactions := FilterTransactions(transactions, filterType, searchQuery);
    }

    /**
     * Choosing a type filter. React skips a state update to the value it
     * already holds, so the effects on `[filterType, ...]` run only when the
     * filter really changes: then the list is filtered again and the page
     * goes back to 1; choosing the active filter again changes nothing.
     */
    method SetFilterType(f: FilterType)
      requires Valid()
      modifies this
      ensures Valid()
      ensures filterType == f
      ensures currentPage == if f == old(filterType) then old(currentPage) else 1
      ensures f == old(filterType) ==> filteredTransactions == old(filteredTransactions)
      ensures transactions == old(transactions) && searchQuery == old(searchQuery)
      ensures loading == old(loading) && error == old(error)
    {
      if f != filterType {
        filterType := f;
        ApplyFilter();
        currentPage := 1;
      }
    }

    /** Typing in the search box: like the type filter, only a different text refilters and resets the page. */
    method SetSearchQuery(q: string)
      requires Valid()
      modifies this
      ensures Valid()
      ensures searchQuery == q
      ensures currentPage == if q == old(searchQuery) then old(currentPage) else 1
      ensures q == old(searchQuery) ==> filteredTransactions == old(filteredTransactions)
      ensures transactions == old(transactions) && filterType == old(filterType)
      ensures loading == old(loading) && error == old(error)
    {
      if q != searchQuery {
        searchQuery := q;
        ApplyFilter();
        currentPage := 1;
      }
    }

    /** A page button. */
    method GoToPage(page: int)
      modifies this
      ensures currentPage == page
      ensures transactions == old(transactions) && filteredTransactions == old(filteredTransactions)
      ensures filterType == old(filterType) && searchQuery == old(searchQuery)
      ensures loading == old(loading) && error == old(error)
    {
      currentPage := page;
    }

    /** `fetchTransactions` before its request. */
    method StartFetch()
      modifies this
      ensures loading && error == None
      ensures transactions == old(transactions) && filteredTransactions == old(filteredTransactions)
      ensures filterType == old(filterType) && searchQuery == old(searchQuery) && currentPage == old(currentPage)
    {
      loading := true;
      error := None;
    }

    /**
     * The reply arrived: with `success` the list is replaced and filtered
     * again; the current page is kept, since only filter changes reset it.
     */
    method FetchReplied(success: bool, fetched: seq<Transaction>)
      requires Valid()
      modifies this
      ensures Valid()
      ensures !loading && error == old(error)
      ensures transactions == if success then fetched else old(transactions)
      ensures filterType == old(filterType) && searchQuery == old(searchQuery) && currentPage == old(currentPage)
    {
      if success {
        transactions := fetched;
        ApplyFilter();
        loading := false;
      } else {
        loading := false;
      }
    }

    /** The request failed: its message, or the fixed text when the message is empty. */
    method FetchFailed(message: string)
      modifies this
      ensures !loading
      ensures error == Some(if message != "" then message else FetchFailedMessage)
      ensures transactions == old(transactions) && filteredTransactions == old(filteredTransactions)
      ensures filterType == old(filterType) && searchQuery == old(searchQuery) && currentPage == old(currentPage)
    {
      error := Some(if message != "" then message else FetchFailedMessage);
      loading := false;
    }
  }
}
