// The expenses store: one page of expenses at a time with the total count,
// the current page and filter, and a loading flag. The database query
// (filtering and ordering) is an abstract result; the store's own paging
// arithmetic, merge-on-update and hydration are modelled.

module ExpensesStore {
  import opened Common
  import opened Schema

  const PageSize: nat := 10

  datatype SortBy = DateDesc | DateAsc | AmountDesc | AmountAsc

  /** The filter a page query carries; every criterion is optional. */
  datatype ExpenseFilter = ExpenseFilter(
    search: Option<string>, categoryId: Option<string>, paymentMethodId: Option<string>,
    tag: Option<string>, dateFrom: Option<string>, dateTo: Option<string>, sortBy: Option<SortBy>)

  const NoFilter := ExpenseFilter(None, None, None, None, None, None, None)

  /** A page query: the filter, the page size and the number of rows to skip. */
  datatype PageQuery = PageQuery(filter: ExpenseFilter, limit: nat, offset: int)

  /** A page of results and the number of all matching rows. */
  datatype ExpensePage = ExpensePage(items: seq<Expense>, total: nat)

  /** The rows a page query selects from the full, already ordered list of
      matching expenses. */
  function Window(all: seq<Expense>, q: PageQuery): (r: seq<Expense>)
    requires q.offset >= 0
    ensures |r| <= q.limit
  {
    if q.offset >= |all| then []
    else if q.offset + q.limit >= |all| then all[q.offset..]
    else all[q.offset..q.offset + q.limit]
  }

  /** The query for a page. */
  function QueryFor(filter: ExpenseFilter, page: int): (q: PageQuery)
    ensures q.limit == PageSize
    ensures page >= 1 ==> q.offset >= 0 && q.offset % PageSize == 0
  {
    PageQuery(filter, PageSize, (page - 1) * PageSize)
  }

  /** Successive pages partition the list: the expense at index i is on page
      i / 10 + 1, at position i % 10. */
  lemma {:induction false} PagesCover(all: seq<Expense>, filter: ExpenseFilter, i: nat)
    requires i < |all|
    ensures var w := Window(all, QueryFor(filter, i / PageSize + 1));
      i % PageSize < |w| && w[i % PageSize] == all[i]
  {
    var q := QueryFor(filter, i / PageSize + 1);
    assert q.offset == i - i % PageSize;
  }

  /** The fields an update may carry besides the id. */
  datatype ExpensePatch = ExpensePatch(
    id: string, name: Option<string>, amount: Option<real>, currencyId: Option<string>,
    date: Option<string>, categoryId: Option<string>, paymentMethodId: Option<string>,
    payerUserId: Option<string>, tags: Option<seq<string>>, notes: Option<string>, createdAt: Option<string>)

  function Or<T>(o: Option<T>, fallback: T): T
  {
    if o.Some? then o.value else fallback
  }

  /** `{ ...e, ...patch }`: a field the patch carries wins. */
  function Merge(e: Expense, p: ExpensePatch): (r: Expense)
    ensures r.id == p.id
  {
    Expense(p.id, Or(p.name, e.name), Or(p.amount, e.amount), Or(p.currencyId, e.currencyId),
            Or(p.date, e.date), Or(p.categoryId, e.categoryId), Or(p.paymentMethodId, e.paymentMethodId),
            Or(p.payerUserId, e.payerUserId), Or(p.tags, e.tags), Or(p.notes, e.notes), Or(p.createdAt, e.createdAt))
  }

  /** The patch that carries no field. */
  function EmptyPatch(id: string): ExpensePatch
  {
    ExpensePatch(id, None, None, None, None, None, None, None, None, None, None)
  }

  /** Merging keeps what the patch leaves out, takes what it carries, and
      merging the same patch twice is merging it once. */
  lemma MergeSpec(e: Expense, p: ExpensePatch)
    ensures Merge(e, EmptyPatch(e.id)) == e
    ensures p.name.Some? ==> Merge(e, p).name == p.name.value
    ensures p.name.None? ==> Merge(e, p).name == e.name
    ensures p.amount.Some? ==> Merge(e, p).amount == p.amount.value
    ensures p.amount.None? ==> Merge(e, p).amount == e.amount
    ensures p.currencyId.Some? ==> Merge(e, p).currencyId == p.currencyId.value
    ensures p.currencyId.None? ==> Merge(e, p).currencyId == e.currencyId
    ensures p.date.Some? ==> Merge(e, p).date == p.date.value
    ensures p.date.None? ==> Merge(e, p).date == e.date
    ensures p.categoryId.Some? ==> Merge(e, p).categoryId == p.categoryId.value
    ensures p.categoryId.None? ==> Merge(e, p).categoryId == e.categoryId
    ensures p.paymentMethodId.Some? ==> Merge(e, p).paymentMethodId == p.paymentMethodId.value
    ensures p.paymentMethodId.None? ==> Merge(e, p).paymentMethodId == e.paymentMethodId
    ensures p.payerUserId.Some? ==> Merge(e, p).payerUserId == p.payerUserId.value
    ensures p.payerUserId.None? ==> Merge(e, p).payerUserId == e.payerUserId
    ensures p.tags.Some? ==> Merge(e, p).tags == p.tags.value
    ensures p.tags.None? ==> Merge(e, p).tags == e.tags
    ensures p.notes.Some? ==> Merge(e, p).notes == p.notes.value
    ensures p.notes.None? ==> Merge(e, p).notes == e.notes
    ensures p.createdAt.Some? ==> Merge(e, p).createdAt == p.createdAt.value
    ensures p.createdAt.None? ==> Merge(e, p).createdAt == e.createdAt
    ensures Merge(Merge(e, p), p) == Merge(e, p)
  {
    var m := Merge(e, p);
    assert Merge(m, p) == m by {
      assert Merge(m, p).name == m.name;
      assert Merge(m, p).amount == m.amount;
      assert Merge(m, p).currencyId == m.currencyId;
      assert Merge(m, p).date == m.date;
      assert Merge(m, p).categoryId == m.categoryId;
      assert Merge(m, p).paymentMethodId == m.paymentMethodId;
      assert Merge(m, p).payerUserId == m.payerUserId;
      assert Merge(m, p).tags == m.tags;
      assert Merge(m, p).notes == m.notes;
      assert Merge(m, p).createdAt == m.createdAt;
    }
  }

  /** The index of the first cached expense with the id, or -1. */
  function FindById(items: seq<Expense>, id: string): (r: int)
    ensures -1 <= r < |items|
    ensures r == -1 <==> forall e :: e in items ==> e.id != id
    ensures r >= 0 ==> items[r].id == id && forall j :: 0 <= j < r ==> items[j].id != id
  {
    if items == [] then -1
    else if items[0].id == id then 0
    else
      var k := FindById(items[1..], id);
      if k < 0 then -1 else k + 1
  }

  /** The expense updateExpense writes: merged over the cached item, else
      over the database's copy, else none. */
  function UpdatedExpense(items: seq<Expense>, p: ExpensePatch, fromDb: Option<Expense>): (r: Option<Expense>)
    ensures r.None? <==> FindById(items, p.id) == -1 && fromDb.None?
    ensures FindById(items, p.id) >= 0 ==> r == Some(Merge(items[FindById(items, p.id)], p))
    ensures FindById(items, p.id) == -1 && fromDb.Some? ==> r == Some(Merge(fromDb.value, p))
    ensures r.Some? ==> r.value.id == p.id
  {
    var k := FindById(items, p.id);
    if k >= 0 then Some(Merge(items[k], p))
    else if fromDb.Some? then Some(Merge(fromDb.value, p))
    else None
  }

  /** A database write the store issues. */
  datatype Write = Insert(e: Expense) | Update(e: Expense) | Delete(id: string) | DeleteBatch(ids: seq<string>)

  class Store {
    var items: seq<Expense>
    var totalCount: nat
    var currentPage: int
    var filter: ExpenseFilter
    var loading: bool

    constructor()
      ensures items == [] && totalCount == 0 && currentPage == 1 && filter == NoFilter && !loading
    {
      items, totalCount, currentPage, filter, loading := [], 0, 1, NoFilter, false;
    }

    /** fetchPage. `result` is what the query returns, None when it throws;
        `query` is the query issued. Page and filter change only when
        supplied, and loading is off again either way. */
    method FetchPage(page: Option<int>, newFilter: Option<ExpenseFilter>, result: Option<ExpensePage>)
      returns (query: PageQuery)
      modifies this
      ensures filter == Or(newFilter, old(filter)) && currentPage == Or(page, old(currentPage))
      ensures query == QueryFor(filter, currentPage)
      ensures !loading
      ensures result.Some? ==> items == result.value.items && totalCount == result.value.total
      ensures result.None? ==> items == old(items) && totalCount == old(totalCount)
    {
      if newFilter.Some? {
        filter := newFilter.value;
      }
      if page.Some? {
        currentPage := page.value;
      }
      loading := true;
      query := PageQuery(filter, PageSize, (currentPage - 1) * PageSize);
      if result.Some? {
        items := result.value.items;
        totalCount := result.value.total;
      }
      loading := false;
    }

    /** addExpense: inserts, then reloads the current page. */
    method AddExpense(e: Expense, result: Option<ExpensePage>) returns (write: Write, query: PageQuery)
      modifies this
      ensures write == Insert(e) && query == QueryFor(filter, currentPage)
      ensures filter == old(filter) && currentPage == old(currentPage) && !loading
      ensures result.Some? ==> items == result.value.items && totalCount == result.value.total
      ensures result.None? ==> items == old(items) && totalCount == old(totalCount)
    {
      write := Insert(e);
      query := FetchPage(None, None, result);
    }

    /** updateExpense. `fromDb` is the database's copy under the patch's id;
        nothing is written or reloaded when neither copy exists. */
    method UpdateExpense(p: ExpensePatch, fromDb: Option<Expense>, result: Option<ExpensePage>)
      returns (write: Option<Write>, query: Option<PageQuery>)
      modifies this
      ensures var u := UpdatedExpense(old(items), p, fromDb);
        && (u.None? ==> write == None && query == None && items == old(items) && totalCount == old(totalCount)
                        && loading == old(loading))
        && (u.Some? ==> write == Some(Update(u.value)) && query == Some(QueryFor(filter, currentPage)) && !loading
                        && (result.Some? ==> items == result.value.items && totalCount == result.value.total)
                        && (result.None? ==> items == old(items) && totalCount == old(totalCount)))
      ensures filter == old(filter) && currentPage == old(currentPage)
    {
      write, query := None, None;
      var k := FindById(items, p.id);
      if k >= 0 {
        write := Some(Update(Merge(items[k], p)));
        var q := FetchPage(None, None, result);
        query := Some(q);
      } else if fromDb.Some? {
        write := Some(Update(Merge(fromDb.value, p)));
        var q := FetchPage(None, None, result);
        query := Some(q);
      }
    }

    /** deleteExpense. */
    method DeleteExpense(id: string, result: Option<ExpensePage>) returns (write: Write, query: PageQuery)
      modifies this
      ensures write == Delete(id) && query == QueryFor(filter, currentPage)
      ensures filter == old(filter) && currentPage == old(currentPage) && !loading
      ensures result.Some? ==> items == result.value.items && totalCount == result.value.total
      ensures result.None? ==> items == old(items) && totalCount == old(totalCount)
    {
      write := Delete(id);
      query := FetchPage(None, None, result);
    }

    /** batchDeleteExpenses. */
    method BatchDeleteExpenses(ids: seq<string>, result: Option<ExpensePage>) returns (write: Write, query: PageQuery)
      modifies this
      ensures write == DeleteBatch(ids) && query == QueryFor(filter, currentPage)
      ensures filter == old(filter) && currentPage == old(currentPage) && !loading
      ensures result.Some? ==> items == result.value.items && totalCount == result.value.total
      ensures result.None? ==> items == old(items) && totalCount == old(totalCount)
    {
      write := DeleteBatch(ids);
      query := FetchPage(None, None, result);
    }

    /** $hydrate: the first page of the given expenses, and their count. */
    method Hydrate(expenses: Option<seq<Expense>>)
      modifies this
      ensures expenses.Some? ==>
        items == Window(expenses.value, QueryFor(NoFilter, 1)) && totalCount == |expenses.value|
      ensures expenses.None? ==> items == old(items) && totalCount == old(totalCount)
      ensures currentPage == old(currentPage) && filter == old(filter) && loading == old(loading)
    {
      if expenses.Some? {
        var all := expenses.value;
        items := if |all| <= PageSize then all else all[..PageSize];
        totalCount := |all|;
      }
    }
  }

  /** Hydration shows at most a page, and all of a short list. */
  lemma HydratedWindow(all: seq<Expense>)
    ensures |Window(all, QueryFor(NoFilter, 1))| == if |all| < PageSize then |all| else PageSize
    ensures |all| <= PageSize ==> Window(all, QueryFor(NoFilter, 1)) == all
  {
  }
}
