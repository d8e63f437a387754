/**
 * The `/expenses` routes. Each takes the principal that GetCurrentUser
 * resolved, and every query is restricted to rows whose owner is that
 * principal: another user's expense answers exactly as a missing one does.
 * Read-only routes are functions of the `expenses` table's contents.
 */
module ExpenseRoutes {
  import opened Wrappers
  import opened Http
  import opened Query
  import opened Models
  import opened Aggregates
  import opened Repository

  /** The response for a missing or foreign expense. */
  const ExpenseNotFound := HttpError(404, "Expense not found", false)

  const DeletedMessage := "Expense deleted successfully"

  const SecondsPerDay := 86400

  /** The offset of a listing that gives none. */
  const DefaultSkip: nat := 0

  /** The page size of a listing that gives none. */
  const DefaultLimit: nat := 100

  /** The listing's query parameters; `None` is an omitted parameter. */
  datatype ListQuery = ListQuery(
    skip: Option<nat>,
    limit: Option<nat>,
    category: Option<string>,
    startDate: Option<int>,
    endDate: Option<int>,
    minAmount: Option<int>,
    maxAmount: Option<int>)
  {
    /** The offset in effect. */
    function Offset(): nat
    {
      skip.UnwrapOr(DefaultSkip)
    }

    /** The page size in effect. */
    function PageSize(): nat
    {
      limit.UnwrapOr(DefaultLimit)
    }
  }

  /** Python truthiness of an optional string: present and not empty. */
  predicate TextGiven(o: Option<string>)
  {
    o.Some? && o.value != ""
  }

  /** Python truthiness of an optional amount: present and not zero. */
  predicate AmountGiven(o: Option<int>)
  {
    o.Some? && o.value != 0
  }

  // A `datetime` is always truthy, so a date bound applies exactly when it is given.

  function OnOrAfter(start: int): Expense -> bool { (e: Expense) => e.date >= start }
  function OnOrBefore(end: int): Expense -> bool { (e: Expense) => e.date <= end }
  function AtLeast(min: int): Expense -> bool { (e: Expense) => e.amount >= min }
  function AtMost(max: int): Expense -> bool { (e: Expense) => e.amount <= max }

  /**
   * The query of `read_expenses` before paging: the principal's expenses,
   * then each filter whose parameter is truthy, in the order the code adds them.
   */
  function Narrowed(expenses: seq<Expense>, userId: int, q: ListQuery): seq<Expense>
  {
    var owned := Filter(expenses, OwnedBy(userId));
    var byCategory := FilterIf(owned, TextGiven(q.category), HasCategory(q.category.UnwrapOr("")));
    var fromStart := FilterIf(byCategory, q.startDate.Some?, OnOrAfter(q.startDate.UnwrapOr(0)));
    var untilEnd := FilterIf(fromStart, q.endDate.Some?, OnOrBefore(q.endDate.UnwrapOr(0)));
    var aboveMin := FilterIf(untilEnd, AmountGiven(q.minAmount), AtLeast(q.minAmount.UnwrapOr(0)));
    FilterIf(aboveMin, AmountGiven(q.maxAmount), AtMost(q.maxAmount.UnwrapOr(0)))
  }

  /**
   * What the listing selects, stated directly: the principal's expenses that
   * meet every bound whose parameter is truthy. An empty category and a zero
   * amount bound constrain nothing.
   */
  function Selects(userId: int, q: ListQuery): Expense -> bool
  {
    (e: Expense) =>
      && e.userId == userId
      && (TextGiven(q.category) ==> e.category == q.category.UnwrapOr(""))
      && (q.startDate.Some? ==> q.startDate.value <= e.date)
      && (q.endDate.Some? ==> e.date <= q.endDate.value)
      && (AmountGiven(q.minAmount) ==> q.minAmount.value <= e.amount)
      && (AmountGiven(q.maxAmount) ==> e.amount <= q.maxAmount.value)
  }

  /** `read_expenses`: one page of the narrowed query. */
  function ReadExpenses(expenses: seq<Expense>, principal: User, q: ListQuery): (r: seq<Expense>)
    ensures |r| <= q.PageSize()
    ensures forall e :: e in r ==> e in expenses && Selects(principal.id, q)(e)
  {
    Page(Narrowed(expenses, principal.id, q), q.Offset(), q.PageSize())
  }

  /** The chain of filters is one filter by the combined conditions. */
  lemma NarrowedIsSelection(expenses: seq<Expense>, userId: int, q: ListQuery)
    ensures Narrowed(expenses, userId, q) == Filter(expenses, Selects(userId, q))
  {
    var p0 := OwnedBy(userId);
    FilterIfFilter(expenses, p0, TextGiven(q.category), HasCategory(q.category.UnwrapOr("")));
    var p1 := AndIf(p0, TextGiven(q.category), HasCategory(q.category.UnwrapOr("")));
    FilterIfFilter(expenses, p1, q.startDate.Some?, OnOrAfter(q.startDate.UnwrapOr(0)));
    var p2 := AndIf(p1, q.startDate.Some?, OnOrAfter(q.startDate.UnwrapOr(0)));
    FilterIfFilter(expenses, p2, q.endDate.Some?, OnOrBefore(q.endDate.UnwrapOr(0)));
    var p3 := AndIf(p2, q.endDate.Some?, OnOrBefore(q.endDate.UnwrapOr(0)));
    FilterIfFilter(expenses, p3, AmountGiven(q.minAmount), AtLeast(q.minAmount.UnwrapOr(0)));
    var p4 := AndIf(p3, AmountGiven(q.minAmount), AtLeast(q.minAmount.UnwrapOr(0)));
    FilterIfFilter(expenses, p4, AmountGiven(q.maxAmount), AtMost(q.maxAmount.UnwrapOr(0)));
    var p5 := AndIf(p4, AmountGiven(q.maxAmount), AtMost(q.maxAmount.UnwrapOr(0)));
    FilterExt(expenses, p5, Selects(userId, q));
  }

  /**
   * The listing is the selected expenses in storage order with the first
   * `skip` dropped, cut to at most `limit`.
   */
  lemma ReadExpensesIsPageOfSelection(expenses: seq<Expense>, principal: User, q: ListQuery)
    ensures ReadExpenses(expenses, principal, q) == Page(Filter(expenses, Selects(principal.id, q)), q.Offset(), q.PageSize())
  {
    NarrowedIsSelection(expenses, principal.id, q);
  }

  /** Every expense of the principal that meets the applied bounds is listed by a page that starts at 0 and is long enough. */
  lemma ReadExpensesListsEverySelected(expenses: seq<Expense>, principal: User, q: ListQuery, e: Expense)
    requires q.Offset() == 0 && q.PageSize() >= |expenses|
    requires e in expenses && Selects(principal.id, q)(e)
    ensures e in ReadExpenses(expenses, principal, q)
  {
    ReadExpensesIsPageOfSelection(expenses, principal, q);
    var s := Filter(expenses, Selects(principal.id, q));
    assert Page(s, 0, q.PageSize()) == s;
  }

  /**
   * A listing that gives neither `skip` nor `limit` is the first 100 selected
   * expenses: all of them when there are at most 100.
   */
  lemma DefaultPageIsFirstHundred(expenses: seq<Expense>, principal: User, q: ListQuery)
    requires q.skip.None? && q.limit.None?
    ensures var selected := Filter(expenses, Selects(principal.id, q));
      ReadExpenses(expenses, principal, q) == if |selected| <= 100 then selected else selected[..100]
  {
    ReadExpensesIsPageOfSelection(expenses, principal, q);
    var selected := Filter(expenses, Selects(principal.id, q));
    var page := Page(selected, 0, 100);
    if |selected| <= 100 {
      assert page == selected;
    } else {
      assert page == selected[..100];
    }
  }

  /**
   * A filter whose parameter is falsy is not applied: an empty category and
   * zero amount bounds list what omitting them lists.
   */
  lemma FalsyFiltersAreIgnored(expenses: seq<Expense>, principal: User, q: ListQuery)
    ensures ReadExpenses(expenses, principal, q.(category := Some(""))) == ReadExpenses(expenses, principal, q.(category := None))
    ensures ReadExpenses(expenses, principal, q.(minAmount := Some(0))) == ReadExpenses(expenses, principal, q.(minAmount := None))
    ensures ReadExpenses(expenses, principal, q.(maxAmount := Some(0))) == ReadExpenses(expenses, principal, q.(maxAmount := None))
  {
  }

  /** Other users' expenses do not affect the listing. */
  lemma ReadExpensesSeesOnlyOwn(expenses: seq<Expense>, principal: User, q: ListQuery)
    ensures ReadExpenses(expenses, principal, q) == ReadExpenses(Filter(expenses, OwnedBy(principal.id)), principal, q)
  {
    FilterIdempotent(expenses, OwnedBy(principal.id));
  }

  /**
   * The `/expenses/` listing of `main.py`, crud.get_expenses with the
   * principal's id and the same defaults for an omitted `skip` or `limit`,
   * is the router's listing with no filter given.
   */
  lemma MainListingIsUnfiltered(expenses: seq<Expense>, principal: User, skip: Option<nat>, limit: Option<nat>)
    ensures GetExpenses(expenses, principal.id, skip.UnwrapOr(DefaultSkip), limit.UnwrapOr(DefaultLimit))
         == ReadExpenses(expenses, principal, ListQuery(skip, limit, None, None, None, None, None))
  {
  }

  /** `create_expense`: the principal's new expense (crud.create_expense with the principal's id). */
  method CreateExpense(store: Store, principal: User, fields: ExpenseCreate, now: int) returns (e: Expense)
    requires store.Valid() && principal in store.users
    modifies store
    ensures store.Valid()
    ensures store.users == old(store.users)
    ensures store.expenses == old(store.expenses) + [e]
    ensures Base(e) == fields && e.userId == principal.id && e.date == now
    ensures forall x :: x in old(store.expenses) ==> x.id != e.id
  {
    assert GetUser(store.users, principal.id).Some?;
    e := store.CreateExpense(fields, principal.id, now);
  }

  /**
   * `read_expense`: the expense with that id when the principal owns it; a
   * missing id and another user's id give the same ExpenseNotFound.
   */
  function ReadExpense(expenses: seq<Expense>, principal: User, expenseId: int): (r: Result<Expense, HttpError>)
    ensures r.Err? ==> r.error == ExpenseNotFound
    ensures r.Ok? <==> exists e :: e in expenses && e.id == expenseId && e.userId == principal.id
    ensures r.Ok? ==> r.value in expenses && r.value.id == expenseId && r.value.userId == principal.id
  {
    match FindOwnExpense(expenses, expenseId, principal.id)
    case None => Err(ExpenseNotFound)
    case Some(e) => Ok(e)
  }

  /** Other users' expenses do not affect what reading one by id returns. */
  lemma ReadExpenseSeesOnlyOwn(expenses: seq<Expense>, principal: User, expenseId: int)
    ensures ReadExpense(expenses, principal, expenseId) == ReadExpense(Filter(expenses, OwnedBy(principal.id)), principal, expenseId)
  {
    FirstOfFilter(expenses, OwnedBy(principal.id), IsOwnExpense(expenseId, principal.id));
  }

  /**
   * The `setattr` loop of `update_expense`: overwrites the four fields a
   * client may set and leaves id, date and owner as they were.
   */
  method ApplyUpdate(record: Expense, update: ExpenseCreate) returns (r: Expense)
    ensures Base(r) == update
    ensures r.id == record.id && r.date == record.date && r.userId == record.userId
  {
    var items := Items(update);
    r := record;
    for k := 0 to |items|
      invariant r.id == record.id && r.date == record.date && r.userId == record.userId
      invariant k > 0 ==> r.category == update.category
      invariant k > 1 ==> r.amount == update.amount
      invariant k > 2 ==> r.description == update.description
      invariant k > 3 ==> r.paymentMethod == update.paymentMethod
    {
      r := SetAttr(r, items[k]);
    }
  }

  /**
   * `update_expense`: replaces the category, amount, description and payment
   * method of the principal's expense with that id and changes no other row;
   * a missing or foreign id gives ExpenseNotFound and changes nothing.
   */
  method UpdateExpense(store: Store, principal: User, expenseId: int, update: ExpenseCreate)
    returns (r: Result<Expense, HttpError>)
    requires store.Valid()
    modifies store
    ensures store.Valid()
    ensures store.users == old(store.users)
    ensures r.Err? <==> old(FindOwnExpense(store.expenses, expenseId, principal.id)).None?
    ensures r.Err? ==> r.error == ExpenseNotFound && store.expenses == old(store.expenses)
    ensures r.Ok? ==>
      var i := old(FindOwnIndex(store.expenses, expenseId, principal.id)).value;
      && i < |old(store.expenses)|
      && store.expenses == old(store.expenses)[i := r.value]
      && Base(r.value) == update
      && r.value.id == expenseId && r.value.userId == principal.id
      && r.value.date == old(store.expenses)[i].date
  {
    var found := FindOwnIndex(store.expenses, expenseId, principal.id);
    if found.None? {
      return Err(ExpenseNotFound);
    }
    var i := found.value;
    var updated := ApplyUpdate(store.expenses[i], update);
    ghost var before := store.expenses;
    store.expenses := store.expenses[i := updated];
    assert forall x :: x in store.expenses ==> x == updated || x in before;
    forall a, b | 0 <= a < b < |store.expenses|
      ensures store.expenses[a].id != store.expenses[b].id
    {
      assert store.expenses[a].id == before[a].id && store.expenses[b].id == before[b].id;
    }
    r := Ok(updated);
  }

  /**
   * `delete_expense` (and the same route in `main.py` by way of
   * crud.delete_expense): removes the principal's expense with that id; a
   * missing or foreign id gives ExpenseNotFound and changes nothing.
   */
  method DeleteExpense(store: Store, principal: User, expenseId: int) returns (r: Result<string, HttpError>)
    requires store.Valid()
    modifies store
    ensures store.Valid()
    ensures store.users == old(store.users)
    ensures r.Err? <==> old(FindOwnExpense(store.expenses, expenseId, principal.id)).None?
    ensures r.Err? ==> r.error == ExpenseNotFound && store.expenses == old(store.expenses)
    ensures r.Ok? ==> r.value == DeletedMessage
    ensures store.expenses == WithoutOwn(old(store.expenses), expenseId, principal.id)
  {
    var deleted := store.DeleteExpense(expenseId, principal.id);
    if deleted.None? {
      return Err(ExpenseNotFound);
    }
    r := Ok(DeletedMessage);
  }

  /** The statistics response. */
  datatype Summary = Summary(
    timeframe: string,
    totalExpenses: nat,
    totalAmount: int,
    averageAmount: real,
    categoryBreakdown: map<string, int>)

  /** The timeframe when the request gives none. */
  const DefaultTimeframe := "month"

  /** The length of the window in days: 1, 7 or 30, and 365 for every other timeframe. */
  function WindowDays(timeframe: string): nat
  {
    if timeframe == "day" then 1
    else if timeframe == "week" then 7
    else if timeframe == "month" then 30
    else 365
  }

  /** The start of the rolling window ending at `now`. */
  function WindowStart(timeframe: string, now: int): int
  {
    now - WindowDays(timeframe) * SecondsPerDay
  }

  /** `user_id == userId` together with `date >= start` */
  function InWindow(userId: int, start: int): Expense -> bool
  {
    (e: Expense) => e.userId == userId && e.date >= start
  }

  /**
   * `get_expense_statistics`: over the principal's expenses dated no earlier
   * than the window start, the count, the total, the average (0 when there
   * are none) and the breakdown by category, whose values sum to the total.
   * An omitted timeframe is DefaultTimeframe.
   */
  method ExpenseStatistics(expenses: seq<Expense>, principal: User, requested: Option<string>, now: int)
    returns (s: Summary)
    ensures var timeframe := requested.UnwrapOr(DefaultTimeframe);
      var included := Filter(expenses, InWindow(principal.id, WindowStart(timeframe, now)));
      && s.timeframe == timeframe
      && s.totalExpenses == |included|
      && s.totalAmount == Total(included)
      && IsAverage(s.averageAmount, s.totalAmount, s.totalExpenses)
      && IsBreakdown(s.categoryBreakdown, included)
  {
    var timeframe := requested.UnwrapOr(DefaultTimeframe);
    var start := WindowStart(timeframe, now);
    var included := Filter(expenses, InWindow(principal.id, start));
    var totalAmount := Total(included);
    var count := |included|;
    var average := Average(totalAmount, count);
    var breakdown := CategoryBreakdown(included);
    s := Summary(timeframe, count, totalAmount, average, breakdown);
  }

  /**
   * An expense counts in the statistics exactly when the principal owns it
   * and it is dated within 1, 7, 30 or 365 days before `now`.
   */
  lemma StatisticsWindow(expenses: seq<Expense>, principal: User, timeframe: string, now: int, e: Expense)
    requires e in expenses
    ensures e in Filter(expenses, InWindow(principal.id, WindowStart(timeframe, now))) <==>
      e.userId == principal.id &&
      e.date >= now - SecondsPerDay * (if timeframe == "day" then 1 else if timeframe == "week" then 7
                                       else if timeframe == "month" then 30 else 365)
  {
    var i :| 0 <= i < |expenses| && expenses[i] == e;
  }
}
