/**
 * The `/users` routes: registration, the login that issues bearer tokens,
 * the profile of the principal and its statistics.
 */
module UserRoutes {
  import opened Wrappers
  import opened Http
  import opened Query
  import opened Models
  import opened Aggregates
  import opened Crypto
  import opened Repository
  import Auth
  import ExpenseRoutes

  /** The response when the email of a registration is already in use. */
  const EmailTaken := HttpError(400, "Email already registered", false)

  /** A new user's rows have no expenses: no expense names an id that is not yet anyone's. */
  lemma FreshUserOwnsNothing(users: seq<User>, expenses: seq<Expense>, id: int)
    requires OwnersExist(users, expenses)
    requires GetUser(users, id).None?
    ensures Filter(expenses, OwnedBy(id)) == []
  {
  }

  /**
   * `register_user` (and `create_user` of `main.py`): a taken email gives
   * EmailTaken and changes nothing; otherwise exactly one user is added,
   * with the hashed password, and returned with an empty list of expenses.
   */
  method RegisterUser(store: Store, fields: UserCreate, p: Primitives, salt: nat)
    returns (r: Result<UserView, HttpError>)
    requires store.Valid()
    modifies store
    ensures store.Valid()
    ensures store.expenses == old(store.expenses)
    ensures r.Err? <==> old(GetUserByEmail(store.users, fields.email)).Some?
    ensures r.Err? ==> r.error == EmailTaken && store.users == old(store.users)
    ensures r.Ok? ==>
      && |store.users| == |old(store.users)| + 1
      && store.users[..|old(store.users)|] == old(store.users)
      && var u := store.users[|old(store.users)|];
      && u.email == fields.email && u.fullName == fields.fullName
      && u.hashedPassword == p.hash(fields.password, salt)
      && old(GetUser(store.users, u.id)).None?
      && r.value == UserView(u.id, fields.email, fields.fullName, [])
  {
    if GetUserByEmail(store.users, fields.email).Some? {
      return Err(EmailTaken);
    }
    ghost var before := store.users;
    var created := store.CreateUser(fields, p, salt);
    var u := created.value;
    FreshUserOwnsNothing(before, store.expenses, u.id);
    assert store.users[..|before|] == before;
    r := Ok(View(u, store.expenses));
  }

  /**
   * `login` as `routers/users.py` writes it: an unknown email gives
   * LoginError, and for a known one the call of the missing
   * `crud.verify_password` raises, which the server turns into a 500.
   */
  function LoginAsWritten(users: seq<User>, username: string, password: string): (r: Result<TokenResponse, HttpError>)
    ensures r.Err?
    ensures r.error == Auth.LoginError <==> GetUserByEmail(users, username).None?
    ensures r.error == InternalServerError <==> GetUserByEmail(users, username).Some?
  {
    match GetUserByEmail(users, username)
    case None => Err(Auth.LoginError)
    case Some(_) => Err(InternalServerError)
  }

  /**
   * As written, a registered user with the right password cannot log in
   * through the router, while the intended login (Auth.Login, the check
   * `main.py` makes with the password context) issues a token.
   */
  lemma LoginAsWrittenRejectsValidCredentials(
    p: Primitives, key: string, users: seq<User>, u: User, password: string, salt: nat, now: int)
    requires HashVerifies(p)
    requires UniqueEmails(users) && u in users
    requires u.hashedPassword == p.hash(password, salt)
    ensures LoginAsWritten(users, u.email, password) == Err(InternalServerError)
    ensures Auth.Login(p, key, users, u.email, password, now).Ok?
  {
    GetUserByEmailIsExact(users, u);
    Auth.RegisteredPasswordLogsIn(p, key, users, u, password, salt, now);
  }

  /** `read_users_me`: the principal's public fields and exactly the expenses it owns. */
  function ReadUsersMe(principal: User, expenses: seq<Expense>): (r: UserView)
    ensures r.id == principal.id && r.email == principal.email && r.fullName == principal.fullName
    ensures forall e :: e in r.expenses <==> e in expenses && e.userId == principal.id
  {
    View(principal, expenses)
  }

  /** The statistics of `get_user_statistics` that the model covers. */
  datatype UserStats = UserStats(totalExpenses: nat, totalAmount: int, averageAmount: real)

  /**
   * `get_user_statistics`: the count, total and average (0 when there are
   * none) of all the principal's expenses.
   */
  function UserStatistics(expenses: seq<Expense>, principal: User): (r: UserStats)
    ensures r.totalExpenses == |Filter(expenses, OwnedBy(principal.id))| <= |expenses|
    ensures r.totalAmount == Total(Filter(expenses, OwnedBy(principal.id)))
    ensures IsAverage(r.averageAmount, r.totalAmount, r.totalExpenses)
  {
    var owned := Filter(expenses, OwnedBy(principal.id));
    var total := Total(owned);
    UserStats(|owned|, total, Average(total, |owned|))
  }

  /**
   * Adding an expense moves the principal's statistics only when it is the
   * principal's own: by one row and its amount.
   */
  lemma {:induction false} UserStatisticsAfterAdd(expenses: seq<Expense>, principal: User, e: Expense)
    ensures var before := UserStatistics(expenses, principal);
      var after := UserStatistics(expenses + [e], principal);
      if e.userId == principal.id then
        after.totalExpenses == before.totalExpenses + 1 && after.totalAmount == before.totalAmount + e.amount
      else
        after == before
  {
    var own := OwnedBy(principal.id);
    FilterAppend(expenses, [e], own);
    assert Filter([e], own) == if own(e) then [e] else [];
    if own(e) {
      TotalSnoc(Filter(expenses, own), e);
    } else {
      assert Filter(expenses, own) + [] == Filter(expenses, own);
    }
  }

  /**
   * Over a history whose every one of the principal's expenses falls in the
   * window, the expense statistics and the user statistics count the same rows.
   */
  lemma StatisticsAgreeOnRecentHistory(expenses: seq<Expense>, principal: User, timeframe: string, now: int)
    requires forall e :: e in expenses && e.userId == principal.id ==>
      e.date >= ExpenseRoutes.WindowStart(timeframe, now)
    ensures var included := Filter(expenses, ExpenseRoutes.InWindow(principal.id, ExpenseRoutes.WindowStart(timeframe, now)));
      && included == Filter(expenses, OwnedBy(principal.id))
      && UserStatistics(expenses, principal).totalExpenses == |included|
      && UserStatistics(expenses, principal).totalAmount == Total(included)
  {
    FilterExt(expenses, ExpenseRoutes.InWindow(principal.id, ExpenseRoutes.WindowStart(timeframe, now)), OwnedBy(principal.id));
  }
}
