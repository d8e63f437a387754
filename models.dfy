/**
 * The stored records (the `users` and `expenses` tables), the request and
 * response shapes, and the invariants the table declarations impose.
 * Amounts are whole cents and dates are instants in seconds.
 */
module Models {
  import opened Wrappers
  import opened Query

  /** A row of `users`: `id` primary key, `email` unique, the bcrypt digest, and the name. */
  datatype User = User(id: int, email: string, hashedPassword: string, fullName: string)

  /**
   * A row of `expenses`. `userId` is the owner's foreign key; `amount` carries
   * no sign constraint; `description` may be absent.
   */
  datatype Expense = Expense(
    id: int,
    date: int,
    category: string,
    amount: int,
    description: Option<string>,
    paymentMethod: string,
    userId: int)

  /**
   * The body a client sends to create or replace an expense. It has no id,
   * no date and no owner, so a client can set none of them. `description` is
   * the one optional field (absent is `None`).
   */
  datatype ExpenseCreate = ExpenseCreate(
    category: string,
    amount: int,
    description: Option<string>,
    paymentMethod: string)

  /** The registration body. */
  datatype UserCreate = UserCreate(email: string, fullName: string, password: string)

  /**
   * The user response: id, email, name and the user's expenses; it has no
   * field for the password or its digest.
   */
  datatype UserView = UserView(id: int, email: string, fullName: string, expenses: seq<Expense>)

  /** The login response. */
  datatype TokenResponse = TokenResponse(accessToken: string, tokenType: string)

  /** The fields of an expense that a client supplies. */
  function Base(e: Expense): ExpenseCreate
  {
    ExpenseCreate(e.category, e.amount, e.description, e.paymentMethod)
  }

  /**
   * The row stored for `fields` (`models.Expense(**expense.dict(), user_id=...)`):
   * the body's fields, the owner, the new id, and the creation instant as date,
   * which is the column default since the body cannot carry a date.
   */
  function NewExpense(id: int, fields: ExpenseCreate, userId: int, now: int): (e: Expense)
    ensures Base(e) == fields
    ensures e.id == id && e.userId == userId && e.date == now
  {
    Expense(id, now, fields.category, fields.amount, fields.description, fields.paymentMethod, userId)
  }

  /** `Expense.user_id == userId` */
  function OwnedBy(userId: int): Expense -> bool
  {
    (e: Expense) => e.userId == userId
  }

  /** A user as the API returns it, with the expenses the relationship loads. */
  function View(u: User, expenses: seq<Expense>): UserView
  {
    UserView(u.id, u.email, u.fullName, Filter(expenses, OwnedBy(u.id)))
  }

  /** One `setattr(db_expense, key, value)` of the update loop: a field name with its value. */
  datatype Attribute =
    | CategoryAttr(category: string)
    | AmountAttr(amount: int)
    | DescriptionAttr(description: Option<string>)
    | PaymentMethodAttr(paymentMethod: string)

  /** `expense_update.dict().items()`: the body's fields in declaration order. */
  function Items(update: ExpenseCreate): seq<Attribute>
  {
    [ CategoryAttr(update.category), AmountAttr(update.amount),
      DescriptionAttr(update.description), PaymentMethodAttr(update.paymentMethod) ]
  }

  /** `setattr` on a stored expense. */
  function SetAttr(e: Expense, a: Attribute): Expense
  {
    match a
    case CategoryAttr(c) => e.(category := c)
    case AmountAttr(x) => e.(amount := x)
    case DescriptionAttr(d) => e.(description := d)
    case PaymentMethodAttr(m) => e.(paymentMethod := m)
  }

  /** `id` is the primary key of `users`. */
  ghost predicate UniqueUserIds(users: seq<User>)
  {
    forall i, j :: 0 <= i < j < |users| ==> users[i].id != users[j].id
  }

  /** `email` is declared unique. */
  ghost predicate UniqueEmails(users: seq<User>)
  {
    forall i, j :: 0 <= i < j < |users| ==> users[i].email != users[j].email
  }

  /** `id` is the primary key of `expenses`. */
  ghost predicate UniqueExpenseIds(expenses: seq<Expense>)
  {
    forall i, j :: 0 <= i < j < |expenses| ==> expenses[i].id != expenses[j].id
  }

  /** `user_id` is a foreign key into `users.id`. */
  ghost predicate OwnersExist(users: seq<User>, expenses: seq<Expense>)
  {
    forall e :: e in expenses ==> exists u :: u in users && u.id == e.userId
  }

  /** Everything the two table declarations demand of their contents. */
  ghost predicate WellFormed(users: seq<User>, expenses: seq<Expense>)
  {
    UniqueUserIds(users) && UniqueEmails(users) && UniqueExpenseIds(expenses) && OwnersExist(users, expenses)
  }

  /** A unique email column has at most one row per email. */
  lemma UniqueEmailsHaveOneRow(users: seq<User>, u: User, v: User)
    requires UniqueEmails(users)
    requires u in users && v in users && u.email == v.email
    ensures u == v
  {
    var i :| 0 <= i < |users| && users[i] == u;
    var j :| 0 <= j < |users| && users[j] == v;
    assert !(i < j) && !(j < i);
  }
}
