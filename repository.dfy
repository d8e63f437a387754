/**
 * The data access layer: the queries of `crud.py` as functions of the
 * tables' contents, and the store itself as a class whose methods change the
 * tables the way `db.add`, `db.delete` and `db.commit` do.
 */
module Repository {
  import opened Wrappers
  import opened Query
  import opened Models
  import opened Crypto

  /** `User.id == userId` */
  function HasUserId(userId: int): User -> bool
  {
    (u: User) => u.id == userId
  }

  /** `User.email == email` */
  function HasEmail(email: string): User -> bool
  {
    (u: User) => u.email == email
  }

  /** `Expense.id == expenseId` together with `Expense.user_id == userId` */
  function IsOwnExpense(expenseId: int, userId: int): Expense -> bool
  {
    (e: Expense) => e.id == expenseId && e.userId == userId
  }

  /** `get_user`: the user with that id, or `None`. */
  function GetUser(users: seq<User>, userId: int): (r: Option<User>)
    ensures r.Some? ==> r.value in users && r.value.id == userId
    ensures r.None? <==> forall u :: u in users ==> u.id != userId
  {
    First(users, HasUserId(userId))
  }

  /** `get_user_by_email`: the user with that email, or `None`. */
  function GetUserByEmail(users: seq<User>, email: string): (r: Option<User>)
    ensures r.Some? ==> r.value in users && r.value.email == email
    ensures r.None? <==> forall u :: u in users ==> u.email != email
  {
    First(users, HasEmail(email))
  }

  /** With emails unique, the lookup by email finds exactly the one user who has it. */
  lemma GetUserByEmailIsExact(users: seq<User>, u: User)
    requires UniqueEmails(users)
    requires u in users
    ensures GetUserByEmail(users, u.email) == Some(u)
  {
    UniqueEmailsHaveOneRow(users, u, GetUserByEmail(users, u.email).value);
  }

  /**
   * `get_expenses`: the owner's expenses with the first `skip` dropped, at
   * most `limit` of them, in storage order.
   */
  function GetExpenses(expenses: seq<Expense>, userId: int, skip: nat, limit: nat): (r: seq<Expense>)
    ensures |r| <= limit
    ensures |r| == limit || skip + |r| >= |Filter(expenses, OwnedBy(userId))|
    ensures forall e :: e in r ==> e in expenses && e.userId == userId
    ensures forall i :: 0 <= i < |r| ==>
      skip + i < |Filter(expenses, OwnedBy(userId))| && r[i] == Filter(expenses, OwnedBy(userId))[skip + i]
  {
    Page(Filter(expenses, OwnedBy(userId)), skip, limit)
  }

  /** The position of the expense with that id and owner. */
  function FindOwnIndex(expenses: seq<Expense>, expenseId: int, userId: int): Option<nat>
  {
    FindIndex(expenses, IsOwnExpense(expenseId, userId))
  }

  /**
   * `query(Expense).filter(id == expenseId, user_id == userId).first()`: an
   * expense of another owner is found no more than a missing one.
   */
  function FindOwnExpense(expenses: seq<Expense>, expenseId: int, userId: int): (r: Option<Expense>)
    ensures r.Some? ==> r.value in expenses && r.value.id == expenseId && r.value.userId == userId
    ensures r.None? <==> forall e :: e in expenses ==> !(e.id == expenseId && e.userId == userId)
  {
    First(expenses, IsOwnExpense(expenseId, userId))
  }

  /** The table after `db.delete` of the matched own expense; unchanged when none matches. */
  function WithoutOwn(expenses: seq<Expense>, expenseId: int, userId: int): (r: seq<Expense>)
    ensures FindOwnExpense(expenses, expenseId, userId).None? ==> r == expenses
    ensures FindOwnExpense(expenses, expenseId, userId).Some? ==>
      |r| == |expenses| - 1 &&
      multiset(r) + multiset{FindOwnExpense(expenses, expenseId, userId).value} == multiset(expenses)
    ensures FindOwnExpense(expenses, expenseId, userId).Some? ==>
      exists i :: 0 <= i < |expenses| && r == expenses[..i] + expenses[i + 1..]
  {
    match FindOwnIndex(expenses, expenseId, userId)
    case None => expenses
    case Some(i) =>
      assert expenses == expenses[..i] + [expenses[i]] + expenses[i + 1..];
      expenses[..i] + expenses[i + 1..]
  }

  /** Removing a row keeps ids unique and owners existing. */
  lemma RemoveKeepsWellFormed(users: seq<User>, expenses: seq<Expense>, i: nat)
    requires WellFormed(users, expenses)
    requires i < |expenses|
    ensures WellFormed(users, expenses[..i] + expenses[i + 1..])
  {
    var r := expenses[..i] + expenses[i + 1..];
    forall a, b | 0 <= a < b < |r|
      ensures r[a].id != r[b].id
    {
      var a', b' := if a < i then a else a + 1, if b < i then b else b + 1;
      assert r[a] == expenses[a'] && r[b] == expenses[b'];
    }
    forall e | e in r
      ensures e in expenses
    {
      var k :| 0 <= k < |r| && r[k] == e;
      assert e == expenses[if k < i then k else k + 1];
    }
  }

  /**
   * Deleting the matched own expense leaves no expense with that id and owner,
   * so the same delete a second time finds nothing.
   */
  lemma {:induction false} DeleteIsNotRepeatable(expenses: seq<Expense>, expenseId: int, userId: int)
    requires UniqueExpenseIds(expenses)
    ensures FindOwnExpense(WithoutOwn(expenses, expenseId, userId), expenseId, userId).None?
  {
    match FindOwnIndex(expenses, expenseId, userId)
    case None =>
    case Some(i) =>
      var r := expenses[..i] + expenses[i + 1..];
      forall e | e in r
        ensures !(e.id == expenseId && e.userId == userId)
      {
        var k :| 0 <= k < |r| && r[k] == e;
        var k' := if k < i then k else k + 1;
        assert e == expenses[k'] && k' != i;
        assert expenses[k'].id != expenses[i].id by {
          if k' < i {} else {}
        }
      }
  }

  /** The failure of an insert that the storage layer refuses. */
  datatype StoreError = UniqueViolation

  /**
   * The database: the `users` and `expenses` tables in storage order, and the
   * next free primary key of each.
   */
  class Store {
    var users: seq<User>
    var expenses: seq<Expense>
    var nextUserId: int
    var nextExpenseId: int

    /** The table declarations' constraints hold and the counters are above every id in use. */
    ghost predicate Valid()
      reads this
    {
      && WellFormed(users, expenses)
      && (forall u :: u in users ==> u.id < nextUserId)
      && (forall e :: e in expenses ==> e.id < nextExpenseId)
    }

    /** An empty database. */
    constructor ()
      ensures Valid()
      ensures users == [] && expenses == []
    {
      users, expenses := [], [];
      nextUserId, nextExpenseId := 1, 1;
    }

    /**
     * `create_user`: stores a row with the body's email and name and the
     * bcrypt digest of its password under `salt`, never the password itself.
     * The unique email column refuses a second row with the same email.
     */
    method CreateUser(fields: UserCreate, p: Primitives, salt: nat) returns (r: Result<User, StoreError>)
      requires Valid()
      modifies this
      ensures Valid()
      ensures expenses == old(expenses)
      ensures r.Err? <==> old(GetUserByEmail(users, fields.email)).Some?
      ensures r.Err? ==> r.error == UniqueViolation && users == old(users)
      ensures r.Ok? ==> users == old(users) + [r.value]
      ensures r.Ok? ==> r.value.email == fields.email && r.value.fullName == fields.fullName
      ensures r.Ok? ==> r.value.hashedPassword == p.hash(fields.password, salt)
      ensures r.Ok? ==> old(GetUser(users, r.value.id)).None?
    {
      var digest := p.hash(fields.password, salt);
      if GetUserByEmail(users, fields.email).Some? {
        return Err(UniqueViolation);
      }
      var u := User(nextUserId, fields.email, digest, fields.fullName);
      assert forall v :: v in users ==> v.id != u.id && v.email != u.email;
      users := users + [u];
      nextUserId := nextUserId + 1;
      r := Ok(u);
    }

    /**
     * `create_expense`: appends the row built from the body, with a new id,
     * the given owner and the creation instant as its date. Every existing
     * row stays as it was.
     */
    method CreateExpense(fields: ExpenseCreate, userId: int, now: int) returns (e: Expense)
      requires Valid()
      requires GetUser(users, userId).Some?
      modifies this
      ensures Valid()
      ensures users == old(users)
      ensures expenses == old(expenses) + [e]
      ensures Base(e) == fields && e.userId == userId && e.date == now
      ensures forall x :: x in old(expenses) ==> x.id != e.id
    {
      e := NewExpense(nextExpenseId, fields, userId, now);
      expenses := expenses + [e];
      nextExpenseId := nextExpenseId + 1;
    }

    /**
     * `delete_expense`: removes the expense with that id and owner and
     * returns it; returns `None` and changes nothing when there is none.
     */
    method DeleteExpense(expenseId: int, userId: int) returns (r: Option<Expense>)
      requires Valid()
      modifies this
      ensures Valid()
      ensures users == old(users) && nextUserId == old(nextUserId) && nextExpenseId == old(nextExpenseId)
      ensures r == old(FindOwnExpense(expenses, expenseId, userId))
      ensures expenses == WithoutOwn(old(expenses), expenseId, userId)
    {
      var i := FindOwnIndex(expenses, expenseId, userId);
      if i.None? {
        return None;
      }
      r := Some(expenses[i.value]);
      RemoveKeepsWellFormed(users, expenses, i.value);
      expenses := expenses[..i.value] + expenses[i.value + 1..];
    }
  }
}
