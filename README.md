# CoinCanvas backend: a verified model

CoinCanvas is a personal expense tracker whose backend is a FastAPI service
over two SQL tables, `users` and `expenses`. A user registers with an email,
a name and a password, which is stored only as a bcrypt digest. They log in
with the OAuth 2.0 password grant and get a 30-minute HS256 bearer token
whose subject is their email. Every `/expenses` route resolves the token to
the current user (the principal) and reads or changes only that user's rows.
An expense that belongs to someone else answers exactly as a missing one
does: 404 "Expense not found". The listing takes optional filters and
pagination. Two statistics routes report the count, total and average. The
expense statistics also give a breakdown by category, and cover only the rows
in a rolling window of 1, 7, 30 or 365 days. The user statistics cover all
of the principal's rows.

The model has one Dafny module per layer:

- `Wrappers`: `Option` and `Result`.
- `Query`: the SQLAlchemy query operations `filter`, `first`, `offset` and `limit` over a table in storage order.
- `Http`: the HTTP error value.
- `Models`: the records, request and response shapes, and the table constraints.
- `Aggregates`: totals, averages and the category breakdown loop.
- `Crypto`: bcrypt and JWT as parameters. Only the claim checks of `jwt.decode` are written out.
- `Repository`: the `crud.py` queries as functions, and the database as the class `Store`, whose methods change the tables in place.
- `Auth`: token issue and validation, `get_current_user`, and the login.
- `ExpenseRoutes` and `UserRoutes`: the two routers.

Conventions:

- Amounts are whole cents (`int`). Dates are instants in whole seconds.
- Averages are exact rationals (`real`).
- The current time, the bcrypt salt, `SECRET_KEY` and the two cryptographic libraries are parameters.
- Properties that rest on the libraries are stated under two named assumptions:
  - `HashVerifies`: a password verifies against its own digest.
  - `SignatureRoundTrips`: a signed payload unsigns to itself.

`main.py` repeats the token code, the login, registration, the listing,
creation and deletion. Each of these is modelled once, and the table below
cites both copies. The copies differ in two places. The `main.py` listing
takes only `skip` and `limit` and applies none of the router's filters
(ExpenseRoutes.MainListingIsUnfiltered). The `main.py` login checks the
password with the password context, while the router's login calls a
function that does not exist (see Findings).

## Model

| member | source | states |
|---|---|---|
| Query.Filter | backend/app/crud.py:27-28 | a filtered query keeps exactly the rows that satisfy the condition, drawn from the table |
| Query.FilterAppend | backend/app/crud.py:27-28 | filtering keeps storage order: it distributes over concatenation |
| Query.FilterExt | backend/app/routers/expenses.py:29-40 | two conditions that agree on every row filter the same |
| Query.FilterIfFilter | backend/app/routers/expenses.py:31-40 | adding an optional `.filter` to a query is filtering once by the conjunction |
| Query.FilterIdempotent | backend/app/routers/expenses.py:29 | filtering twice by the same condition equals filtering once |
| Query.FindIndex | backend/app/crud.py:41-44 | the position of the first matching row, and None exactly when no row matches |
| Query.First | backend/app/crud.py:9 | `first()` returns the row at the first matching position in storage order, or None when no row matches |
| Query.FirstStep | backend/app/crud.py:9 | `first()` returns the first row when it matches, and otherwise the first match among the rest |
| Query.FirstOfFilter | backend/app/routers/expenses.py:64-67 | `first()` of a narrower condition is unchanged by pre-filtering with a wider one |
| Query.Page | backend/app/crud.py:29-31 | `offset(skip).limit(limit)`: a contiguous run from position `skip`, at most `limit` long, shorter only at the end of the table |
| Models.NewExpense | backend/app/crud.py:34 | the stored row carries exactly the body's fields, the given owner and id, and the creation instant as its date (models.py:19 default) |
| Models.UniqueEmailsHaveOneRow | backend/app/models.py:10 | the unique email column makes two rows with the same email the same row |
| Aggregates.TotalSnoc | backend/app/routers/expenses.py:143 | the sum of amounts grows by the amount of an appended row |
| Aggregates.Average | backend/app/routers/expenses.py:152 | the average times the count is the total when there are rows, and 0 when there are none |
| Aggregates.MapTotalRemove | backend/app/routers/expenses.py:144-146 | the values of a breakdown sum to the removed entry plus the rest |
| Aggregates.MapTotalUpdate | backend/app/routers/expenses.py:146 | overwriting one category's entry changes the sum of values by the difference |
| Aggregates.CategoriesSnoc | backend/app/routers/expenses.py:146 | an appended row adds its category to the set of categories seen |
| Aggregates.CategoryTotalSnoc | backend/app/routers/expenses.py:146 | an appended row adds its amount to its own category's total and to no other |
| Aggregates.AbsentCategoryIsEmpty | backend/app/routers/expenses.py:146 | a category not yet seen has no rows, which is the `get(category, 0)` default |
| Aggregates.BreakdownKeysStep | backend/app/routers/expenses.py:146 | one loop step keeps the keys equal to the categories seen |
| Aggregates.BreakdownValuesStep | backend/app/routers/expenses.py:146 | one loop step keeps every value equal to its category's total |
| Aggregates.BreakdownTotalStep | backend/app/routers/expenses.py:146 | one loop step keeps the sum of values equal to the total of the rows seen |
| Aggregates.BreakdownStep | backend/app/routers/expenses.py:145-146 | one step of the loop preserves the breakdown invariant |
| Aggregates.CategoryBreakdown | backend/app/routers/expenses.py:144-146 | the loop yields a map keyed by exactly the categories present, each value that category's total, the values summing to the total |
| Crypto.Decode | backend/app/routers/users.py:43 | `jwt.decode` gives a payload only when the signature holds, `exp`, when present, is a number not before now, and `sub`, when present, is a string; a payload without `exp` is accepted and never expires (main.py duplicate) |
| Repository.GetUser | backend/app/crud.py:8-9 | the user with that id, or None exactly when no user has it |
| Repository.GetUserByEmail | backend/app/crud.py:11-12 | the user with that email, or None exactly when no user has it |
| Repository.GetUserByEmailIsExact | backend/app/crud.py:11-12 | with unique emails, the lookup returns precisely the user who has that email |
| Repository.GetExpenses | backend/app/crud.py:26-31 | at most `limit` rows, all the owner's: the owner's rows from position `skip` on in storage order, fewer than `limit` only when those run out |
| Repository.FindOwnExpense | backend/app/crud.py:40-44 | a row with that id and owner, or None exactly when there is none, so another owner's row is never found |
| Repository.WithoutOwn | backend/app/crud.py:45-48 | deletion removes exactly the matched row, keeping the other rows in their storage order, and changes nothing when none matched |
| Repository.RemoveKeepsWellFormed | backend/app/models.py:18-24 | deleting a row keeps ids unique and every owner existing |
| Repository.DeleteIsNotRepeatable | backend/app/crud.py:40-48 | after deletion no row with that id and owner remains, so the same delete finds nothing |
| Repository.Store.constructor | backend/app/models.py:6-25 | the database starts with both tables empty and its invariant holding |
| Repository.Store.CreateUser | backend/app/crud.py:14-24 | appends one user with a fresh id, the given email and name and the digest of the password, never the password; a taken email is refused and changes nothing |
| Repository.Store.CreateExpense | backend/app/crud.py:33-38 | appends one expense with a fresh id, the body's fields, the owner and the creation instant; nothing else changes |
| Repository.Store.DeleteExpense | backend/app/crud.py:40-48 | returns the matched own row and removes exactly it, or None with nothing changed |
| Auth.ToEncode | backend/app/routers/users.py:27-29 | the signed payload is the caller's claims plus `exp` set 30 minutes after now (main.py:51-56 duplicate) |
| Auth.CreateAccessToken | backend/app/routers/users.py:26-31 | the token unsigns to exactly that payload under the same key |
| Auth.GetCurrentUser | backend/app/routers/users.py:33-53 | the user whose email is the token's subject; every failure (bad token, no subject, unknown user) is the same 401 with a Bearer challenge (main.py:58-74 duplicate) |
| Auth.TokenResolvesUntilExpiry | backend/app/routers/users.py:22 | a token issued for a registered email resolves to that user until 30 minutes after issue |
| Auth.ExpiredTokenIsRejected | backend/app/routers/users.py:28 | after 30 minutes the token resolves to no one |
| Auth.Login | backend/app/main.py:76-86 | a bearer token with the email as subject exactly when the user exists and the password verifies; otherwise the single 401 "Incorrect email or password" |
| Auth.RegisteredPasswordLogsIn | backend/app/main.py:78-79 | a registered user giving the password their digest came from logs in |
| Auth.LoginTokenResolvesToUser | backend/app/main.py:85 | the token a login returns resolves to that user for its lifetime |
| ExpenseRoutes.ReadExpenses | backend/app/routers/expenses.py:14-42 | at most `limit` rows (100 when `limit` is omitted, and `skip` 0 when omitted), each one the principal's and meeting every applied filter |
| ExpenseRoutes.NarrowedIsSelection | backend/app/routers/expenses.py:29-40 | the chain of optional filters selects exactly the principal's rows meeting every truthy bound |
| ExpenseRoutes.ReadExpensesIsPageOfSelection | backend/app/routers/expenses.py:42 | the listing is one page, in storage order, of that selection |
| ExpenseRoutes.ReadExpensesListsEverySelected | backend/app/routers/expenses.py:29-42 | with no offset and a large enough limit, every selected row is listed |
| ExpenseRoutes.FalsyFiltersAreIgnored | backend/app/routers/expenses.py:31-40 | an empty category, a zero minimum and a zero maximum list what omitting them lists |
| ExpenseRoutes.ReadExpensesSeesOnlyOwn | backend/app/routers/expenses.py:29 | other users' rows do not affect the listing |
| ExpenseRoutes.MainListingIsUnfiltered | backend/app/main.py:95-103 | the `main.py` listing, with the same defaults of 0 and 100, is the router's listing with no filter given |
| ExpenseRoutes.DefaultPageIsFirstHundred | backend/app/routers/expenses.py:16-17 | with neither `skip` nor `limit` given, the listing is the first 100 selected rows, or all of them when there are at most 100 |
| ExpenseRoutes.CreateExpense | backend/app/routers/expenses.py:44-53 | appends one expense owned by the principal, with the body's fields (main.py:105-111 duplicate) |
| ExpenseRoutes.ReadExpense | backend/app/routers/expenses.py:55-70 | the row with that id exactly when the principal owns one; otherwise 404 "Expense not found" |
| ExpenseRoutes.ReadExpenseSeesOnlyOwn | backend/app/routers/expenses.py:64-67 | other users' rows do not affect reading by id |
| ExpenseRoutes.ApplyUpdate | backend/app/routers/expenses.py:90-91 | the setattr loop leaves the record with exactly the body's four fields and its id, date and owner unchanged |
| ExpenseRoutes.UpdateExpense | backend/app/routers/expenses.py:72-95 | replaces the matched own row in place and changes no other row; 404 with nothing changed when the principal has no such row |
| ExpenseRoutes.DeleteExpense | backend/app/routers/expenses.py:97-116 | removes exactly the matched own row and confirms; 404 with nothing changed otherwise (main.py:113-122 duplicate) |
| ExpenseRoutes.ExpenseStatistics | backend/app/routers/expenses.py:118-154 | over the principal's rows in the window, the count, the total, the average and the category breakdown summing to the total; an omitted timeframe is "month" (expenses.py:120) |
| ExpenseRoutes.StatisticsWindow | backend/app/routers/expenses.py:129-141 | a row counts exactly when it is the principal's and dated within 1, 7 or 30 days for day, week or month, and 365 days for any other timeframe |
| UserRoutes.FreshUserOwnsNothing | backend/app/models.py:24 | with every owner existing, an id no user has owns no expense |
| UserRoutes.RegisterUser | backend/app/routers/users.py:55-66 | a taken email is 400 "Email already registered" with nothing changed; otherwise one user is added with a fresh id, the body's email and name and the password's digest, and is returned with no expenses (main.py:88-93 duplicate) |
| UserRoutes.LoginAsWritten | backend/app/routers/users.py:68-84 | as written: an unknown email is 401, and a known one is always 500 |
| UserRoutes.LoginAsWrittenRejectsValidCredentials | backend/app/routers/users.py:77 | the router's login refuses a registered user with the right password, which the intended login accepts |
| UserRoutes.ReadUsersMe | backend/app/routers/users.py:86-91 | the principal's id, email and name and exactly their expenses, with no password field |
| UserRoutes.UserStatistics | backend/app/routers/users.py:104-124 | the count and the sum of amounts of exactly the principal's rows, and their average (0 when there are none) |
| UserRoutes.UserStatisticsAfterAdd | backend/app/routers/users.py:114-118 | another user's new row leaves the statistics unchanged; the principal's own adds one to the count and its amount to the total |
| UserRoutes.StatisticsAgreeOnRecentHistory | backend/app/routers/users.py:114-116 | when all the principal's rows lie in the window, the two statistics routes select the same rows and report the same count and total |

## Left out

- HTTP plumbing is not modelled: routing, dependency injection, CORS, the `/` route, `uvicorn`, JSON serialisation and response-model filtering. Only the fields each response keeps are modelled. A request without an `Authorization: Bearer` header is refused by `OAuth2PasswordBearer` (users.py:24, main.py:49) before `get_current_user` runs, with 401 "Not authenticated". So Auth.GetCurrentUser's single CredentialsError covers only requests that carry a token.
- The SQLAlchemy session, transactions and the database engine are left out. `commit` and `refresh` are the method returning. A table is a sequence in storage order, and the engine's choice of a new id is a counter above every id in use. Concurrent requests and races are not modelled.
- The `users.expenses` relationship is loaded in storage order. The engine promises no order.
- `database.py` is not part of this model.
- bcrypt and JOSE internals are not modelled. They are parameters with two named assumptions.
- Of the checks `jwt.decode` makes, only the signature, `exp` and the type of `sub` are modelled. `nbf`, `iat` and `aud` are not, nor the rejection of a non-string `jti` or of an `at_hash` claim when no access token is passed. A non-numeric `exp` is modelled as invalid.
- `SECRET_KEY` loading from the environment is a parameter.
- The wall clock is the parameter `now`. `datetime.utcnow` has microseconds, while the model counts whole seconds.
- Amounts are whole cents rather than binary floats, so no float rounding is modelled. The averages are exact.
- `EmailStr` validation is not modelled. An email is any string. Registration's `EmailStr` also lower-cases the domain, while the login's username is a plain string (users.py:76, main.py:78). In the service, a login whose domain case differs from the stored, lower-cased address finds no user. The model stores the email as given, so it does not capture that case.
- `skip` and `limit` are optional natural numbers, defaulting to DefaultSkip (0) and DefaultLimit (100) as at expenses.py:16-17 and main.py:97-98. Negative query values are not modelled.
- `timeframe`: the `enum=` of `Query` is documentation only and does not validate. Any string other than "day", "week" or "month" takes the 365-day branch, as the code does.
- `update_user` (`PUT /users/me`) is left out. It uses `schemas.UserUpdate` and `crud.update_user`, neither of which exists in the source, so as written the module fails when it is imported.
- UserRoutes.UserStatistics: `account_age_days` is left out. It reads `User.created_at`, which `models.py` does not declare, so as written the route fails with a 500 on every call. The model covers the other three fields.
- ExpenseRoutes.CreateExpense and Repository.Store.CreateExpense require the owner to exist. The foreign key is an invariant of the model, and a resolved principal always satisfies it.
- `schemas.TokenData` is declared but never used, so it is not modelled.
- `main.py` does not include the two routers. The model treats the routers' routes as the service's routes and cites the `main.py` copies beside them.

## Findings

| source | as written | input that shows it | evidently intended | confidence | as-written member | corrected member |
|---|---|---|---|---|---|---|
| backend/app/routers/users.py:77 | the login calls `crud.verify_password`, which `crud.py` does not define, so for a registered email the request fails with AttributeError (500) | a registered user posting their email and correct password to `/users/token`; reachable only once two other defects are set aside: `users.py` fails at import because line 95 annotates with the missing `schemas.UserUpdate`, and `main.py` mounts no router (both under Left out) | check the password with `crud.pwd_context.verify`, as `main.py:79` does, and issue the token | not executed | UserRoutes.LoginAsWrittenRejectsValidCredentials | Auth.Login |
