# cashtrackr budgets API and forms, modelled in Dafny

cashtrackr is a personal budgeting application. Its Express backend serves
budgets and their expenses to authenticated users, and its Next.js frontend
validates forms with Zod schemas before it calls the backend. This project
models four parts of it:

- the expense middleware (`validateExpenseInput`, `validateExpenseId`,
  `validateExpenseExists`, `belogsToBudget`);
- the budgets router, which decides which stages run for which request, in
  which order;
- account creation (`createAccount`) over the `users` table;
- the frontend schemas (register, login, token, forgot-password, user, and
  the two reply shapes).

Each middleware stage is a function from the request as it enters the stage
to the request as it leaves it, together with a verdict: call `next()`,
answer with a status and a JSON body, or throw without answering. The same
stages are also written as methods of a mutable `Exchange` (request and
response objects). Each method's effect is proved equal to its function.

The router is a `Router` class with `use`, `param` and verb methods.
`NewBudgetRouter` performs the file's registrations in their order and is
proved to build exactly `Wired()`. `Dispatch` runs a request through a
router the way Express 4 does:

1. the `use` stage, which budgetRouter.ts registers before any route, runs first;
2. then come the `router.param` callbacks, for the parameters in the order
   they appear in the path, each name's callbacks in registration order;
3. then the route's own stages;
4. the first stage that does not call `next()` ends the request.

The properties about the router are in `RouterProperties`:

- `authenticate` runs first, on every request.
- Every "/:budgetId" handler gets the user's own budget.
- Every "/:budgetId/expenses/:expenseId" handler gets the expense the path
  names.
- The expense-writing and budget-writing handlers run only after their input
  gate has passed.
- Re-running the budget checks inside the "/:budgetId" routes changes no
  outcome.
- As registered, nothing checks that the expense belongs to the budget (see
  Findings).

`createAccount` works on a store value: the users table, where its id
sequence stands, and the mails sent.

- `Signup` is the flow once `new User(req.body)` has built the instance; its
  contract covers every branch for any instance.
- `CreateAccountAsWritten` feeds it the instance as the code builds it,
  which takes `id` and `confirmed` from the body (`NewUserAsWritten`).
- `CreateAccountIntended` feeds it an instance without either (`NewUser`);
  see Findings.
- `Accounts.CreateAccount` is an imperative method on an `Accounts` object
  with those fields. It builds the instance as written and is proved to do
  exactly what `CreateAccountAsWritten` says.

Every version keeps the store's invariant: each row sits under its own id
and fits its columns, and no two rows share an email. Collaborators whose
code is not part of this model are parameters: the password hash, the
generated token, and which of the lookup, hash, save and mail calls reject.

A success is answered by `res.json(...)` with Express's default status 200
(backend/src/controllers/AuthController.ts:36). The integration test
expects 201 (backend/src/tests/integration/app.test.ts:71). The model
follows the code, and `FirstSignupAnswers200` shows the 200 for the test's
own body.

The schemas are functions from a parsed JavaScript value to Zod's list of
issues, in the order Zod reports them:

- An object reports its keys' issues in the order the schema lists them.
- A string runs all of its checks.
- A value of the wrong type reports one issue, and its checks do not run.
- RegisterSchema's `refine` runs only when all four keys hold strings.

Each schema is paired with a reference predicate of what it accepts. The
email format check is a parameter `isEmail`.

## Model

| member | source | states |
|---|---|---|
| ExpenseMiddleware.NameErrors | backend/src/middleware/expense.ts:18-21 | "name" is refused exactly when empty, with the name message at body path "name" |
| ExpenseMiddleware.AmountErrors | backend/src/middleware/expense.ts:22-29 | "amount" passes iff it is numeric text and greater than zero; every validator runs, so an empty amount reports all three messages in order; each message is reported exactly when its own validator fails, so "-5" reports only the not-positive message |
| ExpenseMiddleware.ExpenseInputErrors | backend/src/middleware/expense.ts:18-29 | no error iff the name is non-empty and the amount numeric and positive; every error is in the body, at "name" or "amount" |
| ExpenseMiddleware.ValidateExpenseInput | backend/src/middleware/expense.ts:13-32 | always calls next, with the body errors appended to those already recorded |
| ExpenseMiddleware.IdErrors | backend/src/middleware/expense.ts:39-43 | no error iff the parameter is a positive integer; express-validator's default "Invalid value" is reported exactly when `isInt` fails, since `withMessage` binds only to the custom check after it; "ID no válido" exactly when `value > 0` fails, so "1.5" reports only "Invalid value"; an integer that is not positive reports exactly that one error; every error is at the parameter's path in `params` |
| ExpenseMiddleware.ValidateIdParam | backend/src/middleware/expense.ts:39-51 | calls next, request unchanged, iff no error was recorded before and the parameter is a positive integer; otherwise 400 with every recorded error, which is non-empty; only `errors` changes, and it only grows |
| ExpenseMiddleware.ValidateExpenseId | backend/src/middleware/expense.ts:34-52 | the id check on "expenseId": next iff it is a positive integer and nothing was recorded before, else 400 with the errors |
| ExpenseMiddleware.ValidateExpenseExists | backend/src/middleware/expense.ts:54-76 | next with the row attached iff the lookup finds it; 404 "Gasto no encontrado" when missing, 500 "Hubo un error" when the lookup rejects, request unchanged in both |
| ExpenseMiddleware.BelongsToBudget | backend/src/middleware/expense.ts:78-91 | request unchanged; next iff both rows are attached and the expense's budgetId is the budget's id; 403 "Acción no válida" when they differ; throws without answering iff a row is missing |
| Lexical.IsIntText | backend/src/middleware/expense.ts:40 | `isInt()`: an optional sign followed by one or more digits |
| Lexical.IsNumericText | backend/src/middleware/expense.ts:25 | `isNumeric()`: an optional sign, then digits with at most one dot, ending in a digit, so "5." is refused and ".5" accepted |
| Lexical.GreaterThanZero | backend/src/middleware/expense.ts:27 | `value > 0` after JavaScript's string-to-number conversion, on the decimal texts `Number` reads: not negative and some digit non-zero |
| Lexical.IntTextComparison | backend/src/middleware/expense.ts:39-41 | for an `isInt` string, `value > 0` holds iff the integer it denotes is positive, and the string is also numeric text |
| Lexical.NumericTextIsDecimal | backend/src/middleware/expense.ts:25-27 | every `isNumeric` string is one that `Number` converts; no other member relies on it: it stands alone to back reading `value > 0` as GreaterThanZero on the amounts `isNumeric` accepts |
| ExpenseExchange.Exchange.Next | backend/src/middleware/expense.ts:31 | calling `next()` counts one call and changes nothing else |
| ExpenseExchange.Exchange.Send | backend/src/middleware/expense.ts:47 | `res.status(n).json(b)` records that status and body and changes nothing else |
| ExpenseExchange.Exchange.ValidateExpenseInput | backend/src/middleware/expense.ts:13-32 | on the mutable request/response, does exactly the step ExpenseMiddleware.ValidateExpenseInput describes |
| ExpenseExchange.Exchange.ValidateExpenseId | backend/src/middleware/expense.ts:34-52 | does exactly the step ExpenseMiddleware.ValidateExpenseId describes: status, body, next count and request |
| ExpenseExchange.Exchange.ValidateExpenseExists | backend/src/middleware/expense.ts:54-76 | does exactly the step ExpenseMiddleware.ValidateExpenseExists describes |
| ExpenseExchange.Exchange.BelongsToBudget | backend/src/middleware/expense.ts:78-91 | does exactly the step ExpenseMiddleware.BelongsToBudget describes, sending nothing when it throws |
| BudgetMiddleware.ValidateBudgetId | backend/src/routes/budgetRouter.ts:23 | next iff "budgetId" is a positive integer and nothing was recorded before, else 400 with the errors |
| BudgetMiddleware.ValidateBudgetExists | backend/src/tests/unit/middlewares/budget.test.ts:10-72 | next with the budget attached iff found; 404 "Presupuesto no encontrado" when missing; 500 "Hubo un error" when the lookup rejects |
| BudgetMiddleware.HasAccess | backend/src/tests/unit/middlewares/budget.test.ts:75-108 | request unchanged; next iff the budget's userId is the user's id; 401 "Accion no válida" otherwise |
| BudgetRouter.Apply | backend/src/routes/budgetRouter.ts:21-28 | no stage changes the credential, the parameters or the body; only authenticate sets the user, only the two lookups attach rows, only the validators add errors, and errors only grow |
| BudgetRouter.Run | backend/src/routes/budgetRouter.ts:30-79 | a fail-fast chain keeps the credential, parameters and body, only grows the errors, and keeps user, budget and expense unless a stage that sets them is in the chain |
| BudgetRouter.BindMatches | backend/src/routes/budgetRouter.ts:39-79 | a pattern binds a path iff the path has its length, each literal is matched exactly and each ":name" takes a non-empty segment; only the pattern's own names are bound |
| RouterProperties.BindVar | backend/src/routes/budgetRouter.ts:39-79 | on a match, each ":name" is bound to its own segment; of two with the same name the rightmost wins, as Express assigns them left to right |
| BudgetRouter.FindRoute | backend/src/routes/budgetRouter.ts:30-79 | the route found is the first registered one whose verb and pattern match; none is found iff no route matches |
| BudgetRouter.Router.constructor | backend/src/routes/budgetRouter.ts:19 | a new router has no stages, parameters or routes |
| BudgetRouter.Router.Use | backend/src/routes/budgetRouter.ts:21 | appends to the `use` stages and changes nothing else |
| BudgetRouter.Router.Param | backend/src/routes/budgetRouter.ts:23-28 | appends the callback to that name's list, creating it if absent, and changes nothing else |
| BudgetRouter.Router.Handle | backend/src/routes/budgetRouter.ts:30-79 | appends one route and changes nothing else |
| BudgetRouter.NewBudgetRouter | backend/src/routes/budgetRouter.ts:19-81 | the file's registrations build exactly the configuration `Wired()` |
| BudgetRouter.RegisterParams | backend/src/routes/budgetRouter.ts:23-28 | the two `router.param` groups register validateBudgetId, validateBudgetExists, hasAccess for ":budgetId" and validateExpenseId, validateExpenseExists for ":expenseId", in that order |
| BudgetRouter.RegisterBudgetRoutes | backend/src/routes/budgetRouter.ts:30-60 | the five routes on "/" and "/:budgetId", in order, with their stages |
| BudgetRouter.RegisterExpenseRoutes | backend/src/routes/budgetRouter.ts:64-79 | the five expense routes, in order, with their stages |
| RouterProperties.DispatchOutcome | backend/src/routes/budgetRouter.ts:19-81 | a `use` stage that answers or throws ends every request; past them a request is unrouted iff no route has its verb and fits its path; a handler is reached only through a route with both, seeing the request's credential and body and the parameters that route binds |
| RouterProperties.RunAppend | backend/src/routes/budgetRouter.ts:21-79 | running two chains in sequence, the second only if the first continued, is running their concatenation |
| RouterProperties.BudgetCallbacksOutcome | backend/src/routes/budgetRouter.ts:23-25 | the ":budgetId" callbacks continue iff the id is a positive integer, the budget is found and it is the user's, and then attach exactly that budget; otherwise, in order, 400, 404, 500 or 401 |
| RouterProperties.ExpenseCallbacksOutcome | backend/src/routes/budgetRouter.ts:27-28 | the ":expenseId" callbacks continue iff the id is a positive integer and the expense is found, attaching it; otherwise 400, 404 or 500 |
| RouterProperties.CheckedExpenseCallbacksOutcome | backend/src/middleware/expense.ts:84-89 | with belogsToBudget after them, they continue iff the expense also belongs to the attached budget, and answer 403 when it does not |
| RouterProperties.RevalidateAfterBudgetCallbacks | backend/src/routes/budgetRouter.ts:39-60 | right after the ":budgetId" callbacks, validateBudgetId and validateBudgetExists leave the outcome of the rest of the chain unchanged |
| RouterProperties.AuthenticateRunsFirst | backend/src/routes/budgetRouter.ts:21 | a refused credential is the response to every request; every handler sees the authenticated user |
| RouterProperties.BudgetRoutesOwned | backend/src/routes/budgetRouter.ts:23-25 | every handler behind "/:budgetId" gets the budget the id names, found, and it belongs to the user |
| RouterProperties.ExpenseRoutesResolved | backend/src/routes/budgetRouter.ts:27-28 | every single-expense handler also gets the expense the id names |
| RouterProperties.BudgetParamOutcomes | backend/src/routes/budgetRouter.ts:23-25 | on a "/:budgetId..." route: a malformed id is 400, a missing budget 404, a failed lookup 500, someone else's budget 401 |
| RouterProperties.ExpenseInputGated | backend/src/routes/budgetRouter.ts:65-78 | the expense create and update handlers run only after handleInputErrors passed, and the errors recorded are exactly the body's |
| RouterProperties.BudgetInputGated | backend/src/routes/budgetRouter.ts:32-53 | the budget create and update handlers run only after handleInputErrors passed the budget body's errors, which are all that is recorded |
| RouterProperties.RevalidationIsIdempotent | backend/src/routes/budgetRouter.ts:39-60 | dropping the per-route validateBudgetId, validateBudgetExists pair changes the answer to no request |
| RouterProperties.BelongsToBudgetNotWired | backend/src/routes/budgetRouter.ts:12-16 | no chain of the registered router contains belogsToBudget |
| RouterProperties.WiredIgnoresParentage | backend/src/routes/budgetRouter.ts:27-28 | as registered, GET and DELETE of a single expense reach the controller with the user's budget and whatever expense the id names, even one of another budget |
| RouterProperties.IntendedRejectsForeignExpense | backend/src/middleware/expense.ts:84-87 | with belogsToBudget registered, such a request is refused with 403 on every single-expense route |
| RouterProperties.IntendedEnforcesParentage | backend/src/middleware/expense.ts:78-91 | with belogsToBudget registered, every single-expense handler gets the user's budget and an expense of that budget |
| RouterProperties.CrossBudgetExpenseServed | backend/src/routes/budgetRouter.ts:71 | GET /1/expenses/7 by the owner of budget 1, expense 7 being in budget 2, is handled as registered and refused with 403 once belogsToBudget is registered |
| Users.Save | backend/src/models/Users.ts:9-40 | a save succeeds iff name, password and email are set and every value fits its column width; the row saved is the instance under the new id |
| Users.SaveRoundTrip | backend/src/models/Users.ts:9-40 | every row that fits its columns saves back as itself |
| AuthController.NewUserAsWritten | backend/src/controllers/AuthController.ts:24 | `new User(req.body)` as written: the instance takes the body's id, name, email and password, is confirmed iff the body says `confirmed: true`, and has no token |
| AuthController.NewUser | backend/src/controllers/AuthController.ts:24 | the corrected instance: the body's name, email and password, no id, no token, unconfirmed |
| AuthController.Signup | backend/src/controllers/AuthController.ts:9-42 | for any instance built from the body: no email or a rejected lookup gives no reply; a registered email 409; every later failure 500; the store changes iff the row is inserted, and then exactly one row is added under the instance's key with the hash, the token and the instance's `confirmed`; the sequence advances only for an instance without a key; a failed hash or save changes nothing; a failed mail keeps the row; a mail with the token goes out iff the reply is 200; the invariant is kept |
| AuthController.CreateAccountAsWritten | backend/src/controllers/AuthController.ts:9-42 | as written: the store changes iff the instance from the body is inserted, and the new row sits under the body's id when it gives one, confirmed iff the body said so; a registered email is 409; the invariant is kept |
| AuthController.CreateAccountIntended | backend/src/controllers/AuthController.ts:9-42 | corrected: any insert adds exactly one row under the next id, advances the sequence by one, and leaves the row unconfirmed; a registered email is 409; the invariant is kept |
| AuthController.NewRowKeepsValid | backend/src/controllers/AuthController.ts:15-28 | adding a fitting row under its own free key, whose email is not registered, keeps ids and emails unique |
| AuthController.NoDuplicateAfterSecondSignup | backend/src/controllers/AuthController.ts:15-21 | after a successful signup, a second one with the same email gets 409 |
| AuthController.FirstSignupAnswers200 | backend/src/controllers/AuthController.ts:36 | the integration test's body on an empty store is answered 200 with "Cuenta creada Correctamente" |
| AuthController.SignupConfirmsItself | backend/src/controllers/AuthController.ts:24 | as written, a body with `confirmed: true` stores a confirmed user |
| AuthController.ChosenIdBlocksNextSignup | backend/src/controllers/AuthController.ts:24-28 | as written, a body with `id: 1` on an empty table is stored under 1 without moving the sequence, and the next signup, for another email, collides on key 1 and is answered 500 |
| AuthController.IntendedKeysBelowSequence | backend/src/controllers/AuthController.ts:24-28 | corrected: when every id is below the sequence, the next key is free and every id stays below the sequence after the signup |
| AuthController.Accounts.CreateAccount | backend/src/controllers/AuthController.ts:9-42 | the method builds the instance as written; its new state and reply are exactly those of CreateAccountAsWritten, and it keeps the store invariant |
| Schemas.CheckIssues | frontend/src/schemas/index.ts:5-12 | a string chain reports no issue iff every check passes, reports each failing check's message at the key's path, and no more issues than there are checks |
| Schemas.CheckIssuesOnlyFailing | frontend/src/schemas/index.ts:5-12 | conversely, every issue a string chain reports carries the message of a check that fails |
| Schemas.StringIssues | frontend/src/schemas/index.ts:5-13 | a non-string value reports a single invalid-type issue and runs no check |
| Schemas.EmailKeyIssues | frontend/src/schemas/index.ts:5-8 | the email key passes iff it is a non-empty string in email format; a non-string gives exactly one invalid-type issue; with distinct messages, the required message is reported exactly when the email is empty and the format message exactly when it is a string not in email format |
| Schemas.MinLengthKeyIssues | frontend/src/schemas/index.ts:9-12 | a key with `min(n)` passes iff it is a string of length at least n, and a short string gives exactly its message |
| Schemas.RegisterIssues | frontend/src/schemas/index.ts:3-18 | no issue iff every key is a string, the email is non-empty and well formed, the name non-empty, the password at least 8 long and equal to its confirmation; a non-object gives one invalid-type issue; each rule's message is reported at its key exactly when that rule fails; the mismatch message at "password_confirmation" appears iff all four keys are strings and the passwords differ |
| Schemas.LoginIssues | frontend/src/schemas/index.ts:20-26 | no issue iff the email is a non-empty well-formed string and the password a non-empty string; a non-object gives one invalid-type issue; each message is reported exactly when its rule fails |
| Schemas.ForgotPasswordIssues | frontend/src/schemas/index.ts:47-52 | no issue iff the email is a non-empty well-formed string; a non-object gives one invalid-type issue; the required message is reported exactly when the email is empty, the format message exactly when it is a string not in email format |
| Schemas.ForgotPasswordIsLoginEmail | frontend/src/schemas/index.ts:47-52 | a forgot-password form passes iff a login form with the same email and a password does |
| Schemas.SuccessIssues | frontend/src/schemas/index.ts:28 | accepts exactly strings |
| Schemas.ErrorResponseIssues | frontend/src/schemas/index.ts:30-32 | accepts exactly objects whose "error" is a string |
| Schemas.TokenIssues | frontend/src/schemas/index.ts:34-37 | no issue iff the value is a string of length 6; every issue says "Token no válido"; a longer string gives two issues, a shorter one or a non-string one |
| Schemas.UserIssues | frontend/src/schemas/index.ts:39-43 | no issue iff the id is a number, the name a string and the email a well-formed string; a non-object gives one invalid-type issue; Zod's default email message is reported exactly when the email is a string not in email format, and the id's invalid-type issue exactly when the id is not a number |
| Schemas.ParseUser | frontend/src/schemas/index.ts:39-45 | parsing succeeds iff there are no issues, and yields the three keys |
| Schemas.UserRoundTrip | frontend/src/schemas/index.ts:39-43 | a user with a well-formed email parses back from its JSON object, and extra keys are stripped |

## Left out

- ExpenseMiddleware.AmountErrors: `value > 0` is modelled on decimal text only (Lexical.GreaterThanZero). `Number` also reads exponent, hexadecimal and `Infinity` forms and ignores surrounding whitespace, so for an amount such as "1e3" the model reports the not-positive message besides the not-numeric one, where the code reports only the latter. Whether errors are reported is unaffected, since `isNumeric` already refuses such text.
- ExpenseMiddleware.IdErrors: the same decimal-only reading of `value > 0`, so an id such as "1e3" or " 5" is also given "ID no válido" besides the `isInt` error. Whether errors are reported is unaffected.
- The field errors keep location, path and message only; express-validator's `type` and `value` fields are not modelled.
- String lengths are counted in Unicode characters, not in JavaScript's UTF-16 code units. The email format check (Zod's regular expression) is a parameter, not modelled.
- Express routing details are not modelled: case-insensitive matching, trailing slashes, URL decoding of parameters, and how the router is mounted. HEAD requests, which Express answers with the GET route, are not modelled: `Verb` has only the four verbs the router registers.
- The router follows Express 4: a stage whose promise rejects sends nothing (`Stalled`). Express 5 would answer such a request with 500. The model captures only the missing reply: on Node 15 or later, without an `unhandledRejection` handler, the rejection also ends the process.
- RouterProperties.RevalidationIsIdempotent, RouterProperties.RevalidateAfterBudgetCallbacks and RouterProperties.BudgetRoutesOwned: a table is a function of the key, so a second `findByPk` in the same request gives the same outcome as the first; a lookup that fails only the second time, or a row changed between the two, is not modelled.
- `authenticate`, `handleInputErrors` and `validateBudgetInput` are parameters. Their code (backend/src/middleware/auth.ts, validation.ts and budget.ts) is not part of this model. `authenticate` either passes the user on or answers; one that throws or rejects is not modelled. `validateBudgetInput` is taken to record its errors and always call next, as validateExpenseInput does.
- BudgetMiddleware.ValidateBudgetId, BudgetMiddleware.ValidateBudgetExists and BudgetMiddleware.HasAccess follow the unit tests and the expense middleware, since backend/src/middleware/budget.ts is not part of this model.
- BudgetMiddleware.HasAccess: when the budget or user is missing, the model throws without answering. The tests do not pin this case down.
- The controllers (BudgetController, ExpensesController) are left out. Routing ends at the handler they name.
- AuthController.NewUserAsWritten: a `token` in the body is not modelled, because it is overwritten before the save. Only a non-negative integer `id` is modelled; other values the database would refuse or convert are not.
- Users.Save: the column widths are enforced by the database, as PostgreSQL does for VARCHAR(n). The dialect is configured outside the code modelled here.
- AuthController.Signup: a save that fails does not consume a sequence value in the model. PostgreSQL consumes it even when the insert fails, which only changes which id the next row gets.
- Two concurrent signups with the same email can both pass the lookup, since the email column is not unique. The model runs one request at a time.
- A missing password makes `hashPassword` reject inside the `try`. The model treats it as a hash failure, which gives 500.
- Mail delivery, password hashing, token generation and the `console.log` of errors are parameters or left out.
- Amounts are reals, and only whether the text denotes a positive number is inspected. JavaScript floating point is not modelled.
- A Zod number (`z.number()`) is a real: NaN and the infinities are not modelled.
- Schemas.TokenIssues: a non-string token reports "Token no válido" because `z.string({message})` is taken to apply the message to type errors, as Zod does from version 3.23. Earlier versions report Zod's invalid-type message instead. The Zod version is not part of this model.

## Findings

| source | as written | input that shows it | evidently intended | confidence | as-written member | corrected member |
|---|---|---|---|---|---|---|
| backend/src/routes/budgetRouter.ts:27-28 | the ":expenseId" callbacks are validateExpenseId and validateExpenseExists only; belogsToBudget is defined but never registered | user 1, owner of budget 1, sends GET /1/expenses/7 where expense 7 belongs to budget 2; the controller receives expense 7 | belogsToBudget runs after validateExpenseExists and the request is refused with 403 "Acción no válida" | high, not executed | RouterProperties.CrossBudgetExpenseServed | RouterProperties.IntendedEnforcesParentage |
| backend/src/controllers/AuthController.ts:24 | `new User(req.body)` assigns every model attribute present in the body, `confirmed` included | a signup body `{"name":"Juan","email":"test@test.com","password":"12345678","confirmed":true}` stores a confirmed user | the account stays unconfirmed until its token is confirmed, since `confirmed` defaults to false | medium, not executed | AuthController.SignupConfirmsItself | AuthController.CreateAccountIntended |
| backend/src/controllers/AuthController.ts:24-28 | `new User(req.body)` also assigns the primary key, and an explicit id does not advance the table's sequence | on an empty table, a signup with `"id":1` is stored under 1; the next signup, without an id, is given 1 by the sequence, collides, and is answered 500 | the table assigns every id | medium, not executed | AuthController.ChosenIdBlocksNextSignup | AuthController.IntendedKeysBelowSequence |

The router theorems take the ":expenseId" callbacks as a parameter.
`RouterProperties.IntendedEnforcesParentage` and
`RouterProperties.IntendedRejectsForeignExpense` are about `Intended()`,
which registers belogsToBudget after the two lookups.
`BudgetRouter.NewBudgetRouter` builds the router as written, `Wired()`.
