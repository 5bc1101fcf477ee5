/** The values one request of the budgets API carries through its middleware:
    the request context the stages read and extend (`req`), the JSON bodies
    they answer with (`res`), and the abstract ORM tables they consult. */
module Http {

  datatype Option<+T> = None | Some(value: T)

  /** Where express-validator looked for a field. */
  datatype Location = InParams | InBody

  /** One entry of `validationResult(req).array()`. */
  datatype FieldError = FieldError(location: Location, path: string, msg: string)

  /** The JSON bodies that the stages and controllers send. */
  datatype Body =
    | ErrorBody(error: string)              // { error: "..." }
    | ErrorsBody(errors: seq<FieldError>)   // { errors: [ ... ] }
    | TextBody(text: string)                // a bare JSON string

  /** The rows the stages attach to the request. Amounts are kept as reals:
      only their sign is ever inspected. */
  datatype Budget = Budget(id: int, name: string, amount: real, userId: int)
  datatype Expense = Expense(id: int, name: string, amount: real, budgetId: int)

  /** What `authenticate` attaches as `req.user`. */
  datatype Principal = Principal(id: int, name: string, email: string)

  /** The request object as the stages see it: the bearer credential, the
      path parameters, the body fields in their string form, what earlier
      stages attached, and the express-validator errors recorded so far
      (express-validator keeps every error run against `req`, and
      `validationResult(req)` returns all of them). */
  datatype Ctx = Ctx(
    authorization: Option<string>,
    params: map<string, string>,
    body: map<string, string>,
    user: Option<Principal>,
    budget: Option<Budget>,
    expense: Option<Expense>,
    errors: seq<FieldError>)

  /** What a stage does with the response: call `next()` once, send a
      status and a JSON body without calling `next()`, or throw inside an
      async function, which sends nothing and calls nothing. */
  datatype Verdict = Continue | Respond(status: int, body: Body) | Fault

  /** A stage's effect: the request as it leaves the stage, and the verdict. */
  datatype Step = Step(ctx: Ctx, verdict: Verdict)

  /** The outcome of an ORM `findByPk`: a row, `null`, or a rejected promise. */
  datatype Lookup<T> = Found(row: T) | Missing | Failed

  /** An abstract table: what `findByPk` answers for each key. */
  datatype Table<T> = Table(find: string -> Lookup<T>)

  /** `Model.findByPk(key)`; an undefined key yields `null` without a query. */
  function FindByPk<T>(t: Table<T>, key: Option<string>): Lookup<T>
  {
    if key.None? then Missing else t.find(key.value)
  }

  /** `req.params[name]`. */
  function Param(c: Ctx, name: string): Option<string>
  {
    if name in c.params then Some(c.params[name]) else None
  }

  /** The string express-validator validates for a field: a missing value
      becomes the empty string. */
  function ParamText(c: Ctx, name: string): string
  {
    if name in c.params then c.params[name] else ""
  }

  function BodyText(c: Ctx, name: string): string
  {
    if name in c.body then c.body[name] else ""
  }
}
