/** The four stages of backend/src/middleware/expense.ts, each a function
    from the request as it enters the stage to the request as it leaves it
    and what the stage does with the response. */
module ExpenseMiddleware {
  import opened Http
  import opened Lexical

  const ExpenseNameEmpty := "El nombre gasto no puede ir vacio"
  const AmountEmpty := "La cantidad del presupuesto no puede ir vacia"
  const AmountNotNumeric := "La cantidad no válida"
  const AmountNotPositive := "El gasto debe ser mayor a 0"
  /** express-validator's message for a validator without `withMessage`. */
  const InvalidValue := "Invalid value"
  const InvalidId := "ID no válido"
  const ExpenseNotFound := "Gasto no encontrado"
  const ServerError := "Hubo un error"
  const InvalidAction := "Acción no válida"

  /** One validator of a chain: no error when it passes, its message when not. */
  function Check(ok: bool, location: Location, path: string, msg: string): seq<FieldError>
  {
    if ok then [] else [FieldError(location, path, msg)]
  }

  /** The chain on body field "name": `notEmpty()`. */
  function NameErrors(name: string): (r: seq<FieldError>)
    ensures r == [] <==> name != ""
    ensures name == "" ==> r == [FieldError(InBody, "name", ExpenseNameEmpty)]
  {
    Check(name != "", InBody, "name", ExpenseNameEmpty)
  }

  /** The chain on body field "amount": `notEmpty()`, `isNumeric()` and
      `custom(value => value > 0)`. Every validator runs (none bails), so an
      empty amount collects all three messages. */
  function AmountErrors(amount: string): (r: seq<FieldError>)
    ensures r == [] <==> IsNumericText(amount) && GreaterThanZero(amount)
    ensures amount == "" ==>
      r == [FieldError(InBody, "amount", AmountEmpty),
            FieldError(InBody, "amount", AmountNotNumeric),
            FieldError(InBody, "amount", AmountNotPositive)]
    ensures FieldError(InBody, "amount", AmountEmpty) in r <==> amount == ""
    ensures FieldError(InBody, "amount", AmountNotNumeric) in r <==> !IsNumericText(amount)
    ensures FieldError(InBody, "amount", AmountNotPositive) in r <==> !GreaterThanZero(amount)
    ensures forall e :: e in r ==> e.location == InBody && e.path == "amount"
  {
    Check(amount != "", InBody, "amount", AmountEmpty)
    + Check(IsNumericText(amount), InBody, "amount", AmountNotNumeric)
    + Check(GreaterThanZero(amount), InBody, "amount", AmountNotPositive)
  }

  /** The errors that validateExpenseInput records: the name chain's, then
      the amount chain's. */
  function ExpenseInputErrors(c: Ctx): (r: seq<FieldError>)
    ensures r == [] <==>
      BodyText(c, "name") != "" && IsNumericText(BodyText(c, "amount")) && GreaterThanZero(BodyText(c, "amount"))
    ensures forall e :: e in r ==> e.location == InBody && (e.path == "name" || e.path == "amount")
  {
    NameErrors(BodyText(c, "name")) + AmountErrors(BodyText(c, "amount"))
  }

  /** The body errors depend on the body alone. */
  lemma ExpenseInputErrorsOfBody(c1: Ctx, c2: Ctx)
    requires c1.body == c2.body
    ensures ExpenseInputErrors(c1) == ExpenseInputErrors(c2)
  {
    assert BodyText(c1, "name") == BodyText(c2, "name") && BodyText(c1, "amount") == BodyText(c2, "amount");
  }

  /** validateExpenseInput: records the body errors and always calls next. */
  function ValidateExpenseInput(c: Ctx): (r: Step)
    ensures r.verdict == Continue
    ensures r.ctx == c.(errors := c.errors + ExpenseInputErrors(c))
  {
    Step(c.(errors := c.errors + ExpenseInputErrors(c)), Continue)
  }

  /** The path parameter holds a positive integer. */
  predicate PositiveIntParam(c: Ctx, name: string)
  {
    name in c.params && IsIntText(c.params[name]) && IntValue(c.params[name]) > 0
  }

  /** The chain `param(name).isInt().custom(value => value > 0)
      .withMessage("ID no válido")`: `withMessage` names only the custom
      validator, so a failed `isInt()` reports express-validator's default. */
  function IdErrors(c: Ctx, name: string): (r: seq<FieldError>)
    ensures r == [] <==> PositiveIntParam(c, name)
    ensures FieldError(InParams, name, InvalidValue) in r <==> !IsIntText(ParamText(c, name))
    ensures FieldError(InParams, name, InvalidId) in r <==> !GreaterThanZero(ParamText(c, name))
    ensures IsIntText(ParamText(c, name)) && IntValue(ParamText(c, name)) <= 0 ==>
      r == [FieldError(InParams, name, InvalidId)]
    ensures forall e :: e in r ==> e.location == InParams && e.path == name
  {
    var text := ParamText(c, name);
    var errors := Check(IsIntText(text), InParams, name, InvalidValue)
      + Check(GreaterThanZero(text), InParams, name, InvalidId);
    if IsIntText(text) then IntTextComparison(text); errors else errors
  }

  /** Runs the id chain on `name`, then answers 400 with every error recorded
      on the request so far, or calls next. */
  function ValidateIdParam(c: Ctx, name: string): (r: Step)
    ensures r.verdict.Continue? <==> c.errors == [] && PositiveIntParam(c, name)
    ensures r.verdict.Continue? ==> r.ctx == c
    ensures !r.verdict.Continue? ==> r.ctx.errors != [] && r.verdict == Respond(400, ErrorsBody(r.ctx.errors))
    ensures !PositiveIntParam(c, name) ==> r.verdict.Respond? && r.verdict.status == 400
    ensures r.ctx.(errors := c.errors) == c
    ensures c.errors <= r.ctx.errors
  {
    var after := c.(errors := c.errors + IdErrors(c, name));
    if after.errors != [] then Step(after, Respond(400, ErrorsBody(after.errors)))
    else Step(after, Continue)
  }

  /** validateExpenseId. */
  function ValidateExpenseId(c: Ctx): (r: Step)
    ensures r.verdict.Continue? <==> c.errors == [] && PositiveIntParam(c, "expenseId")
    ensures r.verdict.Continue? ==> r.ctx == c
    ensures !r.verdict.Continue? ==> r.ctx.errors != [] && r.verdict == Respond(400, ErrorsBody(r.ctx.errors))
    ensures r.ctx.(errors := c.errors) == c
  {
    ValidateIdParam(c, "expenseId")
  }

  /** validateExpenseExists: attach the row and call next, 404 when there is
      no such row, 500 when the lookup rejects. */
  function ValidateExpenseExists(c: Ctx, expenses: Table<Expense>): (r: Step)
    ensures r.verdict.Continue? <==> FindByPk(expenses, Param(c, "expenseId")).Found?
    ensures r.verdict.Continue? ==>
      r.ctx == c.(expense := Some(FindByPk(expenses, Param(c, "expenseId")).row))
    ensures FindByPk(expenses, Param(c, "expenseId")).Missing? ==>
      r.ctx == c && r.verdict == Respond(404, ErrorBody(ExpenseNotFound))
    ensures FindByPk(expenses, Param(c, "expenseId")).Failed? ==>
      r.ctx == c && r.verdict == Respond(500, ErrorBody(ServerError))
  {
    match FindByPk(expenses, Param(c, "expenseId"))
    case Found(e) => Step(c.(expense := Some(e)), Continue)
    case Missing => Step(c, Respond(404, ErrorBody(ExpenseNotFound)))
    case Failed => Step(c, Respond(500, ErrorBody(ServerError)))
  }

  /** belogsToBudget: the attached expense must belong to the attached
      budget. Reading a field of a missing attachment throws inside the
      async stage, so nothing is sent. */
  function BelongsToBudget(c: Ctx): (r: Step)
    ensures r.ctx == c
    ensures r.verdict.Continue? <==>
      c.budget.Some? && c.expense.Some? && c.budget.value.id == c.expense.value.budgetId
    ensures c.budget.Some? && c.expense.Some? && c.budget.value.id != c.expense.value.budgetId ==>
      r.verdict == Respond(403, ErrorBody(InvalidAction))
    ensures r.verdict.Fault? <==> c.budget.None? || c.expense.None?
  {
    if c.budget.None? || c.expense.None? then Step(c, Fault)
    else if c.budget.value.id != c.expense.value.budgetId then Step(c, Respond(403, ErrorBody(InvalidAction)))
    else Step(c, Continue)
  }
}
