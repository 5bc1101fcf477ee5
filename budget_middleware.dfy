/** The stages that backend/src/routes/budgetRouter.ts registers for the
    ":budgetId" parameter. Their source, backend/src/middleware/budget.ts,
    is not part of this model: validateBudgetExists and hasAccess behave as
    backend/src/tests/unit/middlewares/budget.test.ts pins them down, and
    validateBudgetId is modelled on validateExpenseId. */
module BudgetMiddleware {
  import opened Http
  import opened ExpenseMiddleware

  const BudgetNotFound := "Presupuesto no encontrado"
  const NoAccess := "Accion no válida"

  /** validateBudgetId: "budgetId" must be a positive integer. */
  function ValidateBudgetId(c: Ctx): (r: Step)
    ensures r.verdict.Continue? <==> c.errors == [] && PositiveIntParam(c, "budgetId")
    ensures r.verdict.Continue? ==> r.ctx == c
    ensures !r.verdict.Continue? ==> r.ctx.errors != [] && r.verdict == Respond(400, ErrorsBody(r.ctx.errors))
    ensures r.ctx.(errors := c.errors) == c
  {
    ValidateIdParam(c, "budgetId")
  }

  /** validateBudgetExists: attach the budget and call next, 404 when there
      is none, 500 when the lookup rejects. */
  function ValidateBudgetExists(c: Ctx, budgets: Table<Budget>): (r: Step)
    ensures r.verdict.Continue? <==> FindByPk(budgets, Param(c, "budgetId")).Found?
    ensures r.verdict.Continue? ==>
      r.ctx == c.(budget := Some(FindByPk(budgets, Param(c, "budgetId")).row))
    ensures FindByPk(budgets, Param(c, "budgetId")).Missing? ==>
      r.ctx == c && r.verdict == Respond(404, ErrorBody(BudgetNotFound))
    ensures FindByPk(budgets, Param(c, "budgetId")).Failed? ==>
      r.ctx == c && r.verdict == Respond(500, ErrorBody(ServerError))
  {
    match FindByPk(budgets, Param(c, "budgetId"))
    case Found(b) => Step(c.(budget := Some(b)), Continue)
    case Missing => Step(c, Respond(404, ErrorBody(BudgetNotFound)))
    case Failed => Step(c, Respond(500, ErrorBody(ServerError)))
  }

  /** hasAccess: the attached budget must belong to the authenticated user;
      it calls next exactly once when it does and answers 401 otherwise. */
  function HasAccess(c: Ctx): (r: Step)
    ensures r.ctx == c
    ensures r.verdict.Continue? <==>
      c.budget.Some? && c.user.Some? && c.budget.value.userId == c.user.value.id
    ensures c.budget.Some? && c.user.Some? && c.budget.value.userId != c.user.value.id ==>
      r.verdict == Respond(401, ErrorBody(NoAccess))
  {
    if c.budget.None? || c.user.None? then Step(c, Fault)
    else if c.budget.value.userId != c.user.value.id then Step(c, Respond(401, ErrorBody(NoAccess)))
    else Step(c, Continue)
  }
}
