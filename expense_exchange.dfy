/** The stages of backend/src/middleware/expense.ts as they run on Express's
    mutable request and response objects: each method updates `req`,
    writes the response or calls `next()`, and its effect is exactly the
    step the same-named function of ExpenseMiddleware describes. */
module ExpenseExchange {
  import opened Http
  import M = ExpenseMiddleware

  /** One request/response pair while it passes through the middleware. */
  class Exchange {
    var req: Ctx
    var statusCode: int
    var sent: Option<Body>
    var nextCalls: nat

    constructor (request: Ctx)
      ensures req == request && statusCode == 200 && sent == None && nextCalls == 0
    {
      req := request;
      statusCode := 200;
      sent := None;
      nextCalls := 0;
    }

    /** The exchange now shows step `s`, taken when the response had status
        `status0`, body `sent0`, and `next()` had been called `next0` times. */
    ghost predicate Shows(s: Step, status0: int, sent0: Option<Body>, next0: nat)
      reads this
    {
      && req == s.ctx
      && match s.verdict
         case Continue => statusCode == status0 && sent == sent0 && nextCalls == next0 + 1
         case Respond(status, body) => statusCode == status && sent == Some(body) && nextCalls == next0
         case Fault => statusCode == status0 && sent == sent0 && nextCalls == next0
    }

    /** `next()`. */
    method Next()
      modifies this
      ensures req == old(req) && statusCode == old(statusCode) && sent == old(sent)
      ensures nextCalls == old(nextCalls) + 1
    {
      nextCalls := nextCalls + 1;
    }

    /** `res.status(status).json(body)`. */
    method Send(status: int, body: Body)
      modifies this
      ensures req == old(req) && nextCalls == old(nextCalls)
      ensures statusCode == status && sent == Some(body)
    {
      statusCode := status;
      sent := Some(body);
    }

    method ValidateExpenseInput()
      modifies this
      ensures Shows(M.ValidateExpenseInput(old(req)), old(statusCode), old(sent), old(nextCalls))
    {
      ghost var before := req;
      ghost var nameErrors := M.NameErrors(BodyText(before, "name"));
      ghost var amountErrors := M.AmountErrors(BodyText(before, "amount"));
      assert M.ExpenseInputErrors(before) == nameErrors + amountErrors;
      req := req.(errors := req.errors + M.NameErrors(BodyText(req, "name")));
      assert req.errors == before.errors + nameErrors;
      req := req.(errors := req.errors + M.AmountErrors(BodyText(req, "amount")));
      assert req.errors == before.errors + nameErrors + amountErrors;
      Next();
    }

    method ValidateExpenseId()
      modifies this
      ensures Shows(M.ValidateExpenseId(old(req)), old(statusCode), old(sent), old(nextCalls))
    {
      req := req.(errors := req.errors + M.IdErrors(req, "expenseId"));
      if req.errors != [] {
        Send(400, ErrorsBody(req.errors));
        return;
      }
      Next();
    }

    method ValidateExpenseExists(expenses: Table<Expense>)
      modifies this
      ensures Shows(M.ValidateExpenseExists(old(req), expenses), old(statusCode), old(sent), old(nextCalls))
    {
      var found := FindByPk(expenses, Param(req, "expenseId"));
      match found {
        case Failed =>
          Send(500, ErrorBody(M.ServerError));
        case Missing =>
          Send(404, ErrorBody(M.ExpenseNotFound));
        case Found(expense) =>
          req := req.(expense := Some(expense));
          Next();
      }
    }

    method BelongsToBudget()
      modifies this
      ensures Shows(M.BelongsToBudget(old(req)), old(statusCode), old(sent), old(nextCalls))
    {
      if req.budget.None? || req.expense.None? {
        // the field read throws inside the async stage: nothing is sent
        return;
      }
      if req.budget.value.id != req.expense.value.budgetId {
        Send(403, ErrorBody(M.InvalidAction));
        return;
      }
      Next();
    }
  }
}
