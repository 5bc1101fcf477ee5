/** What the budgets router guarantees the controllers: who runs first, what
    a handler can rely on having been checked, and what is not checked. */
module RouterProperties {
  import opened Http
  import opened Lexical
  import opened BudgetRouter
  import E = ExpenseMiddleware
  import B = BudgetMiddleware

  /** The ":budgetId" parameter names a budget that exists, is the one
      attached, and belongs to the authenticated user. */
  predicate BudgetOwned(env: Env, c: Ctx)
  {
    && E.PositiveIntParam(c, "budgetId")
    && FindByPk(env.budgets, Param(c, "budgetId")).Found?
    && c.budget == Some(FindByPk(env.budgets, Param(c, "budgetId")).row)
    && c.user.Some? && c.budget.value.userId == c.user.value.id
  }

  /** The ":expenseId" parameter names an expense that exists and is the one attached. */
  predicate ExpenseResolved(env: Env, c: Ctx)
  {
    && E.PositiveIntParam(c, "expenseId")
    && FindByPk(env.expenses, Param(c, "expenseId")).Found?
    && c.expense == Some(FindByPk(env.expenses, Param(c, "expenseId")).row)
  }

  /** The attached expense belongs to the attached budget. */
  predicate Parented(c: Ctx)
  {
    c.budget.Some? && c.expense.Some? && c.expense.value.budgetId == c.budget.value.id
  }

  /** The handlers reached through "/:budgetId...", and through
      "/:budgetId/expenses/:expenseId". */
  predicate BudgetScoped(h: Handler)
  {
    !(h == BudgetsGetAll || h == BudgetsCreate)
  }

  predicate ExpenseScoped(h: Handler)
  {
    h == ExpensesGetById || h == ExpensesUpdateById || h == ExpensesDeleteById
  }

  predicate NoInputStage(stages: seq<Stage>)
  {
    ValidateBudgetInput !in stages && ValidateExpenseInput !in stages
  }

  // ---------------------------------------------------------------------
  // Chains

  /** Running two chains one after the other is running their concatenation. */
  lemma {:induction false} RunAppend(env: Env, a: seq<Stage>, b: seq<Stage>, c: Ctx)
    ensures Run(env, a + b, c) ==
      (var s := Run(env, a, c); if s.verdict.Continue? then Run(env, b, s.ctx) else s)
    decreases |a|
  {
    if a == [] {
      assert a + b == b;
    } else {
      assert (a + b)[0] == a[0];
      assert (a + b)[1..] == a[1..] + b;
      var s := Apply(env, a[0], c);
      if s.verdict.Continue? {
        RunAppend(env, a[1..], b, s.ctx);
      }
    }
  }

  /** After authentication no stage changes the user, and every lookup only
      re-attaches the row it already attached. */
  lemma {:induction false} RunKeepsOwned(env: Env, stages: seq<Stage>, c: Ctx)
    requires Authenticate !in stages
    requires BudgetOwned(env, c)
    ensures BudgetOwned(env, Run(env, stages, c).ctx) && Run(env, stages, c).ctx.budget == c.budget
    decreases |stages|
  {
    if stages != [] {
      assert stages[0] in stages;
      var s := Apply(env, stages[0], c);
      assert BudgetOwned(env, s.ctx) && s.ctx.budget == c.budget;
      if s.verdict.Continue? {
        assert forall x :: x in stages[1..] ==> x in stages;
        RunKeepsOwned(env, stages[1..], s.ctx);
      }
    }
  }

  lemma {:induction false} RunKeepsResolved(env: Env, stages: seq<Stage>, c: Ctx)
    requires ExpenseResolved(env, c)
    ensures ExpenseResolved(env, Run(env, stages, c).ctx) && Run(env, stages, c).ctx.expense == c.expense
    decreases |stages|
  {
    if stages != [] {
      var s := Apply(env, stages[0], c);
      assert ExpenseResolved(env, s.ctx) && s.ctx.expense == c.expense;
      if s.verdict.Continue? {
        RunKeepsResolved(env, stages[1..], s.ctx);
      }
    }
  }

  /** Without an input validator, a chain that runs through records no error. */
  lemma {:induction false} RunKeepsClean(env: Env, stages: seq<Stage>, c: Ctx)
    requires c.errors == [] && NoInputStage(stages)
    ensures Run(env, stages, c).verdict.Continue? ==> Run(env, stages, c).ctx.errors == []
    decreases |stages|
  {
    if stages != [] {
      assert stages[0] in stages;
      var s := Apply(env, stages[0], c);
      if s.verdict.Continue? {
        assert s.ctx.errors == [];
        assert forall x :: x in stages[1..] ==> x in stages;
        RunKeepsClean(env, stages[1..], s.ctx);
      }
    }
  }

  /** The ":budgetId" callbacks: validateBudgetId, validateBudgetExists and
      hasAccess, failing fast. */
  lemma BudgetCallbacksOutcome(env: Env, c: Ctx)
    requires c.errors == [] && c.user.Some?
    ensures var r := Run(env, BudgetCallbacks, c);
      var found := FindByPk(env.budgets, Param(c, "budgetId"));
      && (r.verdict.Continue? <==>
            E.PositiveIntParam(c, "budgetId") && found.Found? && found.row.userId == c.user.value.id)
      && (r.verdict.Continue? ==> BudgetOwned(env, r.ctx) && r.ctx == c.(budget := Some(found.row)))
      && (!E.PositiveIntParam(c, "budgetId") ==>
            r.verdict.Respond? && r.verdict.status == 400 && r.verdict.body.ErrorsBody? && r.verdict.body.errors != [])
      && (E.PositiveIntParam(c, "budgetId") && found.Missing? ==> r.verdict == Respond(404, ErrorBody(B.BudgetNotFound)))
      && (E.PositiveIntParam(c, "budgetId") && found.Failed? ==> r.verdict == Respond(500, ErrorBody(E.ServerError)))
      && (E.PositiveIntParam(c, "budgetId") && found.Found? && found.row.userId != c.user.value.id ==>
            r.verdict == Respond(401, ErrorBody(B.NoAccess)))
  {
    assert BudgetCallbacks[1..] == [ValidateBudgetExists, HasAccess];
    assert BudgetCallbacks[1..][1..] == [HasAccess];
    assert BudgetCallbacks[1..][1..][1..] == [];
  }

  /** The ":expenseId" callbacks as registered: validateExpenseId and
      validateExpenseExists, failing fast. */
  lemma ExpenseCallbacksOutcome(env: Env, c: Ctx)
    requires c.errors == []
    ensures var r := Run(env, ExpenseCallbacks, c);
      var found := FindByPk(env.expenses, Param(c, "expenseId"));
      && (r.verdict.Continue? <==> E.PositiveIntParam(c, "expenseId") && found.Found?)
      && (r.verdict.Continue? ==> r.ctx == c.(expense := Some(found.row)))
      && (!E.PositiveIntParam(c, "expenseId") ==>
            r.verdict.Respond? && r.verdict.status == 400 && r.verdict.body.ErrorsBody? && r.verdict.body.errors != [])
      && (E.PositiveIntParam(c, "expenseId") && found.Missing? ==> r.verdict == Respond(404, ErrorBody(E.ExpenseNotFound)))
      && (E.PositiveIntParam(c, "expenseId") && found.Failed? ==> r.verdict == Respond(500, ErrorBody(E.ServerError)))
  {
    assert ExpenseCallbacks[1..] == [ValidateExpenseExists];
    assert ExpenseCallbacks[1..][1..] == [];
  }

  /** The ":expenseId" callbacks with belogsToBudget after them. */
  lemma CheckedExpenseCallbacksOutcome(env: Env, c: Ctx)
    requires c.errors == [] && c.budget.Some?
    ensures var r := Run(env, ExpenseCallbacks + [BelongsToBudget], c);
      var found := FindByPk(env.expenses, Param(c, "expenseId"));
      && (r.verdict.Continue? <==>
            E.PositiveIntParam(c, "expenseId") && found.Found? && found.row.budgetId == c.budget.value.id)
      && (r.verdict.Continue? ==> r.ctx == c.(expense := Some(found.row)))
      && (E.PositiveIntParam(c, "expenseId") && found.Found? && found.row.budgetId != c.budget.value.id ==>
            r.verdict == Respond(403, ErrorBody(E.InvalidAction)))
  {
    ExpenseCallbacksOutcome(env, c);
    RunAppend(env, ExpenseCallbacks, [BelongsToBudget], c);
  }

  /** A chain that starts with the ":budgetId" callbacks and runs through
      ends with the user's own budget attached. */
  lemma OwnedAfterBudgetCallbacks(env: Env, rest: seq<Stage>, c: Ctx)
    requires c.errors == [] && c.user.Some? && Authenticate !in rest
    ensures Run(env, BudgetCallbacks + rest, c).verdict.Continue? ==>
      BudgetOwned(env, Run(env, BudgetCallbacks + rest, c).ctx)
  {
    RunAppend(env, BudgetCallbacks, rest, c);
    BudgetCallbacksOutcome(env, c);
    if Run(env, BudgetCallbacks, c).verdict.Continue? {
      RunKeepsOwned(env, rest, Run(env, BudgetCallbacks, c).ctx);
    }
  }

  /** Then the ":expenseId" callbacks as registered: the expense the
      parameter names is attached as well. */
  lemma ResolvedAfterExpenseCallbacks(env: Env, more: seq<Stage>, rest: seq<Stage>, c: Ctx)
    requires c.errors == [] && c.user.Some? && Authenticate !in more + rest
    ensures var r := Run(env, BudgetCallbacks + ((ExpenseCallbacks + more) + rest), c);
      r.verdict.Continue? ==> BudgetOwned(env, r.ctx) && ExpenseResolved(env, r.ctx)
  {
    assert (ExpenseCallbacks + more) + rest == ExpenseCallbacks + (more + rest);
    OwnedAfterBudgetCallbacks(env, (ExpenseCallbacks + more) + rest, c);
    RunAppend(env, BudgetCallbacks, ExpenseCallbacks + (more + rest), c);
    BudgetCallbacksOutcome(env, c);
    var c1 := Run(env, BudgetCallbacks, c);
    if c1.verdict.Continue? {
      RunAppend(env, ExpenseCallbacks, more + rest, c1.ctx);
      ExpenseCallbacksOutcome(env, c1.ctx);
      var c2 := Run(env, ExpenseCallbacks, c1.ctx);
      if c2.verdict.Continue? {
        RunKeepsResolved(env, more + rest, c2.ctx);
      }
    }
  }

  /** With belogsToBudget after the ":expenseId" callbacks, the attached
      expense also belongs to the attached budget. */
  lemma ParentedAfterCheckedCallbacks(env: Env, rest: seq<Stage>, c: Ctx)
    requires c.errors == [] && c.user.Some? && Authenticate !in rest
    ensures var r := Run(env, BudgetCallbacks + ((ExpenseCallbacks + [BelongsToBudget]) + rest), c);
      r.verdict.Continue? ==> BudgetOwned(env, r.ctx) && ExpenseResolved(env, r.ctx) && Parented(r.ctx)
  {
    var ec := ExpenseCallbacks + [BelongsToBudget];
    ResolvedAfterExpenseCallbacks(env, [BelongsToBudget], rest, c);
    RunAppend(env, BudgetCallbacks, ec + rest, c);
    BudgetCallbacksOutcome(env, c);
    var c1 := Run(env, BudgetCallbacks, c);
    if c1.verdict.Continue? {
      RunAppend(env, ec, rest, c1.ctx);
      CheckedExpenseCallbacksOutcome(env, c1.ctx);
      var c2 := Run(env, ec, c1.ctx);
      if c2.verdict.Continue? {
        RunKeepsOwned(env, rest, c2.ctx);
        RunKeepsResolved(env, rest, c2.ctx);
      }
    }
  }

  /** Budget and expense both resolve and the budget is the user's. */
  predicate BothResolve(env: Env, c: Ctx, b: Budget, x: Expense)
  {
    && c.errors == [] && c.user.Some?
    && E.PositiveIntParam(c, "budgetId") && FindByPk(env.budgets, Param(c, "budgetId")) == Found(b)
    && b.userId == c.user.value.id
    && E.PositiveIntParam(c, "expenseId") && FindByPk(env.expenses, Param(c, "expenseId")) == Found(x)
  }

  /** As registered, such a chain runs on to the route's own stages whatever
      budget the expense belongs to. */
  lemma ForeignExpenseOnChain(env: Env, rest: seq<Stage>, c: Ctx, b: Budget, x: Expense)
    requires BothResolve(env, c, b, x)
    ensures Run(env, BudgetCallbacks + (ExpenseCallbacks + rest), c) ==
      Run(env, rest, c.(budget := Some(b), expense := Some(x)))
  {
    RunAppend(env, BudgetCallbacks, ExpenseCallbacks + rest, c);
    BudgetCallbacksOutcome(env, c);
    var c1 := Run(env, BudgetCallbacks, c).ctx;
    RunAppend(env, ExpenseCallbacks, rest, c1);
    ExpenseCallbacksOutcome(env, c1);
  }

  /** With belogsToBudget it stops with 403 when the expense belongs to
      another budget. */
  lemma ForeignExpenseOnCheckedChain(env: Env, rest: seq<Stage>, c: Ctx, b: Budget, x: Expense)
    requires BothResolve(env, c, b, x) && x.budgetId != b.id
    ensures Run(env, BudgetCallbacks + ((ExpenseCallbacks + [BelongsToBudget]) + rest), c).verdict ==
      Respond(403, ErrorBody(E.InvalidAction))
  {
    var ec := ExpenseCallbacks + [BelongsToBudget];
    RunAppend(env, BudgetCallbacks, ec + rest, c);
    BudgetCallbacksOutcome(env, c);
    var c1 := Run(env, BudgetCallbacks, c).ctx;
    RunAppend(env, ec, rest, c1);
    CheckedExpenseCallbacksOutcome(env, c1);
  }

  /** An input-validated chain: whatever ran before records no error, so the
      controller sees exactly the errors of the body, and handleInputErrors
      let them through. */
  lemma ExpenseGate(env: Env, pre: seq<Stage>, c: Ctx)
    requires c.errors == [] && NoInputStage(pre)
    ensures var r := Run(env, pre + [ValidateExpenseInput, HandleInputErrors], c);
      r.verdict.Continue? ==>
        r.ctx.errors == E.ExpenseInputErrors(r.ctx) && env.handleInputErrors(r.ctx.errors) == Continue
  {
    var gate := [ValidateExpenseInput, HandleInputErrors];
    RunAppend(env, pre, gate, c);
    RunKeepsClean(env, pre, c);
    var s1 := Run(env, pre, c);
    if s1.verdict.Continue? {
      var errors := E.ExpenseInputErrors(s1.ctx);
      var c2 := s1.ctx.(errors := errors);
      assert Apply(env, ValidateExpenseInput, s1.ctx) == Step(c2, Continue);
      assert gate[1..] == [HandleInputErrors];
      assert gate[1..][1..] == [];
      assert Run(env, gate, s1.ctx) == Step(c2, env.handleInputErrors(errors));
      E.ExpenseInputErrorsOfBody(c2, s1.ctx);
    }
  }

  lemma BudgetGate(env: Env, pre: seq<Stage>, c: Ctx)
    requires c.errors == [] && NoInputStage(pre)
    ensures var r := Run(env, pre + [ValidateBudgetInput, HandleInputErrors], c);
      r.verdict.Continue? ==>
        r.ctx.errors == env.budgetInputErrors(c.body) && env.handleInputErrors(r.ctx.errors) == Continue
  {
    var gate := [ValidateBudgetInput, HandleInputErrors];
    RunAppend(env, pre, gate, c);
    RunKeepsClean(env, pre, c);
    assert gate[1..] == [HandleInputErrors];
    assert gate[1..][1..] == [];
  }

  /** Right after the ":budgetId" callbacks, validateBudgetId and
      validateBudgetExists pass again and change nothing. */
  lemma RevalidateAfterBudgetCallbacks(env: Env, rest: seq<Stage>, c: Ctx)
    requires c.errors == [] && c.user.Some?
    ensures Run(env, BudgetCallbacks + ([ValidateBudgetId, ValidateBudgetExists] + rest), c) ==
      Run(env, BudgetCallbacks + rest, c)
  {
    var pair := [ValidateBudgetId, ValidateBudgetExists];
    RunAppend(env, BudgetCallbacks, pair + rest, c);
    RunAppend(env, BudgetCallbacks, rest, c);
    BudgetCallbacksOutcome(env, c);
    var c1 := Run(env, BudgetCallbacks, c);
    if c1.verdict.Continue? {
      RunAppend(env, pair, rest, c1.ctx);
      assert pair[1..] == [ValidateBudgetExists];
      assert pair[1..][1..] == [];
      assert Run(env, pair, c1.ctx) == Step(c1.ctx, Continue);
    }
  }

  // ---------------------------------------------------------------------
  // The registered routes

  /** The parameter callbacks each registered path runs. */
  lemma ParamStagesOf(ec: seq<Stage>)
    ensures ParamStages(Registered(ec).params, []) == []
    ensures ParamStages(Registered(ec).params, BudgetPath) == BudgetCallbacks
    ensures ParamStages(Registered(ec).params, ExpensesPath) == BudgetCallbacks
    ensures ParamStages(Registered(ec).params, ExpensePath) == BudgetCallbacks + ec
  {
    var params := Registered(ec).params;
    assert Callbacks(params, "budgetId") == BudgetCallbacks;
    assert Callbacks(params, "expenseId") == ec;
    assert BudgetPath[1..] == [];
    assert ParamStages(params, BudgetPath) == BudgetCallbacks + [];
    assert ExpensesPath[1..] == [Lit("expenses")] && ExpensesPath[1..][1..] == [];
    assert ParamStages(params, ExpensesPath[1..]) == [] + [];
    assert ParamStages(params, ExpensesPath) == BudgetCallbacks + ([] + []);
    var tail := ExpensePath[1..];
    assert tail == [Lit("expenses"), Var("expenseId")] && tail[1..] == [Var("expenseId")] && tail[1..][1..] == [];
    assert ParamStages(params, tail[1..]) == ec + [];
    assert ParamStages(params, tail) == [] + (ec + []);
    assert ParamStages(params, ExpensePath) == BudgetCallbacks + ([] + (ec + []));
  }

  /** What route `i` runs after authenticate: the ":budgetId" callbacks on
      every path below "/", the ":expenseId" ones on the single-expense
      path, then its own stages. */
  lemma RouteChainShape(i: nat, ec: seq<Stage>)
    requires i < |WiredRoutes|
    ensures i < 2 ==> RouteChain(Registered(ec), WiredRoutes[i]) == WiredRoutes[i].stages
    ensures 2 <= i < 7 ==> RouteChain(Registered(ec), WiredRoutes[i]) == BudgetCallbacks + WiredRoutes[i].stages
    ensures 7 <= i ==> RouteChain(Registered(ec), WiredRoutes[i]) == BudgetCallbacks + (ec + WiredRoutes[i].stages)
  {
    ParamStagesOf(ec);
    var r := WiredRoutes[i];
    if i < 2 {
      assert r.pattern == [];
    } else if i < 5 {
      assert r.pattern == BudgetPath;
    } else if i < 7 {
      assert r.pattern == ExpensesPath;
    } else {
      assert r.pattern == ExpensePath;
    }
  }

  /** Which routes end in which handlers. */
  lemma HandlerOfRoute(i: nat)
    requires i < |WiredRoutes|
    ensures BudgetScoped(WiredRoutes[i].handler) <==> 2 <= i
    ensures ExpenseScoped(WiredRoutes[i].handler) <==> 7 <= i
    ensures WiredRoutes[i].handler in {ExpensesCreate, ExpensesUpdateById} <==> i in {6, 8}
    ensures WiredRoutes[i].handler in {BudgetsCreate, BudgetsUpdateById} <==> i in {1, 3}
  {
  }

  /** What the routes' own stages are. */
  lemma StagesOfRoute(i: nat)
    requires i < |WiredRoutes|
    ensures Authenticate !in WiredRoutes[i].stages && BelongsToBudget !in WiredRoutes[i].stages
    ensures i in {6, 8} ==> WiredRoutes[i].stages == [ValidateExpenseInput, HandleInputErrors]
    ensures i == 1 ==> WiredRoutes[i].stages == [] + [ValidateBudgetInput, HandleInputErrors]
    ensures i == 3 ==>
      WiredRoutes[i].stages == [ValidateBudgetId, ValidateBudgetExists] + [ValidateBudgetInput, HandleInputErrors]
    ensures i in {0, 5, 7, 9} ==> WiredRoutes[i].stages == []
  {
  }

  /** A route pattern binds each parameter to its segment, the rightmost
      occurrence of a name winning. */
  lemma {:induction false} BindVar(pattern: seq<Segment>, path: seq<string>, k: nat, n: string)
    requires Bind(pattern, path).Some?
    requires k < |pattern| && pattern[k] == Var(n)
    requires forall j :: k < j < |pattern| ==> pattern[j] != Var(n)
    ensures k < |path| && path[k] != ""
    ensures n in Bind(pattern, path).value && Bind(pattern, path).value[n] == path[k]
    decreases k
  {
    if k > 0 {
      assert forall j :: k - 1 < j < |pattern[1..]| ==> pattern[1..][j] == pattern[j + 1];
      BindVar(pattern[1..], path[1..], k - 1, n);
    } else {
      BindMatches(pattern[1..], path[1..]);
      assert Var(n) !in pattern[1..] by {
        assert forall j :: 0 <= j < |pattern[1..]| ==> pattern[1..][j] == pattern[j + 1];
      }
    }
  }

  /** The request as route `i`'s chain starts: authenticated, no error
      recorded, and its parameters bound to the path's segments. */
  lemma RouteStartFacts(ec: seq<Stage>, req: Request, i: nat, u: Principal)
    requires i < |WiredRoutes| && Bind(WiredRoutes[i].pattern, req.path).Some?
    ensures var c0 := RouteStart(Registered(ec), req, i, Initial(req).(user := Some(u)));
      && c0.errors == [] && c0.user == Some(u) && c0.body == req.body
      && c0.budget.None? && c0.expense.None?
      && (2 <= i ==> |req.path| >= 1 && Param(c0, "budgetId") == Some(req.path[0]))
      && (7 <= i ==> |req.path| >= 3 && Param(c0, "expenseId") == Some(req.path[2]))
  {
    var p := WiredRoutes[i].pattern;
    if 2 <= i {
      assert p[0] == Var("budgetId");
      BindVar(p, req.path, 0, "budgetId");
    }
    if 7 <= i {
      assert p == ExpensePath;
      BindVar(p, req.path, 2, "expenseId");
    }
  }

  /** authenticate on a fresh request. */
  lemma AuthenticateStep(env: Env, ec: seq<Stage>, req: Request)
    ensures var pre := Run(env, Registered(ec).uses, Initial(req));
      match env.authenticate(req.authorization)
      case Authenticated(u) => pre == Step(Initial(req).(user := Some(u)), Continue)
      case Refused(status, body) => pre == Step(Initial(req), Respond(status, body))
  {
    assert Registered(ec).uses[1..] == [];
  }

  /** How a request that authenticates and matches route `i` leaves the router. */
  lemma DispatchRouted(env: Env, ec: seq<Stage>, req: Request) returns (i: nat, c0: Ctx)
    requires env.authenticate(req.authorization).Authenticated?
    requires FindRoute(WiredRoutes, req.verb, req.path, 0).Some?
    ensures FindRoute(WiredRoutes, req.verb, req.path, 0) == Some(i) && i < |WiredRoutes|
    ensures Bind(WiredRoutes[i].pattern, req.path).Some?
    ensures c0 == RouteStart(Registered(ec), req, i, Initial(req).(user := Some(env.authenticate(req.authorization).user)))
    ensures Dispatch(env, Registered(ec), req) ==
      (var post := Run(env, RouteChain(Registered(ec), WiredRoutes[i]), c0);
       match post.verdict
       case Continue => Handled(WiredRoutes[i].handler, post.ctx)
       case Respond(status, body) => Responded(status, body)
       case Fault => Stalled)
  {
    AuthenticateStep(env, ec, req);
    i := FindRoute(WiredRoutes, req.verb, req.path, 0).value;
    c0 := RouteStart(Registered(ec), req, i, Initial(req).(user := Some(env.authenticate(req.authorization).user)));
  }

  /** A handled request was authenticated and matched a route whose chain ran through. */
  lemma HandledFacts(env: Env, ec: seq<Stage>, req: Request) returns (i: nat, c0: Ctx)
    requires Dispatch(env, Registered(ec), req).Handled?
    ensures env.authenticate(req.authorization).Authenticated?
    ensures FindRoute(WiredRoutes, req.verb, req.path, 0) == Some(i) && i < |WiredRoutes|
    ensures Bind(WiredRoutes[i].pattern, req.path).Some?
    ensures c0 == RouteStart(Registered(ec), req, i, Initial(req).(user := Some(env.authenticate(req.authorization).user)))
    ensures Run(env, RouteChain(Registered(ec), WiredRoutes[i]), c0).verdict.Continue?
    ensures Dispatch(env, Registered(ec), req) ==
      Handled(WiredRoutes[i].handler, Run(env, RouteChain(Registered(ec), WiredRoutes[i]), c0).ctx)
  {
    AuthenticateStep(env, ec, req);
    i, c0 := DispatchRouted(env, ec, req);
  }

  // ---------------------------------------------------------------------
  // What every handler can rely on

  /** authenticate runs before anything else: a refusal is the response for
      every request, and a handler always sees the authenticated user. */
  lemma AuthenticateRunsFirst(env: Env, ec: seq<Stage>, req: Request)
    requires Authenticate !in ec
    ensures env.authenticate(req.authorization).Refused? ==>
      Dispatch(env, Registered(ec), req) ==
        Responded(env.authenticate(req.authorization).status, env.authenticate(req.authorization).body)
    ensures Dispatch(env, Registered(ec), req).Handled? ==>
      env.authenticate(req.authorization).Authenticated? &&
      Dispatch(env, Registered(ec), req).ctx.user == Some(env.authenticate(req.authorization).user)
  {
    AuthenticateStep(env, ec, req);
    if Dispatch(env, Registered(ec), req).Handled? {
      var i, c0 := HandledFacts(env, ec, req);
      RouteChainShape(i, ec);
      StagesOfRoute(i);
      RouteStartFacts(ec, req, i, env.authenticate(req.authorization).user);
    }
  }

  /** Every handler behind "/:budgetId" gets the budget the parameter names,
      and it belongs to the authenticated user. */
  lemma BudgetRoutesOwned(env: Env, ec: seq<Stage>, req: Request)
    requires Authenticate !in ec
    ensures Dispatch(env, Registered(ec), req).Handled? && BudgetScoped(Dispatch(env, Registered(ec), req).handler) ==>
      BudgetOwned(env, Dispatch(env, Registered(ec), req).ctx)
  {
    var res := Dispatch(env, Registered(ec), req);
    if res.Handled? && BudgetScoped(res.handler) {
      var i, c0 := HandledFacts(env, ec, req);
      HandlerOfRoute(i);
      RouteChainShape(i, ec);
      StagesOfRoute(i);
      RouteStartFacts(ec, req, i, env.authenticate(req.authorization).user);
      if i < 7 {
        OwnedAfterBudgetCallbacks(env, WiredRoutes[i].stages, c0);
      } else {
        OwnedAfterBudgetCallbacks(env, ec + WiredRoutes[i].stages, c0);
      }
    }
  }

  /** Every handler behind "/:budgetId/expenses/:expenseId" also gets the
      expense the parameter names, when the ":expenseId" callbacks start
      with the registered two. */
  lemma ExpenseRoutesResolved(env: Env, more: seq<Stage>, req: Request)
    requires Authenticate !in more
    ensures var res := Dispatch(env, Registered(ExpenseCallbacks + more), req);
      res.Handled? && ExpenseScoped(res.handler) ==> BudgetOwned(env, res.ctx) && ExpenseResolved(env, res.ctx)
  {
    var ec := ExpenseCallbacks + more;
    var res := Dispatch(env, Registered(ec), req);
    if res.Handled? && ExpenseScoped(res.handler) {
      var i, c0 := HandledFacts(env, ec, req);
      HandlerOfRoute(i);
      RouteChainShape(i, ec);
      StagesOfRoute(i);
      RouteStartFacts(ec, req, i, env.authenticate(req.authorization).user);
      ResolvedAfterExpenseCallbacks(env, more, WiredRoutes[i].stages, c0);
    }
  }

  /** On "/:budgetId..." the ":budgetId" callbacks decide, in order: a
      malformed id is 400, a missing budget 404, a failed lookup 500,
      someone else's budget 401. */
  lemma BudgetParamOutcomes(env: Env, ec: seq<Stage>, req: Request)
    requires env.authenticate(req.authorization).Authenticated?
    requires FindRoute(WiredRoutes, req.verb, req.path, 0).Some?
    requires 2 <= FindRoute(WiredRoutes, req.verb, req.path, 0).value
    ensures |req.path| >= 1
    ensures var res := Dispatch(env, Registered(ec), req);
      var id := req.path[0];
      var found := FindByPk(env.budgets, Some(id));
      var u := env.authenticate(req.authorization).user;
      && (!(IsIntText(id) && IntValue(id) > 0) ==>
            res.Responded? && res.status == 400 && res.body.ErrorsBody? && res.body.errors != [])
      && (IsIntText(id) && IntValue(id) > 0 && found.Missing? ==> res == Responded(404, ErrorBody(B.BudgetNotFound)))
      && (IsIntText(id) && IntValue(id) > 0 && found.Failed? ==> res == Responded(500, ErrorBody(E.ServerError)))
      && (IsIntText(id) && IntValue(id) > 0 && found.Found? && found.row.userId != u.id ==>
            res == Responded(401, ErrorBody(B.NoAccess)))
  {
    var i, c0 := DispatchRouted(env, ec, req);
    RouteChainShape(i, ec);
    RouteStartFacts(ec, req, i, env.authenticate(req.authorization).user);
    var rest := if i < 7 then WiredRoutes[i].stages else ec + WiredRoutes[i].stages;
    RunAppend(env, BudgetCallbacks, rest, c0);
    BudgetCallbacksOutcome(env, c0);
  }

  /** The ":budgetId" and ":expenseId" segments of a single-expense path
      name the user's budget `b` and an expense `x`. */
  predicate ResolvesTo(env: Env, req: Request, b: Budget, x: Expense)
  {
    && |req.path| >= 3
    && env.authenticate(req.authorization).Authenticated?
    && IsIntText(req.path[0]) && IntValue(req.path[0]) > 0
    && FindByPk(env.budgets, Some(req.path[0])) == Found(b)
    && b.userId == env.authenticate(req.authorization).user.id
    && IsIntText(req.path[2]) && IntValue(req.path[2]) > 0
    && FindByPk(env.expenses, Some(req.path[2])) == Found(x)
  }

  /** As registered, a GET or DELETE of "/:budgetId/expenses/:expenseId"
      reaches the controller with whatever expense the id names: the user's
      own budget id in the path unlocks an expense of any budget. */
  lemma WiredIgnoresParentage(env: Env, req: Request, b: Budget, x: Expense)
    requires FindRoute(WiredRoutes, req.verb, req.path, 0).Some?
    requires FindRoute(WiredRoutes, req.verb, req.path, 0).value in {7, 9}
    requires ResolvesTo(env, req, b, x)
    ensures Dispatch(env, Wired(), req).Handled?
    ensures Dispatch(env, Wired(), req).handler == WiredRoutes[FindRoute(WiredRoutes, req.verb, req.path, 0).value].handler
    ensures Dispatch(env, Wired(), req).ctx.budget == Some(b) && Dispatch(env, Wired(), req).ctx.expense == Some(x)
    ensures x.budgetId != b.id ==> !Parented(Dispatch(env, Wired(), req).ctx)
  {
    var i, c0 := DispatchRouted(env, ExpenseCallbacks, req);
    RouteChainShape(i, ExpenseCallbacks);
    StagesOfRoute(i);
    RouteStartFacts(ExpenseCallbacks, req, i, env.authenticate(req.authorization).user);
    ForeignExpenseOnChain(env, [], c0, b, x);
  }

  /** With belogsToBudget registered, the same request is refused with 403
      on every single-expense route. */
  lemma IntendedRejectsForeignExpense(env: Env, req: Request, b: Budget, x: Expense)
    requires FindRoute(WiredRoutes, req.verb, req.path, 0).Some?
    requires 7 <= FindRoute(WiredRoutes, req.verb, req.path, 0).value
    requires ResolvesTo(env, req, b, x) && x.budgetId != b.id
    ensures Dispatch(env, Intended(), req) == Responded(403, ErrorBody(E.InvalidAction))
  {
    var ec := ExpenseCallbacks + [BelongsToBudget];
    var i, c0 := DispatchRouted(env, ec, req);
    RouteChainShape(i, ec);
    RouteStartFacts(ec, req, i, env.authenticate(req.authorization).user);
    ForeignExpenseOnCheckedChain(env, WiredRoutes[i].stages, c0, b, x);
  }

  /** With belogsToBudget registered, every single-expense handler gets an
      expense of the user's own budget. */
  lemma IntendedEnforcesParentage(env: Env, req: Request)
    ensures var res := Dispatch(env, Intended(), req);
      res.Handled? && ExpenseScoped(res.handler) ==>
        BudgetOwned(env, res.ctx) && ExpenseResolved(env, res.ctx) && Parented(res.ctx)
  {
    var ec := ExpenseCallbacks + [BelongsToBudget];
    var res := Dispatch(env, Intended(), req);
    if res.Handled? && ExpenseScoped(res.handler) {
      var i, c0 := HandledFacts(env, ec, req);
      HandlerOfRoute(i);
      RouteChainShape(i, ec);
      StagesOfRoute(i);
      RouteStartFacts(ec, req, i, env.authenticate(req.authorization).user);
      ParentedAfterCheckedCallbacks(env, WiredRoutes[i].stages, c0);
    }
  }

  /** No chain of the registered router runs belogsToBudget. */
  lemma BelongsToBudgetNotWired(i: nat)
    requires i < |WiredRoutes|
    ensures BelongsToBudget !in Wired().uses
    ensures BelongsToBudget !in RouteChain(Wired(), WiredRoutes[i])
  {
    RouteChainShape(i, ExpenseCallbacks);
    StagesOfRoute(i);
  }

  /** The chains of the two expense-writing routes end in the input gate. */
  lemma ExpenseGatedRoute(env: Env, ec: seq<Stage>, i: nat, c0: Ctx)
    requires i == 6 || i == 8
    requires c0.errors == [] && NoInputStage(ec)
    ensures var r := Run(env, RouteChain(Registered(ec), WiredRoutes[i]), c0);
      r.verdict.Continue? ==>
        r.ctx.errors == E.ExpenseInputErrors(r.ctx) && env.handleInputErrors(r.ctx.errors) == Continue
  {
    RouteChainShape(i, ec);
    StagesOfRoute(i);
    var gate := [ValidateExpenseInput, HandleInputErrors];
    var pre := if i == 6 then BudgetCallbacks else BudgetCallbacks + ec;
    assert RouteChain(Registered(ec), WiredRoutes[i]) == pre + gate;
    assert NoInputStage(pre);
    ExpenseGate(env, pre, c0);
  }

  /** The chains of the two budget-writing routes end in the input gate. */
  lemma BudgetGatedRoute(env: Env, ec: seq<Stage>, i: nat, c0: Ctx)
    requires i == 1 || i == 3
    requires c0.errors == []
    ensures var r := Run(env, RouteChain(Registered(ec), WiredRoutes[i]), c0);
      r.verdict.Continue? ==>
        r.ctx.errors == env.budgetInputErrors(c0.body) && env.handleInputErrors(r.ctx.errors) == Continue
  {
    RouteChainShape(i, ec);
    StagesOfRoute(i);
    var gate := [ValidateBudgetInput, HandleInputErrors];
    var pre := if i == 1 then [] else BudgetCallbacks + [ValidateBudgetId, ValidateBudgetExists];
    assert RouteChain(Registered(ec), WiredRoutes[i]) == pre + gate;
    assert NoInputStage(pre);
    BudgetGate(env, pre, c0);
  }

  /** The expense-creating and -updating handlers run only once
      handleInputErrors has passed the body's errors, and those are all the
      errors recorded. */
  lemma ExpenseInputGated(env: Env, ec: seq<Stage>, req: Request)
    requires NoInputStage(ec)
    ensures var res := Dispatch(env, Registered(ec), req);
      res.Handled? && (res.handler == ExpensesCreate || res.handler == ExpensesUpdateById) ==>
        res.ctx.errors == E.ExpenseInputErrors(res.ctx) && env.handleInputErrors(res.ctx.errors) == Continue
  {
    var res := Dispatch(env, Registered(ec), req);
    if res.Handled? && (res.handler == ExpensesCreate || res.handler == ExpensesUpdateById) {
      var i, c0 := HandledFacts(env, ec, req);
      HandlerOfRoute(i);
      RouteStartFacts(ec, req, i, env.authenticate(req.authorization).user);
      ExpenseGatedRoute(env, ec, i, c0);
    }
  }

  /** Likewise for the budget-creating and -updating handlers. */
  lemma BudgetInputGated(env: Env, ec: seq<Stage>, req: Request)
    ensures var res := Dispatch(env, Registered(ec), req);
      res.Handled? && (res.handler == BudgetsCreate || res.handler == BudgetsUpdateById) ==>
        res.ctx.errors == env.budgetInputErrors(req.body) && env.handleInputErrors(res.ctx.errors) == Continue
  {
    var res := Dispatch(env, Registered(ec), req);
    if res.Handled? && (res.handler == BudgetsCreate || res.handler == BudgetsUpdateById) {
      var i, c0 := HandledFacts(env, ec, req);
      HandlerOfRoute(i);
      RouteStartFacts(ec, req, i, env.authenticate(req.authorization).user);
      BudgetGatedRoute(env, ec, i, c0);
    }
  }

  // ---------------------------------------------------------------------
  // Re-validation on the "/:budgetId" routes

  /** A route without a leading validateBudgetId, validateBudgetExists pair. */
  function Unvalidated(r: Route): (u: Route)
    ensures u.verb == r.verb && u.pattern == r.pattern && u.handler == r.handler
    ensures |r.stages| >= 2 && r.stages[..2] == [ValidateBudgetId, ValidateBudgetExists] ==>
      [ValidateBudgetId, ValidateBudgetExists] + u.stages == r.stages
    ensures !(|r.stages| >= 2 && r.stages[..2] == [ValidateBudgetId, ValidateBudgetExists]) ==> u == r
  {
    if |r.stages| >= 2 && r.stages[..2] == [ValidateBudgetId, ValidateBudgetExists]
    then
      assert r.stages == r.stages[..2] + r.stages[2..];
      r.(stages := r.stages[2..])
    else r
  }

  function UnvalidatedAll(rs: seq<Route>): (us: seq<Route>)
    ensures |us| == |rs| && forall k :: 0 <= k < |rs| ==> us[k] == Unvalidated(rs[k])
  {
    if rs == [] then [] else [Unvalidated(rs[0])] + UnvalidatedAll(rs[1..])
  }

  /** Only the three "/:budgetId" routes re-run the pair. */
  lemma UnvalidatedRoute(i: nat)
    requires i < |WiredRoutes|
    ensures 2 <= i < 5 ==>
      WiredRoutes[i].stages == [ValidateBudgetId, ValidateBudgetExists] + Unvalidated(WiredRoutes[i]).stages
    ensures !(2 <= i < 5) ==> Unvalidated(WiredRoutes[i]) == WiredRoutes[i]
  {
    var st := WiredRoutes[i].stages;
    if i == 1 {
      assert st[..2] == [ValidateBudgetInput, HandleInputErrors];
    } else if i == 6 || i == 8 {
      assert st[..2] == [ValidateExpenseInput, HandleInputErrors];
    } else if 2 <= i < 5 {
      assert st[..2] == [ValidateBudgetId, ValidateBudgetExists];
    }
  }

  /** The registered router with the per-route re-runs dropped. */
  function WithoutRevalidation(): Config
  {
    Wired().(routes := UnvalidatedAll(WiredRoutes))
  }

  /** Route matching depends only on verbs and patterns. */
  lemma {:induction false} FindRouteSameShape(rs: seq<Route>, qs: seq<Route>, verb: Verb, path: seq<string>, from: nat)
    requires |rs| == |qs|
    requires forall k :: 0 <= k < |rs| ==> rs[k].verb == qs[k].verb && rs[k].pattern == qs[k].pattern
    ensures FindRoute(rs, verb, path, from) == FindRoute(qs, verb, path, from)
    decreases |rs| - from
  {
    if from < |rs| {
      assert rs[from].verb == qs[from].verb && rs[from].pattern == qs[from].pattern;
      FindRouteSameShape(rs, qs, verb, path, from + 1);
    }
  }

  /** How any router answers: a `use` stage that answers or throws ends the
      request; past them, the request goes unrouted exactly when no route
      has its verb and fits its path, and a handler is reached only through
      a route that has both, with the credential and body of the request and
      the parameters that route binds. */
  lemma DispatchOutcome(env: Env, cfg: Config, req: Request)
    ensures Run(env, cfg.uses, Initial(req)).verdict.Respond? ==>
      Dispatch(env, cfg, req) ==
        Responded(Run(env, cfg.uses, Initial(req)).verdict.status, Run(env, cfg.uses, Initial(req)).verdict.body)
    ensures Run(env, cfg.uses, Initial(req)).verdict.Fault? ==> Dispatch(env, cfg, req) == Stalled
    ensures Dispatch(env, cfg, req).Unrouted? <==>
      Run(env, cfg.uses, Initial(req)).verdict.Continue? &&
      forall k :: 0 <= k < |cfg.routes| ==> !(cfg.routes[k].verb == req.verb && Matches(cfg.routes[k].pattern, req.path))
    ensures Dispatch(env, cfg, req).Handled? ==>
      Dispatch(env, cfg, req).ctx.authorization == req.authorization &&
      Dispatch(env, cfg, req).ctx.body == req.body &&
      exists k :: 0 <= k < |cfg.routes| && cfg.routes[k].verb == req.verb && Matches(cfg.routes[k].pattern, req.path) &&
        cfg.routes[k].handler == Dispatch(env, cfg, req).handler &&
        Bind(cfg.routes[k].pattern, req.path) == Some(Dispatch(env, cfg, req).ctx.params)
  {
    forall k | 0 <= k < |cfg.routes|
      ensures Bind(cfg.routes[k].pattern, req.path).Some? <==> Matches(cfg.routes[k].pattern, req.path)
    {
      BindMatches(cfg.routes[k].pattern, req.path);
    }
  }

  /** How a router whose only `use` stage is authenticate answers an
      authenticated request that matches route `i`. */
  lemma DispatchOf(env: Env, cfg: Config, req: Request, i: nat)
    requires cfg.uses == [Authenticate]
    requires env.authenticate(req.authorization).Authenticated?
    requires FindRoute(cfg.routes, req.verb, req.path, 0) == Some(i)
    ensures i < |cfg.routes|
    ensures Dispatch(env, cfg, req) ==
      (var post := Run(env, RouteChain(cfg, cfg.routes[i]),
                       RouteStart(cfg, req, i, Initial(req).(user := Some(env.authenticate(req.authorization).user))));
       match post.verdict
       case Continue => Handled(cfg.routes[i].handler, post.ctx)
       case Respond(status, body) => Responded(status, body)
       case Fault => Stalled)
  {
    assert cfg.uses[1..] == [];
    var u := env.authenticate(req.authorization).user;
    assert Run(env, cfg.uses, Initial(req)) == Step(Initial(req).(user := Some(u)), Continue);
  }

  /** Route `i` of both routers runs to the same step. */
  lemma RevalidatedRoute(env: Env, i: nat, c0: Ctx)
    requires i < |WiredRoutes| && c0.errors == [] && c0.user.Some?
    ensures Run(env, RouteChain(Wired(), WiredRoutes[i]), c0) ==
      Run(env, RouteChain(WithoutRevalidation(), WithoutRevalidation().routes[i]), c0)
  {
    var q := WithoutRevalidation().routes[i];
    UnvalidatedRoute(i);
    RouteChainShape(i, ExpenseCallbacks);
    assert RouteChain(WithoutRevalidation(), q) == ParamStages(Wired().params, q.pattern) + q.stages;
    if 2 <= i < 5 {
      ParamStagesOf(ExpenseCallbacks);
      assert q.pattern == BudgetPath;
      RevalidateAfterBudgetCallbacks(env, q.stages, c0);
    }
  }

  /** Running validateBudgetId and validateBudgetExists again inside the
      "/:budgetId" routes changes no outcome. */
  lemma RevalidationIsIdempotent(env: Env, req: Request)
    ensures Dispatch(env, Wired(), req) == Dispatch(env, WithoutRevalidation(), req)
  {
    var cfg := Wired();
    var alt := WithoutRevalidation();
    FindRouteSameShape(cfg.routes, alt.routes, req.verb, req.path, 0);
    AuthenticateStep(env, ExpenseCallbacks, req);
    var found := FindRoute(WiredRoutes, req.verb, req.path, 0);
    if env.authenticate(req.authorization).Authenticated? && found.Some? {
      var i := found.value;
      var u := env.authenticate(req.authorization).user;
      DispatchOf(env, cfg, req, i);
      DispatchOf(env, alt, req, i);
      var c0 := RouteStart(cfg, req, i, Initial(req).(user := Some(u)));
      assert RouteStart(alt, req, i, Initial(req).(user := Some(u))) == c0;
      RevalidatedRoute(env, i, c0);
    }
  }

  // ---------------------------------------------------------------------
  // A concrete cross-budget request

  /** User 1 owns budget 1; expense 7 belongs to budget 2. */
  function CrossBudgetEnv(): Env
  {
    Env(
      _ => Authenticated(Principal(1, "ana", "ana@example.com")),
      Table(k => if k == "1" then Found(Budget(1, "casa", 100.0, 1)) else Missing),
      Table(k => if k == "7" then Found(Expense(7, "renta", 50.0, 2)) else Missing),
      _ => [],
      errors => if errors == [] then Continue else Respond(400, ErrorsBody(errors)))
  }

  /** GET /1/expenses/7. */
  function CrossBudgetRequest(): Request
  {
    Request(Get, ["1", "expenses", "7"], Some("Bearer t"), map[])
  }

  /** The request finds the single-expense GET route. */
  lemma CrossBudgetRoute()
    ensures FindRoute(WiredRoutes, Get, CrossBudgetRequest().path, 0) == Some(7)
  {
    var path := CrossBudgetRequest().path;
    assert path[1..] == ["expenses", "7"] && path[1..][1..] == ["7"] && path[1..][1..][1..] == [];
    assert ExpensePath[1..] == [Lit("expenses"), Var("expenseId")];
    assert Bind(ExpensePath, path).Some?;
    assert FindRoute(WiredRoutes, Get, path, 7) == Some(7);
    assert FindRoute(WiredRoutes, Get, path, 6) == Some(7);
    assert FindRoute(WiredRoutes, Get, path, 5) == Some(7);
    assert FindRoute(WiredRoutes, Get, path, 4) == Some(7);
    assert FindRoute(WiredRoutes, Get, path, 3) == Some(7);
    assert FindRoute(WiredRoutes, Get, path, 2) == Some(7);
    assert FindRoute(WiredRoutes, Get, path, 1) == Some(7);
  }

  /** GET /1/expenses/7 by the owner of budget 1 is answered with expense 7
      as registered, and refused with 403 once belogsToBudget is registered. */
  lemma CrossBudgetExpenseServed()
    ensures Dispatch(CrossBudgetEnv(), Wired(), CrossBudgetRequest()).Handled?
    ensures Dispatch(CrossBudgetEnv(), Wired(), CrossBudgetRequest()).handler == ExpensesGetById
    ensures !Parented(Dispatch(CrossBudgetEnv(), Wired(), CrossBudgetRequest()).ctx)
    ensures Dispatch(CrossBudgetEnv(), Intended(), CrossBudgetRequest()) == Responded(403, ErrorBody(E.InvalidAction))
  {
    var env := CrossBudgetEnv();
    var req := CrossBudgetRequest();
    var b := Budget(1, "casa", 100.0, 1);
    var x := Expense(7, "renta", 50.0, 2);
    CrossBudgetRoute();
    assert IsDigit('1') && IsDigit('7');
    assert Unsigned("1") == "1" && Unsigned("7") == "7";
    assert DigitsValue("1") == 1 && DigitsValue("7") == 7;
    assert ResolvesTo(env, req, b, x);
    WiredIgnoresParentage(env, req, b, x);
    IntendedRejectsForeignExpense(env, req, b, x);
  }
}
