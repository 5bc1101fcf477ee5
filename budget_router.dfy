/** backend/src/routes/budgetRouter.ts: the stages registered on the budgets
    router, and how Express runs them for one request. `router.use` stages
    run first, then the matched route's parameter callbacks (in the order
    the parameters appear in its path, each name's callbacks in the order
    they were registered), then the route's own stages; the first stage that
    does not call `next()` ends the request. */
module BudgetRouter {
  import opened Http
  import opened Lexical
  import E = ExpenseMiddleware
  import B = BudgetMiddleware

  datatype Stage =
    | Authenticate
    | ValidateBudgetId | ValidateBudgetExists | HasAccess | ValidateBudgetInput
    | ValidateExpenseId | ValidateExpenseExists | BelongsToBudget | ValidateExpenseInput
    | HandleInputErrors

  /** The controller actions the routes end in. */
  datatype Handler =
    | BudgetsGetAll | BudgetsCreate | BudgetsGetById | BudgetsUpdateById | BudgetsDeleteById
    | ExpensesGetAll | ExpensesCreate | ExpensesGetById | ExpensesUpdateById | ExpensesDeleteById

  datatype Verb = Get | Post | Patch | Delete

  /** A segment of a route path: literal text, or a ":name" parameter. */
  datatype Segment = Lit(text: string) | Var(name: string)

  datatype Route = Route(verb: Verb, pattern: seq<Segment>, stages: seq<Stage>, handler: Handler)

  /** What a router holds: its `use` stages, its parameter callbacks and its
      routes, each in registration order. */
  datatype Config = Config(uses: seq<Stage>, params: map<string, seq<Stage>>, routes: seq<Route>)

  /** What `authenticate` makes of the Authorization header. */
  datatype AuthVerdict = Authenticated(user: Principal) | Refused(status: int, body: Body)

  /** The collaborators whose code is not part of this model: authenticate
      (JWT), the two ORM tables, validateBudgetInput and handleInputErrors. */
  datatype Env = Env(
    authenticate: Option<string> -> AuthVerdict,
    budgets: Table<Budget>,
    expenses: Table<Expense>,
    budgetInputErrors: map<string, string> -> seq<FieldError>,
    handleInputErrors: seq<FieldError> -> Verdict)

  /** One stage on the request; every stage but authenticate keeps `user`,
      and only the two lookups attach rows. */
  function Apply(env: Env, s: Stage, c: Ctx): (r: Step)
    ensures r.ctx.authorization == c.authorization && r.ctx.params == c.params && r.ctx.body == c.body
    ensures s != Authenticate ==> r.ctx.user == c.user
    ensures s != ValidateBudgetExists ==> r.ctx.budget == c.budget
    ensures s != ValidateExpenseExists ==> r.ctx.expense == c.expense
    ensures s !in {ValidateBudgetId, ValidateExpenseId, ValidateBudgetInput, ValidateExpenseInput} ==>
      r.ctx.errors == c.errors
    ensures c.errors <= r.ctx.errors
    ensures (s == ValidateBudgetId || s == ValidateExpenseId) && r.verdict.Continue? ==> r.ctx == c
  {
    match s
    case Authenticate =>
      (match env.authenticate(c.authorization)
       case Authenticated(u) => Step(c.(user := Some(u)), Continue)
       case Refused(status, body) => Step(c, Respond(status, body)))
    case ValidateBudgetId => B.ValidateBudgetId(c)
    case ValidateBudgetExists => B.ValidateBudgetExists(c, env.budgets)
    case HasAccess => B.HasAccess(c)
    case ValidateBudgetInput => Step(c.(errors := c.errors + env.budgetInputErrors(c.body)), Continue)
    case ValidateExpenseId => E.ValidateExpenseId(c)
    case ValidateExpenseExists => E.ValidateExpenseExists(c, env.expenses)
    case BelongsToBudget => E.BelongsToBudget(c)
    case ValidateExpenseInput => E.ValidateExpenseInput(c)
    case HandleInputErrors => Step(c, env.handleInputErrors(c.errors))
  }

  /** A chain of stages, failing fast: the first step that does not continue
      is the chain's step. */
  function Run(env: Env, stages: seq<Stage>, c: Ctx): (r: Step)
    decreases |stages|
    ensures r.ctx.authorization == c.authorization && r.ctx.params == c.params && r.ctx.body == c.body
    ensures c.errors <= r.ctx.errors
    ensures Authenticate !in stages ==> r.ctx.user == c.user
    ensures ValidateBudgetExists !in stages ==> r.ctx.budget == c.budget
    ensures ValidateExpenseExists !in stages ==> r.ctx.expense == c.expense
  {
    if stages == [] then Step(c, Continue)
    else
      var s := Apply(env, stages[0], c);
      if s.verdict.Continue? then Run(env, stages[1..], s.ctx) else s
  }

  function Callbacks(params: map<string, seq<Stage>>, name: string): seq<Stage>
  {
    if name in params then params[name] else []
  }

  /** The parameter callbacks a route runs: for each ":name" of its path, in
      order, the callbacks registered for that name. */
  function ParamStages(params: map<string, seq<Stage>>, pattern: seq<Segment>): seq<Stage>
  {
    if pattern == [] then []
    else (if pattern[0].Var? then Callbacks(params, pattern[0].name) else []) + ParamStages(params, pattern[1..])
  }

  /** Everything a matched route runs after the `use` stages. */
  function RouteChain(cfg: Config, r: Route): seq<Stage>
  {
    ParamStages(cfg.params, r.pattern) + r.stages
  }

  /** One path segment fits one pattern segment: a literal is matched
      exactly, a parameter takes any non-empty segment. */
  predicate Fits(seg: Segment, part: string)
  {
    match seg
    case Lit(t) => part == t
    case Var(_) => part != ""
  }

  /** The path has the pattern's length and fits it segment by segment. */
  predicate Matches(pattern: seq<Segment>, path: seq<string>)
  {
    |pattern| == |path| && forall k :: 0 <= k < |pattern| ==> Fits(pattern[k], path[k])
  }

  /** Matches a path, split into segments, against a route pattern and
      returns the parameters it binds. Express assigns the parameters left
      to right, so of two with the same name the rightmost wins. */
  function Bind(pattern: seq<Segment>, path: seq<string>): Option<map<string, string>>
    decreases |pattern|
  {
    if |pattern| != |path| then None
    else if pattern == [] then Some(map[])
    else
      match Bind(pattern[1..], path[1..])
      case None => None
      case Some(m) =>
        match pattern[0]
        case Lit(t) => if path[0] == t then Some(m) else None
        case Var(n) => if path[0] == "" then None else if n in m then Some(m) else Some(m[n := path[0]])
  }

  /** Bind succeeds exactly on the paths that fit the pattern, and binds
      only the pattern's own parameter names. */
  lemma {:induction false} BindMatches(pattern: seq<Segment>, path: seq<string>)
    ensures Bind(pattern, path).Some? <==> Matches(pattern, path)
    ensures Bind(pattern, path).Some? ==> forall n :: n in Bind(pattern, path).value ==> Var(n) in pattern
    decreases |pattern|
  {
    if |pattern| == |path| && pattern != [] {
      BindMatches(pattern[1..], path[1..]);
      assert forall k :: 1 <= k < |pattern| ==> pattern[k] == pattern[1..][k - 1] && path[k] == path[1..][k - 1];
      assert forall seg :: seg in pattern[1..] ==> seg in pattern;
    }
  }

  /** The first route, at index `from` or later, that answers this verb and path. */
  function FindRoute(routes: seq<Route>, verb: Verb, path: seq<string>, from: nat): (r: Option<nat>)
    decreases |routes| - from
    ensures r.Some? ==>
      from <= r.value < |routes| && routes[r.value].verb == verb && Bind(routes[r.value].pattern, path).Some?
    ensures r.Some? ==> forall k :: from <= k < r.value ==>
      !(routes[k].verb == verb && Bind(routes[k].pattern, path).Some?)
    ensures r.None? ==> forall k :: from <= k < |routes| ==>
      !(routes[k].verb == verb && Bind(routes[k].pattern, path).Some?)
  {
    if from >= |routes| then None
    else if routes[from].verb == verb && Bind(routes[from].pattern, path).Some? then Some(from)
    else FindRoute(routes, verb, path, from + 1)
  }

  datatype Request = Request(verb: Verb, path: seq<string>, authorization: Option<string>, body: map<string, string>)

  /** How a request leaves the router: a controller action reached with the
      request as the stages left it, a response sent by a stage, a stage
      that threw without answering, or no matching route (Express then moves
      on past the router). */
  datatype Result = Handled(handler: Handler, ctx: Ctx) | Responded(status: int, body: Body) | Stalled | Unrouted

  function Initial(req: Request): Ctx
  {
    Ctx(req.authorization, map[], req.body, None, None, None, [])
  }

  /** The request as the matched route's first stage sees it. */
  function RouteStart(cfg: Config, req: Request, i: nat, c: Ctx): Ctx
    requires i < |cfg.routes|
  {
    var m := Bind(cfg.routes[i].pattern, req.path);
    c.(params := if m.Some? then m.value else map[])
  }

  function Dispatch(env: Env, cfg: Config, req: Request): Result
  {
    var pre := Run(env, cfg.uses, Initial(req));
    match pre.verdict
    case Respond(status, body) => Responded(status, body)
    case Fault => Stalled
    case Continue =>
      match FindRoute(cfg.routes, req.verb, req.path, 0)
      case None => Unrouted
      case Some(i) =>
        var r := cfg.routes[i];
        var post := Run(env, RouteChain(cfg, r), RouteStart(cfg, req, i, pre.ctx));
        match post.verdict
        case Continue => Handled(r.handler, post.ctx)
        case Respond(status, body) => Responded(status, body)
        case Fault => Stalled
  }

  // ---------------------------------------------------------------------
  // The router as budgetRouter.ts registers it

  const BudgetPath := [Var("budgetId")]
  const ExpensesPath := [Var("budgetId"), Lit("expenses")]
  const ExpensePath := [Var("budgetId"), Lit("expenses"), Var("expenseId")]

  const BudgetCallbacks := [ValidateBudgetId, ValidateBudgetExists, HasAccess]
  const ExpenseCallbacks := [ValidateExpenseId, ValidateExpenseExists]

  const WiredRoutes := [
    Route(Get, [], [], BudgetsGetAll),
    Route(Post, [], [ValidateBudgetInput, HandleInputErrors], BudgetsCreate),
    Route(Get, BudgetPath, [ValidateBudgetId, ValidateBudgetExists], BudgetsGetById),
    Route(Patch, BudgetPath, [ValidateBudgetId, ValidateBudgetExists, ValidateBudgetInput, HandleInputErrors], BudgetsUpdateById),
    Route(Delete, BudgetPath, [ValidateBudgetId, ValidateBudgetExists], BudgetsDeleteById),
    Route(Get, ExpensesPath, [], ExpensesGetAll),
    Route(Post, ExpensesPath, [ValidateExpenseInput, HandleInputErrors], ExpensesCreate),
    Route(Get, ExpensePath, [], ExpensesGetById),
    Route(Patch, ExpensePath, [ValidateExpenseInput, HandleInputErrors], ExpensesUpdateById),
    Route(Delete, ExpensePath, [], ExpensesDeleteById)]

  /** The registrations of budgetRouter.ts, with `expenseCallbacks` as the
      stages registered for ":expenseId". */
  function Registered(expenseCallbacks: seq<Stage>): Config
  {
    Config([Authenticate], map["budgetId" := BudgetCallbacks, "expenseId" := expenseCallbacks], WiredRoutes)
  }

  /** The router as registered: belogsToBudget is not among the ":expenseId"
      callbacks. */
  function Wired(): Config
  {
    Registered(ExpenseCallbacks)
  }

  /** The router with the parentage check registered after the expense
      lookup, as the middleware was evidently written to be used. */
  function Intended(): Config
  {
    Registered(ExpenseCallbacks + [BelongsToBudget])
  }

  /** A mutable Express router: `use`, `param` and the verb methods append to it. */
  class Router {
    var uses: seq<Stage>
    var params: map<string, seq<Stage>>
    var routes: seq<Route>

    constructor ()
      ensures uses == [] && params == map[] && routes == []
    {
      uses := [];
      params := map[];
      routes := [];
    }

    function Snapshot(): Config
      reads this
    {
      Config(uses, params, routes)
    }

    /** `router.use(stage)`. */
    method Use(s: Stage)
      modifies this
      ensures uses == old(uses) + [s] && params == old(params) && routes == old(routes)
    {
      uses := uses + [s];
    }

    /** `router.param(name, stage)`. */
    method Param(name: string, s: Stage)
      modifies this
      ensures name in old(params) ==> params == old(params)[name := old(params)[name] + [s]]
      ensures name !in old(params) ==> params == old(params)[name := [s]]
      ensures uses == old(uses) && routes == old(routes)
    {
      if name in params {
        params := params[name := params[name] + [s]];
      } else {
        params := params[name := [s]];
      }
    }

    /** `router.get(path, ...stages, handler)` and its siblings for the other verbs. */
    method Handle(verb: Verb, pattern: seq<Segment>, stages: seq<Stage>, handler: Handler)
      modifies this
      ensures routes == old(routes) + [Route(verb, pattern, stages, handler)]
      ensures uses == old(uses) && params == old(params)
    {
      routes := routes + [Route(verb, pattern, stages, handler)];
    }
  }

  const BudgetRoutes := WiredRoutes[..5]
  const ExpenseRoutes := WiredRoutes[5..]

  /** The registrations of budgetRouter.ts, in their order. */
  method NewBudgetRouter() returns (router: Router)
    ensures fresh(router)
    ensures router.Snapshot() == Wired()
  {
    router := new Router();
    router.Use(Authenticate);
    RegisterParams(router);
    RegisterBudgetRoutes(router);
    RegisterExpenseRoutes(router);
    assert BudgetRoutes + ExpenseRoutes == WiredRoutes;
  }

  /** The two `router.param` groups. */
  method RegisterParams(router: Router)
    requires router.params == map[]
    modifies router
    ensures router.params == map["budgetId" := BudgetCallbacks, "expenseId" := ExpenseCallbacks]
    ensures router.uses == old(router.uses) && router.routes == old(router.routes)
  {
    router.Param("budgetId", ValidateBudgetId);
    assert router.params == map["budgetId" := [ValidateBudgetId]];
    assert "budgetId" in router.params && [ValidateBudgetId] + [ValidateBudgetExists] == [ValidateBudgetId, ValidateBudgetExists];
    router.Param("budgetId", ValidateBudgetExists);
    assert router.params == map["budgetId" := [ValidateBudgetId, ValidateBudgetExists]];
    assert "budgetId" in router.params && [ValidateBudgetId, ValidateBudgetExists] + [HasAccess] == BudgetCallbacks;
    router.Param("budgetId", HasAccess);
    assert router.params == map["budgetId" := BudgetCallbacks];
    assert "expenseId" !in router.params;
    router.Param("expenseId", ValidateExpenseId);
    assert router.params == map["budgetId" := BudgetCallbacks, "expenseId" := [ValidateExpenseId]];
    assert "expenseId" in router.params && [ValidateExpenseId] + [ValidateExpenseExists] == ExpenseCallbacks;
    router.Param("expenseId", ValidateExpenseExists);
  }

  /** The routes on "/" and "/:budgetId". */
  method RegisterBudgetRoutes(router: Router)
    requires router.routes == []
    modifies router
    ensures router.routes == BudgetRoutes
    ensures router.uses == old(router.uses) && router.params == old(router.params)
  {
    router.Handle(Get, [], [], BudgetsGetAll);
    router.Handle(Post, [], [ValidateBudgetInput, HandleInputErrors], BudgetsCreate);
    router.Handle(Get, BudgetPath, [ValidateBudgetId, ValidateBudgetExists], BudgetsGetById);
    router.Handle(Patch, BudgetPath, [ValidateBudgetId, ValidateBudgetExists, ValidateBudgetInput, HandleInputErrors], BudgetsUpdateById);
    router.Handle(Delete, BudgetPath, [ValidateBudgetId, ValidateBudgetExists], BudgetsDeleteById);
  }

  /** The routes on "/:budgetId/expenses" and "/:budgetId/expenses/:expenseId". */
  method RegisterExpenseRoutes(router: Router)
    requires router.routes == BudgetRoutes
    modifies router
    ensures router.routes == BudgetRoutes + ExpenseRoutes
    ensures router.uses == old(router.uses) && router.params == old(router.params)
  {
    router.Handle(Get, ExpensesPath, [], ExpensesGetAll);
    router.Handle(Post, ExpensesPath, [ValidateExpenseInput, HandleInputErrors], ExpensesCreate);
    router.Handle(Get, ExpensePath, [], ExpensesGetById);
    router.Handle(Patch, ExpensePath, [ValidateExpenseInput, HandleInputErrors], ExpensesUpdateById);
    router.Handle(Delete, ExpensePath, [], ExpensesDeleteById);
  }
}
