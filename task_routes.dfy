/** The task router: which guards each task and comment endpoint runs before its handler. */
module TaskRoutes {
  import opened Base
  import opened Http
  import opened Auth
  import opened WorkspaceModel
  import opened TaskModel
  import opened WorkspaceAccess
  import opened Guards
  import opened Store
  import opened TaskController

  /** The endpoints under `/:workspaceId`, with the path and body values their handlers read. */
  datatype TaskRoute =
    | CreateTaskRoute(boardId: Id, fields: TaskFields)   // POST /boards/:boardId/tasks
    | ListTasksRoute(boardId: Id)                        // GET /boards/:boardId/tasks
    | UpdateTaskRoute(taskId: Id, patch: TaskPatch)      // PATCH /tasks/:taskId
    | ArchiveTaskRoute(taskId: Id)                       // DELETE /tasks/:taskId
    | AssignTaskRoute(taskId: Id, after: DbState)        // POST /tasks/:taskId/assign
    | ListCommentsRoute(taskId: Id)                      // GET /tasks/:taskId/comments
    | CreateCommentRoute(taskId: Id, after: DbState)     // POST /tasks/:taskId/comments

  /** The endpoints that change data. */
  predicate Mutating(r: TaskRoute) {
    !(r.ListTasksRoute? || r.ListCommentsRoute?)
  }

  /** The guard list of each route, as registered. */
  function Chain(r: TaskRoute): (gs: seq<Guard>)
    ensures Mutating(r) ==> gs == EditChain
    ensures !Mutating(r) ==> gs == ReadChain
  {
    match r
    case CreateTaskRoute(_, _) => [Protect, RequireWorkspaceMember, RequireRole([OWNER, MEMBER])]
    case ListTasksRoute(_) => [Protect, RequireWorkspaceMember]
    case UpdateTaskRoute(_, _) => [Protect, RequireWorkspaceMember, RequireRole([OWNER, MEMBER])]
    case ArchiveTaskRoute(_) => [Protect, RequireWorkspaceMember, RequireRole([OWNER, MEMBER])]
    case AssignTaskRoute(_, _) => [Protect, RequireWorkspaceMember, RequireRole([OWNER, MEMBER])]
    case ListCommentsRoute(_) => [Protect, RequireWorkspaceMember]
    case CreateCommentRoute(_, _) => [Protect, RequireWorkspaceMember, RequireRole([OWNER, MEMBER])]
  }

  /** What the client receives: a guard's reply, a handler's answer, or the answer of a
      handler this model does not define (assign and the comment handlers). The mutating
      ones leave the state their route's `after` gives, about which nothing is assumed. */
  datatype Answer = Denied(reply: Reply) | OneTask(response: Response<Task>) | TaskList(tasks: seq<Task>) | Delegated

  datatype Served = Served(state: DbState, answer: Answer)

  /** The guards consult the store's users and workspaces. */
  function EnvOf(verify: Verifier, s: DbState): Env {
    Env(verify, s.users, s.workspaces)
  }

  /** The handler, run on the request the guards let through. */
  function Handle(r: TaskRoute, c: Ctx, s: DbState): Served
    requires c.user.Some?
  {
    match r
    case CreateTaskRoute(boardId, fields) =>
      var o := CreateTaskTx(s, c.workspaceParam, boardId, c.user.value, fields);
      Served(o.state, OneTask(o.response))
    case ListTasksRoute(boardId) => Served(s, TaskList(GetTasks(s.tasks, boardId)))
    case UpdateTaskRoute(taskId, patch) =>
      var o := UpdateTaskTx(s, c.workspaceParam, taskId, c.user.value, patch);
      Served(o.state, OneTask(o.response))
    case ArchiveTaskRoute(taskId) =>
      var o := ArchiveTaskTx(s, c.workspaceParam, taskId, c.user.value);
      Served(o.state, OneTask(o.response))
    case AssignTaskRoute(_, after) => Served(after, Delegated)
    case ListCommentsRoute(_) => Served(s, Delegated)
    case CreateCommentRoute(_, after) => Served(after, Delegated)
  }

  /** The chain's decision for a route, by the caller's classification. */
  lemma ChainDecision(r: TaskRoute, ctx: Ctx, env: Env)
    ensures RunChain(Chain(r), ctx, env) ==
            if Mutating(r) then EditDecision(ctx, Classify(ctx, env)) else ReadDecision(ctx, Classify(ctx, env))
  {
    if Mutating(r) {
      EditChainDecision(ctx, env);
    } else {
      ReadChainDecision(ctx, env);
    }
  }

  /** A request: the guards, then the handler if they all call `next()`. */
  function Serve(r: TaskRoute, ctx: Ctx, verify: Verifier, s: DbState): Served {
    var step := RunChain(Chain(r), ctx, EnvOf(verify, s));
    ChainDecision(r, ctx, EnvOf(verify, s));
    if step.Halt? then Served(s, Denied(step.reply)) else Handle(r, step.ctx, s)
  }

  /** A VIEWER gets 403 "Insufficient permissions" on every mutating route and the store is
      left untouched. */
  lemma ViewerCannotMutate(r: TaskRoute, ctx: Ctx, verify: Verifier, s: DbState)
    requires Mutating(r)
    requires Classify(ctx, EnvOf(verify, s)).Admitted? && Classify(ctx, EnvOf(verify, s)).role == VIEWER
    ensures Serve(r, ctx, verify, s) == Served(s, Denied(Reply(403, InsufficientPermissions)))
  {
    ChainDecision(r, ctx, EnvOf(verify, s));
    assert RunChain(Chain(r), ctx, EnvOf(verify, s)) == Halt(Reply(403, InsufficientPermissions));
  }

  /** Any change to the store comes from an owner or a member of the path's workspace. */
  lemma OnlyEditorsChangeTasks(r: TaskRoute, ctx: Ctx, verify: Verifier, s: DbState)
    requires Serve(r, ctx, verify, s).state != s
    ensures Mutating(r)
    ensures var v := Classify(ctx, EnvOf(verify, s));
            v.Admitted? && v.role in EditorRoles && v.workspace.id == ctx.workspaceParam
  {
    var env := EnvOf(verify, s);
    var v := Classify(ctx, env);
    ChainDecision(r, ctx, env);
    var step := RunChain(Chain(r), ctx, env);
    assert step.Pass?;
    assert v.Admitted?;
  }

  /** An unauthenticated request gets the 401 of `protect` on every route, whatever the
      workspaces hold, and changes nothing. */
  lemma UnauthenticatedRejected(r: TaskRoute, ctx: Ctx, verify: Verifier, s: DbState)
    requires Classify(ctx, EnvOf(verify, s)).Unauthenticated?
    ensures Serve(r, ctx, verify, s) == Served(s, Denied(Classify(ctx, EnvOf(verify, s)).reply))
    ensures Serve(r, ctx, verify, s).answer.reply.status == 401
  {
    ChainDecision(r, ctx, EnvOf(verify, s));
  }

  /** A non-member gets "Access denied", never "Insufficient permissions". */
  lemma NonMemberDenied(r: TaskRoute, ctx: Ctx, verify: Verifier, s: DbState)
    requires Classify(ctx, EnvOf(verify, s)).NotMember?
    ensures Serve(r, ctx, verify, s) == Served(s, Denied(Reply(403, AccessDenied)))
  {
    ChainDecision(r, ctx, EnvOf(verify, s));
  }

  /** Every member, VIEWER included, may list a board's tasks. */
  lemma MembersMayListTasks(boardId: Id, ctx: Ctx, verify: Verifier, s: DbState)
    requires Classify(ctx, EnvOf(verify, s)).Admitted?
    ensures Serve(ListTasksRoute(boardId), ctx, verify, s) == Served(s, TaskList(GetTasks(s.tasks, boardId)))
  {
    ChainDecision(ListTasksRoute(boardId), ctx, EnvOf(verify, s));
  }
}
