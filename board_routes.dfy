/** The board router: create and reorder need an editor, listing needs a member. */
module BoardRoutes {
  import opened Base
  import opened Http
  import opened Auth
  import opened WorkspaceModel
  import opened BoardModel
  import opened WorkspaceAccess
  import opened Guards
  import opened Store
  import opened BoardController

  datatype BoardRoute =
    | CreateBoardRoute(name: Option<string>)      // POST /:workspaceId/boards
    | ListBoardsRoute                             // GET /:workspaceId/boards
    | ReorderBoardsRoute(orderedIds: seq<Id>, after: DbState)  // PATCH /:workspaceId/boards/reorder

  predicate Mutating(r: BoardRoute) {
    !r.ListBoardsRoute?
  }

  /** The guard list of each route, as registered. */
  function Chain(r: BoardRoute): (gs: seq<Guard>)
    ensures Mutating(r) ==> gs == EditChain
    ensures !Mutating(r) ==> gs == ReadChain
  {
    match r
    case CreateBoardRoute(_) => [Protect, RequireWorkspaceMember, RequireRole([OWNER, MEMBER])]
    case ListBoardsRoute => [Protect, RequireWorkspaceMember]
    case ReorderBoardsRoute(_, _) => [Protect, RequireWorkspaceMember, RequireRole([OWNER, MEMBER])]
  }

  /** A guard's reply, a handler's answer, or the answer of the reorder handler, which this
      model does not define; the route's `after` is whatever state that handler leaves. */
  datatype Answer = Denied(reply: Reply) | OneBoard(response: Response<Board>) | BoardList(boards: seq<Board>) | Delegated

  datatype Served = Served(state: DbState, answer: Answer)

  function Handle(r: BoardRoute, c: Ctx, s: DbState): Served {
    match r
    case CreateBoardRoute(name) =>
      var o := CreateBoardTx(s, c.workspaceParam, name);
      Served(o.state, OneBoard(o.response))
    case ListBoardsRoute => Served(s, BoardList(GetBoards(s.boards, c.workspaceParam)))
    case ReorderBoardsRoute(_, after) => Served(after, Delegated)
  }

  lemma ChainDecision(r: BoardRoute, ctx: Ctx, env: Env)
    ensures RunChain(Chain(r), ctx, env) ==
            if Mutating(r) then EditDecision(ctx, Classify(ctx, env)) else ReadDecision(ctx, Classify(ctx, env))
  {
    if Mutating(r) {
      EditChainDecision(ctx, env);
    } else {
      ReadChainDecision(ctx, env);
    }
  }

  function Serve(r: BoardRoute, ctx: Ctx, verify: Verifier, s: DbState): Served {
    var step := RunChain(Chain(r), ctx, Env(verify, s.users, s.workspaces));
    if step.Halt? then Served(s, Denied(step.reply)) else Handle(r, step.ctx, s)
  }

  /** A VIEWER reaches neither `createBoard` nor `reorderBoards`. */
  lemma ViewerCannotMutate(r: BoardRoute, ctx: Ctx, verify: Verifier, s: DbState)
    requires Mutating(r)
    requires Classify(ctx, Env(verify, s.users, s.workspaces)).Admitted?
    requires Classify(ctx, Env(verify, s.users, s.workspaces)).role == VIEWER
    ensures Serve(r, ctx, verify, s) == Served(s, Denied(Reply(403, InsufficientPermissions)))
  {
    var env := Env(verify, s.users, s.workspaces);
    ChainDecision(r, ctx, env);
    assert RunChain(Chain(r), ctx, env) == Halt(Reply(403, InsufficientPermissions));
  }

  /** Only an owner or a member of the path's workspace changes the boards, by creating or
      reordering them. */
  lemma OnlyEditorsChangeBoards(r: BoardRoute, ctx: Ctx, verify: Verifier, s: DbState)
    requires Serve(r, ctx, verify, s).state != s
    ensures Mutating(r)
    ensures var v := Classify(ctx, Env(verify, s.users, s.workspaces));
            v.Admitted? && v.role in EditorRoles && v.workspace.id == ctx.workspaceParam
  {
    var env := Env(verify, s.users, s.workspaces);
    ChainDecision(r, ctx, env);
    assert RunChain(Chain(r), ctx, env).Pass?;
  }

  /** Every member, VIEWER included, may list the workspace's boards. */
  lemma MembersMayListBoards(ctx: Ctx, verify: Verifier, s: DbState)
    requires Classify(ctx, Env(verify, s.users, s.workspaces)).Admitted?
    ensures Serve(ListBoardsRoute, ctx, verify, s) == Served(s, BoardList(GetBoards(s.boards, ctx.workspaceParam)))
  {
    var env := Env(verify, s.users, s.workspaces);
    ChainDecision(ListBoardsRoute, ctx, env);
    var step := RunChain(Chain(ListBoardsRoute), ctx, env);
    assert step.Pass? && step.ctx.workspaceParam == ctx.workspaceParam;
  }

  /** An unauthenticated request gets 401 on every board route and changes nothing. */
  lemma UnauthenticatedRejected(r: BoardRoute, ctx: Ctx, verify: Verifier, s: DbState)
    requires Classify(ctx, Env(verify, s.users, s.workspaces)).Unauthenticated?
    ensures Serve(r, ctx, verify, s).state == s
    ensures Serve(r, ctx, verify, s).answer.Denied? && Serve(r, ctx, verify, s).answer.reply.status == 401
  {
    ChainDecision(r, ctx, Env(verify, s.users, s.workspaces));
  }
}
