/** The workspace router: listing and creating need only a signed-in caller; reading one
    workspace needs membership and no role. */
module WorkspaceRoutes {
  import opened Base
  import opened Http
  import opened Auth
  import opened WorkspaceModel
  import opened WorkspaceAccess
  import opened Guards
  import opened Store
  import opened WorkspaceController

  datatype WorkspaceRoute =
    | ListWorkspacesRoute(dbOk: bool)             // GET /
    | CreateWorkspaceRoute(name: Option<string>)  // POST /
    | ReadWorkspaceRoute                          // GET /:workspaceId

  function Chain(r: WorkspaceRoute): seq<Guard> {
    match r
    case ListWorkspacesRoute(_) => [Protect]
    case CreateWorkspaceRoute(_) => [Protect]
    case ReadWorkspaceRoute => [Protect, RequireWorkspaceMember]
  }

  datatype Answer =
    | Denied(reply: Reply)
    | WorkspaceList(listing: Response<seq<Workspace>>)
    | OneWorkspace(response: Response<Workspace>)

  datatype Served = Served(state: DbState, answer: Answer)

  /** The handlers; the inline one of lines 21-23 answers with `req.workspace`. */
  function Handle(r: WorkspaceRoute, c: Ctx, s: DbState): Served
    requires c.user.Some?
  {
    match r
    case ListWorkspacesRoute(dbOk) => Served(s, WorkspaceList(GetUserWorkspaces(s.workspaces, c.user.value, dbOk)))
    case CreateWorkspaceRoute(name) =>
      var o := CreateWorkspaceTx(s, c.user.value, name);
      Served(o.state, OneWorkspace(o.response))
    case ReadWorkspaceRoute =>
      if c.workspace.Some? then Served(s, OneWorkspace(Json(200, c.workspace.value)))
      else Served(s, OneWorkspace(Unhandled))
  }

  function Serve(r: WorkspaceRoute, ctx: Ctx, verify: Verifier, s: DbState): Served {
    var env := Env(verify, s.users, s.workspaces);
    var step := RunChain(Chain(r), ctx, env);
    ReadChainDecision(ctx, env);
    AuthChainDecision(ctx, env);
    if step.Halt? then Served(s, Denied(step.reply)) else Handle(r, step.ctx, s)
  }

  /** Creating a workspace needs authentication only: any signed-in caller, member of
      nothing, reaches `createWorkspace`. */
  lemma AnyCallerMayCreate(name: Option<string>, ctx: Ctx, verify: Verifier, s: DbState)
    requires Authenticate(ctx.authorization, verify, s.users).Authenticated?
    ensures var caller := Authenticate(ctx.authorization, verify, s.users).userId;
            var o := CreateWorkspaceTx(s, caller, name);
            Serve(CreateWorkspaceRoute(name), ctx, verify, s) == Served(o.state, OneWorkspace(o.response))
  {
    AuthChainDecision(ctx, Env(verify, s.users, s.workspaces));
  }

  /** Listing needs authentication only, and lists the caller's workspaces. */
  lemma AnyCallerMayList(dbOk: bool, ctx: Ctx, verify: Verifier, s: DbState)
    requires Authenticate(ctx.authorization, verify, s.users).Authenticated?
    ensures var caller := Authenticate(ctx.authorization, verify, s.users).userId;
            Serve(ListWorkspacesRoute(dbOk), ctx, verify, s) ==
              Served(s, WorkspaceList(GetUserWorkspaces(s.workspaces, caller, dbOk)))
  {
    AuthChainDecision(ctx, Env(verify, s.users, s.workspaces));
  }

  /** Reading a workspace answers with exactly the workspace the membership guard loaded,
      for every member role, VIEWER included; a non-member is turned away. */
  lemma ReadReturnsLoadedWorkspace(ctx: Ctx, verify: Verifier, s: DbState)
    ensures var env := Env(verify, s.users, s.workspaces);
            var v := Classify(ctx, env);
            && (v.Admitted? ==> Serve(ReadWorkspaceRoute, ctx, verify, s) ==
                                  Served(s, OneWorkspace(Json(200, FindWorkspace(s.workspaces, ctx.workspaceParam).value))))
            && (v.NotMember? ==> Serve(ReadWorkspaceRoute, ctx, verify, s) == Served(s, Denied(Reply(403, AccessDenied))))
  {
    ReadChainDecision(ctx, Env(verify, s.users, s.workspaces));
  }
}
