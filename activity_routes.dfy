/** The activity router: one feed endpoint, open to every member. */
module ActivityRoutes {
  import opened Base
  import opened Http
  import opened Auth
  import opened WorkspaceModel
  import opened ActivityModel
  import opened WorkspaceAccess
  import opened Guards
  import opened Store
  import opened ActivityController

  /** GET /:workspaceId/activity; `dbOk` says whether the feed query succeeds. */
  datatype ActivityRoute = FeedRoute(dbOk: bool)

  function Chain(r: ActivityRoute): seq<Guard> {
    [Protect, RequireWorkspaceMember]
  }

  datatype Answer = Denied(reply: Reply) | Feed(response: Response<seq<ActivityEvent>>)

  function Serve(r: ActivityRoute, ctx: Ctx, verify: Verifier, s: DbState): Answer {
    var step := RunChain(Chain(r), ctx, Env(verify, s.users, s.workspaces));
    if step.Halt? then Denied(step.reply)
    else Feed(GetActivityFeed(s.events, step.ctx.workspaceParam, r.dbOk))
  }

  /** `protect` runs first, `requireWorkspaceMember` next, and there is no role guard: every
      member gets exactly `getActivityFeed`'s answer for the path's workspace. */
  lemma FeedDecision(r: ActivityRoute, ctx: Ctx, verify: Verifier, s: DbState)
    ensures var v := Classify(ctx, Env(verify, s.users, s.workspaces));
            && (v.Unauthenticated? ==> Serve(r, ctx, verify, s) == Denied(v.reply) && v.reply.status == 401)
            && (v.UnknownWorkspace? ==> Serve(r, ctx, verify, s) == Denied(Reply(404, WorkspaceNotFound)))
            && (v.NotMember? ==> Serve(r, ctx, verify, s) == Denied(Reply(403, AccessDenied)))
            && (v.Admitted? ==> Serve(r, ctx, verify, s) == Feed(GetActivityFeed(s.events, ctx.workspaceParam, r.dbOk)))
  {
    ReadChainDecision(ctx, Env(verify, s.users, s.workspaces));
  }
}
