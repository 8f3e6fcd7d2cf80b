/** Express runs a route's handler list left to right; each guard either calls `next()`
    or answers, and an answer ends the chain. This module runs such chains and relates
    the standard chains to one reference classification of the caller. */
module Guards {
  import opened Base
  import opened WorkspaceModel
  import opened Http
  import opened Auth
  import opened WorkspaceAccess

  datatype Guard = Protect | RequireWorkspaceMember | RequireRole(allowed: seq<Role>)

  /** What the guards consult: token verification, the user ids that exist, and the
      workspace collection. */
  datatype Env = Env(verify: Verifier, users: set<Id>, workspaces: seq<Workspace>)

  /** One guard. `Protect` runs the corrected `ProtectStep`; the code as written throws
      instead on a "Bearer" header without a space, and agrees everywhere else
      (`Auth.ProtectAsWritten`). */
  function RunGuard(g: Guard, ctx: Ctx, env: Env): Step {
    match g
    case Protect => ProtectStep(ctx, env.verify, env.users)
    case RequireWorkspaceMember => MemberStep(ctx, env.workspaces)
    case RequireRole(allowed) => RoleStep(allowed, ctx)
  }

  /** The chain's result: the request that reaches the handler, or the first reply. */
  function RunChain(gs: seq<Guard>, ctx: Ctx, env: Env): Step
    decreases |gs|
  {
    if gs == [] then Pass(ctx)
    else match RunGuard(gs[0], ctx, env)
      case Halt(reply) => Halt(reply)
      case Pass(next) => RunChain(gs[1..], next, env)
  }

  /** `requireRole(["OWNER", "MEMBER"])`. */
  const EditorRoles: seq<Role> := [OWNER, MEMBER]

  /** protect → requireWorkspaceMember → requireRole(editors): every mutating route. */
  const EditChain: seq<Guard> := [Protect, RequireWorkspaceMember, RequireRole(EditorRoles)]
  /** protect → requireWorkspaceMember: the read routes of a workspace. */
  const ReadChain: seq<Guard> := [Protect, RequireWorkspaceMember]
  /** protect alone: the routes outside any workspace. */
  const AuthChain: seq<Guard> := [Protect]

  /** Reference classification of a caller with respect to the path's workspace. */
  datatype Verdict =
    | Unauthenticated(reply: Reply)
    | UnknownWorkspace
    | NotMember
    | Admitted(user: Id, workspace: Workspace, role: Role)

  function Classify(ctx: Ctx, env: Env): Verdict {
    var auth := Authenticate(ctx.authorization, env.verify, env.users);
    if auth.Rejected? then Unauthenticated(auth.reply)
    else
      var found := FindWorkspace(env.workspaces, ctx.workspaceParam);
      if found.None? then UnknownWorkspace
      else
        var entry := FirstMember(found.value.members, Some(auth.userId));
        if entry.None? then NotMember
        else Admitted(auth.userId, found.value, entry.value.role)
  }

  /** The request a guard chain hands to the handler of an admitted caller. */
  function AdmittedCtx(ctx: Ctx, v: Verdict): Ctx
    requires v.Admitted?
  {
    ctx.(user := Some(v.user), workspace := Some(v.workspace), role := Some(v.role))
  }

  /** What the editor chain should answer, verdict by verdict. */
  function EditDecision(ctx: Ctx, v: Verdict): Step {
    match v
    case Unauthenticated(reply) => Halt(reply)
    case UnknownWorkspace => Halt(Reply(404, WorkspaceNotFound))
    case NotMember => Halt(Reply(403, AccessDenied))
    case Admitted(_, _, role) =>
      if role == VIEWER then Halt(Reply(403, InsufficientPermissions)) else Pass(AdmittedCtx(ctx, v))
  }

  /** What the reader chain should answer, verdict by verdict. */
  function ReadDecision(ctx: Ctx, v: Verdict): Step {
    match v
    case Unauthenticated(reply) => Halt(reply)
    case UnknownWorkspace => Halt(Reply(404, WorkspaceNotFound))
    case NotMember => Halt(Reply(403, AccessDenied))
    case Admitted(_, _, _) => Pass(AdmittedCtx(ctx, v))
  }

  /** The three-guard chain answers 401, 404, 403 "Access denied" or 403 "Insufficient
      permissions", in that order of precedence, and admits exactly owners and members. */
  lemma EditChainDecision(ctx: Ctx, env: Env)
    ensures RunChain(EditChain, ctx, env) == EditDecision(ctx, Classify(ctx, env))
  {
    var s1 := ProtectStep(ctx, env.verify, env.users);
    if s1.Pass? {
      var s2 := MemberStep(s1.ctx, env.workspaces);
      assert RunChain(EditChain, ctx, env) == RunChain(EditChain[1..], s1.ctx, env);
      assert EditChain[1..][0] == RequireWorkspaceMember && EditChain[1..][1..] == [RequireRole(EditorRoles)];
      if s2.Pass? {
        assert RunChain(EditChain[1..], s1.ctx, env) == RunChain([RequireRole(EditorRoles)], s2.ctx, env);
        assert RunChain([RequireRole(EditorRoles)], s2.ctx, env) ==
               (match RoleStep(EditorRoles, s2.ctx) case Halt(r) => Halt(r) case Pass(c) => RunChain([], c, env));
      }
    }
  }

  /** The two-guard chain answers 401, 404 or 403 "Access denied", and admits every
      member whatever the role. */
  lemma ReadChainDecision(ctx: Ctx, env: Env)
    ensures RunChain(ReadChain, ctx, env) == ReadDecision(ctx, Classify(ctx, env))
  {
    var s1 := ProtectStep(ctx, env.verify, env.users);
    if s1.Pass? {
      assert RunChain(ReadChain, ctx, env) == RunChain([RequireWorkspaceMember], s1.ctx, env);
      var s2 := MemberStep(s1.ctx, env.workspaces);
      assert RunChain([RequireWorkspaceMember], s1.ctx, env) ==
             (match s2 case Halt(r) => Halt(r) case Pass(c) => RunChain([], c, env));
    }
  }

  /** `protect` alone admits every authenticated caller and records who it is. */
  lemma AuthChainDecision(ctx: Ctx, env: Env)
    ensures var outcome := Authenticate(ctx.authorization, env.verify, env.users);
            RunChain(AuthChain, ctx, env) ==
              if outcome.Authenticated? then Pass(ctx.(user := Some(outcome.userId))) else Halt(outcome.reply)
  {
    assert RunChain(AuthChain, ctx, env) ==
           (match ProtectStep(ctx, env.verify, env.users) case Halt(r) => Halt(r) case Pass(c) => RunChain([], c, env));
  }

  /** A chain that starts with `protect` answers an unauthenticated request with 401
      before any guard looks at the workspaces: the answer does not depend on them. */
  lemma {:induction false} ProtectFirstIgnoresWorkspaces(gs: seq<Guard>, ctx: Ctx, env: Env, others: seq<Workspace>)
    requires |gs| > 0 && gs[0] == Protect
    requires Classify(ctx, env).Unauthenticated?
    ensures RunChain(gs, ctx, env) == RunChain(gs, ctx, env.(workspaces := others))
    ensures RunChain(gs, ctx, env).Halt? && RunChain(gs, ctx, env).reply.status == 401
  {
    var env' := env.(workspaces := others);
    assert RunGuard(gs[0], ctx, env) == Halt(Classify(ctx, env).reply);
    assert RunGuard(gs[0], ctx, env') == Halt(Classify(ctx, env).reply);
  }
}
