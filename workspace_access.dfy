/** `requireWorkspaceMember` and `requireRole`: the workspace gate that follows `protect`. */
module WorkspaceAccess {
  import opened Base
  import opened Seqs
  import opened WorkspaceModel
  import opened Http

  const WorkspaceNotFound: string := "Workspace not found"
  const AccessDenied: string := "Access denied"
  const InsufficientPermissions: string := "Insufficient permissions"

  /** `Workspace.findById`: the stored workspace with that id, if any. */
  function FindWorkspace(workspaces: seq<Workspace>, id: Id): (r: Option<Workspace>)
    ensures r.Some? <==> exists i :: 0 <= i < |workspaces| && workspaces[i].id == id
    ensures r.Some? ==> r.value in workspaces && r.value.id == id
  {
    var i := IndexWhere(workspaces, (w: Workspace) => w.id == id);
    if i == -1 then None else Some(workspaces[i])
  }

  /** `members.find(m => m.userId.equals(userId))`: the first entry of that user. */
  function FirstMember(members: seq<Member>, user: Option<Id>): (r: Option<Member>)
    ensures r.Some? <==> exists i :: 0 <= i < |members| && Some(members[i].userId) == user
    ensures r.Some? ==> exists i :: && 0 <= i < |members| && members[i] == r.value
                                    && Some(members[i].userId) == user
                                    && forall j :: 0 <= j < i ==> Some(members[j].userId) != user
  {
    var i := IndexWhere(members, (m: Member) => Some(m.userId) == user);
    if i == -1 then None else Some(members[i])
  }

  /** Lines 3-30 as a guard: 404 for an unknown workspace, then 403 for a non-member,
      else attach the workspace and the first matching entry's role. */
  function MemberStep(ctx: Ctx, workspaces: seq<Workspace>): (s: Step)
    ensures s == Halt(Reply(404, WorkspaceNotFound)) <==> FindWorkspace(workspaces, ctx.workspaceParam).None?
    ensures s == Halt(Reply(403, AccessDenied)) <==>
              && FindWorkspace(workspaces, ctx.workspaceParam).Some?
              && FirstMember(FindWorkspace(workspaces, ctx.workspaceParam).value.members, ctx.user).None?
    ensures s.Pass? <==> && FindWorkspace(workspaces, ctx.workspaceParam).Some?
                         && FirstMember(FindWorkspace(workspaces, ctx.workspaceParam).value.members, ctx.user).Some?
    ensures s.Pass? ==> && s.ctx.workspace == FindWorkspace(workspaces, ctx.workspaceParam)
                        && s.ctx.role == Some(FirstMember(s.ctx.workspace.value.members, ctx.user).value.role)
                        && s.ctx.authorization == ctx.authorization && s.ctx.user == ctx.user
                        && s.ctx.workspaceParam == ctx.workspaceParam
  {
    var found := FindWorkspace(workspaces, ctx.workspaceParam);
    if found.None? then Halt(Reply(404, WorkspaceNotFound))
    else
      var entry := FirstMember(found.value.members, ctx.user);
      if entry.None? then Halt(Reply(403, AccessDenied))
      else Pass(ctx.(workspace := found, role := Some(entry.value.role)))
  }

  /** Lines 32-38: `next()` exactly when the attached role is in the allow-list. */
  function RoleStep(allowed: seq<Role>, ctx: Ctx): (s: Step)
    ensures s.Pass? <==> ctx.role.Some? && ctx.role.value in allowed
    ensures s.Pass? ==> s.ctx == ctx
    ensures s.Halt? ==> s.reply == Reply(403, InsufficientPermissions)
  {
    if ctx.role.Some? && ctx.role.value in allowed then Pass(ctx) else Halt(Reply(403, InsufficientPermissions))
  }

  /** Lines 3-30 on the request object: attaches `req.workspace` and `req.workspaceRole`
      and calls `next()` (result None), or answers and leaves the request untouched. */
  method RequireWorkspaceMember(req: Request, workspaces: seq<Workspace>) returns (reply: Option<Reply>)
    modifies req
    ensures MemberStep(old(req.Snapshot()), workspaces).Pass? ==>
              reply.None? && req.Snapshot() == MemberStep(old(req.Snapshot()), workspaces).ctx
    ensures MemberStep(old(req.Snapshot()), workspaces).Halt? ==>
              reply == Some(MemberStep(old(req.Snapshot()), workspaces).reply) && req.Snapshot() == old(req.Snapshot())
  {
    var workspace := FindWorkspace(workspaces, req.workspaceParam);
    if workspace.None? {
      return Some(Reply(404, WorkspaceNotFound));
    }
    var member := FirstMember(workspace.value.members, req.user);
    if member.None? {
      return Some(Reply(403, AccessDenied));
    }
    req.workspace := workspace;
    req.workspaceRole := Some(member.value.role);
    return None;
  }

  /** Lines 32-38 on the request object: reads `req.workspaceRole`, changes nothing. */
  method RequireRole(req: Request, allowed: seq<Role>) returns (reply: Option<Reply>)
    ensures reply.None? <==> req.workspaceRole.Some? && req.workspaceRole.value in allowed
    ensures reply.Some? ==> reply.value == Reply(403, InsufficientPermissions)
  {
    if req.workspaceRole.None? || req.workspaceRole.value !in allowed {
      return Some(Reply(403, InsufficientPermissions));
    }
    return None;
  }
}
