/** The Workspace schema: members with roles, and the validation an insert performs. */
module WorkspaceModel {
  import opened Base
  import opened Text

  datatype Role = OWNER | MEMBER | VIEWER

  function RoleName(r: Role): string {
    match r
    case OWNER => "OWNER"
    case MEMBER => "MEMBER"
    case VIEWER => "VIEWER"
  }

  /** The enum check on a member's `role`. */
  function ParseRole(s: string): (r: Option<Role>)
    ensures r.Some? <==> s == "OWNER" || s == "MEMBER" || s == "VIEWER"
    ensures r.Some? ==> RoleName(r.value) == s
  {
    if s == "OWNER" then Some(OWNER)
    else if s == "MEMBER" then Some(MEMBER)
    else if s == "VIEWER" then Some(VIEWER)
    else None
  }

  /** One entry of `members`; both fields are required, so the type carries both. The
      index on `members.userId` is not unique: a list may hold two entries for one user. */
  datatype Member = Member(userId: Id, role: Role)

  datatype Workspace = Workspace(id: Id, name: string, ownerId: Id, members: seq<Member>, createdAt: nat)

  /** The fields an insert names. */
  datatype WorkspaceFields = WorkspaceFields(name: Option<string>, ownerId: Option<Id>, members: Option<seq<Member>>)

  /** u has at least one entry in w's member list (the `members.userId` query). */
  predicate IsMember(w: Workspace, u: Id) {
    exists i :: 0 <= i < |w.members| && w.members[i].userId == u
  }

  /** `Workspace.create`: name trimmed and required, owner required, members default to []. */
  function MakeWorkspace(id: Id, fields: WorkspaceFields, createdAt: nat): (r: Result<Workspace, ValidationError>)
    ensures r.Ok? <==> fields.name.Some? && Trim(fields.name.value) != "" && fields.ownerId.Some?
    ensures r.Ok? ==> && r.value.id == id && r.value.name == Trim(fields.name.value)
                      && r.value.ownerId == fields.ownerId.value
                      && r.value.members == (if fields.members.None? then [] else fields.members.value)
                      && r.value.createdAt == createdAt
  {
    if fields.name.None? || Trim(fields.name.value) == "" then Err(Missing("name"))
    else if fields.ownerId.None? then Err(Missing("ownerId"))
    else Ok(Workspace(id, Trim(fields.name.value), fields.ownerId.value,
                      if fields.members.None? then [] else fields.members.value, createdAt))
  }
}
