/** The workspace handlers: create with the caller as sole owner, and list by membership. */
module WorkspaceController {
  import opened Base
  import opened Text
  import opened Seqs
  import opened Http
  import opened WorkspaceModel
  import opened Store

  const FetchFailed: string := "Error fetching workspaces"

  /** The `{ "members.userId": userId }` query. */
  function HasMember(userId: Id): Workspace -> bool {
    (w: Workspace) => IsMember(w, userId)
  }

  /** `getUserWorkspaces`: the workspaces listing the caller among their members; a failed
      query answers 500. `dbOk` says whether the query succeeds. */
  function GetUserWorkspaces(workspaces: seq<Workspace>, userId: Id, dbOk: bool): (r: Response<seq<Workspace>>)
    ensures !dbOk <==> r == Fail(Reply(500, FetchFailed))
    ensures dbOk ==> && r.Json? && r.status == 200
                     && (forall i :: 0 <= i < |r.body| ==> r.body[i] in workspaces && IsMember(r.body[i], userId))
                     && (forall i :: 0 <= i < |workspaces| && IsMember(workspaces[i], userId) ==> workspaces[i] in r.body)
  {
    if !dbOk then Fail(Reply(500, FetchFailed))
    else Json(200, Filter(workspaces, HasMember(userId)))
  }

  /** The owners listed in a member list. */
  function Owners(members: seq<Member>): seq<Member> {
    Filter(members, (m: Member) => m.role == OWNER)
  }

  /** `createWorkspace`: the caller owns the new workspace and is its only member. A missing
      or blank name throws out of the handler. */
  function CreateWorkspaceTx(s: DbState, callerId: Id, name: Option<string>): (r: Outcome<Workspace>)
    ensures (name.None? || Trim(name.value) == "") <==> r == Outcome(s, Unhandled)
    ensures r.response.Json? ==>
              && r.response.status == 201
              && r.response.body == Workspace(NextId(s), Trim(name.value), callerId, [Member(callerId, OWNER)], s.clock)
              && r.state == s.(workspaces := s.workspaces + [r.response.body], clock := s.clock + 1)
    ensures r.response.Json? || r.response.Unhandled?
  {
    match MakeWorkspace(NextId(s), WorkspaceFields(name, Some(callerId), Some([Member(callerId, OWNER)])), s.clock)
    case Err(_) => Outcome(s, Unhandled)
    case Ok(w) => Outcome(s.(workspaces := s.workspaces + [w], clock := s.clock + 1), Json(201, w))
  }

  /** Lines 20-32 step by step. */
  method CreateWorkspace(db: Db, callerId: Id, name: Option<string>) returns (response: Response<Workspace>)
    modifies db
    ensures Outcome(db.State(), response) == CreateWorkspaceTx(old(db.State()), callerId, name)
  {
    var created := MakeWorkspace(Digits(db.clock), WorkspaceFields(name, Some(callerId), Some([Member(callerId, OWNER)])), db.clock);
    if created.Err? {
      return Unhandled;
    }
    db.workspaces := db.workspaces + [created.value];
    db.clock := db.clock + 1;
    response := Json(201, created.value);
  }

  /** A new workspace has exactly one owner, and it is the caller. */
  lemma CreatedWorkspaceSoleOwner(s: DbState, callerId: Id, name: Option<string>)
    requires CreateWorkspaceTx(s, callerId, name).response.Json?
    ensures var w := CreateWorkspaceTx(s, callerId, name).response.body;
            Owners(w.members) == [Member(callerId, OWNER)] && w.ownerId == callerId
  {
    var w := CreateWorkspaceTx(s, callerId, name).response.body;
    assert w.members[1..] == [];
  }

  /** A workspace just created is in its creator's list. */
  lemma CreatedWorkspaceListed(s: DbState, callerId: Id, name: Option<string>)
    requires CreateWorkspaceTx(s, callerId, name).response.Json?
    ensures var r := CreateWorkspaceTx(s, callerId, name);
            r.response.body in GetUserWorkspaces(r.state.workspaces, callerId, true).body
  {
    var r := CreateWorkspaceTx(s, callerId, name);
    var w := r.response.body;
    assert w.members[0].userId == callerId;
    assert IsMember(w, callerId);
    assert r.state.workspaces[|s.workspaces|] == w;
  }

  /** Creating a workspace keeps the store consistent. */
  lemma CreateWorkspaceConsistent(s: DbState, callerId: Id, name: Option<string>)
    requires Consistent(s)
    ensures Consistent(CreateWorkspaceTx(s, callerId, name).state)
  {
    var r := CreateWorkspaceTx(s, callerId, name);
    if r.response.Json? {
      StampedAppend(s.workspaces, r.response.body, WorkspaceStamp, WorkspaceKey, s.clock);
      StampedTick(s.boards, BoardStamp, BoardKey, s.clock, r.state.clock);
      StampedTick(s.tasks, TaskStamp, TaskKey, s.clock, r.state.clock);
      StampedTick(s.events, EventStamp, EventKey, s.clock, r.state.clock);
    }
  }
}
