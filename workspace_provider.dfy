/** The client's workspace provider: the fetched list of workspaces, the active workspace
    id, and the rules that keep the two together across refreshes, logout and explicit
    selection. The `activeWorkspaceId` browser-storage entry, which an effect mirrors from
    the active id, is kept as a ghost field. */
module WorkspaceProvider {
  import opened Base
  import opened Seqs
  import opened Http
  import opened WorkspaceModel
  import opened WorkspaceController

  /** What `api.get("/workspaces")` gives back: the response body (`res.data`, None when
      empty), or an error with the response's status when there was a response. */
  datatype FetchResult = Loaded(data: Option<seq<Workspace>>) | Failed(status: Option<nat>)

  /** The client's view of what the server's handler sends. */
  function Received(r: Response<seq<Workspace>>): FetchResult {
    match r
    case Json(_, body) => Loaded(Some(body))
    case Fail(reply) => Failed(Some(reply.status))
    case Unhandled => Failed(None)
  }

  const AccessError: string := "You don't have access to this workspace."
  const LoadError: string := "Failed to load workspaces"

  datatype ProviderState = ProviderState(
    workspaces: seq<Workspace>,
    activeId: Option<Id>,
    loading: bool,
    error: Option<string>)

  /** Some workspace of the list has that id. */
  predicate Listed(list: seq<Workspace>, id: Id) {
    exists k :: 0 <= k < |list| && list[k].id == id
  }

  /** `activeWorkspace` (lines 93-95): the first listed workspace with the active id. */
  function ActiveWorkspace(workspaces: seq<Workspace>, activeId: Option<Id>): (r: Option<Workspace>)
    ensures r.Some? <==> activeId.Some? && Listed(workspaces, activeId.value)
    ensures r.Some? ==> r.value in workspaces && r.value.id == activeId.value
  {
    if activeId.None? then None
    else
      var k := IndexWhere(workspaces, (w: Workspace) => w.id == activeId.value);
      if k == -1 then None else Some(workspaces[k])
  }

  /** `addWorkspace` (lines 17-21). */
  function AddStep(s: ProviderState, w: Workspace): ProviderState {
    s.(workspaces := s.workspaces + [w], activeId := Some(w.id))
  }

  /** The added workspace ends the list and is the one the provider now reports active. */
  lemma AddStepSpec(s: ProviderState, w: Workspace)
    ensures var r := AddStep(s, w);
            && r.workspaces[..|s.workspaces|] == s.workspaces && r.workspaces[|s.workspaces|] == w
            && ActiveWorkspace(r.workspaces, r.activeId).Some?
            && ActiveWorkspace(r.workspaces, r.activeId).value.id == w.id
  {
    var r := AddStep(s, w);
    assert r.workspaces[|s.workspaces|].id == w.id;
  }

  /** `refreshWorkspaces` (lines 24-55), from `setLoading(true)` to `setLoading(false)`. */
  function RefreshStep(s: ProviderState, result: FetchResult): ProviderState {
    match result
    case Loaded(data) =>
      var list := if data.Some? then data.value else [];
      var kept := if Truthy(s.activeId) && !Listed(list, s.activeId.value) then None else s.activeId;
      var active := if |list| == 1 then Some(list[0].id) else kept;
      s.(workspaces := list, activeId := active, loading := false)
    case Failed(status) =>
      if status == Some(403) then s.(error := Some(AccessError), activeId := None, loading := false)
      else s.(error := Some(LoadError), loading := false)
  }

  /** A successful refresh shows the fetched list. A single workspace becomes active
      whatever was active before; otherwise an active id that is no longer listed is
      dropped and any other is kept. Afterwards a non-empty active id is always listed. */
  lemma RefreshLoaded(s: ProviderState, data: Option<seq<Workspace>>)
    ensures var r := RefreshStep(s, Loaded(data));
            var list := if data.Some? then data.value else [];
            && r.workspaces == list && !r.loading && r.error == s.error
            && (|list| == 1 ==> r.activeId == Some(list[0].id))
            && (|list| != 1 && Truthy(s.activeId) && !Listed(list, s.activeId.value) ==> r.activeId.None?)
            && (|list| != 1 && (!Truthy(s.activeId) || Listed(list, s.activeId.value)) ==> r.activeId == s.activeId)
            && (Truthy(r.activeId) ==> ActiveWorkspace(r.workspaces, r.activeId).Some?)
  {
    var list := if data.Some? then data.value else [];
    if |list| == 1 {
      assert list[0].id == list[0].id;
      assert Listed(list, list[0].id);
    }
  }

  /** A refused refresh (403) reports the access error and clears the active id; any other
      failure reports the generic error and keeps it. The list is kept in both cases. */
  lemma RefreshFailed(s: ProviderState, status: Option<nat>)
    ensures var r := RefreshStep(s, Failed(status));
            && r.workspaces == s.workspaces && !r.loading
            && (status == Some(403) ==> r.error == Some(AccessError) && r.activeId.None?)
            && (status != Some(403) ==> r.error == Some(LoadError) && r.activeId == s.activeId)
  {
  }

  /** Refreshing from the server's listing for the signed-in user leaves active, if
      anything, a workspace that user is a member of. */
  lemma RefreshActiveIsUsers(s: ProviderState, stored: seq<Workspace>, userId: Id, dbOk: bool)
    ensures var r := RefreshStep(s, Received(GetUserWorkspaces(stored, userId, dbOk)));
            dbOk && Truthy(r.activeId) ==>
              && ActiveWorkspace(r.workspaces, r.activeId).Some?
              && IsMember(ActiveWorkspace(r.workspaces, r.activeId).value, userId)
  {
    if dbOk {
      var body := GetUserWorkspaces(stored, userId, dbOk).body;
      RefreshLoaded(s, Some(body));
      var r := RefreshStep(s, Loaded(Some(body)));
      if Truthy(r.activeId) {
        var w := ActiveWorkspace(r.workspaces, r.activeId).value;
        var k :| 0 <= k < |body| && body[k] == w;
      }
    }
  }

  /** The effect of lines 57-66 when there is no token or no user: nothing is listed or
      active any more. */
  function SignedOutStep(s: ProviderState): (r: ProviderState)
    ensures r.workspaces == [] && r.activeId.None? && !r.loading && r.error == s.error
  {
    s.(workspaces := [], activeId := None, loading := false)
  }

  /** The storage entry as the effect of lines 85-91 leaves it. */
  function Mirrored(activeId: Option<Id>): Option<Id> {
    if Truthy(activeId) then activeId else None
  }

  /** The provider's state hooks and the storage entry. */
  class Provider {
    var workspaces: seq<Workspace>
    var activeId: Option<Id>
    var loading: bool
    var error: Option<string>
    ghost var stored: Option<Id>

    /** The storage entry is present exactly when the active id is non-empty, and then
        holds it. */
    ghost predicate Valid()
      reads this
    {
      stored == Mirrored(activeId)
    }

    /** The initial state: the id found in storage, if it is not empty. */
    constructor (storedId: Option<Id>)
      ensures State() == ProviderState([], Mirrored(storedId), true, None) && Valid()
    {
      workspaces := [];
      activeId := Mirrored(storedId);
      loading, error := true, None;
      stored := Mirrored(storedId);
    }

    function State(): ProviderState
      reads this
    {
      ProviderState(workspaces, activeId, loading, error)
    }

    method AddWorkspace(w: Workspace)
      modifies this
      ensures State() == AddStep(old(State()), w) && Valid()
    {
      workspaces := workspaces + [w];
      activeId := Some(w.id);
      stored := Mirrored(activeId);
    }

    method RefreshWorkspaces(result: FetchResult)
      modifies this
      ensures State() == RefreshStep(old(State()), result) && Valid()
    {
      loading := true;
      match result {
        case Loaded(data) =>
          var list := if data.Some? then data.value else [];
          workspaces := list;
          if Truthy(activeId) {
            var listed := Listed(list, activeId.value);
            if !listed {
              activeId := None;
            }
          }
          if |list| == 1 {
            activeId := Some(list[0].id);
          }
        case Failed(status) =>
          if status == Some(403) {
            error := Some(AccessError);
            activeId := None;
          } else {
            error := Some(LoadError);
          }
      }
      loading := false;
      stored := Mirrored(activeId);
    }

    /** The effect of lines 57-66: sign-out clears; otherwise the list is refreshed. */
    method OnSession(token: Option<string>, user: Option<Id>, result: FetchResult)
      modifies this
      ensures !Truthy(token) || !Truthy(user) ==> State() == SignedOutStep(old(State()))
      ensures Truthy(token) && Truthy(user) ==> State() == RefreshStep(old(State()), result)
      ensures Valid()
    {
      if !Truthy(token) || !Truthy(user) {
        workspaces := [];
        activeId := None;
        loading := false;
        stored := Mirrored(activeId);
        return;
      }
      RefreshWorkspaces(result);
    }

    /** `selectWorkspace` (lines 97-99). */
    method SelectWorkspace(id: Option<Id>)
      modifies this
      ensures State() == old(State()).(activeId := id) && Valid()
    {
      activeId := id;
      stored := Mirrored(activeId);
    }

    /** `clearWorkspace` (line 111). */
    method ClearWorkspace()
      modifies this
      ensures State() == old(State()).(activeId := None) && Valid()
    {
      activeId := None;
      stored := Mirrored(activeId);
    }
  }
}
