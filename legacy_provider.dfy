/** The older workspace provider: one fetch when it mounts, a flag that stops the fetch's
    continuation from touching state after unmounting, and the `activeWorkspaceId`
    storage entry mirrored from the active id (a ghost field). */
module LegacyProvider {
  import opened Base
  import opened WorkspaceModel
  import opened WorkspaceProvider

  datatype LegacyState = LegacyState(
    workspaces: seq<Workspace>,
    activeId: Option<Id>,
    loading: bool,
    error: Option<string>,
    mounted: bool)

  /** What `fetchWorkspaces` does after its `await` (lines 22-36). */
  function FinishStep(s: LegacyState, result: FetchResult): LegacyState {
    if !s.mounted then s
    else match result
      case Loaded(data) =>
        var list := if data.Some? then data.value else [];
        var active := if data.Some? && |data.value| == 1 then Some(data.value[0].id) else s.activeId;
        s.(workspaces := list, activeId := active, loading := false)
      case Failed(_) =>
        s.(error := Some(LoadError), loading := false)
  }

  /** Once unmounted, the continuation changes nothing. Mounted, a list of exactly one
      workspace makes it active, and any other list leaves the active id as it was, even
      when that id is not listed; a failure only records the error. */
  lemma FinishStepSpec(s: LegacyState, result: FetchResult)
    ensures !s.mounted ==> FinishStep(s, result) == s
    ensures var r := FinishStep(s, result);
            s.mounted && result.Loaded? ==>
              var list := if result.data.Some? then result.data.value else [];
              && r.workspaces == list && !r.loading && r.error == s.error
              && (|list| == 1 ==> r.activeId == Some(list[0].id))
              && (|list| != 1 ==> r.activeId == s.activeId)
    ensures var r := FinishStep(s, result);
            s.mounted && result.Failed? ==>
              r == s.(error := Some(LoadError), loading := false)
  {
  }

  /** Unlike the newer provider, a stale active id survives a fetch: with two listed
      workspaces and an unlisted active id, the id stays and no workspace is active. */
  lemma StaleIdKept(s: LegacyState, a: Workspace, b: Workspace)
    requires s.mounted && Truthy(s.activeId) && s.activeId.value != a.id && s.activeId.value != b.id
    ensures var r := FinishStep(s, Loaded(Some([a, b])));
            r.activeId == s.activeId && ActiveWorkspace(r.workspaces, r.activeId).None?
    ensures RefreshStep(ProviderState(s.workspaces, s.activeId, s.loading, s.error), Loaded(Some([a, b]))).activeId.None?
  {
    assert !Listed([a, b], s.activeId.value);
  }

  class Provider {
    var workspaces: seq<Workspace>
    var activeId: Option<Id>
    var loading: bool
    var error: Option<string>
    var mounted: bool
    ghost var stored: Option<Id>

    /** The storage entry is present exactly when the active id is non-empty, and then
        holds it (lines 46-52). */
    ghost predicate Valid()
      reads this
    {
      stored == Mirrored(activeId)
    }

    /** Mounting: the stored id, if not empty, is active, and the flag is set (line 15). */
    constructor (storedId: Option<Id>)
      ensures State() == LegacyState([], Mirrored(storedId), true, None, true) && Valid()
    {
      workspaces := [];
      activeId := Mirrored(storedId);
      loading, error, mounted := true, None, true;
      stored := Mirrored(storedId);
    }

    function State(): LegacyState
      reads this
    {
      LegacyState(workspaces, activeId, loading, error, mounted)
    }

    /** `fetchWorkspaces` up to its `await` (line 19). */
    method BeginFetch()
      modifies this
      ensures State() == old(State()).(loading := true) && Valid()
      ensures stored == old(stored)
      requires Valid()
    {
      loading := true;
    }

    /** `fetchWorkspaces` after its `await`, with the server's answer. */
    method FinishFetch(result: FetchResult)
      requires Valid()
      modifies this
      ensures State() == FinishStep(old(State()), result) && Valid()
    {
      match result {
        case Loaded(data) =>
          if !mounted {
            return;
          }
          workspaces := if data.Some? then data.value else [];
          if data.Some? && |data.value| == 1 {
            var id := data.value[0].id;
            activeId := Some(id);
          }
        case Failed(_) =>
          if !mounted {
            return;
          }
          error := Some(LoadError);
      }
      if mounted {
        loading := false;
      }
      stored := Mirrored(activeId);
    }

    /** The effect's cleanup (lines 41-43). */
    method Unmount()
      modifies this
      ensures State() == old(State()).(mounted := false) && stored == old(stored)
    {
      mounted := false;
    }

    /** `selectWorkspace` (lines 58-60). */
    method SelectWorkspace(id: Option<Id>)
      modifies this
      ensures State() == old(State()).(activeId := id) && Valid()
    {
      activeId := id;
      stored := Mirrored(activeId);
    }

    /** `clearWorkspace` (line 69). */
    method ClearWorkspace()
      modifies this
      ensures State() == old(State()).(activeId := None) && Valid()
    {
      activeId := None;
      stored := Mirrored(activeId);
    }
  }
}
