/** The full notifications page: the feed kept in session storage, its kind filter, the
    read/clear actions, and the jump from a mention to its task, which selects the task's
    workspace and leaves the ids for the board page to pick up. */
module NotificationsPage {
  import opened Base
  import opened Notifications
  import WorkspaceProvider

  /** `goToTask` (line 67) goes ahead only for an item naming both a workspace and a task. */
  predicate Opens(item: Notification) {
    Truthy(item.workspaceId) && Truthy(item.taskId)
  }

  class Inbox {
    var items: seq<Notification>
    var filter: string
    var pendingTaskId: Option<Id>
    var pendingWorkspaceId: Option<Id>
    /** How many `open-task` events have been dispatched. */
    var openTaskEvents: nat
    const workspaces: WorkspaceProvider.Provider

    constructor (workspaces: WorkspaceProvider.Provider)
      ensures items == [] && filter == "ALL" && this.workspaces == workspaces
      ensures pendingTaskId.None? && pendingWorkspaceId.None? && openTaskEvents == 0
    {
      items, filter := [], "ALL";
      pendingTaskId, pendingWorkspaceId, openTaskEvents := None, None, 0;
      this.workspaces := workspaces;
    }

    /** The feed the page lists (lines 47-50). */
    function Shown(): seq<Notification>
      reads this
    {
      FilterItems(items, filter)
    }

    /** `loadFromStorage` (lines 10-22), on mount and on every `notifications-updated`
        event. `parsed` is the stored array, or None when there is no entry, the text does
        not parse or it is not an array; then the list stays as it was. */
    method LoadFromStorage(parsed: Option<seq<Notification>>)
      modifies this
      ensures parsed.Some? ==> items == parsed.value
      ensures parsed.None? ==> items == old(items)
      ensures filter == old(filter)
      ensures pendingTaskId == old(pendingTaskId) && pendingWorkspaceId == old(pendingWorkspaceId)
      ensures openTaskEvents == old(openTaskEvents)
    {
      if parsed.Some? {
        items := parsed.value;
      }
    }

    /** The tab buttons (line 114). */
    method SetFilter(f: string)
      modifies this
      ensures filter == f && items == old(items)
      ensures pendingTaskId == old(pendingTaskId) && pendingWorkspaceId == old(pendingWorkspaceId)
      ensures openTaskEvents == old(openTaskEvents)
    {
      filter := f;
    }

    /** `markAllRead` (lines 52-54). */
    method MarkAllItemsRead()
      modifies this
      ensures items == MarkAllRead(old(items)) && filter == old(filter)
      ensures pendingTaskId == old(pendingTaskId) && pendingWorkspaceId == old(pendingWorkspaceId)
      ensures openTaskEvents == old(openTaskEvents)
    {
      items := MarkAllRead(items);
    }

    /** `clearAll` (lines 56-58). */
    method ClearAll()
      modifies this
      ensures items == [] && filter == old(filter)
      ensures pendingTaskId == old(pendingTaskId) && pendingWorkspaceId == old(pendingWorkspaceId)
      ensures openTaskEvents == old(openTaskEvents)
    {
      items := [];
    }

    /** `markRead` (lines 60-64), run when the pointer enters an item. */
    method MarkItemRead(id: string)
      modifies this
      ensures items == MarkRead(old(items), id) && filter == old(filter)
      ensures pendingTaskId == old(pendingTaskId) && pendingWorkspaceId == old(pendingWorkspaceId)
      ensures openTaskEvents == old(openTaskEvents)
    {
      items := MarkRead(items, id);
    }

    /** `goToTask` (lines 66-72): for an item naming a workspace and a task, that workspace
        becomes the provider's active one, the two ids are left pending and one `open-task`
        event is dispatched; any other item changes nothing. The feed is never touched. */
    method GoToTask(item: Notification)
      requires workspaces.Valid()
      modifies this, workspaces
      ensures items == old(items) && filter == old(filter) && workspaces.Valid()
      ensures !Opens(item) ==>
        && pendingTaskId == old(pendingTaskId) && pendingWorkspaceId == old(pendingWorkspaceId)
        && openTaskEvents == old(openTaskEvents)
        && workspaces.State() == old(workspaces.State())
      ensures Opens(item) ==>
        && workspaces.State() == old(workspaces.State()).(activeId := item.workspaceId)
        && pendingTaskId == item.taskId && pendingWorkspaceId == item.workspaceId
        && openTaskEvents == old(openTaskEvents) + 1
        && workspaces.activeId == pendingWorkspaceId
    {
      if !Truthy(item.workspaceId) || !Truthy(item.taskId) {
        return;
      }
      workspaces.SelectWorkspace(item.workspaceId);
      pendingTaskId := item.taskId;
      pendingWorkspaceId := item.workspaceId;
      openTaskEvents := openTaskEvents + 1;
    }
  }
}
