/** The state the Boards page keeps and the handlers that change it. Each handler is a
    method on `Page` that writes its fields in the source's order; its result is
    fixed by a pure step on `PageState`, about which the lemmas speak. Server answers are
    inputs: None stands for a request that failed. */
module BoardsPage {
  import opened Base
  import opened Text
  import opened Seqs
  import opened BoardModel
  import opened Splice
  import opened BoardsView

  /** One entry of `modalData.attachments`; `caption` holds its `label`. */
  datatype Attachment = Attachment(url: string, caption: string)

  /** The page's state hooks that the handlers read and write. */
  datatype PageState = PageState(
    activeWorkspaceId: Option<Id>,
    user: Option<Id>,
    members: seq<ClientMember>,
    boards: seq<Board>,
    newBoardName: string,
    tasksByBoard: map<Id, seq<Card>>,
    titleDrafts: map<Id, string>,
    attachments: seq<Attachment>,
    attachmentUrl: string,
    attachmentLabel: string,
    sentOrders: seq<seq<Id>>,
    error: Option<string>)

  /** `prev[boardId] || []`. */
  function TasksOf(p: PageState, boardId: Id): seq<Card> {
    if boardId in p.tasksByBoard then p.tasksByBoard[boardId] else []
  }

  /** `boards.findIndex((b) => b._id === id)`. */
  function BoardIndex(boards: seq<Board>, id: Id): int {
    IndexWhere(boards, (b: Board) => b.id == id)
  }

  /** `next.map((b) => b._id)`. */
  function BoardIds(boards: seq<Board>): (r: seq<Id>)
    ensures |r| == |boards| && forall k :: 0 <= k < |boards| ==> r[k] == boards[k].id
  {
    Map(boards, (b: Board) => b.id)
  }

  const ReorderFailed: string := "Failed to reorder boards"

  /** `reorderBoards` (lines 186-205): without editing rights, with an unknown id, or when
      both ids are at the same index, nothing happens; otherwise the moved list replaces
      the boards and its ids go out in the reorder request, and a failed request (`ok`
      false) only adds the error message: the moved list stays. */
  function ReorderStep(p: PageState, sourceId: Id, targetId: Id, ok: bool): PageState {
    var i := BoardIndex(p.boards, sourceId);
    var j := BoardIndex(p.boards, targetId);
    if !CanEdit(p.members, p.user) || i == -1 || j == -1 || i == j then p
    else
      var next := Moved(p.boards, i, j);
      var sent := p.(boards := next, sentOrders := p.sentOrders + [BoardIds(next)]);
      if ok then sent else sent.(error := Some(ReorderFailed))
  }

  /** The no-op cases are exactly the guards of lines 187-191. Otherwise the list keeps
      its length and its boards, the source board sits at the target's index, the other
      boards keep their relative order, and the request carries the new list's ids in
      order; a failed request sets the error and nothing else changes. */
  lemma ReorderStepSpec(p: PageState, sourceId: Id, targetId: Id, ok: bool)
    ensures var i, j := BoardIndex(p.boards, sourceId), BoardIndex(p.boards, targetId);
            ReorderStep(p, sourceId, targetId, ok) == p <==> !CanEdit(p.members, p.user) || i == -1 || j == -1 || i == j
    ensures var i, j := BoardIndex(p.boards, sourceId), BoardIndex(p.boards, targetId);
            var q := ReorderStep(p, sourceId, targetId, ok);
            (CanEdit(p.members, p.user) && i != -1 && j != -1 && i != j) ==>
              && |q.boards| == |p.boards| && multiset(q.boards) == multiset(p.boards)
              && q.boards[j] == p.boards[i] && q.boards[j].id == sourceId
              && RemoveAt(q.boards, j) == RemoveAt(p.boards, i)
              && q.sentOrders == p.sentOrders + [BoardIds(q.boards)]
              && q.error == (if ok then p.error else Some(ReorderFailed))
              && q == p.(boards := q.boards, sentOrders := q.sentOrders, error := q.error)
  {
    var i, j := BoardIndex(p.boards, sourceId), BoardIndex(p.boards, targetId);
    if CanEdit(p.members, p.user) && i != -1 && j != -1 && i != j {
      MovedPermutes(p.boards, i, j);
      MovedKeepsOthersInOrder(p.boards, i, j);
      var q := ReorderStep(p, sourceId, targetId, ok);
      assert |q.sentOrders| == |p.sentOrders| + 1;
    }
  }

  /** Dragging the board back to where it came from restores the list. */
  lemma ReorderBack(p: PageState, sourceId: Id, targetId: Id, ok: bool)
    requires var i, j := BoardIndex(p.boards, sourceId), BoardIndex(p.boards, targetId);
             CanEdit(p.members, p.user) && i != -1 && j != -1 && i != j
    ensures var i, j := BoardIndex(p.boards, sourceId), BoardIndex(p.boards, targetId);
            Moved(ReorderStep(p, sourceId, targetId, ok).boards, j, i) == p.boards
  {
    var i, j := BoardIndex(p.boards, sourceId), BoardIndex(p.boards, targetId);
    MovedInverse(p.boards, i, j);
  }

  /** `createBoard` (lines 144-158): needs an active workspace and a name that is not
      blank; the board the server returns is appended and the input cleared. */
  function CreateBoardStep(p: PageState, response: Option<Board>): PageState {
    if !Truthy(p.activeWorkspaceId) || Trim(p.newBoardName) == "" then p
    else if response.None? then p.(error := Some("Failed to create board"))
    else p.(boards := p.boards + [response.value], newBoardName := "")
  }

  /** `createTask` (lines 160-184): needs an active workspace and a non-blank draft for
      that board; the task the server returns goes to the end of the board's list. */
  function CreateTaskStep(p: PageState, boardId: Id, response: Option<Card>): PageState {
    var title := if boardId in p.titleDrafts then Some(Trim(p.titleDrafts[boardId])) else None;
    if !Truthy(p.activeWorkspaceId) || !Truthy(title) then p
    else if response.None? then p.(error := Some("Failed to create task"))
    else p.(tasksByBoard := p.tasksByBoard[boardId := TasksOf(p, boardId) + [response.value]],
            titleDrafts := p.titleDrafts[boardId := ""])
  }

  /** The new task is the last of its board's list, after all the earlier ones; every
      other board's list is untouched. */
  lemma CreateTaskAppends(p: PageState, boardId: Id, card: Card)
    requires Truthy(p.activeWorkspaceId) && boardId in p.titleDrafts && Trim(p.titleDrafts[boardId]) != ""
    ensures var q := CreateTaskStep(p, boardId, Some(card));
            && TasksOf(q, boardId) == TasksOf(p, boardId) + [card]
            && TasksOf(q, boardId)[|TasksOf(q, boardId)| - 1] == card
            && (forall b :: b != boardId ==> TasksOf(q, b) == TasksOf(p, b))
            && q.boards == p.boards && q.error == p.error
  {
    var title := Trim(p.titleDrafts[boardId]);
    assert Truthy(Some(title));
    var q := CreateTaskStep(p, boardId, Some(card));
    assert q.tasksByBoard == p.tasksByBoard[boardId := TasksOf(p, boardId) + [card]];
  }

  /** `(list).map((t) => t._id === taskId ? replacement : t)`. */
  function ReplaceById(tasks: seq<Card>, taskId: Id, replacement: Card): (r: seq<Card>)
    ensures |r| == |tasks|
    ensures forall k :: 0 <= k < |tasks| ==> r[k] == (if tasks[k].id == taskId then replacement else tasks[k])
  {
    Map(tasks, (t: Card) => if t.id == taskId then replacement else t)
  }

  /** Replacing twice with the same task is replacing once, when the replacement keeps
      its id. */
  lemma ReplaceByIdIdempotent(tasks: seq<Card>, taskId: Id, replacement: Card)
    requires replacement.id == taskId
    ensures ReplaceById(ReplaceById(tasks, taskId, replacement), taskId, replacement) == ReplaceById(tasks, taskId, replacement)
  {
  }

  /** The `setTasksByBoard` of lines 241-246, 276-281, 296-301, 346-351 and 448-453: the
      board's list with the server's copy in place of the task, or the error message when
      the request failed. */
  function ReplaceStep(p: PageState, boardId: Id, taskId: Id, response: Option<Card>, failure: string): PageState {
    if response.None? then p.(error := Some(failure))
    else p.(tasksByBoard := p.tasksByBoard[boardId := ReplaceById(TasksOf(p, boardId), taskId, response.value)])
  }

  /** `updateTaskPriority`, `updateTaskStatus` and `assignTask` (lines 267-305, 440-458): need an
      active workspace. */
  function UpdateFieldStep(p: PageState, boardId: Id, taskId: Id, response: Option<Card>, failure: string): PageState {
    if !Truthy(p.activeWorkspaceId) then p else ReplaceStep(p, boardId, taskId, response, failure)
  }

  /** `saveTaskTitle` (lines 230-251): needs an active workspace and a non-blank title. */
  function SaveTitleStep(p: PageState, boardId: Id, taskId: Id, editingTitle: string, response: Option<Card>): PageState {
    if !Truthy(p.activeWorkspaceId) || Trim(editingTitle) == "" then p
    else ReplaceStep(p, boardId, taskId, response, "Failed to update task")
  }

  /** `saveTaskModal` (lines 334-357): needs a selected task; it replaces that task in the
      list of the board the task names, and on success `closeTaskModal` (lines 325-332)
      clears the attachment inputs. */
  function SaveModalStep(p: PageState, selected: Option<Card>, response: Option<Card>): PageState {
    if selected.None? then p
    else
      var q := ReplaceStep(p, selected.value.boardId, selected.value.id, response, "Failed to update task");
      if response.Some? then q.(attachmentUrl := "", attachmentLabel := "") else q
  }

  /** A successful save puts the server's copy at the task's positions on its board, leaves
      every other task and board alone, and closes the modal with empty attachment inputs;
      a failed one only sets the error, and the inputs stay. */
  lemma SaveModalStepSpec(p: PageState, t: Card, card: Card)
    ensures var q := SaveModalStep(p, Some(t), Some(card));
            && q.attachmentUrl == "" && q.attachmentLabel == ""
            && |TasksOf(q, t.boardId)| == |TasksOf(p, t.boardId)|
            && (forall k :: 0 <= k < |TasksOf(p, t.boardId)| ==>
                  TasksOf(q, t.boardId)[k] == (if TasksOf(p, t.boardId)[k].id == t.id then card else TasksOf(p, t.boardId)[k]))
            && (forall b :: b != t.boardId ==> TasksOf(q, b) == TasksOf(p, b))
            && q.boards == p.boards && q.attachments == p.attachments && q.error == p.error
    ensures SaveModalStep(p, Some(t), None) == p.(error := Some("Failed to update task"))
  {
    ReplaceStepSpec(p, t.boardId, t.id, card, "Failed to update task");
  }

  /** A replacement keeps the list's length and every position holding another task, and
      puts the server's copy at every position of that task. */
  lemma ReplaceStepSpec(p: PageState, boardId: Id, taskId: Id, card: Card, failure: string)
    ensures var q := ReplaceStep(p, boardId, taskId, Some(card), failure);
            && |TasksOf(q, boardId)| == |TasksOf(p, boardId)|
            && (forall k :: 0 <= k < |TasksOf(p, boardId)| && TasksOf(p, boardId)[k].id != taskId ==>
                  TasksOf(q, boardId)[k] == TasksOf(p, boardId)[k])
            && (forall k :: 0 <= k < |TasksOf(p, boardId)| && TasksOf(p, boardId)[k].id == taskId ==>
                  TasksOf(q, boardId)[k] == card)
            && (forall b :: b != boardId ==> TasksOf(q, b) == TasksOf(p, b))
    ensures ReplaceStep(p, boardId, taskId, None, failure) == p.(error := Some(failure))
  {
  }

  /** `archiveTask` (lines 253-265): needs an active workspace; on success every task
      with that id leaves the board's list. */
  function ArchiveStep(p: PageState, boardId: Id, taskId: Id, ok: bool): PageState {
    if !Truthy(p.activeWorkspaceId) then p
    else if !ok then p.(error := Some("Failed to archive task"))
    else p.(tasksByBoard := p.tasksByBoard[boardId := Filter(TasksOf(p, boardId), (t: Card) => t.id != taskId)])
  }

  /** After archiving, no task with that id is left on the board, every task left was
      there before, and every other task of the board is still there. */
  lemma ArchiveStepSpec(p: PageState, boardId: Id, taskId: Id)
    requires Truthy(p.activeWorkspaceId)
    ensures var q := ArchiveStep(p, boardId, taskId, true);
            && (forall k :: 0 <= k < |TasksOf(q, boardId)| ==> TasksOf(q, boardId)[k].id != taskId)
            && (forall k :: 0 <= k < |TasksOf(q, boardId)| ==> TasksOf(q, boardId)[k] in TasksOf(p, boardId))
            && (forall k :: 0 <= k < |TasksOf(p, boardId)| && TasksOf(p, boardId)[k].id != taskId ==>
                  TasksOf(p, boardId)[k] in TasksOf(q, boardId))
            && (forall b :: b != boardId ==> TasksOf(q, b) == TasksOf(p, b))
  {
  }

  /** `addAttachment` (lines 359-368): a blank URL is ignored; otherwise the trimmed pair
      goes to the end and both inputs are cleared. */
  function AddAttachmentStep(p: PageState): PageState {
    if Trim(p.attachmentUrl) == "" then p
    else p.(attachments := p.attachments + [Attachment(Trim(p.attachmentUrl), Trim(p.attachmentLabel))],
            attachmentUrl := "", attachmentLabel := "")
  }

  /** `removeAttachment` (lines 370-375): drops every attachment with that URL. */
  function RemoveAttachmentStep(p: PageState, url: string): PageState {
    p.(attachments := Filter(p.attachments, (a: Attachment) => a.url != url))
  }

  /** No stored URL is blank: the list only ever grows by a non-blank trimmed URL. */
  lemma AddAttachmentKeepsUrlsFilled(p: PageState)
    requires forall k :: 0 <= k < |p.attachments| ==> p.attachments[k].url != ""
    ensures var q := AddAttachmentStep(p);
            forall k :: 0 <= k < |q.attachments| ==> q.attachments[k].url != ""
  {
  }

  /** Removing the URL just added, when no earlier attachment had it, gives back the
      earlier list. */
  lemma RemoveUndoesAdd(p: PageState)
    requires Trim(p.attachmentUrl) != ""
    requires forall k :: 0 <= k < |p.attachments| ==> p.attachments[k].url != Trim(p.attachmentUrl)
    ensures RemoveAttachmentStep(AddAttachmentStep(p), Trim(p.attachmentUrl)).attachments == p.attachments
  {
    var url := Trim(p.attachmentUrl);
    var added := Attachment(url, Trim(p.attachmentLabel));
    var keep := (a: Attachment) => a.url != url;
    FilterAppend(p.attachments, [added], keep);
    FilterAll(p.attachments, keep);
    assert Filter([added], keep) == [];
  }

  /** After a removal no attachment has that URL, and every other one is still there. */
  lemma RemoveAttachmentSpec(p: PageState, url: string)
    ensures var q := RemoveAttachmentStep(p, url);
            && (forall k :: 0 <= k < |q.attachments| ==> q.attachments[k].url != url && q.attachments[k] in p.attachments)
            && (forall k :: 0 <= k < |p.attachments| && p.attachments[k].url != url ==> p.attachments[k] in q.attachments)
  {
  }

  /** `const next = [...boards]` followed by the splice of lines 193-195 on the copy. */
  method MovedCopy(current: seq<Board>, from: int, to: int) returns (next: seq<Board>)
    requires 0 <= from < |current| && 0 <= to < |current|
    ensures next == Moved(current, from, to)
  {
    var a := new Board[|current|](k requires 0 <= k < |current| => current[k]);
    assert a[..] == current;
    SpliceMove(a, from, to);
    next := a[..];
  }

  /** The page's state hooks as fields; each handler reassigns the ones it sets. */
  class Page {
    var activeWorkspaceId: Option<Id>
    var user: Option<Id>
    var members: seq<ClientMember>
    var boards: seq<Board>
    var newBoardName: string
    var tasksByBoard: map<Id, seq<Card>>
    var titleDrafts: map<Id, string>
    var attachments: seq<Attachment>
    var attachmentUrl: string
    var attachmentLabel: string
    var sentOrders: seq<seq<Id>>
    var error: Option<string>

    /** The initial `useState` values, for the workspace and user the contexts provide. */
    constructor (activeWorkspaceId: Option<Id>, user: Option<Id>)
      ensures State() == PageState(activeWorkspaceId, user, [], [], "", map[], map[], [], "", "", [], None)
    {
      this.activeWorkspaceId := activeWorkspaceId;
      this.user := user;
      members, boards, newBoardName := [], [], "";
      tasksByBoard, titleDrafts := map[], map[];
      attachments, attachmentUrl, attachmentLabel := [], "", "";
      sentOrders, error := [], None;
    }

    function State(): PageState
      reads this
    {
      PageState(activeWorkspaceId, user, members, boards, newBoardName, tasksByBoard, titleDrafts,
                attachments, attachmentUrl, attachmentLabel, sentOrders, error)
    }

    /** Lines 186-205: copy the list, splice it in place, store it, send its ids; `ok` is
        false when the request fails. */
    method ReorderBoards(sourceId: Id, targetId: Id, ok: bool)
      modifies this
      ensures State() == ReorderStep(old(State()), sourceId, targetId, ok)
    {
      if !CanEdit(members, user) {
        return;
      }
      var sourceIndex := BoardIndex(boards, sourceId);
      var targetIndex := BoardIndex(boards, targetId);
      if sourceIndex == -1 || targetIndex == -1 {
        return;
      }
      if sourceIndex == targetIndex {
        return;
      }
      var next := MovedCopy(boards, sourceIndex, targetIndex);
      boards := next;
      sentOrders := sentOrders + [BoardIds(next)];
      if !ok {
        error := Some(ReorderFailed);
      }
    }

    method CreateBoard(response: Option<Board>)
      modifies this
      ensures State() == CreateBoardStep(old(State()), response)
    {
      if !Truthy(activeWorkspaceId) || Trim(newBoardName) == "" {
        return;
      }
      if response.None? {
        error := Some("Failed to create board");
        return;
      }
      boards := boards + [response.value];
      newBoardName := "";
    }

    method CreateTask(boardId: Id, response: Option<Card>)
      modifies this
      ensures State() == CreateTaskStep(old(State()), boardId, response)
    {
      var title := if boardId in titleDrafts then Some(Trim(titleDrafts[boardId])) else None;
      if !Truthy(activeWorkspaceId) || !Truthy(title) {
        return;
      }
      if response.None? {
        error := Some("Failed to create task");
        return;
      }
      var list := if boardId in tasksByBoard then tasksByBoard[boardId] else [];
      tasksByBoard := tasksByBoard[boardId := list + [response.value]];
      titleDrafts := titleDrafts[boardId := ""];
    }

    /** The shared `setTasksByBoard(... map ...)` update, or the error message. */
    method Replace(boardId: Id, taskId: Id, response: Option<Card>, failure: string)
      modifies this
      ensures State() == ReplaceStep(old(State()), boardId, taskId, response, failure)
    {
      if response.None? {
        error := Some(failure);
        return;
      }
      var list := if boardId in tasksByBoard then tasksByBoard[boardId] else [];
      tasksByBoard := tasksByBoard[boardId := ReplaceById(list, taskId, response.value)];
    }

    method UpdateField(boardId: Id, taskId: Id, response: Option<Card>, failure: string)
      modifies this
      ensures State() == UpdateFieldStep(old(State()), boardId, taskId, response, failure)
    {
      if !Truthy(activeWorkspaceId) {
        return;
      }
      Replace(boardId, taskId, response, failure);
    }

    method SaveTaskTitle(boardId: Id, taskId: Id, editingTitle: string, response: Option<Card>)
      modifies this
      ensures State() == SaveTitleStep(old(State()), boardId, taskId, editingTitle, response)
    {
      var title := Trim(editingTitle);
      if !Truthy(activeWorkspaceId) || title == "" {
        return;
      }
      Replace(boardId, taskId, response, "Failed to update task");
    }

    method SaveTaskModal(selected: Option<Card>, response: Option<Card>)
      modifies this
      ensures State() == SaveModalStep(old(State()), selected, response)
    {
      if selected.None? {
        return;
      }
      Replace(selected.value.boardId, selected.value.id, response, "Failed to update task");
      if response.Some? {
        attachmentUrl := "";
        attachmentLabel := "";
      }
    }

    method ArchiveTask(boardId: Id, taskId: Id, ok: bool)
      modifies this
      ensures State() == ArchiveStep(old(State()), boardId, taskId, ok)
    {
      if !Truthy(activeWorkspaceId) {
        return;
      }
      if !ok {
        error := Some("Failed to archive task");
        return;
      }
      var list := if boardId in tasksByBoard then tasksByBoard[boardId] else [];
      tasksByBoard := tasksByBoard[boardId := Filter(list, (t: Card) => t.id != taskId)];
    }

    method AddAttachment()
      modifies this
      ensures State() == AddAttachmentStep(old(State()))
    {
      var url := Trim(attachmentUrl);
      if url == "" {
        return;
      }
      attachments := attachments + [Attachment(url, Trim(attachmentLabel))];
      attachmentUrl := "";
      attachmentLabel := "";
    }

    method RemoveAttachment(url: string)
      modifies this
      ensures State() == RemoveAttachmentStep(old(State()), url)
    {
      attachments := Filter(attachments, (a: Attachment) => a.url != url);
    }
  }
}
