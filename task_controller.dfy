/** The task handlers: insert, list, patch and archive, each logging to the activity feed. */
module TaskController {
  import opened Base
  import opened Text
  import opened Seqs
  import opened Http
  import opened TaskModel
  import opened ActivityModel
  import opened Store
  import opened ActivityLog

  const TaskNotFound: string := "Task not found"

  /** The `{ boardId, archived: false }` query. */
  function OpenOnBoard(boardId: Id): Task -> bool {
    (t: Task) => t.boardId == boardId && !t.archived
  }

  /** The `{ createdAt: -1 }` sort key. */
  function NewestFirst(t: Task): int {
    -(t.createdAt as int)
  }

  /** `getTasks`: the board's tasks that are not archived, newest first. */
  function GetTasks(tasks: seq<Task>, boardId: Id): (r: seq<Task>)
    ensures forall i :: 0 <= i < |r| ==> r[i] in tasks && r[i].boardId == boardId && !r[i].archived
    ensures forall i :: 0 <= i < |tasks| && tasks[i].boardId == boardId && !tasks[i].archived ==> tasks[i] in r
    ensures multiset(r) == multiset(Filter(tasks, OpenOnBoard(boardId)))
    ensures forall i, j :: 0 <= i < j < |r| ==> r[i].createdAt >= r[j].createdAt
  {
    var open := Filter(tasks, OpenOnBoard(boardId));
    var r := SortBy(open, NewestFirst);
    SameElements(r, open);
    r
  }

  /** The first stored task with that id, as `findById` finds it; -1 when there is none. */
  function FindTask(tasks: seq<Task>, taskId: Id): (i: int)
    ensures -1 <= i < |tasks|
    ensures i >= 0 ==> tasks[i].id == taskId && forall j :: 0 <= j < i ==> tasks[j].id != taskId
    ensures i == -1 ==> forall j :: 0 <= j < |tasks| ==> tasks[j].id != taskId
  {
    IndexWhere(tasks, (t: Task) => t.id == taskId)
  }

  /** `createTask`: insert the task, then log TASK_CREATED with its title. A document that
      fails validation throws out of the handler. */
  function CreateTaskTx(s: DbState, workspaceId: Id, boardId: Id, actorId: Id, fields: TaskFields): (r: Outcome<Task>)
    ensures MakeTask(NextId(s), boardId, fields, s.clock).Err? ==> r == Outcome(s, Unhandled)
    ensures MakeTask(NextId(s), boardId, fields, s.clock).Ok? ==>
              var t := MakeTask(NextId(s), boardId, fields, s.clock).value;
              && r.response == Json(201, t)
              && r.state.tasks == s.tasks + [t]
              && |r.state.events| == |s.events| + 1 && r.state.events[..|s.events|] == s.events
              && r.state.events[|s.events|].kind == TASK_CREATED
              && r.state.events[|s.events|].entityId == t.id
              && r.state.events[|s.events|].metadata == map["title" := t.title]
              && r.state.events[|s.events|].workspaceId == workspaceId
              && r.state.events[|s.events|].actorId == actorId
              && r.state.outbox == s.outbox + [Emission(workspaceId, ActivityEventName, r.state.events[|s.events|])]
              && r.state.boards == s.boards && r.state.workspaces == s.workspaces && r.state.users == s.users
  {
    match MakeTask(NextId(s), boardId, fields, s.clock)
    case Err(_) => Outcome(s, Unhandled)
    case Ok(t) =>
      var inserted := s.(tasks := s.tasks + [t], clock := s.clock + 1);
      Outcome(RecordEvent(inserted, workspaceId, actorId, TASK_CREATED, t.id, Some(map["title" := t.title])),
              Json(201, t))
  }

  /** A request body for `findByIdAndUpdate`, restricted to the schema's paths: strict
      mode drops every other key. */
  datatype TaskPatch = TaskPatch(
    boardId: Option<Id>,
    title: Option<string>,
    priority: Option<Priority>,
    assignedTo: Option<seq<Id>>,
    healthScore: Option<int>,
    description: Option<string>,
    status: Option<Status>,
    archived: Option<bool>)

  /** The document after the update: every path the body names is overwritten (a title
      passes through its trim setter), every other path keeps its value. */
  function ApplyPatch(t: Task, p: TaskPatch): (u: Task)
    ensures u.id == t.id && u.createdAt == t.createdAt
    ensures u.boardId == (if p.boardId.Some? then p.boardId.value else t.boardId)
    ensures u.title == (if p.title.Some? then Trim(p.title.value) else t.title)
    ensures u.priority == (if p.priority.Some? then p.priority.value else t.priority)
    ensures u.assignedTo == (if p.assignedTo.Some? then p.assignedTo.value else t.assignedTo)
    ensures u.healthScore == (if p.healthScore.Some? then p.healthScore.value else t.healthScore)
    ensures u.description == (if p.description.Some? then p.description.value else t.description)
    ensures u.status == (if p.status.Some? then p.status.value else t.status)
    ensures u.archived == (if p.archived.Some? then p.archived.value else t.archived)
  {
    Task(t.id,
         if p.boardId.Some? then p.boardId.value else t.boardId,
         if p.title.Some? then Trim(p.title.value) else t.title,
         if p.priority.Some? then p.priority.value else t.priority,
         if p.assignedTo.Some? then p.assignedTo.value else t.assignedTo,
         if p.healthScore.Some? then p.healthScore.value else t.healthScore,
         if p.description.Some? then p.description.value else t.description,
         if p.status.Some? then p.status.value else t.status,
         if p.archived.Some? then p.archived.value else t.archived,
         t.createdAt)
  }

  /** Sending the same body twice leaves the document as the first update left it. */
  lemma ApplyPatchIdempotent(t: Task, p: TaskPatch)
    ensures ApplyPatch(ApplyPatch(t, p), p) == ApplyPatch(t, p)
  {
    var u := ApplyPatch(t, p);
    var v := ApplyPatch(u, p);
    if p.title.Some? {
      TrimIdempotent(p.title.value);
    }
    assert v.title == u.title;
    assert v == u;
  }

  /** The metadata of a TASK_MOVED event. */
  function MovedMetadata(from: Status, to: Status): Metadata {
    map["from" := StatusName(from), "to" := StatusName(to)]
  }

  /** The condition of lines 58-61: the body names a status and it differs from the stored one. */
  predicate Moves(before: Task, p: TaskPatch) {
    p.status.Some? && p.status.value != before.status
  }

  /** `updateTask`: 404 for an unknown id; otherwise overwrite the named paths and log
      TASK_MOVED exactly when the status changes. The path's workspace is only written
      into the event: nothing checks that the task belongs to it. */
  function UpdateTaskTx(s: DbState, workspaceId: Id, taskId: Id, actorId: Id, patch: TaskPatch): (r: Outcome<Task>)
    ensures FindTask(s.tasks, taskId) < 0 ==> r == Outcome(s, Fail(Reply(404, TaskNotFound)))
    ensures FindTask(s.tasks, taskId) >= 0 ==>
              var i := FindTask(s.tasks, taskId);
              var after := ApplyPatch(s.tasks[i], patch);
              && r.response == Json(200, after)
              && r.state.tasks == s.tasks[i := after]
              && r.state.boards == s.boards && r.state.workspaces == s.workspaces && r.state.users == s.users
              && (!Moves(s.tasks[i], patch) ==> r.state == s.(tasks := s.tasks[i := after]))
              && (Moves(s.tasks[i], patch) ==>
                    && |r.state.events| == |s.events| + 1 && r.state.events[..|s.events|] == s.events
                    && r.state.events[|s.events|].kind == TASK_MOVED
                    && r.state.events[|s.events|].entityId == taskId
                    && r.state.events[|s.events|].metadata == MovedMetadata(s.tasks[i].status, patch.status.value)
                    && r.state.events[|s.events|].workspaceId == workspaceId
                    && r.state.events[|s.events|].actorId == actorId
                    && r.state.outbox == s.outbox + [Emission(workspaceId, ActivityEventName, r.state.events[|s.events|])])
  {
    var i := FindTask(s.tasks, taskId);
    if i < 0 then Outcome(s, Fail(Reply(404, TaskNotFound)))
    else
      var before := s.tasks[i];
      var after := ApplyPatch(before, patch);
      var patched := s.(tasks := s.tasks[i := after]);
      if Moves(before, patch) then
        Outcome(RecordEvent(patched, workspaceId, actorId, TASK_MOVED, after.id, Some(MovedMetadata(before.status, after.status))),
                Json(200, after))
      else Outcome(patched, Json(200, after))
  }

  /** `archiveTask`: 404 for an unknown id; otherwise set `archived` and log TASK_ARCHIVED
      with the title. */
  function ArchiveTaskTx(s: DbState, workspaceId: Id, taskId: Id, actorId: Id): (r: Outcome<Task>)
    ensures FindTask(s.tasks, taskId) < 0 ==> r == Outcome(s, Fail(Reply(404, TaskNotFound)))
    ensures FindTask(s.tasks, taskId) >= 0 ==>
              var i := FindTask(s.tasks, taskId);
              var after := s.tasks[i].(archived := true);
              && r.response == Json(200, after)
              && r.state.tasks == s.tasks[i := after]
              && |r.state.events| == |s.events| + 1 && r.state.events[..|s.events|] == s.events
              && r.state.events[|s.events|].kind == TASK_ARCHIVED
              && r.state.events[|s.events|].entityId == taskId
              && r.state.events[|s.events|].metadata == map["title" := s.tasks[i].title]
              && r.state.events[|s.events|].workspaceId == workspaceId
              && r.state.events[|s.events|].actorId == actorId
              && r.state.outbox == s.outbox + [Emission(workspaceId, ActivityEventName, r.state.events[|s.events|])]
              && r.state.boards == s.boards && r.state.workspaces == s.workspaces && r.state.users == s.users
  {
    var i := FindTask(s.tasks, taskId);
    if i < 0 then Outcome(s, Fail(Reply(404, TaskNotFound)))
    else
      var after := s.tasks[i].(archived := true);
      var patched := s.(tasks := s.tasks[i := after]);
      Outcome(RecordEvent(patched, workspaceId, actorId, TASK_ARCHIVED, after.id, Some(map["title" := after.title])),
              Json(200, after))
  }

  /** Lines 5-28 step by step. */
  method CreateTask(db: Db, workspaceId: Id, boardId: Id, actorId: Id, fields: TaskFields) returns (response: Response<Task>)
    modifies db
    ensures Outcome(db.State(), response) == CreateTaskTx(old(db.State()), workspaceId, boardId, actorId, fields)
  {
    var created := MakeTask(Digits(db.clock), boardId, fields, db.clock);
    if created.Err? {
      return Unhandled;
    }
    var task := created.value;
    db.tasks := db.tasks + [task];
    db.clock := db.clock + 1;
    CreateActivityEvent(db, workspaceId, actorId, TASK_CREATED, task.id, Some(map["title" := task.title]));
    response := Json(201, task);
  }

  /** Lines 41-75 step by step. */
  method UpdateTask(db: Db, workspaceId: Id, taskId: Id, actorId: Id, patch: TaskPatch) returns (response: Response<Task>)
    modifies db
    ensures Outcome(db.State(), response) == UpdateTaskTx(old(db.State()), workspaceId, taskId, actorId, patch)
  {
    var i := FindTask(db.tasks, taskId);
    if i < 0 {
      return Fail(Reply(404, TaskNotFound));
    }
    var previousStatus := db.tasks[i].status;
    var updated := ApplyPatch(db.tasks[i], patch);
    db.tasks := db.tasks[i := updated];
    if patch.status.Some? && patch.status.value != previousStatus {
      CreateActivityEvent(db, workspaceId, actorId, TASK_MOVED, updated.id,
                          Some(MovedMetadata(previousStatus, updated.status)));
    }
    response := Json(200, updated);
  }

  /** Lines 77-101 step by step. */
  method ArchiveTask(db: Db, workspaceId: Id, taskId: Id, actorId: Id) returns (response: Response<Task>)
    modifies db
    ensures Outcome(db.State(), response) == ArchiveTaskTx(old(db.State()), workspaceId, taskId, actorId)
  {
    var i := FindTask(db.tasks, taskId);
    if i < 0 {
      return Fail(Reply(404, TaskNotFound));
    }
    var task := db.tasks[i].(archived := true);
    db.tasks := db.tasks[i := task];
    CreateActivityEvent(db, workspaceId, actorId, TASK_ARCHIVED, task.id, Some(map["title" := task.title]));
    response := Json(200, task);
  }

  /** Creating a task keeps the store consistent. */
  lemma CreateTaskConsistent(s: DbState, workspaceId: Id, boardId: Id, actorId: Id, fields: TaskFields)
    requires Consistent(s)
    ensures Consistent(CreateTaskTx(s, workspaceId, boardId, actorId, fields).state)
  {
    var made := MakeTask(NextId(s), boardId, fields, s.clock);
    if made.Ok? {
      var t := made.value;
      var inserted := s.(tasks := s.tasks + [t], clock := s.clock + 1);
      StampedAppend(s.tasks, t, TaskStamp, TaskKey, s.clock);
      StampedTick(s.workspaces, WorkspaceStamp, WorkspaceKey, s.clock, inserted.clock);
      StampedTick(s.boards, BoardStamp, BoardKey, s.clock, inserted.clock);
      StampedTick(s.events, EventStamp, EventKey, s.clock, inserted.clock);
      RecordEventConsistent(inserted, workspaceId, actorId, TASK_CREATED, t.id, Some(map["title" := t.title]));
    }
  }

  /** Patching a task keeps the store consistent: id and stamp never change. */
  lemma UpdateTaskConsistent(s: DbState, workspaceId: Id, taskId: Id, actorId: Id, patch: TaskPatch)
    requires Consistent(s)
    ensures Consistent(UpdateTaskTx(s, workspaceId, taskId, actorId, patch).state)
  {
    var i := FindTask(s.tasks, taskId);
    if i >= 0 {
      var after := ApplyPatch(s.tasks[i], patch);
      var patched := s.(tasks := s.tasks[i := after]);
      StampedUpdate(s.tasks, i, after, TaskStamp, TaskKey, s.clock);
      if Moves(s.tasks[i], patch) {
        RecordEventConsistent(patched, workspaceId, actorId, TASK_MOVED, after.id,
                              Some(MovedMetadata(s.tasks[i].status, after.status)));
      }
    }
  }

  /** Archiving keeps the store consistent. */
  lemma ArchiveTaskConsistent(s: DbState, workspaceId: Id, taskId: Id, actorId: Id)
    requires Consistent(s)
    ensures Consistent(ArchiveTaskTx(s, workspaceId, taskId, actorId).state)
  {
    var i := FindTask(s.tasks, taskId);
    if i >= 0 {
      var after := s.tasks[i].(archived := true);
      StampedUpdate(s.tasks, i, after, TaskStamp, TaskKey, s.clock);
      RecordEventConsistent(s.(tasks := s.tasks[i := after]), workspaceId, actorId, TASK_ARCHIVED, after.id,
                            Some(map["title" := after.title]));
    }
  }

  /** The task just created heads its board's listing: it is the newest open task there. */
  lemma {:induction false} CreatedTaskListedFirst(s: DbState, workspaceId: Id, boardId: Id, actorId: Id, fields: TaskFields)
    requires Consistent(s)
    requires CreateTaskTx(s, workspaceId, boardId, actorId, fields).response.Json?
    ensures var r := CreateTaskTx(s, workspaceId, boardId, actorId, fields);
            var listed := GetTasks(r.state.tasks, boardId);
            |listed| > 0 && listed[0] == r.response.body
  {
    var r := CreateTaskTx(s, workspaceId, boardId, actorId, fields);
    var t := r.response.body;
    var tasks := r.state.tasks;
    assert tasks == s.tasks + [t];
    assert tasks[|s.tasks|] == t;
    var listed := GetTasks(tasks, boardId);
    assert t in listed;
    var first := listed[0];
    assert first in tasks;
    var k :| 0 <= k < |listed| && listed[k] == t;
    assert first.createdAt >= t.createdAt;
  }

  /** Archiving removes the task from every board's listing; needs unique ids. */
  lemma ArchivedTaskHidden(s: DbState, workspaceId: Id, taskId: Id, actorId: Id, boardId: Id)
    requires Consistent(s)
    requires ArchiveTaskTx(s, workspaceId, taskId, actorId).response.Json?
    ensures var listed := GetTasks(ArchiveTaskTx(s, workspaceId, taskId, actorId).state.tasks, boardId);
            forall k :: 0 <= k < |listed| ==> listed[k].id != taskId
  {
    var tasks := ArchiveTaskTx(s, workspaceId, taskId, actorId).state.tasks;
    var i := FindTask(s.tasks, taskId);
    var listed := GetTasks(tasks, boardId);
    StampedKeys(s.tasks, TaskStamp, TaskKey, s.clock);
    forall k | 0 <= k < |listed| ensures listed[k].id != taskId {
      var j :| 0 <= j < |tasks| && tasks[j] == listed[k];
      if j != i {
        assert tasks[j] == s.tasks[j];
        assert TaskKey(s.tasks[j]) != TaskKey(s.tasks[i]);
      }
    }
  }

  /** Tasks are found by id alone: the path's workspace changes neither the answer nor the
      stored tasks, whichever workspace the task's board belongs to. */
  lemma UpdateIgnoresWorkspace(s: DbState, w1: Id, w2: Id, taskId: Id, actorId: Id, patch: TaskPatch)
    ensures UpdateTaskTx(s, w1, taskId, actorId, patch).response == UpdateTaskTx(s, w2, taskId, actorId, patch).response
    ensures UpdateTaskTx(s, w1, taskId, actorId, patch).state.tasks == UpdateTaskTx(s, w2, taskId, actorId, patch).state.tasks
  {
  }

  /** The same holds of archiving. */
  lemma ArchiveIgnoresWorkspace(s: DbState, w1: Id, w2: Id, taskId: Id, actorId: Id)
    ensures ArchiveTaskTx(s, w1, taskId, actorId).response == ArchiveTaskTx(s, w2, taskId, actorId).response
    ensures ArchiveTaskTx(s, w1, taskId, actorId).state.tasks == ArchiveTaskTx(s, w2, taskId, actorId).state.tasks
  {
  }
}
