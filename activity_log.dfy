/** `createActivityEvent`: insert one event into the log, then emit it to the room of its
    workspace. */
module ActivityLog {
  import opened Base
  import opened Text
  import opened ActivityModel
  import opened Store

  /** The socket event name every log entry is broadcast under. */
  const ActivityEventName: string := "activity-event"

  /** The store after one `createActivityEvent` call. */
  function RecordEvent(s: DbState, workspaceId: Id, actorId: Id, kind: EventType, entityId: Id,
                       metadata: Option<Metadata>): (r: DbState)
    ensures |r.events| == |s.events| + 1 && r.events[..|s.events|] == s.events
    ensures var e := r.events[|s.events|];
            && e.workspaceId == workspaceId && e.actorId == actorId && e.kind == kind
            && e.entityId == entityId && e.createdAt == s.clock && e.id == NextId(s)
            && e.metadata == (if metadata.None? then map[] else metadata.value)
    ensures r.outbox == s.outbox + [Emission(workspaceId, ActivityEventName, r.events[|s.events|])]
    ensures r.clock == s.clock + 1
    ensures r.users == s.users && r.workspaces == s.workspaces && r.boards == s.boards && r.tasks == s.tasks
  {
    var e := MakeEvent(NextId(s), workspaceId, actorId, kind, entityId, metadata, s.clock);
    s.(events := s.events + [e], outbox := s.outbox + [Emission(workspaceId, ActivityEventName, e)],
       clock := s.clock + 1)
  }

  /** Recording an event keeps the store consistent. */
  lemma RecordEventConsistent(s: DbState, workspaceId: Id, actorId: Id, kind: EventType, entityId: Id,
                              metadata: Option<Metadata>)
    requires Consistent(s)
    ensures Consistent(RecordEvent(s, workspaceId, actorId, kind, entityId, metadata))
  {
    var r := RecordEvent(s, workspaceId, actorId, kind, entityId, metadata);
    assert r.events == s.events + [r.events[|s.events|]];
    StampedAppend(s.events, r.events[|s.events|], EventStamp, EventKey, s.clock);
    StampedTick(s.workspaces, WorkspaceStamp, WorkspaceKey, s.clock, r.clock);
    StampedTick(s.boards, BoardStamp, BoardKey, s.clock, r.clock);
    StampedTick(s.tasks, TaskStamp, TaskKey, s.clock, r.clock);
  }

  /** Lines 12-20: the insert, then the broadcast to `workspaceId.toString()`. */
  method CreateActivityEvent(db: Db, workspaceId: Id, actorId: Id, kind: EventType, entityId: Id,
                             metadata: Option<Metadata>)
    modifies db
    ensures db.State() == RecordEvent(old(db.State()), workspaceId, actorId, kind, entityId, metadata)
  {
    var event := MakeEvent(Digits(db.clock), workspaceId, actorId, kind, entityId, metadata, db.clock);
    db.events := db.events + [event];
    db.clock := db.clock + 1;
    db.outbox := db.outbox + [Emission(workspaceId, ActivityEventName, event)];
  }
}
