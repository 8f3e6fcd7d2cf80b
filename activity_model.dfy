/** The ActivityEvent schema: a typed, immutable record of one change in a workspace. */
module ActivityModel {
  import opened Base

  datatype EventType = TASK_CREATED | TASK_UPDATED | TASK_MOVED | TASK_ASSIGNED | TASK_ARCHIVED

  function EventTypeName(t: EventType): string {
    match t
    case TASK_CREATED => "TASK_CREATED"
    case TASK_UPDATED => "TASK_UPDATED"
    case TASK_MOVED => "TASK_MOVED"
    case TASK_ASSIGNED => "TASK_ASSIGNED"
    case TASK_ARCHIVED => "TASK_ARCHIVED"
  }

  /** The enum check on `type`: exactly the five names. */
  function ParseEventType(s: string): (r: Option<EventType>)
    ensures r.Some? <==> s in {"TASK_CREATED", "TASK_UPDATED", "TASK_MOVED", "TASK_ASSIGNED", "TASK_ARCHIVED"}
    ensures r.Some? ==> EventTypeName(r.value) == s
  {
    if s == "TASK_CREATED" then Some(TASK_CREATED)
    else if s == "TASK_UPDATED" then Some(TASK_UPDATED)
    else if s == "TASK_MOVED" then Some(TASK_MOVED)
    else if s == "TASK_ASSIGNED" then Some(TASK_ASSIGNED)
    else if s == "TASK_ARCHIVED" then Some(TASK_ARCHIVED)
    else None
  }

  /** Free-form metadata: a JSON object with string values. */
  type Metadata = map<string, string>

  /** A stored event; `createdAt` is the store's clock at insertion. Workspace, actor and
      entity are required, so the type carries all three. */
  datatype ActivityEvent = ActivityEvent(
    id: Id,
    workspaceId: Id,
    actorId: Id,
    kind: EventType,
    entityId: Id,
    metadata: Metadata,
    createdAt: nat)

  /** `ActivityEvent.create`: metadata defaults to the empty object. */
  function MakeEvent(id: Id, workspaceId: Id, actorId: Id, kind: EventType, entityId: Id,
                     metadata: Option<Metadata>, createdAt: nat): (e: ActivityEvent)
    ensures e.metadata == (if metadata.None? then map[] else metadata.value)
    ensures e.id == id && e.workspaceId == workspaceId && e.actorId == actorId
    ensures e.kind == kind && e.entityId == entityId && e.createdAt == createdAt
  {
    ActivityEvent(id, workspaceId, actorId, kind, entityId,
                  if metadata.None? then map[] else metadata.value, createdAt)
  }
}
