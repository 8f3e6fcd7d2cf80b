/** The Task schema: enums, defaults, and the validation an insert performs. */
module TaskModel {
  import opened Base
  import opened Text

  datatype Priority = LOW | MEDIUM | HIGH
  datatype Status = TODO | DOING | DONE

  function PriorityName(p: Priority): string {
    match p
    case LOW => "LOW"
    case MEDIUM => "MEDIUM"
    case HIGH => "HIGH"
  }

  /** The enum check on `priority`: only the three names are accepted. */
  function ParsePriority(s: string): (r: Option<Priority>)
    ensures r.Some? <==> s == "LOW" || s == "MEDIUM" || s == "HIGH"
    ensures r.Some? ==> PriorityName(r.value) == s
  {
    if s == "LOW" then Some(LOW)
    else if s == "MEDIUM" then Some(MEDIUM)
    else if s == "HIGH" then Some(HIGH)
    else None
  }

  function StatusName(s: Status): string {
    match s
    case TODO => "TODO"
    case DOING => "DOING"
    case DONE => "DONE"
  }

  /** The enum check on `status`: only the three column names are accepted. */
  function ParseStatus(s: string): (r: Option<Status>)
    ensures r.Some? <==> s == "TODO" || s == "DOING" || s == "DONE"
    ensures r.Some? ==> StatusName(r.value) == s
  {
    if s == "TODO" then Some(TODO)
    else if s == "DOING" then Some(DOING)
    else if s == "DONE" then Some(DONE)
    else None
  }

  const DefaultPriority: Priority := MEDIUM
  const DefaultStatus: Status := TODO
  const DefaultHealthScore: int := 100
  const DefaultDescription: string := ""

  /** A stored task document. `createdAt` is the value of the store's clock at insertion. */
  datatype Task = Task(
    id: Id,
    boardId: Id,
    title: string,
    priority: Priority,
    assignedTo: seq<Id>,
    healthScore: int,
    description: string,
    status: Status,
    archived: bool,
    createdAt: nat)

  /** The fields an insert names; an absent one takes the schema default. */
  datatype TaskFields = TaskFields(title: Option<string>, description: Option<string>, priority: Option<string>)

  /** `Task.create`: the title is trimmed and required, the priority must be in the enum,
      and every other field takes its default. */
  function MakeTask(id: Id, boardId: Id, fields: TaskFields, createdAt: nat): (r: Result<Task, ValidationError>)
    ensures r.Ok? <==> && fields.title.Some? && Trim(fields.title.value) != ""
                       && (fields.priority.None? || ParsePriority(fields.priority.value).Some?)
    ensures fields.title.None? ==> r == Err(Missing("title"))
    ensures r.Ok? ==> && r.value.id == id && r.value.boardId == boardId
                      && r.value.title == Trim(fields.title.value)
                      && r.value.priority == (if fields.priority.None? then DefaultPriority
                                              else ParsePriority(fields.priority.value).value)
                      && r.value.description == (if fields.description.None? then DefaultDescription
                                                 else fields.description.value)
                      && r.value.status == DefaultStatus && !r.value.archived
                      && r.value.assignedTo == [] && r.value.healthScore == DefaultHealthScore
                      && r.value.createdAt == createdAt
  {
    if fields.title.None? || Trim(fields.title.value) == "" then Err(Missing("title"))
    else if fields.priority.Some? && ParsePriority(fields.priority.value).None? then
      Err(NotInEnum("priority", fields.priority.value))
    else
      var priority := if fields.priority.None? then DefaultPriority else ParsePriority(fields.priority.value).value;
      var description := if fields.description.None? then DefaultDescription else fields.description.value;
      Ok(Task(id, boardId, Trim(fields.title.value), priority, [], DefaultHealthScore, description,
              DefaultStatus, false, createdAt))
  }

  /** A stored title never has surrounding white space, and is never blank. */
  lemma MadeTitleTrimmed(id: Id, boardId: Id, fields: TaskFields, createdAt: nat)
    requires MakeTask(id, boardId, fields, createdAt).Ok?
    ensures var t := MakeTask(id, boardId, fields, createdAt).value;
            t.title != "" && Trim(t.title) == t.title
  {
    TrimIdempotent(fields.title.value);
  }
}
