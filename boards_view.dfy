/** The pure parts of the Boards page: who may edit, which column a task shows in, the
    search and filter bar, and the wording of a task's activity entries. */
module BoardsView {
  import opened Base
  import opened Text
  import opened Seqs
  import opened TaskModel
  import opened WorkspaceModel
  import opened ActivityModel
  import opened Http
  import opened WorkspaceAccess
  import opened Guards
  import opened TaskController

  /** A workspace member as the page receives it: the id (populated or not) and the role
      as a string. */
  datatype ClientMember = ClientMember(userId: Id, role: string)

  /** A task as the page holds it: the JSON document, whose optional paths may be absent. */
  datatype Card = Card(
    id: Id,
    boardId: Id,
    title: Option<string>,
    status: Option<string>,
    priority: Option<string>,
    assignedTo: Option<seq<Id>>)

  /** A stored member as it arrives in the workspace document. */
  function AsClientMember(m: Member): ClientMember {
    ClientMember(m.userId, RoleName(m.role))
  }

  /** `currentUserRole`: the role of the first member entry with the user's id, when it
      is a non-empty string; None without a user. */
  function CurrentUserRole(members: seq<ClientMember>, user: Option<Id>): (r: Option<string>)
    ensures r.Some? ==> r.value != ""
  {
    if user.None? then None
    else
      var i := IndexWhere(members, (m: ClientMember) => m.userId == user.value);
      if i == -1 || members[i].role == "" then None else Some(members[i].role)
  }

  /** `canEdit`: a role is known and it is not VIEWER. */
  predicate CanEdit(members: seq<ClientMember>, user: Option<Id>) {
    var role := CurrentUserRole(members, user);
    role.Some? && role.value != "VIEWER"
  }

  /** The user may edit exactly when the first entry with their id names a role other
      than VIEWER; later entries for the same user are ignored. */
  lemma CanEditIff(members: seq<ClientMember>, user: Option<Id>)
    ensures CanEdit(members, user) <==>
              && user.Some?
              && exists i :: && 0 <= i < |members| && members[i].userId == user.value
                             && (forall j :: 0 <= j < i ==> members[j].userId != user.value)
                             && members[i].role != "" && members[i].role != "VIEWER"
  {
    if user.Some? {
      var i := IndexWhere(members, (m: ClientMember) => m.userId == user.value);
      if exists k :: && 0 <= k < |members| && members[k].userId == user.value
                     && (forall j :: 0 <= j < k ==> members[j].userId != user.value)
                     && members[k].role != "" && members[k].role != "VIEWER" {
        var k :| && 0 <= k < |members| && members[k].userId == user.value
                 && (forall j :: 0 <= j < k ==> members[j].userId != user.value)
                 && members[k].role != "" && members[k].role != "VIEWER";
        assert i != -1;
        assert !(i < k) && !(k < i);
      }
    }
  }

  /** The role the server attaches for that member list. */
  function ServerRole(members: seq<Member>, user: Id): Option<Role> {
    var entry := FirstMember(members, Some(user));
    if entry.Some? then Some(entry.value.role) else None
  }

  /** The page reads, from the member list the server stores, the name of the role the
      server attaches for that user. */
  lemma ClientRoleIsServerRole(members: seq<Member>, user: Id)
    ensures var role := ServerRole(members, user);
            CurrentUserRole(Map(members, AsClientMember), Some(user)) ==
              if role.Some? then Some(RoleName(role.value)) else None
  {
    var client := Map(members, AsClientMember);
    var i := IndexWhere(client, (m: ClientMember) => m.userId == user);
    var entry := FirstMember(members, Some(user));
    if entry.Some? {
      var k :| && 0 <= k < |members| && members[k] == entry.value && Some(members[k].userId) == Some(user)
               && forall j :: 0 <= j < k ==> Some(members[j].userId) != Some(user);
      assert client[k].userId == user;
      assert i != -1;
      assert !(i < k) && !(k < i);
      assert client[i] == AsClientMember(entry.value);
    }
  }

  /** On the member list the server stores, the page offers editing exactly when the
      server's `requireRole("OWNER", "MEMBER")` would let the same user through. */
  lemma CanEditAgreesWithServer(members: seq<Member>, user: Id, ctx: Ctx)
    requires ctx.role == ServerRole(members, user)
    ensures CanEdit(Map(members, AsClientMember), Some(user)) <==> RoleStep(EditorRoles, ctx).Pass?
  {
    ClientRoleIsServerRole(members, user);
    if ctx.role.Some? {
      assert ctx.role.value in EditorRoles <==> RoleName(ctx.role.value) != "VIEWER";
    }
  }

  /** The three columns, left to right. */
  const Columns: seq<string> := ["TODO", "DOING", "DONE"]

  /** `t.status || "TODO"`: the column a task is shown in. */
  function EffectiveStatus(t: Card): string {
    OrElse(t.status, "TODO")
  }

  function InColumn(col: string): Card -> bool {
    (t: Card) => EffectiveStatus(t) == col
  }

  /** Lines 748-750: a board's tasks in one column, in list order. */
  function ColumnTasks(tasks: seq<Card>, col: string): (r: seq<Card>)
    ensures forall k :: 0 <= k < |r| ==> r[k] in tasks && EffectiveStatus(r[k]) == col
    ensures forall k :: 0 <= k < |tasks| && EffectiveStatus(tasks[k]) == col ==> tasks[k] in r
  {
    Filter(tasks, InColumn(col))
  }

  /** A task whose status is one of the three column names, or missing, is shown in exactly
      one column: the one it names. */
  lemma ExactlyOneColumn(tasks: seq<Card>, k: nat)
    requires k < |tasks| && IsColumn(EffectiveStatus(tasks[k]))
    ensures forall i :: 0 <= i < |Columns| ==> (tasks[k] in ColumnTasks(tasks, Columns[i]) <==> i == IndexOfColumn(EffectiveStatus(tasks[k])))
  {
  }

  function IndexOfColumn(col: string): (i: nat)
    requires IsColumn(col)
    ensures i < |Columns| && Columns[i] == col
  {
    if col == "TODO" then 0 else if col == "DOING" then 1 else 2
  }

  /** The status names a column. */
  predicate IsColumn(status: string)
    ensures IsColumn(status) <==> status in Columns
  {
    status == "TODO" || status == "DOING" || status == "DONE"
  }

  /** The three columns of a list, taken together. */
  ghost function ColumnsUnion(tasks: seq<Card>): multiset<Card> {
    multiset(ColumnTasks(tasks, "TODO")) + multiset(ColumnTasks(tasks, "DOING")) + multiset(ColumnTasks(tasks, "DONE"))
  }

  /** When every status is a column name, the three columns together hold each task of
      the board exactly as often as the board does. */
  lemma {:induction false} ColumnsPartition(tasks: seq<Card>)
    requires forall k :: 0 <= k < |tasks| ==> IsColumn(EffectiveStatus(tasks[k]))
    ensures multiset(tasks) == ColumnsUnion(tasks)
  {
    if tasks != [] {
      var tail := tasks[1..];
      assert forall k :: 0 <= k < |tail| ==> IsColumn(EffectiveStatus(tail[k])) by {
        forall k | 0 <= k < |tail| ensures IsColumn(EffectiveStatus(tail[k])) {
          assert tail[k] == tasks[k + 1];
        }
      }
      calc {
        multiset(tasks);
        { assert tasks == [tasks[0]] + tail; }
        multiset{tasks[0]} + multiset(tail);
        { ColumnsPartition(tail); }
        multiset{tasks[0]} + ColumnsUnion(tail);
        { ColumnsUnionCons(tasks); }
        ColumnsUnion(tasks);
      }
    }
  }

  /** Putting a task with a column status in front adds it to exactly one column. */
  lemma ColumnsUnionCons(tasks: seq<Card>)
    requires tasks != [] && IsColumn(EffectiveStatus(tasks[0]))
    ensures ColumnsUnion(tasks) == multiset{tasks[0]} + ColumnsUnion(tasks[1..])
  {
    ColumnTasksCons(tasks, "TODO");
    ColumnTasksCons(tasks, "DOING");
    ColumnTasksCons(tasks, "DONE");
  }

  /** A column of a non-empty list: the head when it belongs there, then the tail's column. */
  lemma ColumnTasksCons(tasks: seq<Card>, col: string)
    requires tasks != []
    ensures multiset(ColumnTasks(tasks, col)) ==
              (if EffectiveStatus(tasks[0]) == col then multiset{tasks[0]} else multiset{})
              + multiset(ColumnTasks(tasks[1..], col))
  {
  }

  /** Lines 752-755: the lowercased title contains the lowercased, trimmed query. */
  ghost predicate TitleMatches(t: Card, query: string) {
    exists i :: OccursAt(ToLower(OrElse(t.title, "")), Trim(ToLower(query)), i)
  }

  /** Lines 758-760: ALL, or the priority with MEDIUM for a missing one. */
  predicate PriorityMatches(t: Card, priorityFilter: string) {
    priorityFilter == "ALL" || OrElse(t.priority, "MEDIUM") == priorityFilter
  }

  function Assigned(t: Card): seq<Id> {
    if t.assignedTo.Some? then t.assignedTo.value else []
  }

  /** Lines 762-769: ALL, or UNASSIGNED and nobody assigned, or the chosen user assigned. */
  ghost predicate AssigneeMatches(t: Card, assigneeFilter: string) {
    || assigneeFilter == "ALL"
    || (assigneeFilter == "UNASSIGNED" && Assigned(t) == [])
    || (assigneeFilter != "UNASSIGNED" && exists k :: 0 <= k < |Assigned(t)| && Assigned(t)[k] == assigneeFilter)
  }

  /** The callback of lines 751-772, early returns and all. */
  predicate PassesFilter(t: Card, query: string, priorityFilter: string, assigneeFilter: string) {
    var titleMatch := Contains(ToLower(OrElse(t.title, "")), Trim(ToLower(query)));
    if !titleMatch then false
    else if priorityFilter != "ALL" && OrElse(t.priority, "MEDIUM") != priorityFilter then false
    else if assigneeFilter == "ALL" then true
    else
      var assignees := Assigned(t);
      if assigneeFilter == "UNASSIGNED" then |assignees| == 0 else assigneeFilter in assignees
  }

  /** The filter keeps a task exactly when all three conditions hold. */
  lemma PassesFilterIff(t: Card, query: string, priorityFilter: string, assigneeFilter: string)
    ensures PassesFilter(t, query, priorityFilter, assigneeFilter) <==>
              TitleMatches(t, query) && PriorityMatches(t, priorityFilter) && AssigneeMatches(t, assigneeFilter)
  {
    ContainsIff(ToLower(OrElse(t.title, "")), Trim(ToLower(query)));
    var assignees := Assigned(t);
    if assigneeFilter == "UNASSIGNED" {
      assert |assignees| == 0 <==> assignees == [];
    } else if assigneeFilter != "ALL" {
      assert assigneeFilter in assignees <==> exists k :: 0 <= k < |assignees| && assignees[k] == assigneeFilter;
    }
  }

  /** A query of nothing but white space matches every title. */
  lemma BlankQueryMatchesAll(t: Card, query: string)
    requires forall k :: 0 <= k < |query| ==> IsSpace(query[k])
    ensures TitleMatches(t, query)
  {
    var q := ToLower(query);
    assert forall k :: 0 <= k < |q| ==> IsSpace(q[k]);
    TrimEmptyIff(q);
    assert OccursAt(ToLower(OrElse(t.title, "")), Trim(q), 0);
  }

  /** `filteredTasks` for one column. */
  function FilteredTasks(tasks: seq<Card>, col: string, query: string, priorityFilter: string,
                         assigneeFilter: string): (r: seq<Card>)
    ensures forall t :: t in r <==>
              && t in tasks && EffectiveStatus(t) == col
              && TitleMatches(t, query) && PriorityMatches(t, priorityFilter) && AssigneeMatches(t, assigneeFilter)
  {
    var inColumn := ColumnTasks(tasks, col);
    var r := Filter(inColumn, (t: Card) => PassesFilter(t, query, priorityFilter, assigneeFilter));
    forall t ensures t in r <==>
              && t in tasks && EffectiveStatus(t) == col
              && TitleMatches(t, query) && PriorityMatches(t, priorityFilter) && AssigneeMatches(t, assigneeFilter)
    {
      PassesFilterIff(t, query, priorityFilter, assigneeFilter);
    }
    r
  }

  /** An activity entry as the task panel receives it: `type` and `metadata` may be absent. */
  datatype ClientEvent = ClientEvent(kind: Option<string>, metadata: Option<map<string, string>>)

  /** A stored event as the server sends it. */
  function AsClientEvent(e: ActivityEvent): ClientEvent {
    ClientEvent(Some(EventTypeName(e.kind)), Some(e.metadata))
  }

  /** `event.metadata?.[key]`. */
  function Meta(e: ClientEvent, key: string): Option<string> {
    if e.metadata.Some? && key in e.metadata.value then Some(e.metadata.value[key]) else None
  }

  const ActivityUpdate: string := "Activity update"

  /** `describeEvent` (lines 569-584). */
  function DescribeEvent(e: ClientEvent): string {
    if !Truthy(e.kind) then ActivityUpdate
    else if e.kind.value == "TASK_CREATED" then "Created task"
    else if e.kind.value == "TASK_UPDATED" then
      if Truthy(Meta(e, "from")) && Truthy(Meta(e, "to"))
      then "Updated priority " + Meta(e, "from").value + " -> " + Meta(e, "to").value
      else "Updated task"
    else if e.kind.value == "TASK_MOVED" then
      "Moved " + OrElse(Meta(e, "from"), "") + " -> " + OrElse(Meta(e, "to"), "")
    else if e.kind.value == "TASK_ASSIGNED" then "Assigned task"
    else if e.kind.value == "TASK_ARCHIVED" then "Archived task"
    else ActivityUpdate
  }

  /** The generic wording appears exactly for a missing type or one outside the five. */
  lemma DescribeFallbackIff(e: ClientEvent)
    ensures DescribeEvent(e) == ActivityUpdate <==> !Truthy(e.kind) || ParseEventType(e.kind.value).None?
  {
    if Truthy(e.kind) && e.kind.value == "TASK_UPDATED" && Truthy(Meta(e, "from")) && Truthy(Meta(e, "to")) {
      assert DescribeEvent(e)[0] == 'U';
    }
    if Truthy(e.kind) && e.kind.value == "TASK_MOVED" {
      assert DescribeEvent(e)[0] == 'M';
    }
  }

  /** The TASK_MOVED entry `updateTask` logs reads "Moved <old status> -> <new status>". */
  lemma DescribeLoggedMove(e: ActivityEvent, from: Status, to: Status)
    requires e.kind == TASK_MOVED && e.metadata == MovedMetadata(from, to)
    ensures DescribeEvent(AsClientEvent(e)) == "Moved " + StatusName(from) + " -> " + StatusName(to)
  {
  }

  /** The TASK_CREATED entry `createTask` logs reads "Created task". */
  lemma DescribeLoggedCreate(e: ActivityEvent)
    requires e.kind == TASK_CREATED
    ensures DescribeEvent(AsClientEvent(e)) == "Created task"
  {
  }
}
