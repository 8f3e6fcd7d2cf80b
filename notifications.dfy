/** The notification list kept by the header's notification center and by the
    notifications page: items arrive over the socket, are capped at fifty, and are marked
    read, filtered and cleared. Clock readings are parameters. */
module Notifications {
  import opened Base
  import opened Text
  import opened Seqs
  import opened ActivityModel

  /** One stored notification. Items loaded from storage may also carry the workspace and
      task they point to. */
  datatype Notification = Notification(
    id: string,
    kind: string,
    message: string,
    createdAt: string,
    read: bool,
    workspaceId: Option<Id>,
    taskId: Option<Id>)

  const Cap: nat := 50

  /** `[item, ...prev].slice(0, 50)`. */
  function Prepend(items: seq<Notification>, item: Notification): (r: seq<Notification>)
    ensures |r| == if |items| < Cap then |items| + 1 else Cap
    ensures r[0] == item
    ensures r[1..] == items[..|r| - 1]
  {
    Take([item] + items, Cap)
  }

  /** A `${value}` interpolation of an optional string. */
  function Interpolate(s: Option<string>): string {
    if s.Some? then s.value else "undefined"
  }

  /** The `task-assigned` payload. */
  datatype AssignedPayload = AssignedPayload(taskId: Option<string>, title: Option<string>)

  /** `handleAssigned` (lines 33-43): a payload without a title is ignored; otherwise an
      unread TASK_ASSIGNED item goes in front. `now` is `Date.now()`, `nowIso` the same
      instant as an ISO string. */
  function OnAssigned(items: seq<Notification>, payload: AssignedPayload, now: nat, nowIso: string): seq<Notification> {
    if !Truthy(payload.title) then items
    else
      Prepend(items, Notification(Interpolate(payload.taskId) + "-" + Digits(now), "TASK_ASSIGNED",
                                  "You were assigned: " + payload.title.value, nowIso, false, None, None))
  }

  /** The `activity-event` payload as it arrives: every path may be absent. */
  datatype LiveEvent = LiveEvent(
    eventId: Option<string>,
    kind: Option<string>,
    entityId: Option<string>,
    metadata: Option<map<string, string>>,
    createdAt: Option<string>)

  /** A stored event as `createActivityEvent` emits it, stamped with its ISO time. */
  function AsLiveEvent(e: ActivityEvent, createdAt: string): LiveEvent {
    LiveEvent(Some(e.id), Some(EventTypeName(e.kind)), Some(e.entityId), Some(e.metadata), Some(createdAt))
  }

  /** `event.metadata?.[key]`. */
  function Meta(e: LiveEvent, key: string): Option<string> {
    if e.metadata.Some? && key in e.metadata.value then Some(e.metadata.value[key]) else None
  }

  const Arrow: string := " \U{2192} "

  /** Lines 57-74: the message for an event of a known type. */
  function ActivityMessage(e: LiveEvent): string {
    var kind := if e.kind.Some? then e.kind.value else "";
    if kind == "TASK_CREATED" then "Task created: " + OrElse(Meta(e, "title"), "Untitled")
    else if kind == "TASK_UPDATED" then
      if Truthy(Meta(e, "from")) && Truthy(Meta(e, "to"))
      then "Task updated: " + Meta(e, "from").value + Arrow + Meta(e, "to").value
      else "Task updated"
    else if kind == "TASK_MOVED" then "Task moved: " + OrElse(Meta(e, "from"), "?") + Arrow + OrElse(Meta(e, "to"), "?")
    else if kind == "TASK_ARCHIVED" then "Task archived: " + OrElse(Meta(e, "title"), "Untitled")
    else if kind == "TASK_ASSIGNED" then "Task assigned"
    else "Activity update"
  }

  /** The generic message is used exactly for types outside the five. */
  lemma ActivityMessageFallbackIff(e: LiveEvent)
    ensures ActivityMessage(e) == "Activity update" <==> e.kind.None? || ParseEventType(e.kind.value).None?
  {
    var m := ActivityMessage(e);
    if e.kind.Some? && ParseEventType(e.kind.value).Some? {
      assert m[0] == 'T';
    }
  }

  /** Lines 48-55: an assignment of the current user to a task, which `task-assigned`
      already reported. */
  predicate SelfAssignment(e: LiveEvent, user: Option<Id>) {
    && e.kind == Some("TASK_ASSIGNED") && Truthy(Meta(e, "userId")) && Truthy(user)
    && Meta(e, "userId").value == user.value
  }

  /** `handleActivity` (lines 45-84): events without a type and the user's own assignment
      are ignored; otherwise an unread item with the event's message goes in front. */
  function OnActivity(items: seq<Notification>, user: Option<Id>, e: LiveEvent, now: nat, nowIso: string): seq<Notification> {
    if !Truthy(e.kind) || SelfAssignment(e, user) then items
    else
      var source := if Truthy(e.eventId) then e.eventId.value else Interpolate(e.entityId);
      Prepend(items, Notification(source + "-" + Digits(now), e.kind.value, ActivityMessage(e),
                                  if Truthy(e.createdAt) then e.createdAt.value else nowIso, false, None, None))
  }

  /** An event without a type, or reporting the user's own assignment, is dropped;
      any other becomes the first item, unread, of its type and with its message, and at
      most fifty items are kept, the newest first. */
  lemma OnActivitySpec(items: seq<Notification>, user: Option<Id>, e: LiveEvent, now: nat, nowIso: string)
    ensures !Truthy(e.kind) || SelfAssignment(e, user) ==> OnActivity(items, user, e, now, nowIso) == items
    ensures var r := OnActivity(items, user, e, now, nowIso);
            Truthy(e.kind) && !SelfAssignment(e, user) ==>
              && |r| <= Cap && r[0].kind == e.kind.value && r[0].message == ActivityMessage(e) && !r[0].read
              && r[1..] == items[..|r| - 1]
  {
  }

  /** A task-assigned payload with a title becomes the first item, unread, with the
      assignment message; one without a title changes nothing. */
  lemma OnAssignedSpec(items: seq<Notification>, payload: AssignedPayload, now: nat, nowIso: string)
    ensures !Truthy(payload.title) ==> OnAssigned(items, payload, now, nowIso) == items
    ensures var r := OnAssigned(items, payload, now, nowIso);
            Truthy(payload.title) ==>
              && |r| <= Cap && r[0].kind == "TASK_ASSIGNED" && !r[0].read
              && r[0].message == "You were assigned: " + payload.title.value
              && r[1..] == items[..|r| - 1]
  {
  }

  /** The move `updateTask` logs arrives as "Task moved: <old> → <new>". */
  lemma MovedEventMessage(e: ActivityEvent, createdAt: string, from: string, to: string)
    requires e.kind == TASK_MOVED && e.metadata == map["from" := from, "to" := to] && from != "" && to != ""
    ensures ActivityMessage(AsLiveEvent(e, createdAt)) == "Task moved: " + from + Arrow + to
  {
  }

  /** The creation `createTask` logs arrives as "Task created: <title>". */
  lemma CreatedEventMessage(e: ActivityEvent, createdAt: string, title: string)
    requires e.kind == TASK_CREATED && e.metadata == map["title" := title] && title != ""
    ensures ActivityMessage(AsLiveEvent(e, createdAt)) == "Task created: " + title
  {
  }

  function IsUnread(n: Notification): bool {
    !n.read
  }

  /** `unreadCount` (lines 116-119). */
  function UnreadCount(items: seq<Notification>): nat {
    |Filter(items, IsUnread)|
  }

  /** The number of unread items, counted one by one. */
  ghost function CountUnread(items: seq<Notification>): nat {
    if items == [] then 0 else (if items[0].read then 0 else 1) + CountUnread(items[1..])
  }

  lemma {:induction false} UnreadCountIsCount(items: seq<Notification>)
    ensures UnreadCount(items) == CountUnread(items)
  {
    if items != [] {
      UnreadCountIsCount(items[1..]);
      assert Filter(items, IsUnread) == (if IsUnread(items[0]) then [items[0]] else []) + Filter(items[1..], IsUnread);
    }
  }

  /** `filteredItems`: every item for ALL, otherwise the items of that type in order. */
  function FilterItems(items: seq<Notification>, filter: string): (r: seq<Notification>)
    ensures filter == "ALL" ==> r == items
    ensures filter != "ALL" ==> forall n :: n in r <==> n in items && n.kind == filter
    ensures |r| <= |items|
  {
    if filter == "ALL" then items else Filter(items, (n: Notification) => n.kind == filter)
  }

  /** `markAllRead`. */
  function MarkAllRead(items: seq<Notification>): seq<Notification> {
    Map(items, (n: Notification) => n.(read := true))
  }

  /** Marking all read keeps the length, the order and every other field, leaves no
      unread item, and doing it twice is doing it once. */
  lemma MarkAllReadSpec(items: seq<Notification>)
    ensures |MarkAllRead(items)| == |items|
    ensures forall k :: 0 <= k < |items| ==> MarkAllRead(items)[k] == items[k].(read := true)
    ensures UnreadCount(MarkAllRead(items)) == 0
    ensures MarkAllRead(MarkAllRead(items)) == MarkAllRead(items)
  {
    var r := MarkAllRead(items);
    UnreadCountIsCount(r);
    AllReadCountsZero(r);
  }

  lemma {:induction false} AllReadCountsZero(items: seq<Notification>)
    requires forall k :: 0 <= k < |items| ==> items[k].read
    ensures CountUnread(items) == 0
  {
    if items != [] {
      AllReadCountsZero(items[1..]);
    }
  }

  /** `markRead(id)`. */
  function MarkRead(items: seq<Notification>, id: string): seq<Notification> {
    Map(items, (n: Notification) => if n.id == id then n.(read := true) else n)
  }

  /** Only the items with that id change, and only in becoming read; so the unread count
      never grows. */
  lemma MarkReadSpec(items: seq<Notification>, id: string)
    ensures |MarkRead(items, id)| == |items|
    ensures forall k :: 0 <= k < |items| && items[k].id != id ==> MarkRead(items, id)[k] == items[k]
    ensures forall k :: 0 <= k < |items| && items[k].id == id ==> MarkRead(items, id)[k] == items[k].(read := true)
    ensures UnreadCount(MarkRead(items, id)) <= UnreadCount(items)
  {
    UnreadCountIsCount(items);
    UnreadCountIsCount(MarkRead(items, id));
    CountUnreadPointwise(items, MarkRead(items, id));
  }

  lemma {:induction false} CountUnreadPointwise(a: seq<Notification>, b: seq<Notification>)
    requires |a| == |b| && forall k :: 0 <= k < |a| && a[k].read ==> b[k].read
    ensures CountUnread(b) <= CountUnread(a)
  {
    if a != [] {
      CountUnreadPointwise(a[1..], b[1..]);
    }
  }

  /** `formatTimeAgo` (lines 12-24). `iso` is the stored timestamp, and `elapsed` is
      `Date.now() - new Date(iso).getTime()` in whole milliseconds, None when the date
      does not parse. */
  function FormatTimeAgo(iso: Option<string>, elapsed: Option<int>): string {
    if !Truthy(iso) || elapsed.None? then ""
    else
      var seconds := elapsed.value / 1000;
      if seconds < 60 then "just now"
      else
        var minutes := seconds / 60;
        if minutes < 60 then Digits(minutes) + "m ago"
        else
          var hours := minutes / 60;
          if hours < 24 then Digits(hours) + "h ago"
          else Digits(hours / 24) + "d ago"
  }

  const Minute: nat := 60 * 1000
  const Hour: nat := 60 * Minute
  const Day: nat := 24 * Hour

  /** The buckets in milliseconds: under a minute (a time in the future included) is
      "just now", then whole minutes below an hour, whole hours below a day, whole days. */
  lemma FormatTimeAgoBuckets(iso: string, d: int)
    requires iso != ""
    ensures d < Minute ==> FormatTimeAgo(Some(iso), Some(d)) == "just now"
    ensures Minute <= d < Hour ==> FormatTimeAgo(Some(iso), Some(d)) == Digits(d / Minute) + "m ago"
    ensures Hour <= d < Day ==> FormatTimeAgo(Some(iso), Some(d)) == Digits(d / Hour) + "h ago"
    ensures Day <= d ==> FormatTimeAgo(Some(iso), Some(d)) == Digits(d / Day) + "d ago"
  {
    assert d / 1000 / 60 == d / Minute;
    assert d / Minute / 60 == d / Hour;
    assert d / Hour / 24 == d / Day;
  }

  /** The notification center's state: the item list and the chosen tab. */
  class Center {
    var items: seq<Notification>
    var filter: string
    const user: Option<Id>

    constructor (user: Option<Id>)
      ensures items == [] && filter == "ALL" && this.user == user
    {
      items, filter := [], "ALL";
      this.user := user;
    }

    method HandleAssigned(payload: AssignedPayload, now: nat, nowIso: string)
      modifies this
      ensures items == OnAssigned(old(items), payload, now, nowIso) && filter == old(filter)
    {
      if !Truthy(payload.title) {
        return;
      }
      var item := Notification(Interpolate(payload.taskId) + "-" + Digits(now), "TASK_ASSIGNED",
                               "You were assigned: " + payload.title.value, nowIso, false, None, None);
      items := Prepend(items, item);
    }

    method HandleActivity(e: LiveEvent, now: nat, nowIso: string)
      modifies this
      ensures items == OnActivity(old(items), user, e, now, nowIso) && filter == old(filter)
    {
      if !Truthy(e.kind) {
        return;
      }
      if SelfAssignment(e, user) {
        return;
      }
      var message := ActivityMessage(e);
      var source := if Truthy(e.eventId) then e.eventId.value else Interpolate(e.entityId);
      var createdAt := if Truthy(e.createdAt) then e.createdAt.value else nowIso;
      var item := Notification(source + "-" + Digits(now), e.kind.value, message, createdAt, false, None, None);
      items := Prepend(items, item);
    }

    /** The effect of lines 94-106, run once on mount: `parsed` is the stored array, or
        None when there is none, it does not parse or it is not an array. */
    method LoadFromStorage(parsed: Option<seq<Notification>>)
      modifies this
      ensures parsed.Some? ==> items == parsed.value
      ensures parsed.None? ==> items == old(items)
      ensures filter == old(filter)
    {
      if parsed.Some? {
        items := parsed.value;
      }
    }

    /** The tab buttons (line 212). */
    method SetFilter(f: string)
      modifies this
      ensures filter == f && items == old(items)
    {
      filter := f;
    }

    method MarkAllItemsRead()
      modifies this
      ensures items == MarkAllRead(old(items)) && filter == old(filter)
    {
      items := MarkAllRead(items);
    }

    method ClearAll()
      modifies this
      ensures items == [] && filter == old(filter)
    {
      items := [];
    }

    method MarkItemRead(id: string)
      modifies this
      ensures items == MarkRead(old(items), id) && filter == old(filter)
    {
      items := MarkRead(items, id);
    }
  }
}
