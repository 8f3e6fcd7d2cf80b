/** `getActivityFeed`: the 50 newest events of one workspace. */
module ActivityController {
  import opened Base
  import opened Seqs
  import opened Http
  import opened ActivityModel

  const FeedLimit: nat := 50
  const FeedFailed: string := "Failed to fetch activity feed"

  /** The `{ workspaceId }` query. */
  function OfWorkspace(workspaceId: Id): ActivityEvent -> bool {
    (e: ActivityEvent) => e.workspaceId == workspaceId
  }

  /** The `{ createdAt: -1 }` sort key. */
  function NewestFirst(e: ActivityEvent): int {
    -(e.createdAt as int)
  }

  /** All of the workspace's events, newest first. */
  function FeedOrder(events: seq<ActivityEvent>, workspaceId: Id): (r: seq<ActivityEvent>)
    ensures multiset(r) == multiset(Filter(events, OfWorkspace(workspaceId)))
    ensures forall i :: 0 <= i < |r| ==> r[i] in events && r[i].workspaceId == workspaceId
    ensures forall i, j :: 0 <= i < j < |r| ==> r[i].createdAt >= r[j].createdAt
  {
    var found := Filter(events, OfWorkspace(workspaceId));
    var r := SortBy(found, NewestFirst);
    SameElements(r, found);
    r
  }

  /** The handler: find, sort, limit; a failed query answers 500. `dbOk` says whether the
      query succeeds. */
  function GetActivityFeed(events: seq<ActivityEvent>, workspaceId: Id, dbOk: bool): (r: Response<seq<ActivityEvent>>)
    ensures !dbOk <==> r == Fail(Reply(500, FeedFailed))
    ensures dbOk ==> && r.Json? && r.status == 200 && |r.body| <= FeedLimit
                     && (forall i :: 0 <= i < |r.body| ==> r.body[i] in events && r.body[i].workspaceId == workspaceId)
                     && (forall i, j :: 0 <= i < j < |r.body| ==> r.body[i].createdAt >= r.body[j].createdAt)
                     && r.body == Take(FeedOrder(events, workspaceId), FeedLimit)
  {
    if !dbOk then Fail(Reply(500, FeedFailed))
    else Json(200, Take(FeedOrder(events, workspaceId), FeedLimit))
  }

  /** The feed keeps the newest events: one of the workspace's events that is left out is
      no newer than anything shown. */
  lemma FeedHoldsNewest(events: seq<ActivityEvent>, workspaceId: Id, e: ActivityEvent)
    requires e in events && e.workspaceId == workspaceId
    requires e !in GetActivityFeed(events, workspaceId, true).body
    ensures var feed := GetActivityFeed(events, workspaceId, true).body;
            |feed| == FeedLimit && forall i :: 0 <= i < |feed| ==> feed[i].createdAt >= e.createdAt
  {
    var sorted := FeedOrder(events, workspaceId);
    var feed := GetActivityFeed(events, workspaceId, true).body;
    var found := Filter(events, OfWorkspace(workspaceId));
    var n :| 0 <= n < |events| && events[n] == e;
    assert e in found;
    assert e in multiset(sorted);
    var m :| 0 <= m < |sorted| && sorted[m] == e;
    assert m >= FeedLimit;
    assert feed == sorted[..FeedLimit];
  }

  /** A workspace with at most 50 events gets all of them. */
  lemma SmallFeedComplete(events: seq<ActivityEvent>, workspaceId: Id)
    requires |Filter(events, OfWorkspace(workspaceId))| <= FeedLimit
    ensures multiset(GetActivityFeed(events, workspaceId, true).body) == multiset(Filter(events, OfWorkspace(workspaceId)))
  {
    var sorted := FeedOrder(events, workspaceId);
    assert |sorted| == |multiset(sorted)|;
  }
}
