/** The board handlers: insert at the end of the workspace's order, and list by order. */
module BoardController {
  import opened Base
  import opened Text
  import opened Seqs
  import opened Http
  import opened BoardModel
  import opened Store

  /** The `{ order: 1 }` sort key. */
  function ByOrder(b: Board): int {
    b.order
  }

  /** `getBoards`: the workspace's boards in ascending `order`. */
  function GetBoards(boards: seq<Board>, workspaceId: Id): (r: seq<Board>)
    ensures forall i :: 0 <= i < |r| ==> r[i] in boards && r[i].workspaceId == workspaceId
    ensures forall i :: 0 <= i < |boards| && boards[i].workspaceId == workspaceId ==> boards[i] in r
    ensures multiset(r) == multiset(BoardsOf(boards, workspaceId))
    ensures forall i, j :: 0 <= i < j < |r| ==> r[i].order <= r[j].order
  {
    var found := BoardsOf(boards, workspaceId);
    var r := SortBy(found, ByOrder);
    SameElements(r, found);
    r
  }

  /** `createBoard`: the new board's order is the number of boards its workspace already
      has. A missing or blank name throws out of the handler. */
  function CreateBoardTx(s: DbState, workspaceId: Id, name: Option<string>): (r: Outcome<Board>)
    ensures (name.None? || Trim(name.value) == "") <==> r == Outcome(s, Unhandled)
    ensures r.response.Json? ==>
              && r.response.status == 201
              && r.response.body == Board(NextId(s), workspaceId, Trim(name.value), |BoardsOf(s.boards, workspaceId)|, s.clock)
              && r.state == s.(boards := s.boards + [r.response.body], clock := s.clock + 1)
    ensures r.response.Json? || r.response.Unhandled?
  {
    CountInIsQueryLength(s.boards, workspaceId);
    match MakeBoard(NextId(s), workspaceId, name, CountIn(s.boards, workspaceId), s.clock)
    case Err(_) => Outcome(s, Unhandled)
    case Ok(b) => Outcome(s.(boards := s.boards + [b], clock := s.clock + 1), Json(201, b))
  }

  /** Lines 4-19 step by step: count, then insert. */
  method CreateBoard(db: Db, workspaceId: Id, name: Option<string>) returns (response: Response<Board>)
    modifies db
    ensures Outcome(db.State(), response) == CreateBoardTx(old(db.State()), workspaceId, name)
  {
    var boardCount := CountIn(db.boards, workspaceId);
    var created := MakeBoard(Digits(db.clock), workspaceId, name, boardCount, db.clock);
    if created.Err? {
      return Unhandled;
    }
    db.boards := db.boards + [created.value];
    db.clock := db.clock + 1;
    response := Json(201, created.value);
  }

  /** Creating a board keeps the store consistent, orders included. */
  lemma CreateBoardConsistent(s: DbState, workspaceId: Id, name: Option<string>)
    requires Consistent(s)
    ensures Consistent(CreateBoardTx(s, workspaceId, name).state)
  {
    var r := CreateBoardTx(s, workspaceId, name);
    if r.response.Json? {
      var b := r.response.body;
      CountInIsQueryLength(s.boards, workspaceId);
      DenseAppend(s.boards, b);
      StampedAppend(s.boards, b, BoardStamp, BoardKey, s.clock);
      StampedTick(s.workspaces, WorkspaceStamp, WorkspaceKey, s.clock, r.state.clock);
      StampedTick(s.tasks, TaskStamp, TaskKey, s.clock, r.state.clock);
      StampedTick(s.events, EventStamp, EventKey, s.clock, r.state.clock);
    }
  }

  /** Creating a board in one workspace leaves every other workspace's boards as they were. */
  lemma CreateBoardLeavesOthers(s: DbState, workspaceId: Id, name: Option<string>, other: Id)
    requires other != workspaceId
    ensures BoardsOf(CreateBoardTx(s, workspaceId, name).state.boards, other) == BoardsOf(s.boards, other)
  {
    var r := CreateBoardTx(s, workspaceId, name);
    if r.response.Json? {
      var b := r.response.body;
      var p := InWorkspace(other);
      FilterAppend(s.boards, [b], p);
      assert [b][1..] == [];
      assert Filter([b], p) == [] + Filter([b][1..], p);
    }
  }

  /** In a consistent store the boards of a workspace carry the orders 0 .. n-1 in creation
      order, so the listing is that creation order and no two boards share an order. */
  lemma BoardOrdersDense(s: DbState, workspaceId: Id)
    requires Consistent(s)
    ensures var created := BoardsOf(s.boards, workspaceId);
            && (forall k :: 0 <= k < |created| ==> created[k].order == k)
            && GetBoards(s.boards, workspaceId) == created
  {
    var created := BoardsOf(s.boards, workspaceId);
    DenseIndices(s.boards, workspaceId);
    assert SortedBy(created, ByOrder);
    SortBySorted(created, ByOrder);
  }
}
