/** The document store behind the controllers: the collections, the socket outbox, and
    one monotone clock that stamps every insert with its `createdAt` and its id. */
module Store {
  import opened Base
  import opened Http
  import opened Text
  import opened TaskModel
  import opened WorkspaceModel
  import opened BoardModel
  import opened ActivityModel
  import opened Seqs

  /** One `io.to(room).emit(name, event)` call, recorded instead of delivered. */
  datatype Emission = Emission(room: string, name: string, event: ActivityEvent)

  /** A snapshot of the store. `users` are the ids of the registered users. */
  datatype DbState = DbState(
    users: set<Id>,
    workspaces: seq<Workspace>,
    boards: seq<Board>,
    tasks: seq<Task>,
    events: seq<ActivityEvent>,
    outbox: seq<Emission>,
    clock: nat)

  /** What a handler leaves behind: the new store and the answer it sent. */
  datatype Outcome<T> = Outcome(state: DbState, response: Response<T>)

  /** The id the next inserted document receives. */
  function NextId(s: DbState): Id {
    Digits(s.clock)
  }

  function WorkspaceStamp(w: Workspace): nat { w.createdAt }
  function WorkspaceKey(w: Workspace): Id { w.id }
  function BoardStamp(b: Board): nat { b.createdAt }
  function BoardKey(b: Board): Id { b.id }
  function TaskStamp(t: Task): nat { t.createdAt }
  function TaskKey(t: Task): Id { t.id }
  function EventStamp(e: ActivityEvent): nat { e.createdAt }
  function EventKey(e: ActivityEvent): Id { e.id }

  /** Every document was inserted before `clock` and carries the id of its stamp, and the
      collection is in insertion order. */
  ghost predicate Stamped<T>(s: seq<T>, stamp: T -> nat, key: T -> Id, clock: nat) {
    && (forall i :: 0 <= i < |s| ==> stamp(s[i]) < clock && key(s[i]) == Digits(stamp(s[i])))
    && (forall i, j :: 0 <= i < j < |s| ==> stamp(s[i]) < stamp(s[j]))
  }

  /** Each board's `order` is the number of boards of its workspace created before it. */
  ghost predicate DenseOrders(boards: seq<Board>) {
    forall i :: 0 <= i < |boards| ==> boards[i].order == CountIn(boards[..i], boards[i].workspaceId)
  }

  /** What the controllers keep true of the store. */
  ghost predicate Consistent(s: DbState) {
    && Stamped(s.workspaces, WorkspaceStamp, WorkspaceKey, s.clock)
    && Stamped(s.boards, BoardStamp, BoardKey, s.clock)
    && Stamped(s.tasks, TaskStamp, TaskKey, s.clock)
    && Stamped(s.events, EventStamp, EventKey, s.clock)
    && DenseOrders(s.boards)
  }

  /** The store's collections, updated in place by the controllers. */
  class Db {
    var users: set<Id>
    var workspaces: seq<Workspace>
    var boards: seq<Board>
    var tasks: seq<Task>
    var events: seq<ActivityEvent>
    var outbox: seq<Emission>
    var clock: nat

    constructor (users: set<Id>)
      ensures State() == DbState(users, [], [], [], [], [], 0)
      ensures Consistent(State())
    {
      this.users := users;
      workspaces, boards, tasks, events, outbox, clock := [], [], [], [], [], 0;
    }

    function State(): DbState
      reads this
    {
      DbState(users, workspaces, boards, tasks, events, outbox, clock)
    }
  }

  /** Appending a document stamped with the current clock, then advancing the clock. */
  lemma StampedAppend<T>(s: seq<T>, x: T, stamp: T -> nat, key: T -> Id, clock: nat)
    requires Stamped(s, stamp, key, clock)
    requires stamp(x) == clock && key(x) == Digits(clock)
    ensures Stamped(s + [x], stamp, key, clock + 1)
  {
  }

  /** Advancing the clock keeps every collection stamped. */
  lemma StampedTick<T>(s: seq<T>, stamp: T -> nat, key: T -> Id, clock: nat, later: nat)
    requires Stamped(s, stamp, key, clock) && clock <= later
    ensures Stamped(s, stamp, key, later)
  {
  }

  /** Replacing a document by one with the same id and stamp. */
  lemma StampedUpdate<T>(s: seq<T>, i: int, x: T, stamp: T -> nat, key: T -> Id, clock: nat)
    requires Stamped(s, stamp, key, clock) && 0 <= i < |s|
    requires stamp(x) == stamp(s[i]) && key(x) == key(s[i])
    ensures Stamped(s[i := x], stamp, key, clock)
  {
  }

  /** Ids in a stamped collection are unique, and differ from the next id handed out. */
  lemma StampedKeys<T>(s: seq<T>, stamp: T -> nat, key: T -> Id, clock: nat)
    requires Stamped(s, stamp, key, clock)
    ensures forall i, j :: 0 <= i < |s| && 0 <= j < |s| && i != j ==> key(s[i]) != key(s[j])
    ensures forall i :: 0 <= i < |s| ==> key(s[i]) != Digits(clock)
  {
    forall i, j | 0 <= i < |s| && 0 <= j < |s| && i != j ensures key(s[i]) != key(s[j]) {
      if key(s[i]) == key(s[j]) {
        DigitsInjective(stamp(s[i]), stamp(s[j]));
      }
    }
    forall i | 0 <= i < |s| ensures key(s[i]) != Digits(clock) {
      if key(s[i]) == Digits(clock) {
        DigitsInjective(stamp(s[i]), clock);
      }
    }
  }

  /** A board whose order is the current count of its workspace keeps the orders dense. */
  lemma DenseAppend(boards: seq<Board>, b: Board)
    requires DenseOrders(boards)
    requires b.order == CountIn(boards, b.workspaceId)
    ensures DenseOrders(boards + [b])
  {
    var t := boards + [b];
    forall i | 0 <= i < |t| ensures t[i].order == CountIn(t[..i], t[i].workspaceId) {
      if i < |boards| {
        assert t[..i] == boards[..i];
      } else {
        assert t[..i] == boards;
      }
    }
  }

  /** Dense orders hold of every prefix of the board collection. */
  lemma DensePrefix(boards: seq<Board>, n: nat)
    requires DenseOrders(boards) && n <= |boards|
    ensures DenseOrders(boards[..n])
  {
    var pre := boards[..n];
    forall i | 0 <= i < |pre| ensures pre[i].order == CountIn(pre[..i], pre[i].workspaceId) {
      assert pre[..i] == boards[..i];
    }
  }

  /** Under dense orders the k-th board of a workspace, in store order, has order k. */
  lemma {:induction false} DenseIndices(boards: seq<Board>, w: Id)
    requires DenseOrders(boards)
    ensures forall k :: 0 <= k < |BoardsOf(boards, w)| ==> BoardsOf(boards, w)[k].order == k
    decreases |boards|
  {
    if boards != [] {
      var n := |boards| - 1;
      var pre := boards[..n];
      var last := boards[n];
      assert boards == pre + [last];
      DensePrefix(boards, n);
      DenseIndices(pre, w);
      BoardsOfSnoc(pre, last, w);
      var before := BoardsOf(pre, w);
      var all := BoardsOf(boards, w);
      if last.workspaceId == w {
        assert last.order == CountIn(pre, w);
        CountInIsQueryLength(pre, w);
        IndicesSnoc(before, last);
      }
    }
  }

  /** Adding a board at the end adds it at the end of its own workspace's boards only. */
  lemma BoardsOfSnoc(pre: seq<Board>, last: Board, w: Id)
    ensures BoardsOf(pre + [last], w) == BoardsOf(pre, w) + (if last.workspaceId == w then [last] else [])
  {
    var p := InWorkspace(w);
    assert [last][1..] == [];
    assert Filter([last], p) == (if p(last) then [last] else []) + Filter([last][1..], p);
    FilterAppend(pre, [last], p);
  }

  /** Orders that count up from 0 still do after a board whose order is the length. */
  lemma IndicesSnoc(before: seq<Board>, last: Board)
    requires forall k :: 0 <= k < |before| ==> before[k].order == k
    requires last.order == |before|
    ensures forall k :: 0 <= k < |before + [last]| ==> (before + [last])[k].order == k
  {
  }
}
