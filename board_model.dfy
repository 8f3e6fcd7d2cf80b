/** The Board schema: a named, ordered column set inside one workspace. */
module BoardModel {
  import opened Base
  import opened Text
  import opened Seqs

  /** A stored board; `order` is its position key and `createdAt` the store's clock. */
  datatype Board = Board(id: Id, workspaceId: Id, name: string, order: int, createdAt: nat)

  /** `Board.create`: the name is trimmed and required; workspace and order always given. */
  function MakeBoard(id: Id, workspaceId: Id, name: Option<string>, order: int, createdAt: nat): (r: Result<Board, ValidationError>)
    ensures r.Ok? <==> name.Some? && Trim(name.value) != ""
    ensures r.Ok? ==> r.value == Board(id, workspaceId, Trim(name.value), order, createdAt)
  {
    if name.None? || Trim(name.value) == "" then Err(Missing("name"))
    else Ok(Board(id, workspaceId, Trim(name.value), order, createdAt))
  }

  /** The `{ workspaceId }` query on the board collection: the boards of w, in store order. */
  function BoardsOf(boards: seq<Board>, w: Id): (r: seq<Board>)
    ensures forall i :: 0 <= i < |r| ==> r[i] in boards && r[i].workspaceId == w
    ensures forall i :: 0 <= i < |boards| && boards[i].workspaceId == w ==> boards[i] in r
  {
    Filter(boards, InWorkspace(w))
  }

  function InWorkspace(w: Id): Board -> bool {
    (b: Board) => b.workspaceId == w
  }

  /** `Board.countDocuments({ workspaceId: w })`. */
  function CountIn(boards: seq<Board>, w: Id): nat
    decreases |boards|
  {
    if boards == [] then 0
    else CountIn(boards[..|boards| - 1], w) + (if boards[|boards| - 1].workspaceId == w then 1 else 0)
  }

  /** The count is the length of the query's result. */
  lemma {:induction false} CountInIsQueryLength(boards: seq<Board>, w: Id)
    ensures CountIn(boards, w) == |BoardsOf(boards, w)|
    decreases |boards|
  {
    if boards != [] {
      var n := |boards| - 1;
      var last := boards[n];
      assert boards == boards[..n] + [last];
      CountInIsQueryLength(boards[..n], w);
      assert [last][1..] == [];
      assert Filter([last], InWorkspace(w)) == (if last.workspaceId == w then [last] else []) + Filter([last][1..], InWorkspace(w));
      FilterAppend(boards[..n], [last], InWorkspace(w));
    }
  }
}
