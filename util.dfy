/** The client's board constructor (gogo/src/util.js): the row/column table the stone-play routine reads,
    keyed by the decimal strings "0".."18", together with a 19 x 19 template of nulls for rendering. */
module Util {
  import opened Strconv
  import opened Gameplay

  /** JavaScript's null, the only value the template holds. */
  datatype Null = Null

  /** The keys of the first n indices. */
  ghost function Prefix(n: int): set<string> {
    set i | 0 <= i < n :: Itoa(i)
  }

  /** The keys "0".."18". */
  ghost function BoardIndices(): set<string> {
    Prefix(19)
  }

  /** A row whose keys are exactly `keys`, each mapped to "e". */
  ghost predicate EmptyRow(row: map<string, Mark>, keys: set<string>) {
    row.Keys == keys && forall k | k in row :: row[k] == Empty
  }

  /** The table a stone-play reads: 19 row keys, each row with all 19 column keys, every cell "e". */
  ghost predicate IsEmptyTable(board: map<string, map<string, Mark>>) {
    board.Keys == BoardIndices() && forall rk | rk in board :: EmptyRow(board[rk], BoardIndices())
  }

  lemma PrefixStep(n: int)
    requires n >= 0
    ensures Prefix(n + 1) == Prefix(n) + {Itoa(n)}
  {
    assert forall s | s in Prefix(n + 1) :: s in Prefix(n) + {Itoa(n)};
  }

  /** Starting row i with an empty object keeps the finished rows. */
  lemma RowStart(board: map<string, map<string, Mark>>, i: nat)
    requires board.Keys == Prefix(i)
    requires forall rk | rk in board :: EmptyRow(board[rk], BoardIndices())
    ensures var next := board[Itoa(i) := map[]];
      next.Keys == Prefix(i) + {Itoa(i)} && EmptyRow(next[Itoa(i)], Prefix(0)) &&
      forall rk | rk in next && rk != Itoa(i) :: EmptyRow(next[rk], BoardIndices())
  {
    assert Prefix(0) == {};
  }

  /** Once its 19 columns are set, row i is finished too. */
  lemma RowDone(board: map<string, map<string, Mark>>, i: nat)
    requires board.Keys == Prefix(i) + {Itoa(i)} && EmptyRow(board[Itoa(i)], Prefix(19))
    requires forall rk | rk in board && rk != Itoa(i) :: EmptyRow(board[rk], BoardIndices())
    ensures board.Keys == Prefix(i + 1)
    ensures forall rk | rk in board :: EmptyRow(board[rk], BoardIndices())
  {
    PrefixStep(i);
  }

  /** Setting the next column of the row being filled keeps the other rows and extends the filled prefix. */
  lemma FillStep(board: map<string, map<string, Mark>>, rowKey: string, y: nat)
    requires rowKey in board && EmptyRow(board[rowKey], Prefix(y))
    requires forall rk | rk in board && rk != rowKey :: EmptyRow(board[rk], BoardIndices())
    ensures var next := board[rowKey := board[rowKey][Itoa(y) := Empty]];
      next.Keys == board.Keys && EmptyRow(next[rowKey], Prefix(y + 1)) &&
      forall rk | rk in next && rk != rowKey :: EmptyRow(next[rk], BoardIndices())
  {
    PrefixStep(y);
  }

  /** makeBoard: a template of 19 rows of 19 nulls, and for each row index i and column index y of the
      template the cell board[i.toString()][y.toString()] set to "e". */
  method MakeBoard() returns (board: map<string, map<string, Mark>>, boardTemplate: seq<seq<Null>>)
    ensures IsEmptyTable(board)
    ensures |boardTemplate| == 19 && forall i | 0 <= i < 19 :: boardTemplate[i] == seq(19, _ => Null)
  {
    board := map[];
    boardTemplate := seq(19, _ => seq(19, _ => Null));
    var i := 0;
    while i < |boardTemplate|
      invariant 0 <= i <= |boardTemplate|
      invariant board.Keys == Prefix(i)
      invariant forall rk | rk in board :: EmptyRow(board[rk], BoardIndices())
    {
      var rowKey := Itoa(i);
      RowStart(board, i);
      board := board[rowKey := map[]];
      var row := boardTemplate[i];
      var y := 0;
      while y < |row|
        invariant 0 <= y <= |row|
        invariant board.Keys == Prefix(i) + {rowKey}
        invariant forall rk | rk in board && rk != rowKey :: EmptyRow(board[rk], BoardIndices())
        invariant EmptyRow(board[rowKey], Prefix(y))
      {
        var squareKey := Itoa(y);
        FillStep(board, rowKey, y);
        board := board[rowKey := board[rowKey][squareKey := Empty]];
        y := y + 1;
      }
      RowDone(board, i);
      i := i + 1;
    }
  }

  /** A string is a key of the table exactly when the stone-play routine's parser names a cell with it. */
  lemma BoardIndicesAreKeyIndices(s: string)
    ensures s in BoardIndices() <==> KeyIndex(s).Some?
  {
    if s in BoardIndices() {
      var i :| 0 <= i < 19 && s == Itoa(i);
      KeyIndexItoa(i);
    }
  }

  /** board[rs][cs] the way Go reads the table: "" when either key is missing. */
  function Read(board: map<string, map<string, Mark>>, rs: string, cs: string): Mark {
    if rs in board && cs in board[rs] then board[rs][cs] else Absent
  }

  /** Read on the new table agrees with Lookup on an all-"e" board array: "e" at the keys of the 19 x 19
      cells and "" anywhere else, so no row of it is sparse. */
  lemma EmptyTableReads(board: map<string, map<string, Mark>>, rs: string, cs: string)
    requires IsEmptyTable(board)
    ensures Read(board, rs, cs) == if KeyIndex(rs).Some? && KeyIndex(cs).Some? then Empty else Absent
  {
    BoardIndicesAreKeyIndices(rs);
    BoardIndicesAreKeyIndices(cs);
  }
}
