/** The stone-play routine of the Go server (gameplay/gameplay.go).

    The board is the 19 x 19 row/column table the client builds; here it is an `array2<Stone>` indexed
    [row, col] with 0 <= row, col <= 18. Go reads it through string keys "0".."18" and yields "" for a key
    that is not there; `At` and `Lookup` model exactly that, with `Absent` standing for "". */
module Gameplay {
  import opened Strconv

  /** The strings a board lookup can yield: the point encodings "e", "b", "w", and Absent for the empty
      string Go returns for a missing key. */
  datatype Mark = Empty | Black | White | Absent

  /** What a board cell holds. */
  type Stone = m: Mark | m != Absent witness Empty

  predicate IsBoard(board: array2<Stone>) {
    board.Length0 == 19 && board.Length1 == 19
  }

  predicate OnBoard(r: int, c: int) {
    0 <= r <= 18 && 0 <= c <= 18
  }

  /** board[Itoa(r)][Itoa(c)]: the cell, or Absent when the key is not in the table. */
  function At(board: array2<Stone>, r: int, c: int): Mark
    reads board
  {
    if 0 <= r < board.Length0 && 0 <= c < board.Length1 then board[r, c] else Absent
  }

  /** The identity key "row:col" of a point. */
  function Key(r: int, c: int): string {
    Itoa(r) + ":" + Itoa(c)
  }

  /** Every key of an on-board cell. */
  ghost function AllKeys(): set<string> {
    set r, c | 0 <= r <= 18 && 0 <= c <= 18 :: Key(r, c)
  }

  lemma KeyParts(r: int, c: int)
    ensures Split(Key(r, c), ':') == [Itoa(r), Itoa(c)]
  {
    SplitPair(Itoa(r), Itoa(c), ':');
  }

  /** Different cells have different keys. */
  lemma KeyInjective(r: int, c: int, r': int, c': int)
    requires Key(r, c) == Key(r', c')
    ensures r == r' && c == c'
  {
    KeyParts(r, c);
    KeyParts(r', c');
    ItoaInjective(r, r');
    ItoaInjective(c, c');
  }

  /** PointState: a key, the parsed row `x` and column `y`, and the string read from the board. */
  datatype PointState = PointState(key: string, x: int, y: int, state: Mark)

  /** How parsing a point key gives up: log.Fatal on a non-integer part, or the index panic when there
      is no column part at all. */
  datatype ParseError = NotAnInteger | NoColumn

  datatype Result<+T> = Ok(value: T) | Err(error: ParseError)

  /** The index a raw key string names in the table's key space "0".."18", if any. */
  function KeyIndex(s: string): (r: Option<int>)
    ensures r.Some? ==> 0 <= r.value <= 18 && Itoa(r.value) == s && Atoi(s) == Some(r.value)
  {
    match Atoi(s)
    case Some(n) => if 0 <= n <= 18 && Itoa(n) == s then Some(n) else None
    case None => None
  }

  /** board[rs][cs] for raw strings: "" unless both are keys of the table. */
  function Lookup(board: array2<Stone>, rs: string, cs: string): Mark
    reads board
  {
    match (KeyIndex(rs), KeyIndex(cs))
    case (Some(r), Some(c)) => At(board, r, c)
    case _ => Absent
  }

  /** makePointState: split "row:col", parse both parts, and read the board with the raw parts. */
  function MakePointState(point: string, board: array2<Stone>): (r: Result<PointState>)
    reads board
    ensures r.Ok? ==> r.value.key == point
    ensures r.Ok? && r.value.state != Absent ==>
      OnBoard(r.value.x, r.value.y) && r.value.state == At(board, r.value.x, r.value.y)
  {
    var coordinates := Split(point, ':');
    match Atoi(coordinates[0])
    case None => Err(NotAnInteger)
    case Some(row) =>
      if |coordinates| < 2 then Err(NoColumn)
      else
        match Atoi(coordinates[1])
        case None => Err(NotAnInteger)
        case Some(col) => Ok(PointState(point, row, col, Lookup(board, coordinates[0], coordinates[1])))
  }

  /** Parsing the key of any cell gives back its coordinates, its key and what the board holds there. */
  lemma MakePointStateRoundTrip(r: int, c: int, board: array2<Stone>)
    requires IsBoard(board)
    ensures MakePointState(Key(r, c), board) == Ok(PointState(Key(r, c), r, c, At(board, r, c)))
  {
    KeyParts(r, c);
    AtoiItoa(r);
    AtoiItoa(c);
  }

  /** For "a:b" with colon-free parts, parsing fails exactly when a part is not an integer, and the failure is
      the fatal one. */
  lemma MakePointStatePair(a: string, b: string, board: array2<Stone>)
    requires ':' !in a && ':' !in b
    ensures MakePointState(a + ":" + b, board).Err? <==> Atoi(a).None? || Atoi(b).None?
    ensures MakePointState(a + ":" + b, board).Err? ==> MakePointState(a + ":" + b, board).error == NotAnInteger
  {
    SplitPair(a, b, ':');
  }

  /** A key without a colon never parses: an integer row still has no column to read. */
  lemma MakePointStateNoColon(a: string, board: array2<Stone>)
    requires ':' !in a
    ensures MakePointState(a, board) == Err(if Atoi(a).None? then NotAnInteger else NoColumn)
  {
    SplitNone(a, ':');
  }

  /** The point getSurroundingPoints builds for the cell it read at board[r][c]. */
  function Link(board: array2<Stone>, r: int, c: int): PointState
    reads board
  {
    PointState(Key(r, c), r, c, At(board, r, c))
  }

  /** One of the four cells getSurroundingPoints tries, with the bounds test that guards it. */
  datatype Probe = Probe(row: int, col: int, inBounds: bool)

  /** The four tries of getSurroundingPoints in their order: left reads board[y][x-1], up board[y-1][x],
      right board[y][x+1] and down board[y+1][x]. Only the decremented index is compared with 0 and only
      the incremented one with 18. As in the source this looks around the transposed cell (y, x). */
  function Probes(p: PointState): seq<Probe> {
    [Probe(p.y, p.x - 1, p.x - 1 >= 0), Probe(p.y - 1, p.x, p.y - 1 >= 0),
     Probe(p.y, p.x + 1, p.x + 1 <= 18), Probe(p.y + 1, p.x, p.y + 1 <= 18)]
  }

  /** The try succeeds: its bounds test passed and the cell read holds `state`. */
  predicate Hit(board: array2<Stone>, pr: Probe, state: Mark)
    reads board
  {
    pr.inBounds && At(board, pr.row, pr.col) == state
  }

  /** The points of the successful tries, in the order tried; each carries the row, column and key of the
      cell it read. */
  function Collect(board: array2<Stone>, probes: seq<Probe>, state: Mark): (r: seq<PointState>)
    reads board
    ensures |r| <= |probes|
  {
    if probes == [] then []
    else
      (if Hit(board, probes[0], state) then [Link(board, probes[0].row, probes[0].col)] else [])
      + Collect(board, probes[1..], state)
  }

  /** getSurroundingPoints: the cells around p that hold `state`. */
  function SurroundingPoints(p: PointState, board: array2<Stone>, state: Mark): (r: seq<PointState>)
    reads board
    ensures |r| <= 4
  {
    Collect(board, Probes(p), state)
  }

  /** A point is collected exactly when it is the point of a successful try. */
  lemma {:induction false} CollectMembers(board: array2<Stone>, probes: seq<Probe>, state: Mark, q: PointState)
    ensures q in Collect(board, probes, state) <==>
      exists i :: 0 <= i < |probes| && Hit(board, probes[i], state) && q == Link(board, probes[i].row, probes[i].col)
  {
    if probes != [] {
      CollectMembers(board, probes[1..], state, q);
      var rest := Collect(board, probes[1..], state);
      if q in rest {
        var i :| 0 <= i < |probes[1..]| && Hit(board, probes[1..][i], state) && q == Link(board, probes[1..][i].row, probes[1..][i].col);
        assert probes[i + 1] == probes[1..][i];
      }
      if exists i :: 0 <= i < |probes| && Hit(board, probes[i], state) && q == Link(board, probes[i].row, probes[i].col) {
        var i :| 0 <= i < |probes| && Hit(board, probes[i], state) && q == Link(board, probes[i].row, probes[i].col);
        if i > 0 { assert probes[1..][i - 1] == probes[i]; }
      }
    }
  }

  /** Cells one step apart, counting rows and columns. */
  predicate Adjacent(a: int, b: int, r: int, c: int) {
    (a == r && (b == c - 1 || b == c + 1)) || (b == c && (a == r - 1 || a == r + 1))
  }

  /** On a board, asking for a stone state, getSurroundingPoints returns only points that are their own
      cell's point, lie on the board, are adjacent to the transposed cell (p.y, p.x) and hold that state. */
  lemma SurroundingPointsSound(p: PointState, board: array2<Stone>, state: Mark)
    requires IsBoard(board) && state != Absent
    ensures forall q :: q in SurroundingPoints(p, board, state) ==>
      q == Link(board, q.x, q.y) && OnBoard(q.x, q.y) && Adjacent(q.x, q.y, p.y, p.x) && board[q.x, q.y] == state
  {
    forall q | q in SurroundingPoints(p, board, state)
      ensures q == Link(board, q.x, q.y) && OnBoard(q.x, q.y) && Adjacent(q.x, q.y, p.y, p.x) && board[q.x, q.y] == state
    {
      CollectMembers(board, Probes(p), state, q);
    }
  }

  /** ... and every such cell is returned. */
  lemma SurroundingPointsComplete(p: PointState, board: array2<Stone>, state: Mark, a: int, b: int)
    requires IsBoard(board) && OnBoard(a, b) && Adjacent(a, b, p.y, p.x) && board[a, b] == state
    ensures Link(board, a, b) in SurroundingPoints(p, board, state)
  {
    var probes := Probes(p);
    CollectMembers(board, probes, state, Link(board, a, b));
    if a == p.y && b == p.x - 1 {
      assert Hit(board, probes[0], state);
    } else if a == p.y - 1 && b == p.x {
      assert Hit(board, probes[1], state);
    } else if a == p.y && b == p.x + 1 {
      assert Hit(board, probes[2], state);
    } else {
      assert Hit(board, probes[3], state);
    }
  }

  /** getSurroundingPoints looks only at the coordinates of the point it is given. */
  lemma SurroundingPointsOfCoordinates(p: PointState, q: PointState, board: array2<Stone>, state: Mark)
    requires p.x == q.x && p.y == q.y
    ensures SurroundingPoints(p, board, state) == SurroundingPoints(q, board, state)
  {
    assert Probes(p) == Probes(q);
  }

  /** The transposed neighbour relation is symmetric: a point around an on-board p sees p around itself. */
  lemma SurroundingPointsSymmetric(p: PointState, q: PointState, board: array2<Stone>)
    requires IsBoard(board) && OnBoard(p.x, p.y)
    requires Adjacent(q.x, q.y, p.y, p.x)
    ensures Link(board, p.x, p.y) in SurroundingPoints(q, board, board[p.x, p.y])
  {
    SurroundingPointsComplete(q, board, board[p.x, p.y], p.x, p.y);
  }

  /** Whatever the board holds, the points returned around an on-board point are on the board, and the
      returned points are their own cells' points holding the requested state. */
  lemma SurroundingPointsInRange(p: PointState, board: array2<Stone>, state: Mark)
    requires OnBoard(p.x, p.y)
    ensures forall q :: q in SurroundingPoints(p, board, state) ==>
      OnBoard(q.x, q.y) && q == Link(board, q.x, q.y) && q.state == state
  {
    forall q | q in SurroundingPoints(p, board, state)
      ensures OnBoard(q.x, q.y) && q == Link(board, q.x, q.y) && q.state == state
    {
      CollectMembers(board, Probes(p), state, q);
    }
  }

  /** Which try, counted from 0, produced q around p. */
  function Direction(p: PointState, q: PointState): nat {
    if q.y == p.x - 1 then 0 else if q.x == p.y - 1 then 1 else if q.y == p.x + 1 then 2 else 3
  }

  predicate InDirectionOrder(p: PointState, s: seq<PointState>) {
    forall i, j :: 0 <= i < j < |s| ==> Direction(p, s[i]) < Direction(p, s[j])
  }

  lemma InDirectionOrderConcat(p: PointState, s: seq<PointState>, t: seq<PointState>, k: nat)
    requires InDirectionOrder(p, s) && InDirectionOrder(p, t)
    requires forall q :: q in s ==> Direction(p, q) < k
    requires forall q :: q in t ==> Direction(p, q) >= k
    ensures InDirectionOrder(p, s + t)
  {
    forall i, j | 0 <= i < j < |s + t| ensures Direction(p, (s + t)[i]) < Direction(p, (s + t)[j]) {
      if j < |s| {
        assert (s + t)[i] == s[i] && (s + t)[j] == s[j];
      } else if i >= |s| {
        assert (s + t)[i] == t[i - |s|] && (s + t)[j] == t[j - |s|];
      } else {
        assert (s + t)[i] in s && (s + t)[j] in t;
      }
    }
  }

  /** The points collected from the tries k..3 come in the order tried, all from try k or later. */
  lemma {:induction false} ProbesOrdered(p: PointState, board: array2<Stone>, state: Mark, k: nat)
    requires k <= 4
    ensures InDirectionOrder(p, Collect(board, Probes(p)[k..], state))
    ensures forall q :: q in Collect(board, Probes(p)[k..], state) ==> Direction(p, q) >= k
    decreases 4 - k
  {
    if k < 4 {
      ProbesOrdered(p, board, state, k + 1);
      var probes := Probes(p)[k..];
      var pr := probes[0];
      assert probes[1..] == Probes(p)[k + 1..];
      assert Direction(p, Link(board, pr.row, pr.col)) == k;
      var head := if Hit(board, pr, state) then [Link(board, pr.row, pr.col)] else [];
      InDirectionOrderConcat(p, head, Collect(board, probes[1..], state), k + 1);
    }
  }

  /** The points come in the fixed order left, up, right, down, so none comes twice. */
  lemma SurroundingPointsOrdered(p: PointState, board: array2<Stone>, state: Mark)
    ensures InDirectionOrder(p, SurroundingPoints(p, board, state))
  {
    ProbesOrdered(p, board, state, 0);
    assert Probes(p)[0..] == Probes(p);
  }

  /** oppositeOf: "w" for "b", and "b" for anything else. */
  function OppositeOf(playerColor: Mark): (r: Mark)
    ensures r == Black || r == White
    ensures playerColor == Black <==> r == White
  {
    if playerColor == Black then White else Black
  }

  /** On the two colours, oppositeOf is an involution that never returns its argument. */
  lemma OppositeOfFlips(color: Mark)
    requires color == Black || color == White
    ensures OppositeOf(color) != color && OppositeOf(OppositeOf(color)) == color
  {
  }

  /** A run of a loop that may not finish: Done with what it returned, or OutOfFuel when it was still
      looping after the allowed number of iterations. */
  datatype Run<+T> = Done(value: T) | OutOfFuel

  /** wholeThinghasNoLiberties as written. The `:=` at the head of the loop body declares a fresh
      `pointsOfThisColor` (here `inner`), so the work-list the loop tests never changes and every iteration
      looks at the seed again. The loop is allowed `fuel` iterations. It returns (false, no keys) when the
      seed has an empty neighbour, and otherwise never returns. */
  method WholeThingHasNoLibertiesAsWritten(sp: PointState, board: array2<Stone>, fuel: nat)
    returns (run: Run<(bool, set<string>)>)
    ensures run.Done? <==> fuel > 0 && |SurroundingPoints(sp, board, Empty)| > 0
    ensures run.Done? ==> run.value == (false, {})
  {
    var checkedPoints: set<string> := {};
    var hasNoLiberties := true;
    var pointsOfThisColor := [sp] + SurroundingPoints(sp, board, sp.state);
    var iterations := 0;
    while |pointsOfThisColor| > 0
      invariant iterations <= fuel
      invariant pointsOfThisColor == [sp] + SurroundingPoints(sp, board, sp.state)
      invariant hasNoLiberties
      invariant checkedPoints == if iterations == 0 then {} else {sp.key}
      invariant iterations > 0 ==> |SurroundingPoints(sp, board, Empty)| == 0
      decreases fuel - iterations
    {
      if iterations == fuel {
        return OutOfFuel;
      }
      iterations := iterations + 1;
      var poc, inner := pointsOfThisColor[0], pointsOfThisColor[..1];
      if poc.key !in checkedPoints {
        var emptyPoints := SurroundingPoints(poc, board, Empty);
        if |emptyPoints| > 0 {
          hasNoLiberties := false;
          break;
        }
        checkedPoints := checkedPoints + {poc.key};
        inner := inner + SurroundingPoints(poc, board, sp.state);
      }
    }
    return Done((hasNoLiberties, checkedPoints));
  }

  /** S holds the key of the on-board cell (r, c). */
  predicate Names(S: set<string>, r: int, c: int) {
    OnBoard(r, c) && Key(r, c) in S
  }

  /** Every cell of S that getSurroundingPoints, asked for `state`, looks around, has all the points it
      returns in S. Cells are named by their keys. */
  ghost predicate Closed(board: array2<Stone>, state: Mark, S: set<string>)
    reads board
  {
    forall r, c {:trigger SurroundingPoints(Link(board, r, c), board, state)} | Names(S, r, c) ::
      forall q | q in SurroundingPoints(Link(board, r, c), board, state) :: q.key in S
  }

  /** No cell of S has an empty neighbour. */
  ghost predicate Libertyless(board: array2<Stone>, S: set<string>)
    reads board
  {
    forall r, c {:trigger SurroundingPoints(Link(board, r, c), board, Empty)} | Names(S, r, c) ::
      |SurroundingPoints(Link(board, r, c), board, Empty)| == 0
  }

  lemma KeyInAllKeys(r: int, c: int)
    requires OnBoard(r, c)
    ensures Key(r, c) in AllKeys()
  {
  }

  /** The points waiting in the search's work-list: the seed, or same-state points read from the board,
      all on the board and keyed by their coordinates. */
  ghost predicate WorkList(board: array2<Stone>, sp: PointState, queue: seq<PointState>)
    reads board
  {
    forall q | q in queue ::
      OnBoard(q.x, q.y) && q.key == Key(q.x, q.y) && (q == sp || (q == Link(board, q.x, q.y) && q.state == sp.state))
  }

  /** The recorded keys name on-board cells that hold the seed's state (or are the seed's cell) and have no
      empty neighbour. */
  ghost predicate Examined(board: array2<Stone>, sp: PointState, checked: set<string>)
    reads board
  {
    IsBoard(board) && checked <= AllKeys() &&
    forall r, c {:trigger Names(checked, r, c)} | Names(checked, r, c) ::
      (board[r, c] == sp.state || (r == sp.x && c == sp.y)) &&
      |SurroundingPoints(Link(board, r, c), board, Empty)| == 0
  }

  /** Every same-state point around a recorded cell is recorded or still waiting. */
  ghost predicate Frontier(board: array2<Stone>, state: Mark, checked: set<string>, queue: seq<PointState>)
    reads board
  {
    forall r, c {:trigger Names(checked, r, c)} | Names(checked, r, c) ::
      forall q | q in SurroundingPoints(Link(board, r, c), board, state) :: q.key in checked || q in queue
  }

  /** Everything recorded or waiting belongs to every closed set that holds the seed. */
  ghost predicate Forced(board: array2<Stone>, sp: PointState, checked: set<string>, queue: seq<PointState>)
    reads board
  {
    forall S {:trigger Closed(board, sp.state, S)} | sp.key in S && Closed(board, sp.state, S) :: checked <= S && forall q | q in queue :: q.key in S
  }

  ghost predicate SearchInvariant(board: array2<Stone>, sp: PointState, checked: set<string>, queue: seq<PointState>)
    reads board
  {
    WorkList(board, sp, queue) && Examined(board, sp, checked) && Frontier(board, sp.state, checked, queue) &&
    Forced(board, sp, checked, queue) && (sp.key in checked || sp in queue)
  }

  lemma SearchStart(board: array2<Stone>, sp: PointState)
    requires IsBoard(board) && OnBoard(sp.x, sp.y) && sp.key == Key(sp.x, sp.y)
    ensures SearchInvariant(board, sp, {}, [sp] + SurroundingPoints(sp, board, sp.state))
  {
    var queue := [sp] + SurroundingPoints(sp, board, sp.state);
    SurroundingPointsInRange(sp, board, sp.state);
    SurroundingPointsOfCoordinates(sp, Link(board, sp.x, sp.y), board, sp.state);
    forall S | sp.key in S && Closed(board, sp.state, S)
      ensures forall q | q in queue :: q.key in S
    {
      assert Names(S, sp.x, sp.y);
    }
  }

  /** Popping a point that is already recorded keeps the invariant. */
  lemma SearchSkip(board: array2<Stone>, sp: PointState, checked: set<string>, queue: seq<PointState>)
    requires |queue| > 0 && queue[0].key in checked
    requires SearchInvariant(board, sp, checked, queue)
    ensures SearchInvariant(board, sp, checked, queue[1..])
  {
    var rest := queue[1..];
    assert forall q | q in queue :: q == queue[0] || q in rest by {
      assert queue == [queue[0]] + rest;
    }
    WorkListShrink(board, sp, queue);
    FrontierShrink(board, sp.state, checked, queue);
    ForcedShrink(board, sp, checked, queue);
  }

  lemma WorkListShrink(board: array2<Stone>, sp: PointState, queue: seq<PointState>)
    requires |queue| > 0 && WorkList(board, sp, queue)
    ensures WorkList(board, sp, queue[1..])
  {
    assert forall q | q in queue[1..] :: q in queue;
  }

  lemma FrontierShrink(board: array2<Stone>, state: Mark, checked: set<string>, queue: seq<PointState>)
    requires |queue| > 0 && queue[0].key in checked
    requires forall q | q in queue :: q == queue[0] || q in queue[1..]
    requires Frontier(board, state, checked, queue)
    ensures Frontier(board, state, checked, queue[1..])
  {
  }

  lemma ForcedShrink(board: array2<Stone>, sp: PointState, checked: set<string>, queue: seq<PointState>)
    requires |queue| > 0 && Forced(board, sp, checked, queue)
    ensures Forced(board, sp, checked, queue[1..])
  {
    assert forall q | q in queue[1..] :: q in queue;
  }

  /** Recording a popped point without empty neighbours and queueing its same-state neighbours keeps the
      invariant. */
  lemma SearchRecord(board: array2<Stone>, sp: PointState, checked: set<string>, queue: seq<PointState>)
    requires IsBoard(board) && |queue| > 0 && queue[0].key !in checked
    requires |SurroundingPoints(queue[0], board, Empty)| == 0
    requires SearchInvariant(board, sp, checked, queue)
    ensures SearchInvariant(board, sp, checked + {queue[0].key},
      queue[1..] + SurroundingPoints(queue[0], board, sp.state))
  {
    var poc := queue[0];
    assert poc in queue;
    var more := SurroundingPoints(poc, board, sp.state);
    SurroundingPointsOfCoordinates(poc, Link(board, poc.x, poc.y), board, Empty);
    SurroundingPointsOfCoordinates(poc, Link(board, poc.x, poc.y), board, sp.state);
    SurroundingPointsInRange(poc, board, sp.state);
    WorkListGrow(board, sp, queue, more);
    ExaminedGrow(board, sp, checked, poc);
    FrontierGrow(board, sp.state, checked, queue, poc);
    ForcedGrow(board, sp, checked, queue, poc);
  }

  lemma WorkListGrow(board: array2<Stone>, sp: PointState, queue: seq<PointState>, more: seq<PointState>)
    requires |queue| > 0 && WorkList(board, sp, queue)
    requires forall q | q in more :: OnBoard(q.x, q.y) && q == Link(board, q.x, q.y) && q.state == sp.state
    ensures WorkList(board, sp, queue[1..] + more)
  {
    assert forall q | q in queue[1..] :: q in queue;
  }

  lemma ExaminedGrow(board: array2<Stone>, sp: PointState, checked: set<string>, poc: PointState)
    requires Examined(board, sp, checked)
    requires OnBoard(poc.x, poc.y) && poc.key == Key(poc.x, poc.y)
    requires poc == sp || (poc == Link(board, poc.x, poc.y) && poc.state == sp.state)
    requires |SurroundingPoints(Link(board, poc.x, poc.y), board, Empty)| == 0
    ensures Examined(board, sp, checked + {poc.key})
  {
    KeyInAllKeys(poc.x, poc.y);
    forall r, c | Names(checked + {poc.key}, r, c)
      ensures (board[r, c] == sp.state || (r == sp.x && c == sp.y)) &&
        |SurroundingPoints(Link(board, r, c), board, Empty)| == 0
    {
      if Key(r, c) == poc.key {
        KeyInjective(r, c, poc.x, poc.y);
      } else {
        assert Names(checked, r, c);
      }
    }
  }

  lemma FrontierGrow(board: array2<Stone>, state: Mark, checked: set<string>, queue: seq<PointState>, poc: PointState)
    requires |queue| > 0 && poc == queue[0] && OnBoard(poc.x, poc.y) && poc.key == Key(poc.x, poc.y)
    requires SurroundingPoints(poc, board, state) == SurroundingPoints(Link(board, poc.x, poc.y), board, state)
    requires Frontier(board, state, checked, queue)
    ensures Frontier(board, state, checked + {poc.key}, queue[1..] + SurroundingPoints(poc, board, state))
  {
    var checked', queue' := checked + {poc.key}, queue[1..] + SurroundingPoints(poc, board, state);
    assert forall q | q in queue :: q == poc || q in queue[1..] by {
      assert queue == [poc] + queue[1..];
    }
    forall r, c | Names(checked', r, c)
      ensures forall q | q in SurroundingPoints(Link(board, r, c), board, state) :: q.key in checked' || q in queue'
    {
      if Key(r, c) == poc.key {
        KeyInjective(r, c, poc.x, poc.y);
      } else {
        assert Names(checked, r, c);
      }
    }
  }

  lemma ForcedGrow(board: array2<Stone>, sp: PointState, checked: set<string>, queue: seq<PointState>, poc: PointState)
    requires |queue| > 0 && poc == queue[0] && OnBoard(poc.x, poc.y) && poc.key == Key(poc.x, poc.y)
    requires SurroundingPoints(poc, board, sp.state) == SurroundingPoints(Link(board, poc.x, poc.y), board, sp.state)
    requires Forced(board, sp, checked, queue)
    ensures Forced(board, sp, checked + {poc.key}, queue[1..] + SurroundingPoints(poc, board, sp.state))
  {
    assert poc in queue;
    var queue' := queue[1..] + SurroundingPoints(poc, board, sp.state);
    forall S | sp.key in S && Closed(board, sp.state, S)
      ensures checked + {poc.key} <= S && forall q | q in queue' :: q.key in S
    {
      assert Names(S, poc.x, poc.y);
      assert forall q | q in queue[1..] :: q in queue;
    }
  }

  /** A waiting point with an empty neighbour lies in every closed set holding the seed, so none of them is
      libertyless. */
  lemma SearchLiberty(board: array2<Stone>, sp: PointState, checked: set<string>, queue: seq<PointState>)
    requires |queue| > 0 && |SurroundingPoints(queue[0], board, Empty)| > 0
    requires SearchInvariant(board, sp, checked, queue)
    ensures forall S {:trigger Closed(board, sp.state, S)} | sp.key in S && Closed(board, sp.state, S) :: !Libertyless(board, S)
  {
    var poc := queue[0];
    assert poc in queue;
    SurroundingPointsOfCoordinates(poc, Link(board, poc.x, poc.y), board, Empty);
    forall S | sp.key in S && Closed(board, sp.state, S) ensures !Libertyless(board, S) {
      assert Names(S, poc.x, poc.y);
    }
  }

  /** What the invariant says at any point about the recorded keys. */
  lemma SearchOutcome(board: array2<Stone>, sp: PointState, checked: set<string>, queue: seq<PointState>)
    requires SearchInvariant(board, sp, checked, queue)
    ensures checked <= AllKeys()
    ensures forall r, c {:trigger Names(checked, r, c)} | Names(checked, r, c) ::
      board[r, c] == sp.state || (r == sp.x && c == sp.y)
    ensures Libertyless(board, checked)
    ensures forall S {:trigger Closed(board, sp.state, S)} | sp.key in S && Closed(board, sp.state, S) :: checked <= S
  {
  }

  /** With nothing left waiting, the recorded cells form a closed set holding the seed, and the seed has no
      empty neighbour. */
  lemma SearchFinish(board: array2<Stone>, sp: PointState, checked: set<string>)
    requires OnBoard(sp.x, sp.y) && sp.key == Key(sp.x, sp.y)
    requires SearchInvariant(board, sp, checked, [])
    ensures sp.key in checked && Closed(board, sp.state, checked)
    ensures |SurroundingPoints(sp, board, Empty)| == 0
  {
    assert Names(checked, sp.x, sp.y);
    SurroundingPointsOfCoordinates(sp, Link(board, sp.x, sp.y), board, Empty);
  }

  /** wholeThinghasNoLiberties as evidently intended: the front of the work-list is popped each time. It
      walks the seed's group (the cells reachable from the seed through getSurroundingPoints asked for the
      seed's state), stops with false at the first examined point that has an empty neighbour, and answers
      true when the whole group has none; examined points are recorded by key and never examined again. */
  method WholeThingHasNoLiberties(sp: PointState, board: array2<Stone>) returns (hasNoLiberties: bool, checkedPoints: set<string>)
    requires IsBoard(board) && OnBoard(sp.x, sp.y) && sp.key == Key(sp.x, sp.y)
    ensures checkedPoints <= AllKeys()
    ensures forall r, c {:trigger Names(checkedPoints, r, c)} | Names(checkedPoints, r, c) ::
      board[r, c] == sp.state || (r == sp.x && c == sp.y)
    ensures Libertyless(board, checkedPoints)
    ensures forall S {:trigger Closed(board, sp.state, S)} | sp.key in S && Closed(board, sp.state, S) :: checkedPoints <= S
    ensures hasNoLiberties ==> sp.key in checkedPoints && Closed(board, sp.state, checkedPoints)
    ensures !hasNoLiberties ==> forall S {:trigger Closed(board, sp.state, S)} | sp.key in S && Closed(board, sp.state, S) :: !Libertyless(board, S)
    ensures |SurroundingPoints(sp, board, Empty)| > 0 ==> !hasNoLiberties
  {
    checkedPoints := {};
    hasNoLiberties := true;
    var pointsOfThisColor := [sp] + SurroundingPoints(sp, board, sp.state);
    SearchStart(board, sp);
    while |pointsOfThisColor| > 0
      invariant SearchInvariant(board, sp, checkedPoints, pointsOfThisColor)
      invariant hasNoLiberties
      decreases AllKeys() - checkedPoints, |pointsOfThisColor|
    {
      var poc := pointsOfThisColor[0];
      if poc.key in checkedPoints {
        SearchSkip(board, sp, checkedPoints, pointsOfThisColor);
        pointsOfThisColor := pointsOfThisColor[1..];
      } else {
        var emptyPoints := SurroundingPoints(poc, board, Empty);
        if |emptyPoints| > 0 {
          SearchLiberty(board, sp, checkedPoints, pointsOfThisColor);
          hasNoLiberties := false;
          break;
        }
        SearchRecord(board, sp, checkedPoints, pointsOfThisColor);
        assert poc in pointsOfThisColor;
        KeyInAllKeys(poc.x, poc.y);
        checkedPoints := checkedPoints + {poc.key};
        pointsOfThisColor := pointsOfThisColor[1..] + SurroundingPoints(poc, board, sp.state);
      }
    }
    SearchOutcome(board, sp, checkedPoints, pointsOfThisColor);
    if hasNoLiberties {
      SearchFinish(board, sp, checkedPoints);
    }
  }

  /** Every board key names the cell it was made from. */
  lemma KeyIndexItoa(n: int)
    requires 0 <= n <= 18
    ensures KeyIndex(Itoa(n)) == Some(n)
  {
    AtoiItoa(n);
  }

  /** A key of the board splits into the two indices it names. */
  lemma KeySplit(point: string)
    requires point in AllKeys()
    ensures |Split(point, ':')| == 2
    ensures KeyIndex(Split(point, ':')[0]).Some? && KeyIndex(Split(point, ':')[1]).Some?
    ensures Key(KeyIndex(Split(point, ':')[0]).value, KeyIndex(Split(point, ':')[1]).value) == point
  {
    var r, c :| 0 <= r <= 18 && 0 <= c <= 18 && point == Key(r, c);
    KeyParts(r, c);
    KeyIndexItoa(r);
    KeyIndexItoa(c);
  }

  /** The contents of the board, row by row. */
  ghost function Rows(board: array2<Stone>): seq<seq<Stone>>
    reads board
  {
    seq(board.Length0, r requires 0 <= r < board.Length0 reads board =>
      seq(board.Length1, c requires 0 <= c < board.Length1 reads board => board[r, c]))
  }

  /** Rows shaped like the board: 19 rows of 19 cells. */
  predicate IsTable(rows: seq<seq<Stone>>) {
    |rows| == 19 && forall r | 0 <= r < 19 :: |rows[r]| == 19
  }

  /** The rows of a table after the cells named in `points` are set to "e". */
  function Clear(rows: seq<seq<Stone>>, points: set<string>): seq<seq<Stone>> {
    seq(|rows|, r requires 0 <= r < |rows| =>
      seq(|rows[r]|, c requires 0 <= c < |rows[r]| => if Key(r, c) in points then Empty else rows[r][c]))
  }

  /** Clearing the same cells a second time changes nothing. */
  lemma ClearIdempotent(rows: seq<seq<Stone>>, points: set<string>)
    ensures Clear(Clear(rows, points), points) == Clear(rows, points)
  {
    var once := Clear(rows, points);
    var twice := Clear(once, points);
    forall r | 0 <= r < |rows| ensures twice[r] == once[r] {
      assert |twice[r]| == |once[r]|;
      forall c | 0 <= c < |once[r]| ensures twice[r][c] == once[r][c] {
      }
    }
  }

  lemma RowsCleared(board: array2<Stone>, before: seq<seq<Stone>>, points: set<string>)
    requires IsBoard(board) && IsTable(before)
    requires forall r, c | OnBoard(r, c) :: board[r, c] == if Key(r, c) in points then Empty else before[r][c]
    ensures Rows(board) == Clear(before, points)
  {
    var after, cleared := Rows(board), Clear(before, points);
    forall r | 0 <= r < 19 ensures after[r] == cleared[r] {
      assert |after[r]| == |cleared[r]| == 19;
      forall c | 0 <= c < 19 ensures after[r][c] == cleared[r][c] {
        assert OnBoard(r, c);
      }
    }
  }

  /** removeWholeThing: every listed cell is set to "e", in whatever order the keys come, and the same
      table is returned. */
  method RemoveWholeThing(pointsMap: set<string>, board: array2<Stone>) returns (result: array2<Stone>)
    requires IsBoard(board) && pointsMap <= AllKeys()
    modifies board
    ensures result == board
    ensures forall r, c | OnBoard(r, c) :: board[r, c] == if Key(r, c) in pointsMap then Empty else old(board[r, c])
    ensures Rows(board) == Clear(old(Rows(board)), pointsMap)
  {
    ghost var before := Rows(board);
    var rest := pointsMap;
    while rest != {}
      invariant rest <= pointsMap
      invariant forall r, c | OnBoard(r, c) ::
        board[r, c] == if Key(r, c) in pointsMap - rest then Empty else old(board[r, c])
      decreases rest
    {
      var point :| point in rest;
      var coordinates := Split(point, ':');
      KeySplit(point);
      var row, col := KeyIndex(coordinates[0]).value, KeyIndex(coordinates[1]).value;
      board[row, col] := Empty;
      rest := rest - {point};
      forall r, c | OnBoard(r, c) && Key(r, c) == point ensures r == row && c == col {
        KeyInjective(r, c, row, col);
      }
    }
    RowsCleared(board, before, pointsMap);
    return board;
  }

  /** Around an empty on-board cell, every point getSurroundingPoints returns sees that cell as an empty
      neighbour of its own. */
  lemma EmptyPointFreesNeighbours(p: PointState, board: array2<Stone>, state: Mark)
    requires IsBoard(board) && OnBoard(p.x, p.y) && board[p.x, p.y] == Empty && state != Absent
    ensures forall q | q in SurroundingPoints(p, board, state) :: |SurroundingPoints(q, board, Empty)| > 0
  {
    SurroundingPointsSound(p, board, state);
    forall q | q in SurroundingPoints(p, board, state) ensures |SurroundingPoints(q, board, Empty)| > 0 {
      SurroundingPointsSymmetric(p, q, board);
    }
  }

  /** Clearing no cells changes nothing. */
  lemma ClearNothing(rows: seq<seq<Stone>>)
    ensures Clear(rows, {}) == rows
  {
    var cleared := Clear(rows, {});
    forall r | 0 <= r < |rows| ensures cleared[r] == rows[r] {
      assert |cleared[r]| == |rows[r]|;
    }
  }

  /** Clearing two sets of cells one after the other clears their union. */
  lemma ClearUnion(rows: seq<seq<Stone>>, first: set<string>, second: set<string>)
    ensures Clear(Clear(rows, first), second) == Clear(rows, first + second)
  {
    var lhs, rhs := Clear(Clear(rows, first), second), Clear(rows, first + second);
    forall r | 0 <= r < |rows| ensures lhs[r] == rhs[r] {
      assert |lhs[r]| == |rhs[r]|;
    }
  }

  lemma RowsAt(board: array2<Stone>, rows: seq<seq<Stone>>, points: set<string>)
    requires IsBoard(board) && IsTable(rows) && Rows(board) == Clear(rows, points)
    ensures forall r, c | OnBoard(r, c) :: board[r, c] == if Key(r, c) in points then Empty else rows[r][c]
  {
    forall r, c | OnBoard(r, c) ensures board[r, c] == if Key(r, c) in points then Empty else rows[r][c] {
      assert Rows(board)[r][c] == board[r, c];
    }
  }

  /** After some groups were cleared from the starting rows, the cells a search recorded from a seed that
      held `sp.state` at the start held that state at the start too. */
  lemma CapturedWereOpponents(rows: seq<seq<Stone>>, start: seq<seq<Stone>>, captured: set<string>,
                              checked: set<string>, sp: PointState)
    requires IsTable(start) && rows == Clear(start, captured) && sp.state != Empty
    requires OnBoard(sp.x, sp.y) && start[sp.x][sp.y] == sp.state
    requires forall r, c {:trigger Names(checked, r, c)} | Names(checked, r, c) ::
      rows[r][c] == sp.state || (r == sp.x && c == sp.y)
    ensures forall r, c {:trigger Names(checked, r, c)} | Names(checked, r, c) :: start[r][c] == sp.state
  {
    forall r, c | Names(checked, r, c) ensures start[r][c] == sp.state {
      assert rows[r][c] == if Key(r, c) in captured then Empty else start[r][c];
    }
  }

  lemma NamesUnion(start: seq<seq<Stone>>, captured: set<string>, checked: set<string>, state: Stone)
    requires IsTable(start)
    requires forall r, c {:trigger Names(captured, r, c)} | Names(captured, r, c) :: start[r][c] == state
    requires forall r, c {:trigger Names(checked, r, c)} | Names(checked, r, c) :: start[r][c] == state
    ensures forall r, c {:trigger Names(captured + checked, r, c)} | Names(captured + checked, r, c) :: start[r][c] == state
  {
    forall r, c | Names(captured + checked, r, c) ensures start[r][c] == state {
      if Key(r, c) in captured { assert Names(captured, r, c); } else { assert Names(checked, r, c); }
    }
  }

  /** While nothing has been cleared, a seed next to an empty target still has that target as an empty
      neighbour. */
  lemma SeedSeesEmptyTarget(board: array2<Stone>, start: seq<seq<Stone>>, p: PointState, sp: PointState)
    requires IsBoard(board) && IsTable(start) && Rows(board) == start
    requires OnBoard(p.x, p.y) && start[p.x][p.y] == Empty && Adjacent(sp.x, sp.y, p.y, p.x)
    ensures |SurroundingPoints(sp, board, Empty)| > 0
  {
    assert board[p.x, p.y] == Rows(board)[p.x][p.y];
    SurroundingPointsSymmetric(p, sp, board);
  }

  /** The board after clearing opposite-colour cells: each cell kept or turned from that colour to "e", and
      some cell changed exactly when something was cleared. */
  lemma ClearedBoard(board: array2<Stone>, start: seq<seq<Stone>>, captured: set<string>, state: Stone)
    requires IsBoard(board) && IsTable(start) && Rows(board) == Clear(start, captured)
    requires captured <= AllKeys() && state != Empty
    requires forall r, c {:trigger Names(captured, r, c)} | Names(captured, r, c) :: start[r][c] == state
    ensures forall r, c | OnBoard(r, c) :: board[r, c] == start[r][c] || (board[r, c] == Empty && start[r][c] == state)
  {
    RowsAt(board, start, captured);
    forall r, c | OnBoard(r, c) ensures board[r, c] == start[r][c] || (board[r, c] == Empty && start[r][c] == state) {
      if Key(r, c) in captured { assert Names(captured, r, c); }
    }
  }

  /** Clearing cells that all hold a stone changes the rows exactly when there is a cell to clear. */
  lemma ClearChanges(start: seq<seq<Stone>>, captured: set<string>, state: Stone)
    requires IsTable(start) && captured <= AllKeys() && state != Empty
    requires forall r, c {:trigger Names(captured, r, c)} | Names(captured, r, c) :: start[r][c] == state
    ensures Clear(start, captured) == start <==> captured == {}
  {
    if captured == {} {
      ClearNothing(start);
    } else {
      var k :| k in captured;
      var r, c :| OnBoard(r, c) && k == Key(r, c);
      assert Names(captured, r, c);
      assert Clear(start, captured)[r][c] != start[r][c];
    }
  }

  /** (a, b) is one of the on-board cells getSurroundingPoints reads around the point of cell (r, c),
      which are the cells next to the transposed cell (c, r). */
  predicate Touches(r: int, c: int, a: int, b: int) {
    OnBoard(a, b) && Adjacent(a, b, c, r)
  }

  /** Closed, read on rows instead of on the board: every cell holding `state` that a cell of S touches
      is in S. */
  ghost predicate GroupClosed(rows: seq<seq<Stone>>, state: Mark, S: set<string>) {
    IsTable(rows) &&
    forall r, c {:trigger Names(S, r, c)} | Names(S, r, c) ::
      forall a, b {:trigger Touches(r, c, a, b)} | Touches(r, c, a, b) && rows[a][b] == state :: Key(a, b) in S
  }

  /** Libertyless, read on rows: no cell of S touches an empty cell. */
  ghost predicate GroupLibertyless(rows: seq<seq<Stone>>, S: set<string>) {
    IsTable(rows) &&
    forall r, c {:trigger Names(S, r, c)} | Names(S, r, c) ::
      forall a, b {:trigger Touches(r, c, a, b)} | Touches(r, c, a, b) :: rows[a][b] != Empty
  }

  /** S is a set of `state` cells, closed under touching cells of that state and without liberties: a
      capture of the rules of Go, for the neighbour relation the routine uses. */
  ghost predicate Captive(rows: seq<seq<Stone>>, state: Mark, S: set<string>) {
    GroupClosed(rows, state, S) && GroupLibertyless(rows, S) &&
    forall r, c {:trigger Names(S, r, c)} | Names(S, r, c) :: rows[r][c] == state
  }

  /** Touching is symmetric. */
  lemma TouchesSymmetric(r: int, c: int, a: int, b: int)
    requires OnBoard(r, c) && Touches(r, c, a, b)
    ensures Touches(a, b, r, c)
  {
  }

  /** Closed on the board is GroupClosed on its rows. */
  lemma ClosedRows(board: array2<Stone>, state: Mark, S: set<string>)
    requires IsBoard(board) && state != Absent
    ensures Closed(board, state, S) <==> GroupClosed(Rows(board), state, S)
  {
    var rows := Rows(board);
    assert IsTable(rows);
    if Closed(board, state, S) {
      forall r, c | Names(S, r, c)
        ensures forall a, b {:trigger Touches(r, c, a, b)} | Touches(r, c, a, b) && rows[a][b] == state :: Key(a, b) in S
      {
        forall a, b | Touches(r, c, a, b) && rows[a][b] == state ensures Key(a, b) in S {
          SurroundingPointsComplete(Link(board, r, c), board, state, a, b);
        }
      }
    }
    if GroupClosed(rows, state, S) {
      forall r, c | Names(S, r, c)
        ensures forall q | q in SurroundingPoints(Link(board, r, c), board, state) :: q.key in S
      {
        SurroundingPointsSound(Link(board, r, c), board, state);
        forall q | q in SurroundingPoints(Link(board, r, c), board, state) ensures q.key in S {
          assert Touches(r, c, q.x, q.y) && rows[q.x][q.y] == state;
        }
      }
    }
  }

  /** Libertyless on the board is GroupLibertyless on its rows. */
  lemma LibertylessRows(board: array2<Stone>, S: set<string>)
    requires IsBoard(board)
    ensures Libertyless(board, S) <==> GroupLibertyless(Rows(board), S)
  {
    var rows := Rows(board);
    assert IsTable(rows);
    if Libertyless(board, S) {
      forall r, c | Names(S, r, c)
        ensures forall a, b {:trigger Touches(r, c, a, b)} | Touches(r, c, a, b) :: rows[a][b] != Empty
      {
        forall a, b | Touches(r, c, a, b) ensures rows[a][b] != Empty {
          if rows[a][b] == Empty {
            SurroundingPointsComplete(Link(board, r, c), board, Empty, a, b);
          }
        }
      }
    }
    if GroupLibertyless(rows, S) {
      forall r, c | Names(S, r, c) ensures |SurroundingPoints(Link(board, r, c), board, Empty)| == 0 {
        SurroundingPointsSound(Link(board, r, c), board, Empty);
        if |SurroundingPoints(Link(board, r, c), board, Empty)| > 0 {
          var q := SurroundingPoints(Link(board, r, c), board, Empty)[0];
          assert Touches(r, c, q.x, q.y);
        }
      }
    }
  }

  /** Clearing a set that is closed on the starting rows leaves every other part of a captive set captive:
      a cleared cell touching it would have been a cell of the same colour next to the cleared set. */
  lemma SurvivorsStayCaptive(start: seq<seq<Stone>>, cleared: set<string>, S: set<string>, state: Stone)
    requires state != Empty && GroupClosed(start, state, cleared) && Captive(start, state, S)
    ensures GroupClosed(Clear(start, cleared), state, S - cleared)
    ensures GroupLibertyless(Clear(start, cleared), S - cleared)
  {
    var rows := Clear(start, cleared);
    assert IsTable(rows);
    forall r, c | Names(S - cleared, r, c)
      ensures forall a, b {:trigger Touches(r, c, a, b)} | Touches(r, c, a, b) && rows[a][b] == state :: Key(a, b) in S - cleared
    {
      assert Names(S, r, c);
      forall a, b | Touches(r, c, a, b) && rows[a][b] == state ensures Key(a, b) in S - cleared {
        assert rows[a][b] == if Key(a, b) in cleared then Empty else start[a][b];
      }
    }
    forall r, c | Names(S - cleared, r, c)
      ensures forall a, b {:trigger Touches(r, c, a, b)} | Touches(r, c, a, b) :: rows[a][b] != Empty
    {
      assert Names(S, r, c);
      forall a, b | Touches(r, c, a, b) ensures rows[a][b] != Empty {
        assert rows[a][b] == if Key(a, b) in cleared then Empty else start[a][b];
        if Key(a, b) in cleared {
          assert Names(cleared, a, b);
          TouchesSymmetric(r, c, a, b);
        }
      }
    }
  }

  /** A group found without liberties on the rows left by earlier clearings, added to a set without
      liberties on the starting rows, gives a set without liberties on the starting rows: clearing only
      makes cells empty. */
  lemma LibertylessUnion(start: seq<seq<Stone>>, cleared: set<string>, group: set<string>)
    requires GroupLibertyless(start, cleared) && GroupLibertyless(Clear(start, cleared), group)
    ensures GroupLibertyless(start, cleared + group)
  {
    var rows := Clear(start, cleared);
    forall r, c | Names(cleared + group, r, c)
      ensures forall a, b {:trigger Touches(r, c, a, b)} | Touches(r, c, a, b) :: start[a][b] != Empty
    {
      if Key(r, c) in cleared {
        assert Names(cleared, r, c);
      } else {
        assert Names(group, r, c);
        forall a, b | Touches(r, c, a, b) ensures start[a][b] != Empty {
          assert rows[a][b] == if Key(a, b) in cleared then Empty else start[a][b];
        }
      }
    }
  }

  /** A group found closed on the rows left by earlier clearings, added to a set closed on the starting
      rows, gives a set closed on the starting rows. */
  lemma ClosedUnion(start: seq<seq<Stone>>, cleared: set<string>, group: set<string>, state: Stone)
    requires state != Empty && GroupClosed(start, state, cleared) && GroupClosed(Clear(start, cleared), state, group)
    ensures GroupClosed(start, state, cleared + group)
  {
    var rows := Clear(start, cleared);
    forall r, c | Names(cleared + group, r, c)
      ensures forall a, b {:trigger Touches(r, c, a, b)} | Touches(r, c, a, b) && start[a][b] == state :: Key(a, b) in cleared + group
    {
      if Key(r, c) in cleared {
        assert Names(cleared, r, c);
      } else {
        assert Names(group, r, c);
        forall a, b | Touches(r, c, a, b) && start[a][b] == state ensures Key(a, b) in cleared + group {
          assert rows[a][b] == if Key(a, b) in cleared then Empty else start[a][b];
        }
      }
    }
  }

  /** Clearing cells only makes them empty, so a set closed on the starting rows stays closed once any
      cells are cleared. */
  lemma ClosedAfterClear(start: seq<seq<Stone>>, cleared: set<string>, S: set<string>, state: Stone)
    requires state != Empty && GroupClosed(start, state, S)
    ensures GroupClosed(Clear(start, cleared), state, S)
  {
    var rows := Clear(start, cleared);
    forall r, c | Names(S, r, c)
      ensures forall a, b {:trigger Touches(r, c, a, b)} | Touches(r, c, a, b) && rows[a][b] == state :: Key(a, b) in S
    {
      forall a, b | Touches(r, c, a, b) && rows[a][b] == state ensures Key(a, b) in S {
        assert rows[a][b] == if Key(a, b) in cleared then Empty else start[a][b];
      }
    }
  }

  /** The removals so far lie inside every closed set of the start holding the seeds handled so far; one
      more search, whose group lies inside every closed set of the current rows holding its seed, keeps
      that true for the seeds handled so far and this one. */
  lemma BoundedTurn(start: seq<seq<Stone>>, state: Stone, done: set<string>, cleared: set<string>, key: string,
                    group: set<string>, next: set<string>)
    requires state != Empty
    requires forall S {:trigger GroupClosed(start, state, S)} | GroupClosed(start, state, S) && done <= S :: cleared <= S
    requires forall S {:trigger GroupClosed(Clear(start, cleared), state, S)} |
      key in S && GroupClosed(Clear(start, cleared), state, S) :: group <= S
    requires next == cleared || next == cleared + group
    ensures forall S {:trigger GroupClosed(start, state, S)} | GroupClosed(start, state, S) && done + {key} <= S :: next <= S
  {
    forall S | GroupClosed(start, state, S) && done + {key} <= S ensures next <= S {
      ClosedAfterClear(start, cleared, S, state);
    }
  }

  /** A set holding the key of every point of a list holds all their keys. */
  lemma PointKeysWithin(points: seq<PointState>, S: set<string>)
    requires forall q | q in points :: q.key in S
    ensures PointKeys(points) <= S
  {
    if points != [] {
      PointKeysWithin(points[..|points| - 1], S);
    }
  }

  /** The points getSurroundingPoints returns for a stone state are on-board seeds keyed by their
      coordinates, next to the transposed cell and holding that state in the rows of the board. */
  lemma Seeds(p: PointState, board: array2<Stone>, state: Mark)
    requires IsBoard(board) && state != Absent
    ensures forall q | q in SurroundingPoints(p, board, state) ::
      OnBoard(q.x, q.y) && q.key == Key(q.x, q.y) && q.state == state &&
      Adjacent(q.x, q.y, p.y, p.x) && Rows(board)[q.x][q.y] == state
  {
    SurroundingPointsSound(p, board, state);
  }

  /** One turn of the loop of HandleStonePlay: search the group of `sp` and, when it has no liberty,
      clear the recorded cells. */
  method CaptureGroup(sp: PointState, board: array2<Stone>) returns (hasNoLiberties: bool, checkedPoints: set<string>)
    requires IsBoard(board) && OnBoard(sp.x, sp.y) && sp.key == Key(sp.x, sp.y)
    modifies board
    ensures old(|SurroundingPoints(sp, board, Empty)| > 0) ==> !hasNoLiberties
    ensures hasNoLiberties ==>
      sp.key in checkedPoints && checkedPoints <= AllKeys() &&
      (forall r, c {:trigger Names(checkedPoints, r, c)} | Names(checkedPoints, r, c) ::
        old(Rows(board))[r][c] == sp.state || (r == sp.x && c == sp.y)) &&
      Rows(board) == Clear(old(Rows(board)), checkedPoints)
    ensures !hasNoLiberties ==> Rows(board) == old(Rows(board))
    ensures hasNoLiberties ==> GroupClosed(old(Rows(board)), sp.state, checkedPoints)
    ensures GroupLibertyless(old(Rows(board)), checkedPoints)
    ensures !hasNoLiberties && sp.state != Absent ==>
      forall S {:trigger GroupClosed(old(Rows(board)), sp.state, S)} |
        sp.key in S && GroupClosed(old(Rows(board)), sp.state, S) :: !GroupLibertyless(old(Rows(board)), S)
    ensures sp.state != Absent ==>
      forall S {:trigger GroupClosed(old(Rows(board)), sp.state, S)} |
        sp.key in S && GroupClosed(old(Rows(board)), sp.state, S) :: checkedPoints <= S
  {
    hasNoLiberties, checkedPoints := WholeThingHasNoLiberties(sp, board);
    ghost var rows := Rows(board);
    assert IsTable(rows);
    LibertylessRows(board, checkedPoints);
    if sp.state != Absent {
      ClosedRows(board, sp.state, checkedPoints);
      forall S | sp.key in S && GroupClosed(rows, sp.state, S)
        ensures (!hasNoLiberties ==> !GroupLibertyless(rows, S)) && checkedPoints <= S
      {
        ClosedRows(board, sp.state, S);
        LibertylessRows(board, S);
      }
    }
    if hasNoLiberties {
      var _ := RemoveWholeThing(checkedPoints, board);
    }
  }

  /** The keys of a list of points. */
  ghost function PointKeys(points: seq<PointState>): (keys: set<string>)
    ensures forall q | q in points :: q.key in keys
  {
    if points == [] then {} else PointKeys(points[..|points| - 1]) + {points[|points| - 1].key}
  }

  /** Every key of `done` that lies in a captive set of the start is cleared. */
  ghost predicate Swept(start: seq<seq<Stone>>, state: Stone, done: set<string>, cleared: set<string>) {
    forall S {:trigger Captive(start, state, S)} | Captive(start, state, S) :: S * done <= cleared
  }

  lemma SweptStep(start: seq<seq<Stone>>, state: Stone, done: set<string>, key: string,
                  cleared: set<string>, next: set<string>)
    requires Swept(start, state, done, cleared) && cleared <= next
    requires forall S {:trigger Captive(start, state, S)} | key in S && Captive(start, state, S) :: key in next
    ensures Swept(start, state, done + {key}, next)
  {
    forall S | Captive(start, state, S) ensures S * (done + {key}) <= next {
      assert S * (done + {key}) <= S * done + {key};
    }
  }

  /** One turn of the capture loop, on the rows left by clearing `cleared` from the start: whatever the
      search of `sp` finds keeps the cleared set closed on the start, and if `sp` lies in a captive set of
      the start it ends up cleared. */
  lemma CaptureTurn(start: seq<seq<Stone>>, cleared: set<string>, sp: PointState, hasNoLiberties: bool,
                    checkedPoints: set<string>)
    requires sp.state != Empty && sp.state != Absent && GroupClosed(start, sp.state, cleared)
    requires GroupLibertyless(start, cleared) && GroupLibertyless(Clear(start, cleared), checkedPoints)
    requires hasNoLiberties ==> sp.key in checkedPoints && GroupClosed(Clear(start, cleared), sp.state, checkedPoints)
    requires !hasNoLiberties ==>
      forall S {:trigger GroupClosed(Clear(start, cleared), sp.state, S)} |
        sp.key in S && GroupClosed(Clear(start, cleared), sp.state, S) :: !GroupLibertyless(Clear(start, cleared), S)
    ensures GroupClosed(start, sp.state, if hasNoLiberties then cleared + checkedPoints else cleared)
    ensures GroupLibertyless(start, if hasNoLiberties then cleared + checkedPoints else cleared)
    ensures forall S {:trigger Captive(start, sp.state, S)} | sp.key in S && Captive(start, sp.state, S) ::
      sp.key in (if hasNoLiberties then cleared + checkedPoints else cleared)
  {
    if hasNoLiberties {
      ClosedUnion(start, cleared, checkedPoints, sp.state);
      LibertylessUnion(start, cleared, checkedPoints);
    }
    forall S | sp.key in S && Captive(start, sp.state, S)
      ensures sp.key in (if hasNoLiberties then cleared + checkedPoints else cleared)
    {
      if sp.key !in cleared {
        SurvivorsStayCaptive(start, cleared, S, sp.state);
        assert sp.key in S - cleared;
      }
    }
  }

  /** What the loop of HandleStonePlay keeps, for the keys `done` of the seeds handled so far: the cleared
      cells are a captive set of opposite-colour cells of the start, nothing is cleared around an empty
      target, and every handled seed lying in a captive set of the start has been cleared. */
  ghost predicate Sweep(start: seq<seq<Stone>>, opponent: Stone, target: PointState, done: set<string>,
                        cleared: set<string>) {
    IsTable(start) && cleared <= AllKeys() &&
    (forall r, c {:trigger Names(cleared, r, c)} | Names(cleared, r, c) :: start[r][c] == opponent) &&
    GroupClosed(start, opponent, cleared) && GroupLibertyless(start, cleared) &&
    (target.state == Empty ==> cleared == {}) &&
    Swept(start, opponent, done, cleared) &&
    (forall S {:trigger GroupClosed(start, opponent, S)} | GroupClosed(start, opponent, S) && done <= S :: cleared <= S)
  }

  /** Before the first turn nothing is cleared, and that is what the loop keeps. */
  lemma SweepStart(start: seq<seq<Stone>>, opponent: Stone, target: PointState)
    requires IsTable(start)
    ensures Sweep(start, opponent, target, {}, {}) && Clear(start, {}) == start
  {
    ClearNothing(start);
  }

  /** Once every seed is handled, each seed lying in a captive set of the start has been cleared, and the
      cleared cells are themselves a captive set of the start. */
  lemma SweepDone(start: seq<seq<Stone>>, opponent: Stone, target: PointState, seeds: seq<PointState>,
                  cleared: set<string>)
    requires Sweep(start, opponent, target, PointKeys(seeds), cleared)
    ensures Captive(start, opponent, cleared)
    ensures forall S {:trigger Captive(start, opponent, S)} | Captive(start, opponent, S) ::
      forall q | q in seeds && q.key in S :: q.key in cleared
    ensures forall S {:trigger GroupClosed(start, opponent, S)} |
      GroupClosed(start, opponent, S) && (forall q | q in seeds :: q.key in S) :: cleared <= S
  {
    forall S | Captive(start, opponent, S) ensures forall q | q in seeds && q.key in S :: q.key in cleared {
      assert S * PointKeys(seeds) <= cleared;
    }
    forall S | GroupClosed(start, opponent, S) && (forall q | q in seeds :: q.key in S) ensures cleared <= S {
      PointKeysWithin(seeds, S);
    }
  }

  /** One turn of the loop of HandleStonePlay, on the board left by clearing `cleared` from the start:
      the group of `sp` is searched and, when it has no liberty, cleared as well. */
  method CaptureNext(ghost start: seq<seq<Stone>>, ghost done: set<string>, ghost cleared: set<string>,
                     target: PointState, sp: PointState, opponent: Stone, board: array2<Stone>)
    returns (hit: bool, ghost next: set<string>)
    requires IsBoard(board) && opponent != Empty
    requires Sweep(start, opponent, target, done, cleared) && Rows(board) == Clear(start, cleared)
    requires OnBoard(sp.x, sp.y) && sp.key == Key(sp.x, sp.y) && sp.state == opponent &&
      Adjacent(sp.x, sp.y, target.y, target.x) && start[sp.x][sp.y] == opponent
    requires target.state == Empty ==> OnBoard(target.x, target.y) && start[target.x][target.y] == Empty
    modifies board
    ensures Sweep(start, opponent, target, done + {sp.key}, next) && Rows(board) == Clear(start, next)
    ensures hit ==> next != {}
    ensures !hit ==> next == cleared
  {
    if target.state == Empty {
      ClearNothing(start);
      SeedSeesEmptyTarget(board, start, target, sp);
    }
    ghost var rows := Rows(board);
    var hasNoLiberties, checkedPoints := CaptureGroup(sp, board);
    CaptureTurn(start, cleared, sp, hasNoLiberties, checkedPoints);
    hit := hasNoLiberties;
    if hasNoLiberties {
      CapturedWereOpponents(rows, start, cleared, checkedPoints, sp);
      NamesUnion(start, cleared, checkedPoints, opponent);
      ClearUnion(start, cleared, checkedPoints);
      next := cleared + checkedPoints;
    } else {
      ClearNothing(Clear(start, cleared));
      next := cleared;
    }
    SweptStep(start, opponent, done, sp.key, cleared, next);
    BoundedTurn(start, opponent, done, cleared, sp.key, checkedPoints, next);
  }

  /** The loop of HandleStonePlay: search and, where it has no liberty, clear the group of each point of
      `opponents` in turn, on the board as the earlier turns left it. `cleared` is the union of the cleared
      groups and the result says whether there was one. The cleared cells form a captive set of the start,
      every point of `opponents` lying in a captive set of the start is cleared, and nothing is cleared
      around an empty target. */
  method CaptureOpponents(target: PointState, opponents: seq<PointState>, opponent: Stone, board: array2<Stone>)
    returns (captured: bool, ghost cleared: set<string>)
    requires IsBoard(board) && opponent != Empty
    requires forall q | q in opponents ::
      OnBoard(q.x, q.y) && q.key == Key(q.x, q.y) && q.state == opponent &&
      Adjacent(q.x, q.y, target.y, target.x) && Rows(board)[q.x][q.y] == opponent
    requires target.state == Empty ==> OnBoard(target.x, target.y) && Rows(board)[target.x][target.y] == Empty
    modifies board
    ensures cleared <= AllKeys()
    ensures Rows(board) == Clear(old(Rows(board)), cleared)
    ensures forall r, c {:trigger Names(cleared, r, c)} | Names(cleared, r, c) :: old(Rows(board))[r][c] == opponent
    ensures captured <==> cleared != {}
    ensures target.state == Empty ==> cleared == {}
    ensures Captive(old(Rows(board)), opponent, cleared)
    ensures forall S {:trigger Captive(old(Rows(board)), opponent, S)} | Captive(old(Rows(board)), opponent, S) ::
      forall q | q in opponents && q.key in S :: q.key in cleared
    ensures forall S {:trigger GroupClosed(old(Rows(board)), opponent, S)} |
      GroupClosed(old(Rows(board)), opponent, S) && (forall q | q in opponents :: q.key in S) :: cleared <= S
  {
    ghost var start := Rows(board);
    assert IsTable(start);
    SweepStart(start, opponent, target);
    captured, cleared := false, {};
    var i := 0;
    while i < |opponents|
      invariant 0 <= i <= |opponents|
      invariant Sweep(start, opponent, target, PointKeys(opponents[..i]), cleared)
      invariant Rows(board) == Clear(start, cleared)
      invariant captured <==> cleared != {}
    {
      var sp := opponents[i];
      assert sp in opponents;
      var hit;
      ghost var next;
      hit, next := CaptureNext(start, PointKeys(opponents[..i]), cleared, target, sp, opponent, board);
      assert opponents[..i + 1][..i] == opponents[..i];
      captured, cleared := captured || hit, next;
      i := i + 1;
    }
    assert opponents[..i] == opponents;
    SweepDone(start, opponent, target, opponents, cleared);
  }

  /** What the loop of HandleStonePlay clears from the starting rows `before`, given the adjacent
      opposite-colour points `seeds`: a captive set that holds every seed lying in some captive set, and
      that lies inside every closed set holding all the seeds. It is thus made of the captive groups of
      the seeds and nothing else. */
  ghost predicate CaptureSet(before: seq<seq<Stone>>, opponent: Stone, seeds: seq<PointState>, C: set<string>) {
    Captive(before, opponent, C) &&
    (forall S {:trigger Captive(before, opponent, S)} | Captive(before, opponent, S) ::
      forall q | q in seeds && q.key in S :: q.key in C) &&
    (forall S {:trigger GroupClosed(before, opponent, S)} |
      GroupClosed(before, opponent, S) && (forall q | q in seeds :: q.key in S) :: C <= S)
  }

  /** The board left by clearing a capture set, cell by cell: every seed lying in a captive set of the
      start reads "e" and something was cleared; every cell that changed lies in each closed set holding
      all the seeds; and the cells of the set are "e" while the others are as they were. */
  lemma CaptureSetCells(board: array2<Stone>, start: seq<seq<Stone>>, seeds: seq<PointState>, opponent: Stone,
                        C: set<string>)
    requires IsBoard(board) && IsTable(start) && Rows(board) == Clear(start, C)
    requires CaptureSet(start, opponent, seeds, C)
    requires forall q | q in seeds :: OnBoard(q.x, q.y) && q.key == Key(q.x, q.y)
    ensures forall S {:trigger Captive(start, opponent, S)} | Captive(start, opponent, S) ::
      forall q | q in seeds && q.key in S :: At(board, q.x, q.y) == Empty && C != {}
    ensures forall S {:trigger GroupClosed(start, opponent, S)} |
      GroupClosed(start, opponent, S) && (forall q | q in seeds :: q.key in S) ::
        forall r, c | OnBoard(r, c) && board[r, c] != start[r][c] :: Key(r, c) in S
    ensures forall r, c | OnBoard(r, c) :: board[r, c] == if Key(r, c) in C then Empty else start[r][c]
  {
    RowsAt(board, start, C);
    forall S | Captive(start, opponent, S)
      ensures forall q | q in seeds && q.key in S :: At(board, q.x, q.y) == Empty && C != {}
    {
      forall q | q in seeds && q.key in S ensures At(board, q.x, q.y) == Empty && C != {} {
        assert q.key in C;
      }
    }
  }

  /** Without an adjacent opposite-colour point nothing may be captured: the empty set is closed and
      holds all of no seeds, so a capture set lies inside it. */
  lemma CaptureSetNoSeeds(before: seq<seq<Stone>>, opponent: Stone, C: set<string>)
    requires IsTable(before) && CaptureSet(before, opponent, [], C)
    ensures C == {}
  {
    assert GroupClosed(before, opponent, {});
  }

  /** HandleStonePlay, with the liberty search as evidently intended. The play is valid when the target
      has an empty neighbour or some adjacent opposite-colour group has no liberty; every such group is
      cleared. The opponent list is taken once, before any removal, and the played stone is never written:
      the only changes are opposite-colour cells becoming "e". */
  method HandleStonePlay(point: string, color: Mark, board: array2<Stone>) returns (outcome: Result<bool>, result: array2<Stone>)
    requires IsBoard(board)
    modifies board
    ensures result == board
    ensures old(MakePointState(point, board)).Err? ==>
      outcome == Err(old(MakePointState(point, board)).error) && unchanged(board)
    ensures outcome.Ok? <==> old(MakePointState(point, board)).Ok?
    ensures forall r, c | OnBoard(r, c) ::
      board[r, c] == old(board[r, c]) || (board[r, c] == Empty && old(board[r, c]) == OppositeOf(color))
    ensures outcome.Ok? ==>
      (outcome.value <==>
        |old(SurroundingPoints(MakePointState(point, board).value, board, Empty))| > 0 ||
        Rows(board) != old(Rows(board)))
    ensures outcome.Ok? && old(MakePointState(point, board)).value.state == Empty ==> Rows(board) == old(Rows(board))
    ensures outcome.Ok? ==>
      exists C {:trigger CaptureSet(old(Rows(board)), OppositeOf(color),
                                    old(SurroundingPoints(MakePointState(point, board).value, board, OppositeOf(color))), C)} ::
        CaptureSet(old(Rows(board)), OppositeOf(color),
                   old(SurroundingPoints(MakePointState(point, board).value, board, OppositeOf(color))), C) &&
        Rows(board) == Clear(old(Rows(board)), C)
  {
    var valid := false;
    var parsed := MakePointState(point, board);
    if parsed.Err? {
      return Err(parsed.error), board;
    }
    var pointState := parsed.value;
    var liberties := SurroundingPoints(pointState, board, Empty);
    if |liberties| > 0 {
      valid := true;
    }
    var opponent := OppositeOf(color);
    var opponents := SurroundingPoints(pointState, board, opponent);
    Seeds(pointState, board, opponent);
    ghost var start := Rows(board);
    assert IsTable(start);
    if pointState.state == Empty {
      assert start[pointState.x][pointState.y] == board[pointState.x, pointState.y];
    }
    var captured, cleared := CaptureOpponents(pointState, opponents, opponent, board);
    if captured {
      valid := true;
    }
    assert CaptureSet(start, opponent, opponents, cleared);
    ClearedBoard(board, start, cleared, opponent);
    ClearChanges(start, cleared, opponent);
    assert forall r, c | OnBoard(r, c) :: start[r][c] == old(board[r, c]);
    return Ok(valid), board;
  }

  /** The loop of HandleStonePlay with the literal search: each search is allowed `fuel` iterations. It
      finishes exactly when every point has an empty neighbour, and then no search has reported a group
      without liberties, so the removal is never reached. */
  method CaptureOpponentsAsWritten(opponents: seq<PointState>, board: array2<Stone>, fuel: nat) returns (run: Run<bool>)
    ensures run.Done? <==> forall q | q in opponents :: fuel > 0 && |SurroundingPoints(q, board, Empty)| > 0
    ensures run.Done? ==> !run.value
  {
    var i := 0;
    while i < |opponents|
      invariant 0 <= i <= |opponents|
      invariant forall j | 0 <= j < i :: fuel > 0 && |SurroundingPoints(opponents[j], board, Empty)| > 0
    {
      var sp := opponents[i];
      var searched := WholeThingHasNoLibertiesAsWritten(sp, board, fuel);
      if searched.OutOfFuel? {
        assert sp in opponents;
        return OutOfFuel;
      }
      var hasNoLiberties := searched.value.0;
      if hasNoLiberties {
        // removeWholeThing(checkedPoints, board) is never reached.
        assert false;
      }
      i := i + 1;
    }
    return Done(false);
  }

  /** HandleStonePlay as written, with the literal liberty search allowed `fuel` iterations per
      opposite-colour neighbour. That search never reports a group without liberties, so no group is ever
      removed and the board is not touched; the call finishes exactly when every such neighbour has an
      empty neighbour of its own, and then the play is valid exactly when the target has an empty neighbour.
      On an empty target it always finishes. */
  method HandleStonePlayAsWritten(point: string, color: Mark, board: array2<Stone>, fuel: nat)
    returns (run: Run<Result<bool>>, result: array2<Stone>)
    requires IsBoard(board)
    ensures result == board
    ensures MakePointState(point, board).Err? ==> run == Done(Err(MakePointState(point, board).error))
    ensures MakePointState(point, board).Ok? ==>
      (run.Done? <==>
        forall q | q in SurroundingPoints(MakePointState(point, board).value, board, OppositeOf(color)) ::
          fuel > 0 && |SurroundingPoints(q, board, Empty)| > 0)
    ensures MakePointState(point, board).Ok? && run.Done? ==>
      run.value == Ok(|SurroundingPoints(MakePointState(point, board).value, board, Empty)| > 0)
    ensures MakePointState(point, board).Ok? && MakePointState(point, board).value.state == Empty && fuel > 0 ==>
      run.Done?
  {
    var valid := false;
    var parsed := MakePointState(point, board);
    if parsed.Err? {
      return Done(Err(parsed.error)), board;
    }
    var pointState := parsed.value;
    var liberties := SurroundingPoints(pointState, board, Empty);
    if |liberties| > 0 {
      valid := true;
    }
    var opponents := SurroundingPoints(pointState, board, OppositeOf(color));
    if pointState.state == Empty {
      EmptyPointFreesNeighbours(pointState, board, OppositeOf(color));
    }
    var searched := CaptureOpponentsAsWritten(opponents, board, fuel);
    assert opponents == SurroundingPoints(MakePointState(point, board).value, board, OppositeOf(color));
    if searched.OutOfFuel? {
      return OutOfFuel, board;
    }
    return Done(Ok(valid)), board;
  }

  /** The literal search spins on a seed without an empty neighbour. The routine does not check that the
      target is free, so take a board where the played cell already holds the player's stone: Black at 0:0
      playing "0:0", White at 0:1, and Black on the three cells 0:0, 1:1 and 2:0 that the search reads
      around 0:1, with 1:0 empty. The only opposite-colour
      point around the target is 0:1, and it has no empty neighbour: by the contract of
      HandleStonePlayAsWritten the call runs out of fuel whatever the fuel. */
  lemma ShadowedQueueSpins(board: array2<Stone>)
    requires IsBoard(board)
    requires board[0, 0] == Black && board[0, 1] == White && board[1, 0] == Empty
    requires board[1, 1] == Black && board[2, 0] == Black
    ensures MakePointState("0:0", board) == Ok(PointState("0:0", 0, 0, Black))
    ensures SurroundingPoints(PointState("0:0", 0, 0, Black), board, OppositeOf(Black)) == [Link(board, 0, 1)]
    ensures SurroundingPoints(Link(board, 0, 1), board, Empty) == []
  {
    assert Key(0, 0) == "0:0";
    MakePointStateRoundTrip(0, 0, board);
    var around := Probes(PointState("0:0", 0, 0, Black));
    assert around == [Probe(0, -1, false), Probe(-1, 0, false), Probe(0, 1, true), Probe(1, 0, true)];
    assert around[3..][1..] == [] && around[2..][1..] == around[3..] && around[1..][1..] == around[2..];
    assert Collect(board, around[3..], White) == [];
    assert Collect(board, around[2..], White) == [Link(board, 0, 1)];
    assert Collect(board, around[1..], White) == [Link(board, 0, 1)];
    SeedWalledIn(board, Empty);
  }

  /** On that board the literal routine, called with Black's play of "0:0", runs out of fuel whatever the
      fuel, where the intended one finishes (WalledInPlay). */
  method ShadowedPlaySpins(board: array2<Stone>, fuel: nat) returns (run: Run<Result<bool>>)
    requires IsBoard(board)
    requires board[0, 0] == Black && board[0, 1] == White && board[1, 0] == Empty
    requires board[1, 1] == Black && board[2, 0] == Black
    ensures run == OutOfFuel
  {
    ShadowedQueueSpins(board);
    assert Link(board, 0, 1) in SurroundingPoints(PointState("0:0", 0, 0, Black), board, OppositeOf(Black));
    var result;
    run, result := HandleStonePlayAsWritten("0:0", Black, board, fuel);
  }

  /** Around 0:1 the search reads 0:0, 1:1 and 2:0 (the fourth try is out of bounds), so on that board
      0:1 has no neighbour that is empty or White. */
  lemma SeedWalledIn(board: array2<Stone>, state: Mark)
    requires IsBoard(board)
    requires board[0, 0] == Black && board[1, 1] == Black && board[2, 0] == Black
    requires state == Empty || state == White
    ensures SurroundingPoints(Link(board, 0, 1), board, state) == []
  {
    var around := Probes(Link(board, 0, 1));
    assert around == [Probe(1, -1, false), Probe(0, 0, true), Probe(1, 1, true), Probe(2, 0, true)];
    assert around[3..][1..] == [] && around[2..][1..] == around[3..] && around[1..][1..] == around[2..];
    assert Collect(board, around[3..], state) == [];
    assert Collect(board, around[2..], state) == [];
    assert Collect(board, around[1..], state) == [];
  }

  /** On the same board the White stone at 0:1 is a captive group of its own: closed (no White point
      around it) and without liberties (no empty point around it). */
  lemma WalledInStoneCaptured(board: array2<Stone>)
    requires IsBoard(board)
    requires board[0, 0] == Black && board[0, 1] == White && board[1, 0] == Empty
    requires board[1, 1] == Black && board[2, 0] == Black
    ensures Closed(board, White, {Key(0, 1)}) && Libertyless(board, {Key(0, 1)})
    ensures Captive(Rows(board), White, {Key(0, 1)})
  {
    SeedWalledIn(board, White);
    SeedWalledIn(board, Empty);
    forall r, c | Names({Key(0, 1)}, r, c) ensures r == 0 && c == 1 {
      KeyInjective(r, c, 0, 1);
    }
    ClosedRows(board, White, {Key(0, 1)});
    LibertylessRows(board, {Key(0, 1)});
    assert Rows(board)[0][1] == board[0, 1];
  }

  /** With the work-list popped, the play of the same board that the literal routine never finishes is
      valid and clears the White stone at 0:1, and every other cell stays as it was. */
  method WalledInPlay(board: array2<Stone>) returns (outcome: Result<bool>)
    requires IsBoard(board)
    requires board[0, 0] == Black && board[0, 1] == White && board[1, 0] == Empty
    requires board[1, 1] == Black && board[2, 0] == Black
    modifies board
    ensures outcome == Ok(true)
    ensures board[0, 1] == Empty
    ensures forall r, c | OnBoard(r, c) && (r, c) != (0, 1) :: board[r, c] == old(board[r, c])
  {
    ShadowedQueueSpins(board);
    WalledInStoneCaptured(board);
    ghost var start := Rows(board);
    ghost var seeds := SurroundingPoints(PointState("0:0", 0, 0, Black), board, OppositeOf(Black));
    assert seeds == [PointState(Key(0, 1), 0, 1, White)];
    var result;
    outcome, result := HandleStonePlay("0:0", Black, board);
    PlayClearsOnly(board, start, seeds, 0, 1);
    assert Rows(board)[0][1] == board[0, 1];
  }

  /** After a play whose only adjacent opposite-colour point is the White stone at (r0, c0), captive on
      its own, that stone reads "e" and every other cell is as it was. */
  lemma PlayClearsOnly(board: array2<Stone>, start: seq<seq<Stone>>, seeds: seq<PointState>, r0: int, c0: int)
    requires IsBoard(board) && IsTable(start) && OnBoard(r0, c0)
    requires seeds == [PointState(Key(r0, c0), r0, c0, White)] && Captive(start, White, {Key(r0, c0)})
    requires exists C {:trigger CaptureSet(start, White, seeds, C)} ::
      CaptureSet(start, White, seeds, C) && Rows(board) == Clear(start, C)
    ensures board[r0, c0] == Empty
    ensures forall r, c | OnBoard(r, c) && (r, c) != (r0, c0) :: board[r, c] == start[r][c]
  {
    var C :| CaptureSet(start, White, seeds, C) && Rows(board) == Clear(start, C);
    CaptureSetCells(board, start, seeds, White, C);
    var cell := {Key(r0, c0)};
    assert seeds[0] in seeds && seeds[0].key in cell;
    forall r, c | OnBoard(r, c) && (r, c) != (r0, c0) ensures board[r, c] == start[r][c] {
      if board[r, c] != start[r][c] {
        assert Key(r, c) in cell;
        KeyInjective(r, c, r0, c0);
      }
    }
  }

  /** A key past the last row still parses: "19:5" names no cell and reads "", so it is not an empty
      target, yet through the transposition its first try reads the on-board cell 5:18. Take White at 5:18
      and Black on the three cells 18:4, 17:5 and 18:6 that the search reads around it. */
  lemma OffBoardTarget(board: array2<Stone>)
    requires IsBoard(board)
    requires board[5, 18] == White && board[18, 4] == Black && board[17, 5] == Black && board[18, 6] == Black
    ensures MakePointState("19:5", board) == Ok(PointState("19:5", 19, 5, Absent))
    ensures SurroundingPoints(PointState("19:5", 19, 5, Absent), board, OppositeOf(Black)) == [Link(board, 5, 18)]
  {
    assert Key(19, 5) == "19:5";
    MakePointStateRoundTrip(19, 5, board);
    var around := Probes(PointState("19:5", 19, 5, Absent));
    assert around == [Probe(5, 18, true), Probe(4, 19, true), Probe(5, 20, false), Probe(6, 19, true)];
    assert around[3..][1..] == [] && around[2..][1..] == around[3..] && around[1..][1..] == around[2..];
    assert Collect(board, around[3..], White) == [];
    assert Collect(board, around[2..], White) == [];
    assert Collect(board, around[1..], White) == [];
  }

  /** Around 5:18 the search reads 18:4, 17:5 and 18:6 (the fourth try fails its bounds test), so on that
      board 5:18 has no neighbour that is empty or White. */
  lemma OffBoardSeedWalledIn(board: array2<Stone>, state: Mark)
    requires IsBoard(board)
    requires board[18, 4] == Black && board[17, 5] == Black && board[18, 6] == Black
    requires state == Empty || state == White
    ensures SurroundingPoints(Link(board, 5, 18), board, state) == []
  {
    var around := Probes(Link(board, 5, 18));
    assert around == [Probe(18, 4, true), Probe(17, 5, true), Probe(18, 6, true), Probe(19, 5, false)];
    assert around[3..][1..] == [] && around[2..][1..] == around[3..] && around[1..][1..] == around[2..];
    assert Collect(board, around[3..], state) == [];
    assert Collect(board, around[2..], state) == [];
    assert Collect(board, around[1..], state) == [];
  }

  /** On that board Black's play of "19:5" captures the White stone at 5:18 and is valid, and every other
      cell stays as it was. */
  method OffBoardPlay(board: array2<Stone>) returns (outcome: Result<bool>)
    requires IsBoard(board)
    requires board[5, 18] == White && board[18, 4] == Black && board[17, 5] == Black && board[18, 6] == Black
    modifies board
    ensures outcome == Ok(true)
    ensures board[5, 18] == Empty
    ensures forall r, c | OnBoard(r, c) && (r, c) != (5, 18) :: board[r, c] == old(board[r, c])
  {
    OffBoardTarget(board);
    OffBoardSeedWalledIn(board, White);
    OffBoardSeedWalledIn(board, Empty);
    ghost var cell := {Key(5, 18)};
    forall r, c | Names(cell, r, c) ensures r == 5 && c == 18 {
      KeyInjective(r, c, 5, 18);
    }
    ClosedRows(board, White, cell);
    LibertylessRows(board, cell);
    assert Rows(board)[5][18] == board[5, 18];
    assert Captive(Rows(board), White, cell);
    ghost var start := Rows(board);
    ghost var seeds := SurroundingPoints(PointState("19:5", 19, 5, Absent), board, OppositeOf(Black));
    assert seeds == [PointState(Key(5, 18), 5, 18, White)];
    var result;
    outcome, result := HandleStonePlay("19:5", Black, board);
    PlayClearsOnly(board, start, seeds, 5, 18);
    assert Rows(board)[5][18] == board[5, 18];
  }
}
