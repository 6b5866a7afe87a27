# Stone play on a 19 x 19 Go board

This project models the stone-play routine of a small Go (the board game) server: `HandleStonePlay` and its
helpers in `gameplay/gameplay.go`. It also models the client's board constructor `makeBoard` in
`gogo/src/util.js`. All the models are in Dafny, and the properties are proved.

- `strconv.dfy` (module `Strconv`) models the parts of Go's library that the routine uses. These are
  `strconv.Itoa` and `strconv.Atoi` on unbounded integers, and `strings.Split` with a one-character
  separator. It proves that `Atoi` inverts `Itoa` and that `Join` undoes `Split`. It also proves that
  `Split` gives back the two parts of `a + ":" + b` when neither part holds a colon.
- `gameplay.dfy` (module `Gameplay`) models `gameplay/gameplay.go`.
  - **The board.** The `map[string]map[string]string` table becomes an `array2<Stone>` of 19 x 19 cells.
    Go reads the table through decimal string keys and gets `""` for a missing key. `At` and `Lookup`
    model that, with the mark `Absent` standing for `""`.
  - **`makePointState`** is a function with a `Result`. A non-integer part, which is `log.Fatal` in the
    source, becomes `Err(NotAnInteger)`. A key without a column, where the source panics on the index,
    becomes `Err(NoColumn)`.
  - **`getSurroundingPoints`** is a function over the four tries it makes, in their order.
  - **`removeWholeThing`** is an in-place method on the array.
  - **`wholeThinghasNoLiberties`** is a method with a loop. There are two versions:
    - the code as written, whose work-list never shrinks;
    - the search as evidently intended, which pops the front of the work-list.
  - **`HandleStonePlay`** is a method that changes the board in place, built on the intended search.
    `HandleStonePlayAsWritten` is its counterpart built on the literal search.
  - **The capture rule.** The capture rule is stated on the rows of the starting board:
    - `GroupClosed`: every same-colour point the routine finds around a cell of the set is in the set;
    - `GroupLibertyless`: no cell of the set has an empty neighbour;
    - `Captive`: both of the above, with every cell holding the colour.

    `HandleStonePlay` proves that the board ends as the start with a *capture set* `C` cleared
    (`CaptureSet`). The adjacent opposite-colour points are the seeds. `C` has three properties:
    - it is captive;
    - it holds every seed that lies in some captive set;
    - it lies inside every closed set that holds all the seeds.

    So exactly the captive groups of the seeds are removed, and nothing else. `CaptureSetCells` spells
    this out cell by cell. With no seed, nothing changes (`CaptureSetNoSeeds`).
- `util.dfy` (module `Util`) models `makeBoard` as a method with the source's two nested loops.

**The transposed neighbours.** As in the source, `getSurroundingPoints` looks around the transposed cell:
from the point (x, y) it reads row y, column x-1, and so on. The relation it defines is still symmetric
(`SurroundingPointsSymmetric`). The played stone is never written. Together these give a fact that
`HandleStonePlay` states and proves: when the target is an on-board cell that reads "e", every adjacent
opposite-colour point sees the target as an empty neighbour, so nothing is ever captured. Captures
therefore happen only when the target does not read "e". That covers two cases:
- the board already holds a stone at the target;
- the key names no cell but still parses.

  The key "19:5" is an example. It reads `""`, and through the transposition it still has the on-board
  neighbour 5:18. With White at 5:18 and Black at 18:4, 17:5 and 18:6, that White stone is captured
  (`OffBoardPlay`).

**Assumed inputs.** The board is a 19 x 19 table of cells. The played colour is one of the marks.

**Cell values.** They are `"e"`, `"b"` and `"w"`, as `gogo/src/constants.js:4-8` defines them.

**The empty value in `makeBoard`.** `gogo/src/util.js:1` imports `STATES`, but `gogo/src/constants.js:4-8`
exports no `STATES`. It exports `states`, with the key `EMPTY`. As written, the import either fails to
link, or `STATES` is undefined. In the second case `STATES.empty` reads a property of undefined and
throws, so `makeBoard` never returns a board. The evidently intended value is `"e"`, which the Go side
writes and tests for, and the model stores that.

## Model

| member | source | states |
|---|---|---|
| Strconv.Atoi | gameplay/gameplay.go:35-42 | Atoi succeeds exactly on an optional sign followed by at least one decimal digit |
| Strconv.AtoiItoa | gameplay/gameplay.go:59-63 | parsing the decimal spelling of any integer gives that integer back |
| Strconv.SplitJoin | gameplay/gameplay.go:34 | splitting on the separator and joining again gives the string back, and no piece holds the separator |
| Gameplay.KeyInjective | gameplay/gameplay.go:63 | two cells with the same "row:col" key are the same cell |
| Gameplay.MakePointState | gameplay/gameplay.go:33-49 | the parsed point keeps the key as given; when the read is not "", the coordinates are on the board and the state is what that cell holds |
| Gameplay.MakePointStateRoundTrip | gameplay/gameplay.go:33-49 | parsing the key of any cell gives Ok with that key, those coordinates and what the board holds there ("" off the board) |
| Gameplay.MakePointStatePair | gameplay/gameplay.go:34-42 | for "a:b" with colon-free parts, parsing fails exactly when a part is not an integer, and that failure is the fatal one |
| Gameplay.MakePointStateNoColon | gameplay/gameplay.go:34-39 | a key with no colon never parses: a non-integer is the fatal error, otherwise the missing column is |
| Gameplay.SurroundingPoints | gameplay/gameplay.go:51-105 | at most four points are returned |
| Gameplay.CollectMembers | gameplay/gameplay.go:57-104 | a point is returned exactly when it is the point of a try whose bounds test passed and whose cell holds the state asked for |
| Gameplay.SurroundingPointsSound | gameplay/gameplay.go:59-102 | on a board, asked for a stone state, every returned point has the key and coordinates of the cell it read; that cell is on the board, adjacent to the transposed cell (y, x) and holds the state |
| Gameplay.SurroundingPointsComplete | gameplay/gameplay.go:59-102 | every on-board cell adjacent to the transposed cell that holds the state is returned |
| Gameplay.SurroundingPointsOfCoordinates | gameplay/gameplay.go:51-55 | the result depends only on the point's coordinates, not on its key or state |
| Gameplay.SurroundingPointsSymmetric | gameplay/gameplay.go:59-102 | if q is adjacent to the transposed cell of an on-board p, then p's own cell point is among the points around q that hold p's state |
| Gameplay.SurroundingPointsInRange | gameplay/gameplay.go:51-104 | around an on-board point every returned point is on the board, keyed by its own cell and holds the requested state, whatever the board holds |
| Gameplay.SurroundingPointsOrdered | gameplay/gameplay.go:59-102 | the returned points come in the order left, up, right, down, so none comes twice |
| Gameplay.OppositeOf | gameplay/gameplay.go:137-143 | the result is "b" or "w", and it is "w" exactly when the argument is "b" |
| Gameplay.OppositeOfFlips | gameplay/gameplay.go:137-143 | on "b" and "w" the flip never returns its argument and applying it twice is the identity |
| Gameplay.WholeThingHasNoLibertiesAsWritten | gameplay/gameplay.go:115-135 | with the work-list never shrinking, the loop finishes within the fuel exactly when the fuel is positive and the seed has an empty neighbour, and then the result is (false, no keys) |
| Gameplay.WholeThingHasNoLiberties | gameplay/gameplay.go:115-135 | recorded keys are on-board cells of the seed's state (or the seed's cell) with no empty neighbour; they lie inside every closed set of that state holding the seed; true means the seed is recorded and the recorded set is closed; false means every closed set holding the seed has a liberty; a seed with an empty neighbour gives false |
| Gameplay.KeySplit | gameplay/gameplay.go:108-110 | every on-board key splits into two parts, both of which are table keys, naming the cell the key was made from |
| Gameplay.RemoveWholeThing | gameplay/gameplay.go:107-113 | every listed cell becomes "e", every other cell is unchanged, and the same table is returned |
| Gameplay.ClearIdempotent | gameplay/gameplay.go:107-113 | removing the same cells a second time changes nothing |
| Gameplay.EmptyPointFreesNeighbours | gameplay/gameplay.go:12-17 | around an empty on-board target, every point returned has the target as an empty neighbour of its own |
| Gameplay.ClosedRows | gameplay/gameplay.go:119-130 | the search's closure test on the board (every same-state point getSurroundingPoints returns is in the set) is the same as closure on the rows, with the transposed neighbourhood |
| Gameplay.LibertylessRows | gameplay/gameplay.go:124-128 | "getSurroundingPoints finds no empty point around any cell of the set" is the same as "no neighbour of a cell of the set is empty on the rows" |
| Gameplay.SurvivorsStayCaptive | gameplay/gameplay.go:16-21 | clearing a closed set of stones leaves what remains of any captive set closed and without liberties, so an earlier removal never frees a later group |
| Gameplay.ClosedUnion | gameplay/gameplay.go:16-21 | a group closed on the board left by earlier removals, added to cells already removed, gives a set closed on the starting board |
| Gameplay.LibertylessUnion | gameplay/gameplay.go:16-21 | a group without liberties on the board left by earlier removals, added to a set without liberties at the start, has no liberties at the start |
| Gameplay.ClosedAfterClear | gameplay/gameplay.go:16-21 | a set closed on the starting board stays closed after any removals, since removing only makes cells empty |
| Gameplay.BoundedTurn | gameplay/gameplay.go:16-21 | if the removals so far lie inside every closed set of the start holding the seeds handled so far, one more search's group keeps that true with this seed added |
| Gameplay.CaptureGroup | gameplay/gameplay.go:17-21 | a seed with an empty neighbour is never captured; the recorded group lies inside every closed set holding the seed; a captured group holds the seed, held the seed's colour, is closed and without liberties, and is cleared; when nothing is captured every closed set holding the seed has a liberty and the board is unchanged |
| Gameplay.CaptureTurn | gameplay/gameplay.go:16-21 | after one search the removed cells stay closed and without liberties on the starting board, and a seed lying in a captive set of the starting board has been removed |
| Gameplay.CaptureNext | gameplay/gameplay.go:16-21 | one turn of the loop keeps the removed cells a captive set of opposite-colour cells of the start, inside every closed set of the start holding the seeds handled so far; it removes nothing around a target reading "e", and removes this seed when it lies in a captive set of the start |
| Gameplay.SweepDone | gameplay/gameplay.go:16-22 | after every seed is handled, the removed cells are a captive set of the start, they lie inside every closed set holding all the seeds, and every seed lying in a captive set of the start was removed |
| Gameplay.CaptureOpponents | gameplay/gameplay.go:16-22 | the board ends as the start with a captive set of opposite-colour cells cleared; every opponent point lying in a captive set of the start is in it; it lies inside every closed set of the start holding all the opponent points; the result says whether anything was captured; nothing is captured around an empty target |
| Gameplay.CaptureSetCells | gameplay/gameplay.go:16-23 | after a capture set is cleared: every seed lying in a captive set of the start reads "e" and the set is not empty; every changed cell lies in each closed set holding all the seeds; the set's cells read "e" and all others are as they were |
| Gameplay.CaptureSetNoSeeds | gameplay/gameplay.go:16-22 | with no adjacent opposite-colour point, the capture set is empty |
| Gameplay.HandleStonePlay | gameplay/gameplay.go:9-24 | a parse failure is reported and leaves the board alone; otherwise each cell is kept or turns from the opposite colour to "e"; the board is the start with a capture set of the adjacent opposite-colour points cleared, that is exactly their captive groups; the play is valid exactly when the target has an empty neighbour or some cell changed; a target reading "e" leaves the board unchanged; the same table is returned |
| Gameplay.CaptureOpponentsAsWritten | gameplay/gameplay.go:16-22 | with the literal search, the loop finishes exactly when every opponent point has an empty neighbour and the fuel is positive, and then nothing was captured |
| Gameplay.HandleStonePlayAsWritten | gameplay/gameplay.go:9-24 | as written, a parse failure is reported; otherwise the call finishes exactly when every adjacent opposite-colour point has an empty neighbour, the outcome is then whether the target has one, and an empty target always finishes; the board is never written |
| Gameplay.ShadowedQueueSpins | gameplay/gameplay.go:121-122 | on a concrete board where Black plays its own "0:0", the key parses to that cell, its only opposite-colour neighbour is 0:1, and 0:1 has no empty neighbour |
| Gameplay.ShadowedPlaySpins | gameplay/gameplay.go:9-24 | on that board the literal routine runs out of fuel for every fuel |
| Gameplay.WalledInStoneCaptured | gameplay/gameplay.go:115-135 | on the same board, that White point alone is a closed set without liberties, that is a captive set |
| Gameplay.WalledInPlay | gameplay/gameplay.go:9-24 | on the same board the intended routine returns Ok(true) and clears 0:1, and every other cell stays as it was |
| Gameplay.PlayClearsOnly | gameplay/gameplay.go:16-22 | when the only adjacent opposite-colour point is a White stone that is captive on its own, the play clears that stone and nothing else |
| Gameplay.OffBoardTarget | gameplay/gameplay.go:33-49 | "19:5" parses to row 19, column 5 and reads ""; with White at 5:18, that point is the only opposite-colour point found around it |
| Gameplay.OffBoardPlay | gameplay/gameplay.go:9-24 | on that board, Black's play of the key "19:5", which names no cell, is valid and clears the White stone at 5:18, and every other cell stays as it was |
| Util.MakeBoard | gogo/src/util.js:3-20 | the table has exactly the row keys "0".."18", every row has exactly the column keys "0".."18", every cell is "e", and the template is 19 rows of 19 nulls |
| Util.BoardIndicesAreKeyIndices | gogo/src/util.js:11-14 | a string is a row or column key of the new table exactly when the Go parser names a cell 0..18 with it |
| Util.EmptyTableReads | gogo/src/util.js:10-17 | reading the new table the Go way gives "e" at the keys of the 19 x 19 cells and "" anywhere else, as an all-"e" board does |

## Left out

- Gameplay.WholeThingHasNoLibertiesAsWritten: the literal loop never ends when the seed has no empty neighbour. Non-termination cannot be stated here, so the loop gets `fuel` iterations and reports `OutOfFuel` when they run out. The contract is exact for every fuel.
- Gameplay.HandleStonePlayAsWritten: it inherits the fuel of the literal search. The board is never written, because removal is never reached.
- Gameplay.RemoveWholeThing: requires every key to name an on-board cell. Other keys would add a key to a row of the Go table, or panic on a missing row. Every caller passes only keys that a search recorded.
- Gameplay.WholeThingHasNoLiberties: requires the seed to be an on-board point keyed by its own coordinates. Every seed that `HandleStonePlay` passes is such a point.
- Util.MakeBoard: stores the evidently intended `"e"`. As written, `STATES` is not exported by `gogo/src/constants.js`, so the call never returns a board.
- Gameplay.MakePointState: Go's `Atoi` fails on values outside 64 bits. Here integers are unbounded, so such a key reads `""` like any other off-board key.
- Cell strings other than "e", "b", "w" are not modelled, and neither are played colours other than those and "". `OppositeOf` maps every modelled non-"b" value to "b", as the source does.
- The visited map `map[string]bool` only ever holds `true`, so it is a set of keys.
- `removeWholeThing` walks the keys in Go's unspecified map order, and its result does not depend on that order. The loop picks any remaining key.
- The four blocks of `getSurroundingPoints` become one list of four tries, each with its bounds test, filtered in order.
- `log.Fatal` ends the server process. Here it is an error result.
- `makeBoard` builds the template with `Array(19).fill(null).map(...)`, which is a value here.
- The HTTP and websocket server, file storage, templates and concurrency (`server/main.go`, `main.go`, `wiki.go`) are not part of this model. They are I/O.
- The React components are not part of this model. They are user interface.
- Turn, seat, pass and resign logic has no implementation in this code.

## Findings

| source | as written | input that shows it | evidently intended | confidence | as-written member | corrected member |
|---|---|---|---|---|---|---|
| gameplay/gameplay.go:122 | the `:=` declares a new work-list, holding only the first element, inside the loop body; the list the loop tests never changes, so a seed with no empty neighbour is examined forever | White at 0:1, Black at 0:0, 1:1 and 2:0, 1:0 empty; Black plays "0:0", where its own stone already stands | pop the front: assign the existing list its tail | not executed | Gameplay.WholeThingHasNoLibertiesAsWritten, Gameplay.HandleStonePlayAsWritten, Gameplay.ShadowedPlaySpins | Gameplay.WholeThingHasNoLiberties, Gameplay.HandleStonePlay, Gameplay.WalledInPlay |
