/**
 The fixed boards of the mock board makers (mock/boardmaker.go) and the
 expected outcomes of the engine's unit tests, as verified facts about the model.

 Each test table is proved for every board with the mock's layout; a separate
 lemma shows that the mock's construction has that layout.
 */
module Examples {
  import opened Sokoban
  import opened BoardGen
  import opened BoardPlay
  import opened Wire

  /** The walls of a list, stated cell by cell rather than one AddWall at a
      time; the layout lemmas reason about it and AddWallsIsAddWallList
      carries their results over to Wire.AddWallList, which builds the boards. */
  function AddWalls(b: Board, pts: seq<Point>): (r: Board)
    requires Shaped(b)
    ensures Shaped(r) && r == b.(grid := r.grid)
    ensures forall x, y :: 0 <= x < b.width && 0 <= y < b.height ==>
      r.grid[x][y] == b.grid[x][y].(kind := r.grid[x][y].kind)
  {
    b.(grid := seq(b.width, x requires 0 <= x < b.width =>
                 seq(b.height, y requires 0 <= y < b.height =>
                   if Point(x, y) in pts then b.grid[x][y].(kind := Wall) else b.grid[x][y])))
  }

  /** The cell (x, y) after AddWalls: a wall when the point is listed, unchanged otherwise. */
  lemma AddWallsCell(b: Board, pts: seq<Point>, x: int, y: int)
    requires Shaped(b) && 0 <= x < b.width && 0 <= y < b.height
    ensures AddWalls(b, pts).grid[x][y] == (if Point(x, y) in pts then b.grid[x][y].(kind := Wall) else b.grid[x][y])
  {
  }

  /** On grid points, AddWalls builds the same board as adding the walls one
      by one in list order. */
  lemma AddWallsIsAddWallList(b: Board, pts: seq<Point>)
    requires Shaped(b) && OnGrid(pts, b.width, b.height)
    ensures AddWalls(b, pts) == AddWallList(b, pts)
  {
    var r1 := AddWalls(b, pts);
    var r2 := AddWallList(b, pts);
    forall x | 0 <= x < b.width
      ensures r1.grid[x] == r2.grid[x]
    {
      forall y | 0 <= y < b.height
        ensures r1.grid[x][y] == r2.grid[x][y]
      {
        AddWallListCell(b, pts, x, y);
      }
    }
  }

  /** A step onto a free, box-less cell succeeds and only moves the player. */
  lemma Walk(b: Board, d: Direction)
    requires Valid(b) && IsDirection(d)
    requires ValidSpace(b, Ahead(b.player, d)) && !At(b, Ahead(b.player, d)).hasBox
    ensures MakeMove(b, d).ok
    ensures MakeMove(b, d).board == b.(history := MakeMove(b, d).board.history, player := Ahead(b.player, d))
  {
    MoveSucceedsIffLegal(b, d);
  }

  /** A step off the grid or into a wall fails. */
  lemma Blocked(b: Board, d: Direction)
    requires Valid(b) && !ValidSpace(b, Ahead(b.player, d))
    ensures !MakeMove(b, d).ok && MakeMove(b, d).board == b
  {
    MoveSucceedsIffLegal(b, d);
  }

  /** A fresh board of `NewEmptyBoard(_, w, h)`. */
  ghost predicate IsBlank(b: Board, w: int, h: int) {
    && Valid(b) && BoxesConsistent(b) && b.width == w && b.height == h
    && b.boxes == [] && b.targets == [] && b.history == [] && b.score == 0
    && forall x, y :: 0 <= x < w && 0 <= y < h ==> b.grid[x][y] == EmptyItem
  }

  lemma BlankLayout(id: int, w: int, h: int)
    requires 0 <= w && 0 <= h
    ensures IsBlank(NewEmptyBoard(id, w, h), w, h)
  {
  }

  // ---------------------------------------------------------------------------
  // TestNewEmptyBoard: an open 10-by-15 board

  /** An open board of `NewEmptyBoard(_, 10, 15)` with the player at (5, 7) and no history. */
  ghost predicate IsOpen(b: Board) {
    && Valid(b) && b.width == 10 && b.height == 15 && b.history == [] && b.player == Point(5, 7)
    && forall x, y :: 0 <= x < 10 && 0 <= y < 15 ==> b.grid[x][y] == EmptyItem
  }

  lemma OpenLayout()
    ensures IsOpen(InitPlayer(NewEmptyBoard(1, 10, 15), 5, 7))
  {
  }

  /** The internal test of the empty board: four walks, an undo that returns
      the player to (4, 7) with three moves left in the history, and a reset
      that empties the history and puts the player back on (5, 7). */
  lemma OpenBoardTable(b: Board)
    requires IsOpen(b)
    ensures |b.grid| == 10 && |b.grid[0]| == 15
    ensures
      var s1 := MakeMove(b, Up);
      var s2 := MakeMove(s1.board, Down);
      var s3 := MakeMove(s2.board, Left);
      var s4 := MakeMove(s3.board, Right);
      var u := Undo(s4.board);
      var r := ResetBoard(u.board);
      && s1.ok && s1.board.player == Point(5, 6)
      && s2.ok && s2.board.player == Point(5, 7)
      && s3.ok && s3.board.player == Point(4, 7)
      && s4.ok && s4.board.player == Point(5, 7)
      && u.ok && u.board.player == Point(4, 7) && |u.board.history| == 3
      && r.history == [] && r.player == Point(5, 7)
  {
    Walk(b, Up);
    var b1 := MakeMove(b, Up).board;
    Walk(b1, Down);
    var b2 := MakeMove(b1, Down).board;
    Walk(b2, Left);
    var b3 := MakeMove(b2, Left).board;
    Walk(b3, Right);
    var b4 := MakeMove(b3, Right).board;
    var u := Undo(b4).board;
    assert Anchored(b, Point(5, 7));
    MoveKeepsAnchored(b, Up, Point(5, 7));
    MoveKeepsAnchored(b1, Down, Point(5, 7));
    MoveKeepsAnchored(b2, Left, Point(5, 7));
    MoveKeepsAnchored(b3, Right, Point(5, 7));
    UndoKeepsAnchored(b4, Point(5, 7));
    ResetReturnsToStart(u, Point(5, 7));
  }

  // ---------------------------------------------------------------------------
  // BoardMaker1: a walled single cell
  //   ###
  //   #P#
  //   ###

  /** The walls BoardMaker1 adds, in its order. */
  const Walls1 := [Point(0, 0), Point(0, 1), Point(0, 2), Point(1, 0), Point(1, 2),
                   Point(2, 0), Point(2, 1), Point(2, 2)]

  /** Every wall of BoardMaker1 lies on its 3-by-3 grid. */
  lemma Walls1OnGrid()
    ensures OnGrid(Walls1, 3, 3)
  {
  }

  function Board1(): Board {
    assert OnGrid(Walls1, 3, 3) by { Walls1OnGrid(); }
    InitPlayer(AddWallList(NewEmptyBoard(0, 3, 3), Walls1), 1, 1)
  }

  ghost predicate IsCell(b: Board) {
    && Valid(b) && b.width == 3 && b.height == 3
    && b.player == Point(1, 1) && b.score == 0 && b.targets == []
    && forall x, y :: 0 <= x < 3 && 0 <= y < 3 ==>
         b.grid[x][y].kind == (if x == 1 && y == 1 then Space else Wall) && !b.grid[x][y].hasBox
  }

  /** One cell of BoardMaker1's board. */
  lemma Board1Cell(e: Board, x: int, y: int)
    requires IsBlank(e, 3, 3) && 0 <= x < 3 && 0 <= y < 3
    ensures AddWalls(e, Walls1).grid[x][y].kind == (if x == 1 && y == 1 then Space else Wall)
    ensures !AddWalls(e, Walls1).grid[x][y].hasBox
  {
    assert Point(x, y) in Walls1 <==> !(x == 1 && y == 1);
  }

  lemma Board1FromBlank(e: Board)
    requires IsBlank(e, 3, 3)
    ensures IsCell(InitPlayer(AddWalls(e, Walls1), 1, 1))
  {
    var w := AddWalls(e, Walls1);
    forall x, y | 0 <= x < 3 && 0 <= y < 3
      ensures w.grid[x][y].kind == (if x == 1 && y == 1 then Space else Wall) && !w.grid[x][y].hasBox
    {
      Board1Cell(e, x, y);
    }
    assert BoxIdsValid(w);
  }

  lemma Board1Layout()
    ensures IsCell(Board1())
  {
    BlankLayout(0, 3, 3);
    Walls1OnGrid();
    AddWallsIsAddWallList(NewEmptyBoard(0, 3, 3), Walls1);
    Board1FromBlank(NewEmptyBoard(0, 3, 3));
  }

  /** A player walled into a single cell can move in none of the four
      directions, and with no targets the board counts as won. */
  lemma CellBoardRejectsEveryMove(b: Board)
    requires IsCell(b)
    ensures !MakeMove(b, Up).ok && !MakeMove(b, Down).ok && !MakeMove(b, Left).ok && !MakeMove(b, Right).ok
    ensures Won(b) && GetScore(b) == 0
  {
    assert b.grid[1][0].kind == Wall && b.grid[1][2].kind == Wall;
    assert b.grid[0][1].kind == Wall && b.grid[2][1].kind == Wall;
    Blocked(b, Up);
    Blocked(b, Down);
    Blocked(b, Left);
    Blocked(b, Right);
  }

  // ---------------------------------------------------------------------------
  // BoardMaker2: a 2-by-2 room
  //   ####
  //   #P #
  //   #  #
  //   ####

  function Board2(): Board {
    assert OnGrid(Walls2, 4, 4) by { Walls2OnGrid(); }
    InitPlayer(AddWallList(NewEmptyBoard(1, 4, 4), Walls2), 1, 1)
  }

  /** The walls BoardMaker2 adds, in its order. */
  const Walls2 := [Point(0, 0), Point(0, 3), Point(1, 0), Point(1, 3),
                   Point(2, 0), Point(2, 3), Point(3, 0), Point(3, 3),
                   Point(0, 1), Point(3, 1), Point(0, 2), Point(3, 2)]

  /** Every wall of BoardMaker2 lies on its 4-by-4 grid. */
  lemma Walls2OnGrid()
    ensures OnGrid(Walls2, 4, 4)
  {
  }

  /** The 2-by-2 room with the player at `p`. */
  ghost predicate IsRoom(b: Board, p: Point) {
    && Valid(b) && b.width == 4 && b.height == 4
    && b.player == p && b.score == 0 && b.targets == []
    && forall x, y :: 0 <= x < 4 && 0 <= y < 4 ==>
         b.grid[x][y].kind == (if Point(x, y) in Walls2 then Wall else Space)
         && !b.grid[x][y].hasBox
  }

  lemma Board2FromBlank(e: Board)
    requires IsBlank(e, 4, 4)
    ensures IsRoom(InitPlayer(AddWalls(e, Walls2), 1, 1), Point(1, 1))
  {
    var w := AddWalls(e, Walls2);
    forall x, y | 0 <= x < 4 && 0 <= y < 4
      ensures w.grid[x][y].kind == (if Point(x, y) in Walls2 then Wall else Space) && !w.grid[x][y].hasBox
    {
      assert w.grid[x][y] == (if Point(x, y) in Walls2 then e.grid[x][y].(kind := Wall) else e.grid[x][y]);
    }
    assert BoxIdsValid(w);
  }

  lemma Board2Layout()
    ensures IsRoom(Board2(), Point(1, 1))
  {
    BlankLayout(1, 4, 4);
    Walls2OnGrid();
    AddWallsIsAddWallList(NewEmptyBoard(1, 4, 4), Walls2);
    Board2FromBlank(NewEmptyBoard(1, 4, 4));
  }

  /** In the room, a step into the surrounding wall fails and changes nothing. */
  lemma RoomBlocked(b: Board, p: Point, d: Direction)
    requires IsRoom(b, p) && IsDirection(d) && Ahead(p, d) in Walls2
    ensures !MakeMove(b, d).ok && MakeMove(b, d).board == b
  {
    var n := Ahead(p, d);
    assert b.grid[n.x][n.y].kind == Wall;
    Blocked(b, d);
  }

  /** In the room, a step that stays inside succeeds and leaves a room with the player moved. */
  lemma RoomWalk(b: Board, p: Point, d: Direction)
    requires IsRoom(b, p) && IsDirection(d)
    requires 1 <= Ahead(p, d).x <= 2 && 1 <= Ahead(p, d).y <= 2
    ensures MakeMove(b, d).ok && IsRoom(MakeMove(b, d).board, Ahead(p, d))
  {
    var n := Ahead(p, d);
    assert n !in Walls2;
    assert b.grid[n.x][n.y].kind == Space;
    Walk(b, d);
  }

  /** The table of TestMovePlayer: each step into the wall fails, each step into the room succeeds. */
  lemma MovePlayerTable(b: Board)
    requires IsRoom(b, Point(1, 1))
    ensures
      var s1 := MakeMove(b, Up);
      var s2 := MakeMove(s1.board, Left);
      var s3 := MakeMove(s2.board, Down);
      var s4 := MakeMove(s3.board, Down);
      var s5 := MakeMove(s4.board, Right);
      var s6 := MakeMove(s5.board, Right);
      var s7 := MakeMove(s6.board, Up);
      var s8 := MakeMove(s7.board, Up);
      var s9 := MakeMove(s8.board, Right);
      var s10 := MakeMove(s9.board, Left);
      var s11 := MakeMove(s10.board, Left);
      [s1.ok, s2.ok, s3.ok, s4.ok, s5.ok, s6.ok, s7.ok, s8.ok, s9.ok, s10.ok, s11.ok]
        == [false, false, true, false, true, false, true, false, false, true, false]
      && s11.board.player == Point(1, 1)
  {
    RoomBlocked(b, Point(1, 1), Up);
    RoomBlocked(b, Point(1, 1), Left);
    RoomWalk(b, Point(1, 1), Down);
    var b1 := MakeMove(b, Down).board;
    RoomBlocked(b1, Point(1, 2), Down);
    RoomWalk(b1, Point(1, 2), Right);
    var b2 := MakeMove(b1, Right).board;
    RoomBlocked(b2, Point(2, 2), Right);
    RoomWalk(b2, Point(2, 2), Up);
    var b3 := MakeMove(b2, Up).board;
    RoomBlocked(b3, Point(2, 1), Up);
    RoomBlocked(b3, Point(2, 1), Right);
    RoomWalk(b3, Point(2, 1), Left);
    var b4 := MakeMove(b3, Left).board;
    RoomBlocked(b4, Point(1, 1), Left);
  }

  // ---------------------------------------------------------------------------
  // BoardMaker3: one box and one target
  //   ######
  //   #    #
  //   #  #P#
  //   #  BT#
  //   ######

  /** The walls BoardMaker3 adds, in its order. */
  const Walls3 := [Point(0, 0), Point(0, 4), Point(1, 0), Point(1, 4), Point(2, 0), Point(2, 4),
                   Point(3, 0), Point(3, 4), Point(4, 0), Point(4, 4), Point(5, 0), Point(5, 4),
                   Point(0, 0), Point(5, 0), Point(0, 1), Point(5, 1), Point(0, 2), Point(5, 2),
                   Point(0, 3), Point(5, 3), Point(0, 4), Point(5, 4),
                   Point(3, 2)]

  /** Every wall of BoardMaker3 lies on its 6-by-5 grid. */
  lemma Walls3OnGrid()
    ensures OnGrid(Walls3, 6, 5)
  {
  }

  /** The cells `Walls3` lists: the border of the 6-by-5 grid and the cell (3, 2). */
  predicate Wall3(p: Point) {
    p.x == 0 || p.x == 5 || p.y == 0 || p.y == 4 || p == Point(3, 2)
  }

  lemma Walls3Cells(x: int, y: int)
    requires 0 <= x < 6 && 0 <= y < 5
    ensures Point(x, y) in Walls3 <==> Wall3(Point(x, y))
  {
  }

  /** The only target of BoardMaker3. */
  const Target3 := Point(4, 3)

  function Board3(): Board {
    assert OnGrid(Walls3, 6, 5) by { Walls3OnGrid(); }
    InitPlayer(AddTarget(AddBox(AddWallList(NewEmptyBoard(2, 6, 5), Walls3), 3, 3), 4, 3), 4, 2)
  }

  /** BoardMaker3's layout with the player at `p` and the box at `q`; the
      score is 1 exactly when the box is on the target. */
  ghost predicate IsBoxRoom(b: Board, p: Point, q: Point) {
    && Valid(b) && b.width == 6 && b.height == 5
    && Inside3(p) && Inside3(q) && p != q
    && b.player == p && b.boxes == [q] && b.targets == [Target3]
    && b.score == (if q == Target3 then 1 else 0)
    && forall x, y :: 0 <= x < 6 && 0 <= y < 5 ==>
         && b.grid[x][y].kind == (if Wall3(Point(x, y)) then Wall else if Point(x, y) == Target3 then Target else Space)
         && b.grid[x][y].hasBox == (Point(x, y) == q)
         && (Point(x, y) == q ==> b.grid[x][y].boxId == 0)
  }

  /** A point inside BoardMaker3's walls. */
  predicate Inside3(p: Point) {
    1 <= p.x <= 4 && 1 <= p.y <= 3 && !Wall3(p)
  }

  /** BoardMaker3's board with its walls and nothing else. */
  ghost predicate IsWalled3(b: Board) {
    && Valid(b) && BoxesConsistent(b) && b.width == 6 && b.height == 5
    && b.boxes == [] && b.targets == [] && b.history == [] && b.score == 0
    && forall x, y :: 0 <= x < 6 && 0 <= y < 5 ==>
         b.grid[x][y] == (if Wall3(Point(x, y)) then EmptyItem.(kind := Wall) else EmptyItem)
  }

  /** One cell of BoardMaker3's walled board. */
  lemma Board3WallCell(e: Board, x: int, y: int)
    requires IsBlank(e, 6, 5) && 0 <= x < 6 && 0 <= y < 5
    ensures AddWalls(e, Walls3).grid[x][y] == (if Wall3(Point(x, y)) then EmptyItem.(kind := Wall) else EmptyItem)
  {
    Walls3Cells(x, y);
  }

  lemma Board3WallsGrid(e: Board)
    requires IsBlank(e, 6, 5)
    ensures forall x, y :: 0 <= x < 6 && 0 <= y < 5 ==>
      AddWalls(e, Walls3).grid[x][y] == (if Wall3(Point(x, y)) then EmptyItem.(kind := Wall) else EmptyItem)
  {
    forall x, y | 0 <= x < 6 && 0 <= y < 5
      ensures AddWalls(e, Walls3).grid[x][y] == (if Wall3(Point(x, y)) then EmptyItem.(kind := Wall) else EmptyItem)
    {
      Board3WallCell(e, x, y);
    }
  }

  lemma Board3WallsValid(e: Board)
    requires IsBlank(e, 6, 5)
    ensures Valid(AddWalls(e, Walls3)) && BoxesConsistent(AddWalls(e, Walls3))
  {
  }

  lemma Board3Walls(e: Board)
    requires IsBlank(e, 6, 5)
    ensures IsWalled3(AddWalls(e, Walls3))
  {
    Board3WallsGrid(e);
    Board3WallsValid(e);
  }

  lemma Board3Stock(w: Board)
    requires IsWalled3(w)
    ensures
      var b := InitPlayer(AddTarget(AddBox(w, 3, 3), 4, 3), 4, 2);
      IsBoxRoom(b, Point(4, 2), Point(3, 3)) && b.history == []
  {
  }

  lemma Board3FromBlank(e: Board)
    requires IsBlank(e, 6, 5)
    ensures
      var b := InitPlayer(AddTarget(AddBox(AddWalls(e, Walls3), 3, 3), 4, 3), 4, 2);
      IsBoxRoom(b, Point(4, 2), Point(3, 3)) && b.history == []
  {
    Board3Walls(e);
    Board3Stock(AddWalls(e, Walls3));
  }

  lemma Board3Layout()
    ensures IsBoxRoom(Board3(), Point(4, 2), Point(3, 3)) && Board3().history == []
  {
    BlankLayout(2, 6, 5);
    Walls3OnGrid();
    AddWallsIsAddWallList(NewEmptyBoard(2, 6, 5), Walls3);
    Board3FromBlank(NewEmptyBoard(2, 6, 5));
  }

  /** On BoardMaker3's board, a step into a wall fails and changes nothing. */
  lemma BoxRoomBlocked(b: Board, p: Point, q: Point, d: Direction)
    requires IsBoxRoom(b, p, q) && IsDirection(d) && Wall3(Ahead(p, d))
    ensures !MakeMove(b, d).ok && MakeMove(b, d).board == b
  {
    var n := Ahead(p, d);
    assert b.grid[n.x][n.y].kind == Wall;
    Blocked(b, d);
  }

  /** On BoardMaker3's board, a step onto a free cell succeeds and only moves the player. */
  lemma BoxRoomWalk(b: Board, p: Point, q: Point, d: Direction)
    requires IsBoxRoom(b, p, q) && IsDirection(d) && Inside3(Ahead(p, d)) && Ahead(p, d) != q
    ensures MakeMove(b, d).ok && IsBoxRoom(MakeMove(b, d).board, Ahead(p, d), q)
  {
    var n := Ahead(p, d);
    assert b.grid[n.x][n.y].kind != Wall && !b.grid[n.x][n.y].hasBox;
    Walk(b, d);
  }

  /** On BoardMaker3's board, pushing the box into a wall fails and changes nothing. */
  lemma BoxRoomPushBlocked(b: Board, p: Point, q: Point, d: Direction)
    requires IsBoxRoom(b, p, q) && IsDirection(d) && Ahead(p, d) == q && Wall3(Ahead(q, d))
    ensures !MakeMove(b, d).ok && MakeMove(b, d).board == b
  {
    var n2 := Ahead(q, d);
    assert b.grid[n2.x][n2.y].kind == Wall;
    assert b.grid[q.x][q.y].hasBox;
    MoveSucceedsIffLegal(b, d);
  }

  /** On BoardMaker3's board, pushing the box onto a free cell moves the player
      onto the box's cell and the box one step further. */
  lemma BoxRoomPush(b: Board, p: Point, q: Point, d: Direction)
    requires IsBoxRoom(b, p, q) && IsDirection(d) && Ahead(p, d) == q && Inside3(Ahead(q, d))
    ensures MakeMove(b, d).ok && IsBoxRoom(MakeMove(b, d).board, q, Ahead(q, d))
  {
    var n2 := Ahead(q, d);
    assert b.grid[n2.x][n2.y].kind != Wall && !b.grid[n2.x][n2.y].hasBox;
    assert b.grid[q.x][q.y].hasBox && b.grid[q.x][q.y].boxId == 0;
    MoveSucceedsIffLegal(b, d);
    PushEffect(b, d);
    var r := MakeMove(b, d).board;
    forall x, y | 0 <= x < 6 && 0 <= y < 5
      ensures r.grid[x][y].kind == b.grid[x][y].kind
      ensures r.grid[x][y].hasBox == (Point(x, y) == n2)
      ensures Point(x, y) == n2 ==> r.grid[x][y].boxId == 0
    {
    }
  }

  /** The table of TestWithBox: the box is pushed left, fails to go into the
      bottom wall, is pushed back and onto the target, and the game is won. */
  lemma WithBoxTable(b: Board)
    requires IsBoxRoom(b, Point(4, 2), Point(3, 3))
    ensures !Won(b)
    ensures
      var s1 := MakeMove(b, Left);
      var s2 := MakeMove(s1.board, Right);
      var s3 := MakeMove(s2.board, Down);
      var s4 := MakeMove(s3.board, Left);
      var s5 := MakeMove(s4.board, Right);
      var s6 := MakeMove(s5.board, Up);
      var s7 := MakeMove(s6.board, Up);
      var s8 := MakeMove(s7.board, Left);
      [s1.ok, s2.ok, s3.ok, s4.ok, s5.ok, s6.ok, s7.ok, s8.ok]
        == [false, false, true, true, true, true, true, true]
      && IsBoxRoom(s8.board, Point(3, 1), Point(2, 3))
  {
    BoxRoomBlocked(b, Point(4, 2), Point(3, 3), Left);
    BoxRoomBlocked(b, Point(4, 2), Point(3, 3), Right);
    BoxRoomWalk(b, Point(4, 2), Point(3, 3), Down);
    var b3 := MakeMove(b, Down).board;
    BoxRoomPush(b3, Point(4, 3), Point(3, 3), Left);
    var b4 := MakeMove(b3, Left).board;
    BoxRoomWalk(b4, Point(3, 3), Point(2, 3), Right);
    var b5 := MakeMove(b4, Right).board;
    BoxRoomWalk(b5, Point(4, 3), Point(2, 3), Up);
    var b6 := MakeMove(b5, Up).board;
    BoxRoomWalk(b6, Point(4, 2), Point(2, 3), Up);
    var b7 := MakeMove(b6, Up).board;
    BoxRoomWalk(b7, Point(4, 1), Point(2, 3), Left);
  }

  /** Steps 9 to 12 of TestWithBox's table: the push into the bottom wall fails. */
  lemma WithBoxTableMiddle(b: Board)
    requires IsBoxRoom(b, Point(3, 1), Point(2, 3))
    ensures
      var s9 := MakeMove(b, Left);
      var s10 := MakeMove(s9.board, Down);
      var s11 := MakeMove(s10.board, Down);
      var s12 := MakeMove(s11.board, Left);
      [s9.ok, s10.ok, s11.ok, s12.ok] == [true, true, false, true]
      && IsBoxRoom(s12.board, Point(1, 2), Point(2, 3))
  {
    BoxRoomWalk(b, Point(3, 1), Point(2, 3), Left);
    var b9 := MakeMove(b, Left).board;
    BoxRoomWalk(b9, Point(2, 1), Point(2, 3), Down);
    var b10 := MakeMove(b9, Down).board;
    BoxRoomPushBlocked(b10, Point(2, 2), Point(2, 3), Down);
    BoxRoomWalk(b10, Point(2, 2), Point(2, 3), Left);
  }

  /** The last steps of TestWithBox's table: two pushes bring the box onto the
      target and the game is won. */
  lemma WithBoxTableEnd(b: Board)
    requires IsBoxRoom(b, Point(1, 2), Point(2, 3))
    ensures
      var s13 := MakeMove(b, Down);
      var s14 := MakeMove(s13.board, Right);
      var s15 := MakeMove(s14.board, Right);
      [s13.ok, s14.ok, s15.ok] == [true, true, true]
      && IsBoxRoom(s15.board, Point(3, 3), Target3) && Won(s15.board)
  {
    BoxRoomWalk(b, Point(1, 2), Point(2, 3), Down);
    var b13 := MakeMove(b, Down).board;
    BoxRoomPush(b13, Point(1, 3), Point(2, 3), Right);
    var b14 := MakeMove(b13, Right).board;
    BoxRoomPush(b14, Point(2, 3), Point(3, 3), Right);
  }

  /** The end of TestUndo, from the won position reached by a push to the right
      from (2, 3): the undo succeeds, but since undo rolls back neither the box
      nor the score, the game is still won afterwards (the test expects it not
      to be), and the step right that follows is a plain walk. As written, the
      undo panics. */
  lemma UndoAfterWin(b: Board)
    requires IsBoxRoom(b, Point(3, 3), Target3)
    requires |b.history| > 0 && b.history[|b.history| - 1].from == Point(2, 3)
    ensures Won(b) && UndoAsWritten(b).None?
    ensures
      var u := Undo(b);
      var s := MakeMove(u.board, Right);
      && u.ok && u.board.player == Point(2, 3) && Won(u.board)
      && s.ok && s.board.player == Point(3, 3) && Won(s.board)
  {
    var u := Undo(b).board;
    assert IsBoxRoom(u, Point(2, 3), Target3);
    BoxRoomWalk(u, Point(2, 3), Target3, Right);
  }

  /** TestUndo: undo fails on a fresh board, and the first three moves walk
      the player to (2, 1). */
  lemma UndoTable(b: Board)
    requires IsBoxRoom(b, Point(4, 2), Point(3, 3)) && b.history == []
    ensures !Won(b) && !Undo(b).ok
    ensures
      var s1 := MakeMove(b, Up);
      var s2 := MakeMove(s1.board, Left);
      var s3 := MakeMove(s2.board, Left);
      [s1.ok, s2.ok, s3.ok] == [true, true, true]
      && IsBoxRoom(s3.board, Point(2, 1), Point(3, 3))
  {
    BoxRoomWalk(b, Point(4, 2), Point(3, 3), Up);
    var b1 := MakeMove(b, Up).board;
    BoxRoomWalk(b1, Point(4, 1), Point(3, 3), Left);
    var b2 := MakeMove(b1, Left).board;
    BoxRoomWalk(b2, Point(3, 1), Point(3, 3), Left);
  }

  /** TestUndo continued: three more moves win the game with a push to the
      right from (2, 3). */
  lemma UndoTableWin(b: Board)
    requires IsBoxRoom(b, Point(2, 1), Point(3, 3))
    ensures
      var s4 := MakeMove(b, Down);
      var s5 := MakeMove(s4.board, Down);
      var s6 := MakeMove(s5.board, Right);
      [s4.ok, s5.ok, s6.ok] == [true, true, true]
      && IsBoxRoom(s6.board, Point(3, 3), Target3) && Won(s6.board)
      && |s6.board.history| > 0 && s6.board.history[|s6.board.history| - 1].from == Point(2, 3)
  {
    BoxRoomWalk(b, Point(2, 1), Point(3, 3), Down);
    var b4 := MakeMove(b, Down).board;
    BoxRoomWalk(b4, Point(2, 2), Point(3, 3), Down);
    var b5 := MakeMove(b4, Down).board;
    BoxRoomPush(b5, Point(2, 3), Point(3, 3), Right);
  }
}
