/**
 The board's wire record: the id, the dimensions, the player and the lists of
 wall, target and box cells. A board is converted to the record by scanning
 its grid column by column, and rebuilt from a record by replaying the board
 construction operations. The JSON text of the record is not modelled: the
 decoder's outcome is a parameter.
 */
module Wire {
  import opened Wrappers
  import opened Sokoban
  import opened BoardGen

  /** The record exchanged with clients and read from board files. */
  datatype WireBoard = WireBoard(
    id: int,
    width: int,
    height: int,
    player: Point,
    walls: seq<Point>,
    targets: seq<Point>,
    boxes: seq<Point>)

  // ---------------------------------------------------------------------------
  // Scan order

  /** `p` comes before `q` when the grid is scanned column by column, top to bottom. */
  predicate Before(p: Point, q: Point) {
    p.x < q.x || (p.x == q.x && p.y < q.y)
  }

  /** Strictly increasing in scan order, hence free of duplicates. */
  predicate Ordered(s: seq<Point>) {
    forall i, j :: 0 <= i < j < |s| ==> Before(s[i], s[j])
  }

  /** Two ordered lists with the same members are the same list. */
  lemma {:induction false} OrderedUnique(s: seq<Point>, t: seq<Point>)
    requires Ordered(s) && Ordered(t)
    requires forall p :: p in s <==> p in t
    ensures s == t
    decreases |s|
  {
    SameMembersSameEmptiness(s, t);
    if |s| == 0 || |t| == 0 {
    } else {
      assert s[0] == t[0] by {
        assert s[0] in t && t[0] in s;
        var i :| 0 <= i < |s| && s[i] == t[0];
        var j :| 0 <= j < |t| && t[j] == s[0];
        if i > 0 {
          assert Before(s[0], t[0]);
        }
        if j > 0 {
          assert Before(t[0], s[0]);
        }
      }
      forall p
        ensures p in s[1..] <==> p in t[1..]
      {
        if p in s[1..] {
          var i :| 1 <= i < |s| && s[i] == p;
          assert Before(s[0], p) && p in t;
          var j :| 0 <= j < |t| && t[j] == p;
          assert j != 0 && t[1..][j - 1] == p;
        }
        if p in t[1..] {
          var j :| 1 <= j < |t| && t[j] == p;
          assert Before(t[0], p) && p in s;
          var i :| 0 <= i < |s| && s[i] == p;
          assert i != 0 && s[1..][i - 1] == p;
        }
      }
      OrderedUnique(s[1..], t[1..]);
      assert s == [s[0]] + s[1..] && t == [t[0]] + t[1..];
    }
  }

  lemma SameMembersSameEmptiness(s: seq<Point>, t: seq<Point>)
    requires forall p :: p in s <==> p in t
    ensures |s| == 0 <==> |t| == 0
  {
    if |s| > 0 {
      assert s[0] in t;
    }
    if |t| > 0 {
      assert t[0] in s;
    }
  }

  // ---------------------------------------------------------------------------
  // Board to record

  /** The three cell lists of the record. */
  datatype CellTest = Walls | Targets | Boxes

  predicate Holds(t: CellTest, it: Item) {
    match t
    case Walls => it.kind == Wall
    case Targets => it.kind == Target
    case Boxes => it.hasBox
  }

  /** The cells (x, y') with y <= y' that pass the test, top to bottom. */
  function ScanColumn(b: Board, t: CellTest, x: int, y: int): (r: seq<Point>)
    requires Shaped(b) && 0 <= x < b.width && 0 <= y <= b.height
    ensures forall i :: 0 <= i < |r| ==> r[i].x == x && y <= r[i].y < b.height
    ensures forall p :: p in r <==> p.x == x && y <= p.y < b.height && Holds(t, b.grid[x][p.y])
    ensures Ordered(r)
    decreases b.height - y
  {
    if y == b.height then []
    else (if Holds(t, b.grid[x][y]) then [Point(x, y)] else []) + ScanColumn(b, t, x, y + 1)
  }

  /** The cells of columns x and beyond that pass the test, in scan order. */
  function ScanColumns(b: Board, t: CellTest, x: int): (r: seq<Point>)
    requires Shaped(b) && 0 <= x <= b.width
    ensures forall i :: 0 <= i < |r| ==> x <= r[i].x < b.width
    ensures forall p :: p in r <==> x <= p.x < b.width && 0 <= p.y < b.height && Holds(t, b.grid[p.x][p.y])
    ensures Ordered(r)
    decreases b.width - x
  {
    if x == b.width then []
    else
      var col := ScanColumn(b, t, x, 0);
      var rest := ScanColumns(b, t, x + 1);
      assert forall i, j :: 0 <= i < |col| && 0 <= j < |rest| ==> Before(col[i], rest[j]);
      col + rest
  }

  /** The record of a board: its id, dimensions and player, and the wall,
      target and box cells, each list in scan order. */
  function ConvertFromBoard(b: Board): (w: WireBoard)
    requires Shaped(b)
    ensures w.id == b.id && w.width == b.width && w.height == b.height && w.player == b.player
    ensures forall p :: p in w.walls <==> InBounds(b, p) && At(b, p).kind == Wall
    ensures forall p :: p in w.targets <==> InBounds(b, p) && At(b, p).kind == Target
    ensures forall p :: p in w.boxes <==> InBounds(b, p) && At(b, p).hasBox
  {
    WireBoard(b.id, b.width, b.height, b.player,
      ScanColumns(b, Walls, 0), ScanColumns(b, Targets, 0), ScanColumns(b, Boxes, 0))
  }

  /** Each list of a board's record is in scan order. */
  lemma ConvertOrdered(b: Board)
    requires Shaped(b)
    ensures var w := ConvertFromBoard(b);
      Ordered(w.walls) && Ordered(w.targets) && Ordered(w.boxes)
  {
  }

  // ---------------------------------------------------------------------------
  // Record to board

  /** Every listed point lies on a `w` by `h` grid. */
  predicate OnGrid(pts: seq<Point>, w: int, h: int) {
    forall i :: 0 <= i < |pts| ==> 0 <= pts[i].x < w && 0 <= pts[i].y < h
  }

  /** AddWall on each listed point in turn (AddWallListCell states the cells). */
  function AddWallList(b: Board, pts: seq<Point>): (r: Board)
    requires Shaped(b) && OnGrid(pts, b.width, b.height)
    ensures Shaped(r) && r == b.(grid := r.grid)
    decreases |pts|
  {
    if |pts| == 0 then b else AddWallList(AddWall(b, pts[0].x, pts[0].y), pts[1..])
  }

  /** AddTarget on each listed point in turn (AddTargetListCell states the cells). */
  function AddTargetList(b: Board, pts: seq<Point>): (r: Board)
    requires Shaped(b) && OnGrid(pts, b.width, b.height)
    ensures Shaped(r) && r == b.(grid := r.grid, targets := r.targets)
    ensures r.targets == b.targets + pts
    decreases |pts|
  {
    if |pts| == 0 then b
    else
      assert b.targets + pts == b.targets + [pts[0]] + pts[1..];
      AddTargetList(AddTarget(b, pts[0].x, pts[0].y), pts[1..])
  }

  /** AddBox on each listed point in turn (AddBoxListCell states the cells). */
  function AddBoxList(b: Board, pts: seq<Point>): (r: Board)
    requires Shaped(b) && OnGrid(pts, b.width, b.height)
    ensures Shaped(r) && r == b.(grid := r.grid, boxes := r.boxes)
    ensures r.boxes == b.boxes + pts
    decreases |pts|
  {
    if |pts| == 0 then b
    else
      assert b.boxes + pts == b.boxes + [pts[0]] + pts[1..];
      AddBoxList(AddBox(b, pts[0].x, pts[0].y), pts[1..])
  }

  /** A cell after AddWallList: a wall when listed, otherwise as it was. */
  lemma {:induction false} AddWallListCell(b: Board, pts: seq<Point>, x: int, y: int)
    requires Shaped(b) && OnGrid(pts, b.width, b.height) && 0 <= x < b.width && 0 <= y < b.height
    ensures AddWallList(b, pts).grid[x][y] == if Point(x, y) in pts then b.grid[x][y].(kind := Wall) else b.grid[x][y]
    decreases |pts|
  {
    if |pts| > 0 {
      var b' := AddWall(b, pts[0].x, pts[0].y);
      AddWallListCell(b', pts[1..], x, y);
      assert Point(x, y) in pts <==> Point(x, y) == pts[0] || Point(x, y) in pts[1..];
    }
  }

  /** A cell after AddTargetList: a target when listed, otherwise of the same
      kind; its box flag and box number are untouched. */
  lemma {:induction false} AddTargetListCell(b: Board, pts: seq<Point>, x: int, y: int)
    requires Shaped(b) && OnGrid(pts, b.width, b.height) && 0 <= x < b.width && 0 <= y < b.height
    ensures var c := AddTargetList(b, pts).grid[x][y];
      && c.kind == (if Point(x, y) in pts then Target else b.grid[x][y].kind)
      && c.hasBox == b.grid[x][y].hasBox && c.boxId == b.grid[x][y].boxId
    decreases |pts|
  {
    if |pts| > 0 {
      var b' := AddTarget(b, pts[0].x, pts[0].y);
      AddTargetListCell(b', pts[1..], x, y);
      assert Point(x, y) in pts <==> Point(x, y) == pts[0] || Point(x, y) in pts[1..];
    }
  }

  /** A cell after AddBoxList: of the same kind; holding a box when listed or
      when it held one before; a box it gained is numbered after the old boxes. */
  lemma {:induction false} AddBoxListCell(b: Board, pts: seq<Point>, x: int, y: int)
    requires Shaped(b) && OnGrid(pts, b.width, b.height) && 0 <= x < b.width && 0 <= y < b.height
    ensures var c := AddBoxList(b, pts).grid[x][y];
      && c.kind == b.grid[x][y].kind
      && c.hasBox == (Point(x, y) in pts || b.grid[x][y].hasBox)
      && (c.hasBox ==> (b.grid[x][y].hasBox && c.boxId == b.grid[x][y].boxId) || |b.boxes| <= c.boxId < |b.boxes| + |pts|)
    decreases |pts|
  {
    if |pts| > 0 {
      var b' := AddBox(b, pts[0].x, pts[0].y);
      AddBoxListCell(b', pts[1..], x, y);
      assert Point(x, y) in pts <==> Point(x, y) == pts[0] || Point(x, y) in pts[1..];
    }
  }

  /** The board a record describes: an empty board of its dimensions, then
      its walls, its targets and its boxes, each in list order, then the
      player. A negative dimension or a listed point off the grid, where the
      source panics, is an error here. GenBoardCell states the cells. */
  function GenBoard(w: WireBoard): (r: Result<Board, string>)
    ensures r.Ok? <==> Buildable(w)
    ensures r.Ok? ==> Valid(r.value) && r.value.history == [] && r.value.score == 0
    ensures r.Ok? ==> r.value.id == w.id && r.value.width == w.width && r.value.height == w.height
    ensures r.Ok? ==> r.value.player == w.player && r.value.targets == w.targets && r.value.boxes == w.boxes
  {
    if w.width < 0 || w.height < 0 then Err("negative board dimension")
    else if !Buildable(w) then Err("point off the grid")
    else
      BuildValid(w);
      Ok(Build(w))
  }

  /** The record's dimensions are not negative and its lists lie on the grid. */
  predicate Buildable(w: WireBoard) {
    && 0 <= w.width && 0 <= w.height
    && OnGrid(w.walls, w.width, w.height) && OnGrid(w.targets, w.width, w.height) && OnGrid(w.boxes, w.width, w.height)
  }

  function Build(w: WireBoard): (r: Board)
    requires Buildable(w)
    ensures Shaped(r) && r.history == [] && r.score == 0
    ensures r.id == w.id && r.width == w.width && r.height == w.height
    ensures r.player == w.player && r.targets == w.targets && r.boxes == w.boxes
  {
    var e := NewEmptyBoard(w.id, w.width, w.height);
    var b1 := AddWallList(e, w.walls);
    var b2 := AddTargetList(b1, w.targets);
    var b3 := AddBoxList(b2, w.boxes);
    InitPlayer(b3, w.player.x, w.player.y)
  }

  lemma BuildCell(w: WireBoard, x: int, y: int)
    requires Buildable(w) && 0 <= x < w.width && 0 <= y < w.height
    ensures var c := Build(w).grid[x][y];
      && c.kind == (if Point(x, y) in w.targets then Target else if Point(x, y) in w.walls then Wall else Space)
      && c.hasBox == (Point(x, y) in w.boxes)
      && (c.hasBox ==> 0 <= c.boxId < |w.boxes|)
  {
    var e := NewEmptyBoard(w.id, w.width, w.height);
    var b1 := AddWallList(e, w.walls);
    var b2 := AddTargetList(b1, w.targets);
    AddWallListCell(e, w.walls, x, y);
    AddTargetListCell(b1, w.targets, x, y);
    AddBoxListCell(b2, w.boxes, x, y);
  }

  lemma BuildValid(w: WireBoard)
    requires Buildable(w)
    ensures Valid(Build(w))
  {
    var r := Build(w);
    forall x, y | 0 <= x < r.width && 0 <= y < r.height && r.grid[x][y].hasBox
      ensures 0 <= r.grid[x][y].boxId < |r.boxes|
    {
      BuildCell(w, x, y);
    }
  }

  /** Each cell of a built board: a target when listed as one, otherwise a
      wall when listed as one, otherwise a space; holding a box exactly when
      listed as a box cell. */
  lemma GenBoardCell(w: WireBoard, x: int, y: int)
    requires Buildable(w) && 0 <= x < w.width && 0 <= y < w.height
    ensures GenBoard(w).Ok?
    ensures GenBoard(w).value.grid[x][y].kind == (if Point(x, y) in w.targets then Target else if Point(x, y) in w.walls then Wall else Space)
    ensures GenBoard(w).value.grid[x][y].hasBox == (Point(x, y) in w.boxes)
  {
    BuildCell(w, x, y);
  }

  /** Reading a board file: a decoding failure is reported with its cause and
      yields no board; a decoded record is built by GenBoard. */
  function ParseBoard(decoded: Result<WireBoard, string>): (r: Result<Board, string>)
    ensures decoded.Err? ==> r == Err("unable to parse json - " + decoded.error)
    ensures decoded.Ok? ==> r == GenBoard(decoded.value)
  {
    match decoded
    case Err(e) => Err("unable to parse json - " + e)
    case Ok(w) => GenBoard(w)
  }

  // ---------------------------------------------------------------------------
  // Round trips

  /** The lists of a board's record lie on its grid. */
  lemma ConvertOnGrid(b: Board)
    requires Shaped(b)
    ensures Buildable(ConvertFromBoard(b))
  {
    var w := ConvertFromBoard(b);
    forall i | 0 <= i < |w.walls| ensures InBounds(b, w.walls[i]) {
      assert w.walls[i] in w.walls;
    }
    forall i | 0 <= i < |w.targets| ensures InBounds(b, w.targets[i]) {
      assert w.targets[i] in w.targets;
    }
    forall i | 0 <= i < |w.boxes| ensures InBounds(b, w.boxes[i]) {
      assert w.boxes[i] in w.boxes;
    }
  }

  /** Converting a board and rebuilding it gives a board with the same id,
      dimensions and player, and the same kind and box flag in every cell. */
  lemma RebuildKeepsLayout(b: Board)
    requires Shaped(b)
    ensures GenBoard(ConvertFromBoard(b)).Ok?
    ensures var r := GenBoard(ConvertFromBoard(b)).value;
      && r.id == b.id && r.width == b.width && r.height == b.height && r.player == b.player
      && forall x, y :: 0 <= x < b.width && 0 <= y < b.height ==>
           r.grid[x][y].kind == b.grid[x][y].kind && r.grid[x][y].hasBox == b.grid[x][y].hasBox
  {
    var w := ConvertFromBoard(b);
    ConvertOnGrid(b);
    var r := GenBoard(w).value;
    assert r == Build(w);
    forall x, y | 0 <= x < b.width && 0 <= y < b.height
      ensures r.grid[x][y].kind == b.grid[x][y].kind && r.grid[x][y].hasBox == b.grid[x][y].hasBox
    {
      ConvertCell(b, Point(x, y));
      RebuildCell(b, w, x, y);
    }
  }

  /** A built cell whose listings match a cell of another board agrees with it. */
  lemma RebuildCell(b: Board, w: WireBoard, x: int, y: int)
    requires Shaped(b) && 0 <= x < b.width && 0 <= y < b.height
    requires Buildable(w) && w.width == b.width && w.height == b.height
    requires Point(x, y) in w.walls <==> b.grid[x][y].kind == Wall
    requires Point(x, y) in w.targets <==> b.grid[x][y].kind == Target
    requires Point(x, y) in w.boxes <==> b.grid[x][y].hasBox
    ensures Build(w).grid[x][y].kind == b.grid[x][y].kind
    ensures Build(w).grid[x][y].hasBox == b.grid[x][y].hasBox
  {
    BuildCell(w, x, y);
  }

  /** A record whose lists are on the grid, in scan order, and whose walls
      and targets do not share a cell comes back unchanged from building its
      board and converting that board. */
  lemma ConvertAfterGen(w: WireBoard)
    requires Buildable(w)
    requires Ordered(w.walls) && Ordered(w.targets) && Ordered(w.boxes)
    requires forall p :: p in w.walls ==> p !in w.targets
    ensures GenBoard(w).Ok? && ConvertFromBoard(GenBoard(w).value) == w
  {
    var b := GenBoard(w).value;
    var v := ConvertFromBoard(b);
    forall p
      ensures (p in v.walls <==> p in w.walls) && (p in v.targets <==> p in w.targets) && (p in v.boxes <==> p in w.boxes)
    {
      RelistPoint(w, p);
    }
    ConvertOrdered(b);
    OrderedUnique(v.walls, w.walls);
    OrderedUnique(v.targets, w.targets);
    OrderedUnique(v.boxes, w.boxes);
  }

  lemma RelistPoint(w: WireBoard, p: Point)
    requires Buildable(w)
    requires forall p :: p in w.walls ==> p !in w.targets
    ensures var v := ConvertFromBoard(GenBoard(w).value);
      (p in v.walls <==> p in w.walls) && (p in v.targets <==> p in w.targets) && (p in v.boxes <==> p in w.boxes)
  {
    if 0 <= p.x < w.width && 0 <= p.y < w.height {
      RelistCell(w, p);
    } else {
      ListedOnGrid(w.walls, p, w.width, w.height);
      ListedOnGrid(w.targets, p, w.width, w.height);
      ListedOnGrid(w.boxes, p, w.width, w.height);
    }
  }

  lemma RelistCell(w: WireBoard, p: Point)
    requires Buildable(w) && 0 <= p.x < w.width && 0 <= p.y < w.height
    requires p in w.walls ==> p !in w.targets
    ensures var v := ConvertFromBoard(GenBoard(w).value);
      (p in v.walls <==> p in w.walls) && (p in v.targets <==> p in w.targets) && (p in v.boxes <==> p in w.boxes)
  {
    GenBoardCell(w, p.x, p.y);
    ConvertCell(GenBoard(w).value, p);
  }

  /** The record's lists at one cell of the board. */
  lemma ConvertCell(b: Board, p: Point)
    requires Shaped(b) && InBounds(b, p)
    ensures var w := ConvertFromBoard(b);
      && (p in w.walls <==> b.grid[p.x][p.y].kind == Wall)
      && (p in w.targets <==> b.grid[p.x][p.y].kind == Target)
      && (p in w.boxes <==> b.grid[p.x][p.y].hasBox)
  {
  }

  lemma ListedOnGrid(pts: seq<Point>, p: Point, w: int, h: int)
    requires OnGrid(pts, w, h)
    ensures p in pts ==> 0 <= p.x < w && 0 <= p.y < h
  {
    if p in pts {
      var i :| 0 <= i < |pts| && pts[i] == p;
    }
  }
}
