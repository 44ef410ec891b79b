/**
 Board construction: an empty board of given dimensions, then walls, targets,
 boxes and the player's starting point, and cloning a board in its starting
 position.
 */
module BoardGen {
  import opened Sokoban

  /** A board of `w` columns of `h` empty cells, with no boxes, targets or
      history and a zero score. Go's `make` panics on a negative length, so
      the dimensions must not be negative. */
  function NewEmptyBoard(id: int, w: int, h: int): (b: Board)
    requires 0 <= w && 0 <= h
    ensures Valid(b) && BoxesConsistent(b)
    ensures b.id == id && b.width == w && b.height == h
    ensures forall x, y :: 0 <= x < w && 0 <= y < h ==> b.grid[x][y] == EmptyItem
    ensures b.boxes == [] && b.targets == [] && b.history == [] && b.score == 0
    ensures b.player == Point(0, 0)
  {
    Board(id, w, h, seq(w, _ => seq(h, _ => EmptyItem)), Point(0, 0), [], [], [], 0)
  }

  /** Makes cell (x, y) a wall; nothing else changes. */
  function AddWall(b: Board, x: int, y: int): (r: Board)
    requires Shaped(b) && InBounds(b, Point(x, y))
    ensures Shaped(r) && r.width == b.width && r.height == b.height
    ensures r.grid[x][y] == b.grid[x][y].(kind := Wall)
    ensures forall i, j :: 0 <= i < r.width && 0 <= j < r.height && (i, j) != (x, y) ==>
      r.grid[i][j] == b.grid[i][j]
    ensures r == b.(grid := r.grid)
  {
    b.(grid := SetItem(b.grid, Point(x, y), b.grid[x][y].(kind := Wall)))
  }

  /** Makes cell (x, y) a target numbered by the previous target count and
      appends the point to `targets`. */
  function AddTarget(b: Board, x: int, y: int): (r: Board)
    requires Shaped(b) && InBounds(b, Point(x, y))
    ensures Shaped(r) && r.width == b.width && r.height == b.height
    ensures r.grid[x][y] == b.grid[x][y].(kind := Target, targetId := |b.targets|)
    ensures forall i, j :: 0 <= i < r.width && 0 <= j < r.height && (i, j) != (x, y) ==>
      r.grid[i][j] == b.grid[i][j]
    ensures r.targets == b.targets + [Point(x, y)]
    ensures r.targets[r.grid[x][y].targetId] == Point(x, y)
    ensures r == b.(grid := r.grid, targets := r.targets)
  {
    var t := b.grid[x][y].(kind := Target, targetId := |b.targets|);
    b.(grid := SetItem(b.grid, Point(x, y), t), targets := b.targets + [Point(x, y)])
  }

  /** Puts a box numbered by the previous box count on (x, y) and appends the
      point to `boxes`, so that afterwards `boxes[boxId] == (x, y)`. */
  function AddBox(b: Board, x: int, y: int): (r: Board)
    requires Shaped(b) && InBounds(b, Point(x, y))
    ensures Shaped(r) && r.width == b.width && r.height == b.height
    ensures r.grid[x][y] == b.grid[x][y].(hasBox := true, boxId := |b.boxes|)
    ensures forall i, j :: 0 <= i < r.width && 0 <= j < r.height && (i, j) != (x, y) ==>
      r.grid[i][j] == b.grid[i][j]
    ensures r.boxes == b.boxes + [Point(x, y)]
    ensures r.boxes[r.grid[x][y].boxId] == Point(x, y)
    ensures r == b.(grid := r.grid, boxes := r.boxes)
  {
    var c := b.grid[x][y].(hasBox := true, boxId := |b.boxes|);
    b.(grid := SetItem(b.grid, Point(x, y), c), boxes := b.boxes + [Point(x, y)])
  }

  /** Sets the starting point of the player; nothing else changes. */
  function InitPlayer(b: Board, x: int, y: int): (r: Board)
    ensures r.player == Point(x, y)
    ensures r == b.(player := Point(x, y))
  {
    b.(player := Point(x, y))
  }

  /** A copy of `b` with a fresh, empty history. Boards are values here, so the
      copy shares nothing with the original: changing one never changes the other. */
  function Clone(b: Board): (r: Board)
    ensures r.id == b.id && r.width == b.width && r.height == b.height
    ensures r.grid == b.grid && r.player == b.player
    ensures r.boxes == b.boxes && r.targets == b.targets && r.score == b.score
    ensures r.history == []
    ensures b.history == [] ==> r == b
  {
    Board(b.id, b.width, b.height, b.grid, b.player, b.boxes, b.targets, [], b.score)
  }

  /** Adding a wall, a target or the player keeps the representation invariant;
      adding a box keeps it and keeps `boxes` and the grid consistent when the
      cell held no box before. */
  lemma AddWallKeepsInvariants(b: Board, x: int, y: int)
    requires Valid(b) && BoxesConsistent(b) && InBounds(b, Point(x, y))
    ensures Valid(AddWall(b, x, y)) && BoxesConsistent(AddWall(b, x, y))
  {
  }

  lemma AddTargetKeepsInvariants(b: Board, x: int, y: int)
    requires Valid(b) && BoxesConsistent(b) && InBounds(b, Point(x, y))
    ensures Valid(AddTarget(b, x, y)) && BoxesConsistent(AddTarget(b, x, y))
  {
  }

  lemma AddBoxKeepsInvariants(b: Board, x: int, y: int)
    requires Valid(b) && BoxesConsistent(b) && InBounds(b, Point(x, y))
    requires !b.grid[x][y].hasBox
    ensures Valid(AddBox(b, x, y)) && BoxesConsistent(AddBox(b, x, y))
  {
    var r := AddBox(b, x, y);
    forall i | 0 <= i < |r.boxes|
      ensures InBounds(r, r.boxes[i]) && At(r, r.boxes[i]).hasBox && At(r, r.boxes[i]).boxId == i
    {
      if i < |b.boxes| {
        assert r.boxes[i] == b.boxes[i];
        assert b.boxes[i] != Point(x, y);
      }
    }
  }
}
