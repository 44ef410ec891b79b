/**
 The board record of the Sokoban engine: the grid of cells, the player,
 the boxes and targets lists, the move history and the score, together with
 the `Direction` enumeration and its printable names.

 The grid is column-major, as in the source: `grid[x][y]` is the cell in
 column `x` and row `y`, with `0 <= x < width` and `0 <= y < height`.
 */
module Sokoban {
  import opened Wrappers

  /** Grid co-ordinates. */
  datatype Point = Point(x: int, y: int)

  /** The three kinds a cell can have; a box is a separate flag on top of the kind. */
  datatype ItemType = Space | Target | Wall

  /** One grid cell. `boxId` and `targetId` index `boxes` and `targets`. */
  datatype Item = Item(kind: ItemType, hasBox: bool, boxId: int, targetId: int)

  /** The zero value of a cell: an empty space without a box. */
  const EmptyItem := Item(Space, false, 0, 0)

  /** The box displacement of a push. */
  datatype BoxShift = BoxShift(from: Point, to: Point)

  /** A history entry: where the player came from and went to, and the box
      displacement when the move pushed one. */
  datatype Move = Move(from: Point, to: Point, box: Option<BoxShift>)

  /** Directions are plain integers in the source: decoding produces -1 for a
      missing or unknown direction, and any value outside the four fails. */
  type Direction = int

  const Up: Direction := 0
  const Right: Direction := 1
  const Down: Direction := 2
  const Left: Direction := 3

  predicate IsDirection(d: Direction) {
    Up <= d <= Left
  }

  /** The printable name of a direction, "?" for anything outside the four. */
  function DirectionToStr(d: Direction): (s: string)
    ensures s == "?" <==> !IsDirection(d)
    ensures d == Up <==> s == "Up"
    ensures d == Down <==> s == "Down"
    ensures d == Left <==> s == "Left"
    ensures d == Right <==> s == "Right"
  {
    if d == Up then "Up"
    else if d == Down then "Down"
    else if d == Left then "Left"
    else if d == Right then "Right"
    else "?"
  }

  /** Distinct directions have distinct names, and no direction is named "?". */
  lemma DirectionNamesDistinct(d1: Direction, d2: Direction)
    requires IsDirection(d1) && IsDirection(d2)
    ensures DirectionToStr(d1) == DirectionToStr(d2) <==> d1 == d2
    ensures DirectionToStr(d1) != "?"
  {
  }

  /** The game board. */
  datatype Board = Board(
    id: int,
    width: int,
    height: int,
    grid: seq<seq<Item>>,
    player: Point,
    boxes: seq<Point>,
    targets: seq<Point>,
    history: seq<Move>,
    score: int)

  /** The grid has `width` columns of `height` cells each. */
  predicate Shaped(b: Board) {
    && 0 <= b.width
    && 0 <= b.height
    && |b.grid| == b.width
    && forall x :: 0 <= x < |b.grid| ==> |b.grid[x]| == b.height
  }

  predicate InBounds(b: Board, p: Point) {
    0 <= p.x < b.width && 0 <= p.y < b.height
  }

  function At(b: Board, p: Point): Item
    requires Shaped(b) && InBounds(b, p)
  {
    b.grid[p.x][p.y]
  }

  /** Every cell holding a box names an existing entry of `boxes`. */
  ghost predicate BoxIdsValid(b: Board)
    requires Shaped(b)
  {
    forall x, y :: 0 <= x < b.width && 0 <= y < b.height && b.grid[x][y].hasBox ==>
      0 <= b.grid[x][y].boxId < |b.boxes|
  }

  /** The representation invariant every engine operation relies on. */
  ghost predicate Valid(b: Board) {
    Shaped(b) && BoxIdsValid(b)
  }

  /** `boxes` and the grid's box flags describe the same boxes: entry `i` sits
      on a cell flagged with box `i`, and every flagged cell is listed. */
  ghost predicate BoxesConsistent(b: Board)
    requires Shaped(b)
  {
    && (forall i :: 0 <= i < |b.boxes| ==>
          InBounds(b, b.boxes[i]) && At(b, b.boxes[i]).hasBox && At(b, b.boxes[i]).boxId == i)
    && (forall x, y :: 0 <= x < b.width && 0 <= y < b.height && b.grid[x][y].hasBox ==>
          0 <= b.grid[x][y].boxId < |b.boxes| && b.boxes[b.grid[x][y].boxId] == Point(x, y))
  }

  /** Replaces the cell at `p`. */
  function SetItem(g: seq<seq<Item>>, p: Point, it: Item): seq<seq<Item>>
    requires 0 <= p.x < |g| && 0 <= p.y < |g[p.x]|
  {
    g[p.x := g[p.x][p.y := it]]
  }

  /** The cell kinds of two boards agree everywhere. */
  ghost predicate SameKinds(a: Board, b: Board)
    requires Shaped(a) && Shaped(b)
  {
    && a.width == b.width && a.height == b.height
    && forall x, y :: 0 <= x < a.width && 0 <= y < a.height ==> a.grid[x][y].kind == b.grid[x][y].kind
  }
}
