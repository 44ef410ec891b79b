/**
 Playing on a board: the walk-or-push move rule with its score accounting,
 undo, reset, the score query and the win test.
 */
module BoardPlay {
  import opened Wrappers
  import opened Sokoban

  /** The sentinel delta the source returns for a value outside the four directions. */
  const InvalidDir := 55

  /** The unit step of a direction, or (55, 55) for anything else. */
  function DirectionDelta(d: Direction): (r: (int, int))
    ensures IsDirection(d) ==> r.0 != InvalidDir && r.1 != InvalidDir
    ensures !IsDirection(d) ==> r == (InvalidDir, InvalidDir)
    ensures IsDirection(d) ==> (r.0 == 0 || r.1 == 0) && r.0 * r.0 + r.1 * r.1 == 1
    ensures d == Up ==> r.1 == -1
    ensures d == Down ==> r.1 == 1
    ensures d == Left ==> r.0 == -1
    ensures d == Right ==> r.0 == 1
  {
    if d == Up then (0, -1)
    else if d == Down then (0, 1)
    else if d == Left then (-1, 0)
    else if d == Right then (1, 0)
    else (InvalidDir, InvalidDir)
  }

  /** Opposite directions have opposite deltas. */
  lemma OppositeDeltas()
    ensures DirectionDelta(Up).1 == -DirectionDelta(Down).1 && DirectionDelta(Up).0 == DirectionDelta(Down).0
    ensures DirectionDelta(Left).0 == -DirectionDelta(Right).0 && DirectionDelta(Left).1 == DirectionDelta(Right).1
  {
  }

  /** The point one step from `p` in direction `d` (only meaningful for the four). */
  function Ahead(p: Point, d: Direction): Point {
    var (dx, dy) := DirectionDelta(d);
    Point(p.x + dx, p.y + dy)
  }

  /** A point the player or a box may occupy: on the grid and not a wall. */
  predicate ValidSpace(b: Board, p: Point)
    requires Shaped(b)
  {
    InBounds(b, p) && At(b, p).kind != Wall
  }

  /** The outcome of an engine operation: the board afterwards and whether it succeeded. */
  datatype Step = Step(board: Board, ok: bool)

  /** The board after the player at `b.player` pushes the box on `next` to `next2`. */
  function Push(b: Board, next: Point, next2: Point): (r: Board)
    requires Valid(b) && ValidSpace(b, next) && ValidSpace(b, next2) && next != next2
    requires At(b, next).hasBox && !At(b, next2).hasBox
  {
    var c1 := At(b, next);
    var c2 := At(b, next2);
    var g1 := SetItem(b.grid, next2, c2.(hasBox := true, boxId := c1.boxId));
    var g2 := SetItem(g1, next, c1.(hasBox := false, boxId := 0));
    var score := b.score - (if c1.kind == Target then 1 else 0) + (if c2.kind == Target then 1 else 0);
    b.(grid := g2,
       boxes := b.boxes[c1.boxId := next2],
       score := score,
       history := b.history + [Move(b.player, next, Some(BoxShift(next, next2)))],
       player := next)
  }

  /** Attempts to move the player one step in `dir`: a walk onto a free cell,
      or a push of the box there onto the cell beyond. A failed attempt leaves
      the board exactly as it was. */
  function MakeMove(b: Board, dir: Direction): (r: Step)
    requires Valid(b)
    ensures Valid(r.board)
    ensures !r.ok ==> r.board == b
    ensures r.ok ==> IsDirection(dir) && r.board.player == Ahead(b.player, dir)
    ensures r.ok ==> |r.board.history| == |b.history| + 1 && r.board.history[..|b.history|] == b.history
    ensures r.ok ==> r.board.history[|b.history|].from == b.player && r.board.history[|b.history|].to == r.board.player
    ensures SameKinds(b, r.board) && r.board.targets == b.targets && |r.board.boxes| == |b.boxes|
    ensures r.board.id == b.id
    ensures r.board.score - b.score in {-1, 0, 1}
  {
    var (dx, dy) := DirectionDelta(dir);
    if dx == InvalidDir || dy == InvalidDir then Step(b, false)
    else
      var next := Point(b.player.x + dx, b.player.y + dy);
      if !ValidSpace(b, next) then Step(b, false)
      else if At(b, next).hasBox then
        var next2 := Point(next.x + dx, next.y + dy);
        if ValidSpace(b, next2) && !At(b, next2).hasBox then Step(Push(b, next, next2), true)
        else Step(b, false)
      else
        Step(b.(history := b.history + [Move(b.player, next, None)], player := next), true)
  }

  /** Whether a move in `dir` is legal, stated from the rules rather than the code path. */
  ghost predicate Legal(b: Board, dir: Direction)
    requires Shaped(b)
  {
    var next := Ahead(b.player, dir);
    && IsDirection(dir)
    && ValidSpace(b, next)
    && (At(b, next).hasBox ==> ValidSpace(b, Ahead(next, dir)) && !At(b, Ahead(next, dir)).hasBox)
  }

  /** A move succeeds exactly when it is legal; a legal step onto a box-less
      cell is a walk that keeps the grid, the boxes and the score, and records
      no box displacement. */
  lemma MoveSucceedsIffLegal(b: Board, dir: Direction)
    requires Valid(b)
    ensures MakeMove(b, dir).ok <==> Legal(b, dir)
    ensures Legal(b, dir) && !At(b, Ahead(b.player, dir)).hasBox ==>
      var r := MakeMove(b, dir).board;
      && r.grid == b.grid && r.boxes == b.boxes && r.score == b.score
      && r.history == b.history + [Move(b.player, Ahead(b.player, dir), None)]
  {
  }

  /** A push moves the box from `next` to `next2` both on the grid and in
      `boxes`, moves the player onto `next`, records both displacements, and
      changes the score by -1 when the box leaves a target and +1 when it enters one. */
  lemma PushEffect(b: Board, dir: Direction)
    requires Valid(b) && Legal(b, dir) && At(b, Ahead(b.player, dir)).hasBox
    ensures
      var next := Ahead(b.player, dir);
      var next2 := Ahead(next, dir);
      var id := At(b, next).boxId;
      var r := MakeMove(b, dir).board;
      && r.player == next
      && !At(r, next).hasBox
      && At(r, next2).hasBox && At(r, next2).boxId == id
      && r.boxes == b.boxes[id := next2]
      && r.history == b.history + [Move(b.player, next, Some(BoxShift(next, next2)))]
      && r.score == b.score
           - (if At(b, next).kind == Target then 1 else 0)
           + (if At(b, next2).kind == Target then 1 else 0)
      && (forall x, y :: 0 <= x < b.width && 0 <= y < b.height && Point(x, y) != next && Point(x, y) != next2 ==>
            r.grid[x][y] == b.grid[x][y])
  {
    var (dx, dy) := DirectionDelta(dir);
    assert Ahead(Ahead(b.player, dir), dir) == Point(b.player.x + dx + dx, b.player.y + dy + dy);
  }

  /** A move keeps the grid's box flags and `boxes` consistent. */
  lemma MoveKeepsBoxesConsistent(b: Board, dir: Direction)
    requires Valid(b) && BoxesConsistent(b)
    ensures BoxesConsistent(MakeMove(b, dir).board)
  {
    var r := MakeMove(b, dir);
    if r.ok && At(b, Ahead(b.player, dir)).hasBox {
      MoveSucceedsIffLegal(b, dir);
      PushEffect(b, dir);
      var next := Ahead(b.player, dir);
      var next2 := Ahead(next, dir);
      var id := At(b, next).boxId;
      var rb := r.board;
      forall i | 0 <= i < |rb.boxes|
        ensures InBounds(rb, rb.boxes[i]) && At(rb, rb.boxes[i]).hasBox && At(rb, rb.boxes[i]).boxId == i
      {
        if i != id {
          assert b.boxes[i] != next;
          assert b.boxes[i] != next2;
        }
      }
      forall x, y | 0 <= x < rb.width && 0 <= y < rb.height && rb.grid[x][y].hasBox
        ensures 0 <= rb.grid[x][y].boxId < |rb.boxes| && rb.boxes[rb.grid[x][y].boxId] == Point(x, y)
      {
        if Point(x, y) != next2 {
          assert b.grid[x][y] == rb.grid[x][y];
          assert b.boxes[b.grid[x][y].boxId] == Point(x, y);
        }
      }
    }
  }

  /** How many boxes stand on target cells. */
  ghost function BoxesOnTargets(b: Board, boxes: seq<Point>): (n: nat)
    requires Shaped(b)
    ensures n <= |boxes|
  {
    if |boxes| == 0 then 0
    else
      var last := boxes[|boxes| - 1];
      BoxesOnTargets(b, boxes[..|boxes| - 1])
        + (if InBounds(b, last) && At(b, last).kind == Target then 1 else 0)
  }

  /** The score minus the number of boxes on targets: a quantity no move changes. */
  ghost function ScoreDrift(b: Board): int
    requires Shaped(b)
  {
    b.score - BoxesOnTargets(b, b.boxes)
  }

  /** Replacing one box position changes the count by the difference of the two cells. */
  lemma {:induction false} BoxesOnTargetsUpdate(b: Board, boxes: seq<Point>, i: int, p: Point)
    requires Shaped(b) && 0 <= i < |boxes|
    ensures BoxesOnTargets(b, boxes[i := p])
      == BoxesOnTargets(b, boxes)
         - (if InBounds(b, boxes[i]) && At(b, boxes[i]).kind == Target then 1 else 0)
         + (if InBounds(b, p) && At(b, p).kind == Target then 1 else 0)
  {
    var n := |boxes|;
    if i < n - 1 {
      assert boxes[i := p][..n - 1] == boxes[..n - 1][i := p];
      BoxesOnTargetsUpdate(b, boxes[..n - 1], i, p);
    } else {
      assert boxes[i := p][..n - 1] == boxes[..n - 1];
    }
  }

  /** The count depends only on the cell kinds. */
  lemma {:induction false} BoxesOnTargetsSameKinds(a: Board, b: Board, boxes: seq<Point>)
    requires Shaped(a) && Shaped(b) && SameKinds(a, b)
    ensures BoxesOnTargets(a, boxes) == BoxesOnTargets(b, boxes)
  {
    if |boxes| > 0 {
      BoxesOnTargetsSameKinds(a, b, boxes[..|boxes| - 1]);
    }
  }

  /** Score accounting is exact: a move changes the score by precisely the
      change in the number of boxes on targets. */
  lemma MoveKeepsScoreDrift(b: Board, dir: Direction)
    requires Valid(b) && BoxesConsistent(b)
    ensures ScoreDrift(MakeMove(b, dir).board) == ScoreDrift(b)
  {
    var r := MakeMove(b, dir);
    BoxesOnTargetsSameKinds(b, r.board, r.board.boxes);
    if r.ok && At(b, Ahead(b.player, dir)).hasBox {
      MoveSucceedsIffLegal(b, dir);
      PushEffect(b, dir);
      var next := Ahead(b.player, dir);
      var id := At(b, next).boxId;
      BoxesOnTargetsUpdate(b, b.boxes, id, Ahead(next, dir));
    }
  }

  /** Undoes the last move: pops the last history entry and puts the player
      back where that move started. Boxes and score are not rolled back. */
  function Undo(b: Board): (r: Step)
    ensures r.ok <==> |b.history| > 0
    ensures !r.ok ==> r.board == b
    ensures r.ok ==> r.board.player == b.history[|b.history| - 1].from
    ensures r.ok ==> |r.board.history| == |b.history| - 1
    ensures r.ok ==> r.board.history == b.history[..|r.board.history|]
    ensures r.board.grid == b.grid && r.board.boxes == b.boxes && r.board.score == b.score
    ensures r.board.targets == b.targets && r.board.id == b.id
    ensures r.board.width == b.width && r.board.height == b.height
  {
    var n := |b.history|;
    if n == 0 then Step(b, false)
    else
      var last := b.history[n - 1];
      Step(b.(history := b.history[..n - 1], player := last.from), true)
  }

  /** UndoMove as the source writes it: it reads `history[len(history)]`, one
      past the end, so every undo of a non-empty history is an index-out-of-range
      panic (`None` here). */
  function UndoAsWritten(b: Board): (r: Option<Step>)
    ensures r.None? <==> |b.history| > 0
    ensures r.Some? ==> r.value == Step(b, false)
  {
    var n := |b.history|;
    if n == 0 then Some(Step(b, false))
    else
      match Index(b.history, n)
      case None => None
      case Some(last) => Some(Step(b.(history := DropLast(b.history), player := last.from), true))
  }

  /** Go's `s[:len(s)-1]` on a non-empty slice; the empty slice is left alone. */
  function DropLast<T>(s: seq<T>): seq<T> {
    if |s| == 0 then s else s[..|s| - 1]
  }

  /** Go's slice indexing: the element, or `None` where Go panics. */
  function Index<T>(s: seq<T>, i: int): Option<T> {
    if 0 <= i < |s| then Some(s[i]) else None
  }

  /** Undo reverts a successful move's player position and history; after a
      walk it gives back exactly the board before the move. */
  lemma MoveThenUndo(b: Board, dir: Direction)
    requires Valid(b) && MakeMove(b, dir).ok
    ensures
      var u := Undo(MakeMove(b, dir).board);
      && u.ok
      && u.board.player == b.player
      && u.board.history == b.history
      && (!At(b, Ahead(b.player, dir)).hasBox ==> u.board == b)
  {
    var m := MakeMove(b, dir).board;
    assert m.history[..|b.history|] == b.history;
  }

  /** Undo keeps the representation invariant and the box consistency. */
  lemma UndoKeepsInvariants(b: Board)
    requires Valid(b)
    ensures Valid(Undo(b).board)
    ensures BoxesConsistent(b) ==> BoxesConsistent(Undo(b).board)
    ensures ScoreDrift(Undo(b).board) == ScoreDrift(b)
  {
    BoxesOnTargetsSameKinds(b, Undo(b).board, b.boxes);
  }

  /** Undoes every move, leaving an empty history. The source's Reset is not
      part of this model; it is modelled as undo repeated until the history is empty. */
  function ResetBoard(b: Board): (r: Board)
    ensures r.history == []
    ensures r.player == (if |b.history| == 0 then b.player else b.history[0].from)
    ensures r.grid == b.grid && r.boxes == b.boxes && r.score == b.score
    ensures r.targets == b.targets && r.id == b.id
    ensures r.width == b.width && r.height == b.height
    decreases |b.history|
  {
    if |b.history| == 0 then b
    else ResetBoard(Undo(b).board)
  }

  /** The history is a chain of moves starting at `start` and ending where the player stands. */
  ghost predicate Anchored(b: Board, start: Point) {
    var h := b.history;
    && (|h| == 0 ==> b.player == start)
    && (|h| > 0 ==> h[0].from == start && h[|h| - 1].to == b.player)
    && (forall i :: 0 <= i < |h| - 1 ==> h[i].to == h[i + 1].from)
  }

  lemma MoveKeepsAnchored(b: Board, dir: Direction, start: Point)
    requires Valid(b) && Anchored(b, start)
    ensures Anchored(MakeMove(b, dir).board, start)
  {
  }

  lemma UndoKeepsAnchored(b: Board, start: Point)
    requires Anchored(b, start)
    ensures Anchored(Undo(b).board, start)
  {
  }

  /** Reset returns the player to the starting position, whatever moves and
      undos came before. */
  lemma ResetReturnsToStart(b: Board, start: Point)
    requires Anchored(b, start)
    ensures ResetBoard(b).player == start
    ensures Anchored(ResetBoard(b), start)
  {
  }

  /** The score of the game. */
  function GetScore(b: Board): int {
    b.score
  }

  /** The player has won once the score reaches the number of targets. */
  predicate Won(b: Board) {
    GetScore(b) == |b.targets|
  }

  /** On a board whose score counts exactly its boxes on targets, the score
      is that count, and the board is won exactly when as many boxes sit on
      targets as there are targets. */
  lemma WonIffBoxesPlaced(b: Board)
    requires Shaped(b) && ScoreDrift(b) == 0
    ensures GetScore(b) == BoxesOnTargets(b, b.boxes)
    ensures Won(b) <==> BoxesOnTargets(b, b.boxes) == |b.targets|
  {
  }

  /** With no targets and a zero score, a board is won from the start. */
  lemma NoTargetsWonAtStart(b: Board)
    requires b.targets == [] && b.score == 0
    ensures Won(b)
  {
  }
}
