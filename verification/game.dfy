/**
 The game driver: one board per player, and the loop that asks a controller
 for the next player action, applies it to that player's board, and reports
 the result and the new board back, until the controller says it is closing.

 The controller is an abstract state machine: its five operations are
 functions of an arbitrary controller state `C`. Every call the loop makes
 is recorded in an event log, so that the order of calls is a property of
 the returned run.
 */
module Game {
  import opened Wrappers
  import opened Sokoban
  import opened BoardGen
  import opened BoardPlay

  /** The kind of a player action; only three values mean something. */
  type ActionType = int

  const MoveType: ActionType := 1
  const ResetType: ActionType := 2
  const UndoType: ActionType := 3

  predicate IsActionType(t: ActionType) {
    t == MoveType || t == ResetType || t == UndoType
  }

  /** A player's request. The direction only matters for a move. */
  datatype Action = Action(kind: ActionType, direction: Direction)

  /** The zero value of an action: of no known kind, so it always fails. */
  const NoAction := Action(0, 0)

  /** Applies one action to a board: a move, an undo, a reset (which always
      succeeds), or anything else (which always fails and changes nothing). */
  function Apply(b: Board, a: Action): (r: Step)
    requires Valid(b)
    ensures Valid(r.board)
    ensures r.ok <==>
      || (a.kind == MoveType && Legal(b, a.direction))
      || (a.kind == UndoType && |b.history| > 0)
      || a.kind == ResetType
    ensures !r.ok ==> r.board == b
    ensures a.kind == ResetType ==> r.board.history == []
    ensures r.board.id == b.id && r.board.targets == b.targets && SameKinds(b, r.board)
  {
    MoveSucceedsIffLegal(b, a.direction);
    if a.kind == MoveType then MakeMove(b, a.direction)
    else if a.kind == UndoType then Undo(b)
    else if a.kind == ResetType then Step(ResetBoard(b), true)
    else Step(b, false)
  }

  /** A reset puts the player back where the board's history started. */
  lemma ResetActionRestarts(b: Board, start: Point)
    requires Valid(b) && Anchored(b, start)
    ensures Apply(b, Action(ResetType, 0)).board.player == start
  {
    ResetReturnsToStart(b, start);
  }

  /** Every action keeps the board's invariants: the boxes agree with the grid,
      the score counts the boxes on targets (up to the board's initial
      offset), and the history leads from the start to the player. */
  lemma ApplyKeepsInvariants(b: Board, a: Action, start: Point)
    requires Valid(b) && BoxesConsistent(b) && Anchored(b, start)
    ensures BoxesConsistent(Apply(b, a).board)
    ensures ScoreDrift(Apply(b, a).board) == ScoreDrift(b)
    ensures Anchored(Apply(b, a).board, start)
  {
    var r := Apply(b, a).board;
    if a.kind == MoveType {
      MoveKeepsBoxesConsistent(b, a.direction);
      MoveKeepsScoreDrift(b, a.direction);
      MoveKeepsAnchored(b, a.direction, start);
    } else if a.kind == UndoType {
      UndoKeepsInvariants(b);
      UndoKeepsAnchored(b, start);
    } else if a.kind == ResetType {
      ResetReturnsToStart(b, start);
      BoxesOnTargetsSameKinds(b, r, b.boxes);
    }
  }

  /** The boards of a new game of `n` players: the generator's board for
      player 0 and a clone of it, with an empty history, for every other
      player. A generator error is passed on. Go's `make` and `boards[0]`
      panic unless there is at least one player. */
  function InitGame(n: int, gen: Result<Board, string>): (r: Result<seq<Board>, string>)
    requires n >= 1
    ensures r.Err? <==> gen.Err?
    ensures gen.Err? ==> r.error == gen.error
    ensures r.Ok? ==> |r.value| == n && r.value[0] == gen.value
    ensures r.Ok? ==> forall i :: 1 <= i < n ==>
      && r.value[i].id == gen.value.id && r.value[i].width == gen.value.width
      && r.value[i].height == gen.value.height && r.value[i].grid == gen.value.grid
      && r.value[i].player == gen.value.player && r.value[i].boxes == gen.value.boxes
      && r.value[i].targets == gen.value.targets && r.value[i].score == gen.value.score
      && r.value[i].history == []
  {
    match gen
    case Err(e) => Err(e)
    case Ok(b) => Ok([b] + seq(n - 1, _ => Clone(b)))
  }

  /** A generator board in its starting position gives every player the same board. */
  lemma InitGameSameBoards(n: int, b: Board)
    requires n >= 1 && b.history == []
    ensures InitGame(n, Ok(b)).Ok?
    ensures forall i :: 0 <= i < n ==> InitGame(n, Ok(b)).value[i] == b
  {
    var bs := InitGame(n, Ok(b)).value;
    forall i | 0 <= i < n
      ensures bs[i] == b
    {
      if i > 0 {
        assert bs[i] == Clone(b);
      }
    }
  }

  // ---------------------------------------------------------------------------
  // The play loop

  /** A controller, as five operations on a controller state `C`. `closing`
      may change the state (a counting mock does); `recv` names the player
      and the action. */
  datatype Controller<!C> = Controller(
    init: (C, Board) -> C,
    closing: C -> (C, bool),
    recv: C -> (C, int, Action),
    send: (C, int, bool, Action) -> C,
    output: (C, int, Board) -> C)

  /** A call the loop made, with its arguments and result. */
  datatype Event =
    | InitCall(board: Board)
    | ClosingCall(closing: bool)
    | RecvCall(player: int, action: Action)
    | SendCall(player: int, ok: bool, action: Action)
    | OutputCall(player: int, board: Board)

  /** Why a run ended: the controller was closing; the iteration bound ran
      out; or the controller named a player with no board, where Go's
      `boards[p]` panics. */
  datatype Halt = Closed | OutOfFuel | Crashed

  datatype Run<C> = Run(state: C, boards: seq<Board>, log: seq<Event>, halt: Halt)

  /** The calls of one completed iteration, in order. */
  function Round(p: int, a: Action, ok: bool, b: Board): seq<Event> {
    [ClosingCall(false), RecvCall(p, a), SendCall(p, ok, a), OutputCall(p, b)]
  }

  /** The shape of the loop's log: completed rounds, each a closing check
      that said no, a receive, a send to the same player about the same
      action, and an output of that player's board; then a final closing
      check that said yes, or a receive naming a missing player, or nothing
      when the iteration bound ran out. */
  ghost predicate LoopLog(log: seq<Event>, halt: Halt)
    decreases |log|
  {
    if |log| == 0 then halt == OutOfFuel
    else if log == [ClosingCall(true)] then halt == Closed
    else if |log| == 2 && log[0] == ClosingCall(false) && log[1].RecvCall? then halt == Crashed
    else
      && |log| >= 4
      && log[1].RecvCall? && log[2].SendCall? && log[3].OutputCall?
      && log[..4] == Round(log[1].player, log[1].action, log[2].ok, log[3].board)
      && LoopLog(log[4..], halt)
  }

  /** Whether some receive in the log named player `q`. */
  ghost predicate Named(log: seq<Event>, q: int) {
    exists i :: 0 <= i < |log| && log[i].RecvCall? && log[i].player == q
  }

  /** The loop: while the controller is not closing, receive a player and an
      action, apply it to that player's board, send the result and output
      the board. At most `fuel` iterations run. */
  function Loop<C>(ctl: Controller<C>, c: C, boards: seq<Board>, fuel: nat): (r: Run<C>)
    requires forall i :: 0 <= i < |boards| ==> Valid(boards[i])
    ensures |r.boards| == |boards|
    ensures forall i :: 0 <= i < |r.boards| ==> Valid(r.boards[i])
    decreases fuel
  {
    if fuel == 0 then Run(c, boards, [], OutOfFuel)
    else
      var (c0, stop) := ctl.closing(c);
      if stop then Run(c0, boards, [ClosingCall(true)], Closed)
      else
        var (c1, p, a) := ctl.recv(c0);
        if !(0 <= p < |boards|) then Run(c1, boards, [ClosingCall(false), RecvCall(p, a)], Crashed)
        else
          var s := Apply(boards[p], a);
          var c2 := ctl.send(c1, p, s.ok, a);
          var c3 := ctl.output(c2, p, s.board);
          var rest := Loop(ctl, c3, boards[p := s.board], fuel - 1);
          Run(rest.state, rest.boards, Round(p, a, s.ok, s.board) + rest.log, rest.halt)
  }

  /** Every run of the loop leaves a log of the shape `LoopLog` describes,
      and a board whose player was never received is left as it was. */
  lemma {:induction false} LoopShape<C>(ctl: Controller<C>, c: C, boards: seq<Board>, fuel: nat)
    requires forall i :: 0 <= i < |boards| ==> Valid(boards[i])
    ensures var r := Loop(ctl, c, boards, fuel);
      && LoopLog(r.log, r.halt)
      && forall q :: 0 <= q < |boards| && !Named(r.log, q) ==> r.boards[q] == boards[q]
    decreases fuel
  {
    if fuel > 0 {
      var (c0, stop) := ctl.closing(c);
      if !stop {
        var (c1, p, a) := ctl.recv(c0);
        if 0 <= p < |boards| {
          var s := Apply(boards[p], a);
          var c3 := ctl.output(ctl.send(c1, p, s.ok, a), p, s.board);
          var rest := Loop(ctl, c3, boards[p := s.board], fuel - 1);
          LoopShape(ctl, c3, boards[p := s.board], fuel - 1);
          var log := Round(p, a, s.ok, s.board) + rest.log;
          assert log[4..] == rest.log;
          assert log[1] == RecvCall(p, a);
          forall q | Named(rest.log, q)
            ensures Named(log, q)
          {
            var i :| 0 <= i < |rest.log| && rest.log[i].RecvCall? && rest.log[i].player == q;
            assert log[i + 4] == rest.log[i];
          }
        }
      }
    }
  }

  /** Play: initialise the controller with player 0's board, then loop. */
  function Play<C>(ctl: Controller<C>, c: C, boards: seq<Board>, fuel: nat): (r: Run<C>)
    requires |boards| >= 1
    requires forall i :: 0 <= i < |boards| ==> Valid(boards[i])
    ensures |r.log| >= 1 && r.log[0] == InitCall(boards[0])
    ensures LoopLog(r.log[1..], r.halt)
    ensures |r.boards| == |boards|
    ensures forall i :: 0 <= i < |r.boards| ==> Valid(r.boards[i])
  {
    var run := Loop(ctl, ctl.init(c, boards[0]), boards, fuel);
    LoopShape(ctl, ctl.init(c, boards[0]), boards, fuel);
    var log := [InitCall(boards[0])] + run.log;
    assert log[1..] == run.log;
    Run(run.state, run.boards, log, run.halt)
  }

  // ---------------------------------------------------------------------------
  // Call counts

  function CountInit(log: seq<Event>): nat {
    if |log| == 0 then 0 else (if log[0].InitCall? then 1 else 0) + CountInit(log[1..])
  }

  function CountClosing(log: seq<Event>): nat {
    if |log| == 0 then 0 else (if log[0].ClosingCall? then 1 else 0) + CountClosing(log[1..])
  }

  function CountRecv(log: seq<Event>): nat {
    if |log| == 0 then 0 else (if log[0].RecvCall? then 1 else 0) + CountRecv(log[1..])
  }

  function CountSend(log: seq<Event>): nat {
    if |log| == 0 then 0 else (if log[0].SendCall? then 1 else 0) + CountSend(log[1..])
  }

  function CountOutput(log: seq<Event>): nat {
    if |log| == 0 then 0 else (if log[0].OutputCall? then 1 else 0) + CountOutput(log[1..])
  }

  /** Counting over the first four events of a log. */
  lemma CountsOfRound(log: seq<Event>)
    requires |log| >= 4 && log[0].ClosingCall? && log[1].RecvCall? && log[2].SendCall? && log[3].OutputCall?
    ensures CountInit(log) == CountInit(log[4..])
    ensures CountClosing(log) == 1 + CountClosing(log[4..])
    ensures CountRecv(log) == 1 + CountRecv(log[4..])
    ensures CountSend(log) == 1 + CountSend(log[4..])
    ensures CountOutput(log) == 1 + CountOutput(log[4..])
  {
    var l1 := log[1..];
    var l2 := l1[1..];
    var l3 := l2[1..];
    assert l3[1..] == log[4..];
    assert CountInit(log) == CountInit(l1) == CountInit(l2) == CountInit(l3) == CountInit(l3[1..]);
    assert CountClosing(log) == 1 + CountClosing(l1);
    assert CountClosing(l1) == CountClosing(l2) == CountClosing(l3) == CountClosing(l3[1..]);
    assert CountRecv(log) == CountRecv(l1) == 1 + CountRecv(l2);
    assert CountRecv(l2) == CountRecv(l3) == CountRecv(l3[1..]);
    assert CountSend(log) == CountSend(l1) == CountSend(l2) == 1 + CountSend(l3);
    assert CountSend(l3) == CountSend(l3[1..]);
    assert CountOutput(log) == CountOutput(l1) == CountOutput(l2) == CountOutput(l3) == 1 + CountOutput(l3[1..]);
  }

  /** In the loop's log, every receive is followed by exactly one send and one
      output, unless the run crashed on a missing player; there is a closing
      check before every receive, plus one that ended the run when it closed;
      and the loop never calls `init`. */
  lemma {:induction false} LoopCounts(log: seq<Event>, halt: Halt)
    requires LoopLog(log, halt)
    ensures CountInit(log) == 0
    ensures halt != Crashed ==> CountSend(log) == CountRecv(log) && CountOutput(log) == CountRecv(log)
    ensures halt == Crashed ==> CountSend(log) + 1 == CountRecv(log) && CountOutput(log) + 1 == CountRecv(log)
    ensures CountClosing(log) == CountRecv(log) + (if halt == Closed then 1 else 0)
    decreases |log|
  {
    if |log| == 0 {
    } else if log == [ClosingCall(true)] {
    } else if |log| == 2 && log[0] == ClosingCall(false) && log[1].RecvCall? {
      var l1 := log[1..];
      assert l1[1..] == [];
      assert CountInit(log) == CountInit(l1) == CountInit(l1[1..]) == 0;
      assert CountSend(log) == CountSend(l1) == CountSend(l1[1..]) == 0;
      assert CountOutput(log) == CountOutput(l1) == CountOutput(l1[1..]) == 0;
      assert CountRecv(log) == CountRecv(l1) == 1 + CountRecv(l1[1..]) == 1;
      assert CountClosing(log) == 1 + CountClosing(l1) == 1;
    } else {
      CountsOfRound(log);
      LoopCounts(log[4..], halt);
    }
  }

  /** Play calls `init` exactly once, first; the send and output counts equal
      the receive count on every run that did not crash. */
  lemma PlayCounts<C>(ctl: Controller<C>, c: C, boards: seq<Board>, fuel: nat)
    requires |boards| >= 1
    requires forall i :: 0 <= i < |boards| ==> Valid(boards[i])
    ensures var r := Play(ctl, c, boards, fuel);
      && CountInit(r.log) == 1
      && (r.halt != Crashed ==> CountSend(r.log) == CountRecv(r.log) && CountOutput(r.log) == CountRecv(r.log))
  {
    var r := Play(ctl, c, boards, fuel);
    LoopCounts(r.log[1..], r.halt);
  }

  /** A closing controller ends the loop before any receive. */
  lemma ClosingStopsAtOnce<C>(ctl: Controller<C>, c: C, boards: seq<Board>, fuel: nat)
    requires forall i :: 0 <= i < |boards| ==> Valid(boards[i])
    requires fuel > 0 && ctl.closing(c).1
    ensures Loop(ctl, c, boards, fuel).log == [ClosingCall(true)]
    ensures Loop(ctl, c, boards, fuel).boards == boards
    ensures Loop(ctl, c, boards, fuel).halt == Closed
  {
  }

  // ---------------------------------------------------------------------------
  // A controller that replays a fixed trace of inputs

  /** Replays `inputs` in order and closes once they are used up. */
  datatype Replay = Replay(inputs: seq<(int, Action)>, next: nat, results: seq<bool>)

  function ReplayController(): Controller<Replay> {
    Controller(
      (c: Replay, b: Board) => c,
      (c: Replay) => (c, c.next >= |c.inputs|),
      (c: Replay) => if c.next < |c.inputs| then (c.(next := c.next + 1), c.inputs[c.next].0, c.inputs[c.next].1)
                     else (c, 0, NoAction),
      (c: Replay, p: int, ok: bool, a: Action) => c.(results := c.results + [ok]),
      (c: Replay, p: int, b: Board) => c)
  }

  /** The reference for a replayed run: the actions applied one after the
      other, each to its player's board, with the results in order. */
  function ApplyAll(boards: seq<Board>, inputs: seq<(int, Action)>): (r: (seq<Board>, seq<bool>))
    requires forall i :: 0 <= i < |boards| ==> Valid(boards[i])
    requires forall k :: 0 <= k < |inputs| ==> 0 <= inputs[k].0 < |boards|
    ensures |r.0| == |boards| && |r.1| == |inputs|
    ensures forall i :: 0 <= i < |r.0| ==> Valid(r.0[i])
    decreases |inputs|
  {
    if |inputs| == 0 then (boards, [])
    else
      var (p, a) := inputs[0];
      var s := Apply(boards[p], a);
      var rest := ApplyAll(boards[p := s.board], inputs[1..]);
      (rest.0, [s.ok] + rest.1)
  }

  /** One completed iteration of the loop, for any controller. */
  lemma LoopStep<C>(ctl: Controller<C>, c: C, boards: seq<Board>, fuel: nat)
    requires forall i :: 0 <= i < |boards| ==> Valid(boards[i])
    requires fuel > 0 && !ctl.closing(c).1
    requires 0 <= ctl.recv(ctl.closing(c).0).1 < |boards|
    ensures
      var c0 := ctl.closing(c).0;
      var (c1, p, a) := ctl.recv(c0);
      var s := Apply(boards[p], a);
      var rest := Loop(ctl, ctl.output(ctl.send(c1, p, s.ok, a), p, s.board), boards[p := s.board], fuel - 1);
      Loop(ctl, c, boards, fuel) == Run(rest.state, rest.boards, Round(p, a, s.ok, s.board) + rest.log, rest.halt)
  {
  }

  /** The replaying controller's operations. */
  lemma ReplayOps(c: Replay, p: int, ok: bool, a: Action, b: Board)
    ensures ReplayController().closing(c) == (c, c.next >= |c.inputs|)
    ensures c.next < |c.inputs| ==>
      ReplayController().recv(c) == (c.(next := c.next + 1), c.inputs[c.next].0, c.inputs[c.next].1)
    ensures ReplayController().send(c, p, ok, a) == c.(results := c.results + [ok])
    ensures ReplayController().output(c, p, b) == c
  {
  }

  /** One iteration of the loop under the replaying controller. */
  lemma ReplayStep(boards: seq<Board>, inputs: seq<(int, Action)>, next: nat, results: seq<bool>, fuel: nat)
    requires forall i :: 0 <= i < |boards| ==> Valid(boards[i])
    requires next < |inputs| && 0 <= inputs[next].0 < |boards| && fuel > 0
    ensures
      var p, a := inputs[next].0, inputs[next].1;
      var s := Apply(boards[p], a);
      var r := Loop(ReplayController(), Replay(inputs, next, results), boards, fuel);
      var rest := Loop(ReplayController(), Replay(inputs, next + 1, results + [s.ok]), boards[p := s.board], fuel - 1);
      && r.log == Round(p, a, s.ok, s.board) + rest.log
      && r.boards == rest.boards && r.state == rest.state && r.halt == rest.halt
  {
    var c := Replay(inputs, next, results);
    var p, a := inputs[next].0, inputs[next].1;
    var s := Apply(boards[p], a);
    var c1 := Replay(inputs, next + 1, results);
    ReplayOps(c, p, s.ok, a, s.board);
    ReplayOps(c1, p, s.ok, a, s.board);
    LoopStep(ReplayController(), c, boards, fuel);
  }

  /** The replaying controller closes once its inputs are used up. */
  lemma ReplayDone(boards: seq<Board>, inputs: seq<(int, Action)>, results: seq<bool>, fuel: nat)
    requires forall i :: 0 <= i < |boards| ==> Valid(boards[i])
    requires fuel > 0
    ensures Loop(ReplayController(), Replay(inputs, |inputs|, results), boards, fuel)
         == Run(Replay(inputs, |inputs|, results), boards, [ClosingCall(true)], Closed)
  {
  }

  /** One step of the reference. */
  lemma ApplyAllStep(boards: seq<Board>, inputs: seq<(int, Action)>, next: nat)
    requires forall i :: 0 <= i < |boards| ==> Valid(boards[i])
    requires forall k :: 0 <= k < |inputs| ==> 0 <= inputs[k].0 < |boards|
    requires next < |inputs|
    ensures
      var p, a := inputs[next].0, inputs[next].1;
      var s := Apply(boards[p], a);
      var rest := ApplyAll(boards[p := s.board], inputs[next + 1..]);
      ApplyAll(boards, inputs[next..]) == (rest.0, [s.ok] + rest.1)
  {
    assert inputs[next..][0] == inputs[next];
    assert inputs[next..][1..] == inputs[next + 1..];
  }

  /** Gluing one replayed round onto the run of the remaining inputs. */
  lemma ComposeRound(r: Run<Replay>, rest: Run<Replay>, p: int, a: Action, ok: bool, b: Board,
                     results: seq<bool>, refRest: (seq<Board>, seq<bool>), n: nat)
    requires r.log == Round(p, a, ok, b) + rest.log
    requires r.boards == rest.boards && r.state == rest.state && r.halt == rest.halt
    requires rest.halt == Closed && rest.boards == refRest.0
    requires rest.state.results == results + [ok] + refRest.1 && CountRecv(rest.log) == n
    ensures r.halt == Closed && r.boards == refRest.0
    ensures r.state.results == results + ([ok] + refRest.1)
    ensures CountRecv(r.log) == n + 1
  {
    assert r.log[4..] == rest.log;
    CountsOfRound(r.log);
  }

  /** Replaying `inputs` from `next` on closes and agrees with the reference. */
  ghost predicate ReplayAgrees(boards: seq<Board>, inputs: seq<(int, Action)>, next: nat, results: seq<bool>, fuel: nat)
    requires forall i :: 0 <= i < |boards| ==> Valid(boards[i])
    requires forall k :: 0 <= k < |inputs| ==> 0 <= inputs[k].0 < |boards|
    requires next <= |inputs|
  {
    var r := Loop(ReplayController(), Replay(inputs, next, results), boards, fuel);
    var ref := ApplyAll(boards, inputs[next..]);
    && r.halt == Closed
    && r.boards == ref.0
    && r.state.results == results + ref.1
    && CountRecv(r.log) == |inputs| - next
  }

  /** The inductive step: agreement for the remaining inputs after one round
      gives agreement from the current input on. */
  lemma ReplayAgreesStep(boards: seq<Board>, inputs: seq<(int, Action)>, next: nat, results: seq<bool>, fuel: nat)
    requires forall i :: 0 <= i < |boards| ==> Valid(boards[i])
    requires forall k :: 0 <= k < |inputs| ==> 0 <= inputs[k].0 < |boards|
    requires next < |inputs| && fuel > 0
    requires var s := Apply(boards[inputs[next].0], inputs[next].1);
      ReplayAgrees(boards[inputs[next].0 := s.board], inputs, next + 1, results + [s.ok], fuel - 1)
    ensures ReplayAgrees(boards, inputs, next, results, fuel)
  {
    var p, a := inputs[next].0, inputs[next].1;
    var s := Apply(boards[p], a);
    var boards' := boards[p := s.board];
    var r := Loop(ReplayController(), Replay(inputs, next, results), boards, fuel);
    var rest := Loop(ReplayController(), Replay(inputs, next + 1, results + [s.ok]), boards', fuel - 1);
    ReplayStep(boards, inputs, next, results, fuel);
    ApplyAllStep(boards, inputs, next);
    var refRest := ApplyAll(boards', inputs[next + 1..]);
    ComposeRound(r, rest, p, a, s.ok, s.board, results, refRest, |inputs| - next - 1);
  }

  /** With enough iterations, replaying a trace whose players all have boards
      runs every input, closes, and leaves exactly the boards and the results
      of applying the inputs in order. */
  lemma {:induction false} ReplayMatchesApplyAll(boards: seq<Board>, inputs: seq<(int, Action)>, next: nat, results: seq<bool>, fuel: nat)
    requires forall i :: 0 <= i < |boards| ==> Valid(boards[i])
    requires forall k :: 0 <= k < |inputs| ==> 0 <= inputs[k].0 < |boards|
    requires next <= |inputs| && fuel > |inputs| - next
    ensures ReplayAgrees(boards, inputs, next, results, fuel)
    decreases |inputs| - next
  {
    if next == |inputs| {
      assert inputs[next..] == [];
      ReplayDone(boards, inputs, results, fuel);
    } else {
      var s := Apply(boards[inputs[next].0], inputs[next].1);
      ReplayMatchesApplyAll(boards[inputs[next].0 := s.board], inputs, next + 1, results + [s.ok], fuel - 1);
      ReplayAgreesStep(boards, inputs, next, results, fuel);
    }
  }
}
