/**
 The network game controller shared by the websocket and the web front ends:
 per-player `connected` and `won` flags, the count of players still in the
 game, and one bounded outbound queue per player. A send to a player whose
 queue is full drops the message and disconnects the player.

 Messages are abstract: the JSON the source marshals for each is not
 modelled, only which message goes to whom and in what order.
 */
module Relay {
  import opened Wrappers
  import opened Sokoban
  import opened BoardPlay
  import opened Game
  import opened Wire
  import opened Outbox

  /** The four messages a controller sends to players. */
  datatype Msg =
    | InitMsg(nPlayers: int, me: int, board: WireBoard)
    | ResultMsg(player: int, valid: bool)
    | OpponentMsg(player: int, action: Action)
    | WinMsg(player: int)

  /** One player's end of the controller: the queue to the player's writer
      and whether the player still counts as connected. */
  datatype Seat = Seat(queue: Queue<Msg>, connected: bool)

  /** The controller state: one seat and one `won` flag per player, and the
      number of players who have not left the game. */
  datatype Relay = Relay(seats: seq<Seat>, nPlaying: int, won: seq<bool>)

  /** A seat's queue is closed exactly when its player is disconnected, and
      never holds more than its capacity. */
  ghost predicate SeatOk(s: Seat) {
    (s.queue.closed <==> !s.connected) && Bounded(s.queue)
  }

  ghost predicate Wf(c: Relay) {
    |c.seats| == |c.won| && forall i :: 0 <= i < |c.seats| ==> SeatOk(c.seats[i])
  }

  /** One attempt to send `m` without waiting: a disconnected seat is left
      alone; with room the message is queued; with a full queue it is
      dropped, the queue closed and the player disconnected. */
  function SendSeat(s: Seat, m: Msg): (r: Seat)
    requires SeatOk(s)
    ensures SeatOk(r) && r.queue.capacity == s.queue.capacity
    ensures r.connected <==> s.connected && HasRoom(s.queue)
    ensures r.connected ==> r.queue.items == s.queue.items + [m]
    ensures !r.connected ==> r.queue.items == s.queue.items
    ensures !s.connected ==> r == s
  {
    if !s.connected then s
    else
      var (q, sent) := Offer(s.queue, m);
      if sent then Seat(q, true) else Seat(Close(s.queue), false)
  }

  // ---------------------------------------------------------------------------
  // Players still in the game

  /** The number of seats from `i` on whose player is connected and has not won. */
  function ActiveFrom(seats: seq<Seat>, won: seq<bool>, i: int): nat
    requires |seats| == |won| && 0 <= i <= |seats|
    decreases |seats| - i
  {
    if i == |seats| then 0
    else (if seats[i].connected && !won[i] then 1 else 0) + ActiveFrom(seats, won, i + 1)
  }

  /** Changing one seat changes the count by that seat's change. */
  lemma {:induction false} ActiveFromUpdate(seats: seq<Seat>, won: seq<bool>, i: int, p: int, s: Seat, wv: bool)
    requires |seats| == |won| && 0 <= i <= |seats| && 0 <= p < |seats|
    ensures ActiveFrom(seats[p := s], won[p := wv], i) ==
      ActiveFrom(seats, won, i)
      - (if i <= p && seats[p].connected && !won[p] then 1 else 0)
      + (if i <= p && s.connected && !wv then 1 else 0)
    decreases |seats| - i
  {
    if i < |seats| {
      ActiveFromUpdate(seats, won, i + 1, p, s, wv);
    }
  }

  /** The count is zero exactly when no seat from `i` on is still playing. */
  lemma {:induction false} ActiveFromZero(seats: seq<Seat>, won: seq<bool>, i: int)
    requires |seats| == |won| && 0 <= i <= |seats|
    ensures ActiveFrom(seats, won, i) == 0 <==> forall j :: i <= j < |seats| ==> !seats[j].connected || won[j]
    decreases |seats| - i
  {
    if i < |seats| {
      ActiveFromZero(seats, won, i + 1);
    }
  }

  /** What `nPlaying` is meant to be: the number of players who have not
      left the game, by disconnecting or by winning. */
  ghost predicate Counted(c: Relay) {
    Wf(c) && c.nPlaying == ActiveFrom(c.seats, c.won, 0)
  }

  /** Replacing one seat and one flag keeps the count when `nPlaying` moves
      by the seat's change. */
  lemma CountedAfterUpdate(c: Relay, p: int, s: Seat, wv: bool, n: int)
    requires Counted(c) && 0 <= p < |c.seats| && SeatOk(s)
    requires n == c.nPlaying - (if c.seats[p].connected && !c.won[p] then 1 else 0) + (if s.connected && !wv then 1 else 0)
    ensures Counted(Relay(c.seats[p := s], n, c.won[p := wv]))
  {
    ActiveFromUpdate(c.seats, c.won, 0, p, s, wv);
  }

  // ---------------------------------------------------------------------------
  // Sending

  /** Sends `m` to player `p` without waiting; `nPlaying` drops when the send
      disconnects a player who had not won. */
  function SendTo(c: Relay, p: int, m: Msg): (r: Relay)
    requires Wf(c) && 0 <= p < |c.seats|
    ensures Wf(r) && r.won == c.won
    ensures r.seats == c.seats[p := SendSeat(c.seats[p], m)]
    ensures r.nPlaying == c.nPlaying - (if c.seats[p].connected && !r.seats[p].connected && !c.won[p] then 1 else 0)
    ensures Counted(c) ==> Counted(r)
  {
    var s := SendSeat(c.seats[p], m);
    var r := c.(seats := c.seats[p := s],
                nPlaying := if c.seats[p].connected && !s.connected && !c.won[p] then c.nPlaying - 1 else c.nPlaying);
    assert Counted(c) ==> Counted(r) by {
      if Counted(c) {
        CountedAfterUpdate(c, p, s, c.won[p], r.nPlaying);
        assert c.won[p := c.won[p]] == c.won;
      }
    }
    r
  }

  /** SendTo every seat from `i` on except `skip`, in index order. */
  function Broadcast(c: Relay, i: int, skip: int, m: Msg): (r: Relay)
    requires Wf(c) && 0 <= i <= |c.seats|
    ensures Wf(r) && |r.seats| == |c.seats| && r.won == c.won && r.nPlaying <= c.nPlaying
    ensures forall j :: 0 <= j < |c.seats| ==>
      r.seats[j] == if i <= j && j != skip then SendSeat(c.seats[j], m) else c.seats[j]
    ensures Counted(c) ==> Counted(r)
    decreases |c.seats| - i
  {
    if i == |c.seats| then c
    else if i == skip then Broadcast(c, i + 1, skip, m)
    else Broadcast(SendTo(c, i, m), i + 1, skip, m)
  }

  /** Reports a result: the acting player always gets it; when the action
      succeeded every other player is told what it was. */
  function SendResult(c: Relay, p: int, ok: bool, a: Action): (r: Relay)
    requires Wf(c) && 0 <= p < |c.seats|
    ensures Wf(r) && |r.seats| == |c.seats| && r.won == c.won && r.nPlaying <= c.nPlaying
    ensures r.seats[p] == SendSeat(c.seats[p], ResultMsg(p, ok))
    ensures forall j :: 0 <= j < |c.seats| && j != p ==>
      r.seats[j] == if ok then SendSeat(c.seats[j], OpponentMsg(p, a)) else c.seats[j]
    ensures Counted(c) ==> Counted(r)
  {
    var c1 := SendTo(c, p, ResultMsg(p, ok));
    if ok then Broadcast(c1, 0, p, OpponentMsg(p, a)) else c1
  }

  /** Announces a win, as the source does it: on a won board the player is
      marked as a winner, every seat is told, and `nPlaying` drops, even when
      the player had already won or had left. */
  function OutputBoard(c: Relay, p: int, b: Board): (r: Relay)
    requires Wf(c) && 0 <= p < |c.seats|
    ensures Wf(r) && |r.seats| == |c.seats|
    ensures !Won(b) ==> r == c
    ensures Won(b) ==> r.won == c.won[p := true] && r.nPlaying <= c.nPlaying - 1
    ensures Won(b) ==> forall j :: 0 <= j < |c.seats| ==> r.seats[j] == SendSeat(c.seats[j], WinMsg(p))
  {
    if !Won(b) then c
    else
      var c1 := c.(won := c.won[p := true]);
      var c2 := Broadcast(c1, 0, -1, WinMsg(p));
      c2.(nPlaying := c2.nPlaying - 1)
  }

  /** Announces a win once per player: as OutputBoard, but a player who has
      already won is not counted again, and one who had left is not counted
      at all. */
  function OutputBoardOnce(c: Relay, p: int, b: Board): (r: Relay)
    requires Wf(c) && 0 <= p < |c.seats|
    ensures Wf(r) && |r.seats| == |c.seats|
    ensures !Won(b) || c.won[p] ==> r == c
    ensures Won(b) && !c.won[p] ==> r.won == c.won[p := true]
    ensures Won(b) && !c.won[p] ==> forall j :: 0 <= j < |c.seats| ==> r.seats[j] == SendSeat(c.seats[j], WinMsg(p))
    ensures Counted(c) ==> Counted(r)
  {
    if !Won(b) || c.won[p] then c
    else
      var c1 := Relay(c.seats[p := c.seats[p]], if c.seats[p].connected then c.nPlaying - 1 else c.nPlaying, c.won[p := true]);
      assert Counted(c) ==> Counted(c1) by {
        if Counted(c) { CountedAfterUpdate(c, p, c.seats[p], true, c1.nPlaying); }
      }
      Broadcast(c1, 0, -1, WinMsg(p))
  }

  /** The game stops once no player is left. */
  predicate Closing(c: Relay) {
    c.nPlaying <= 0
  }

  /** While the count is kept, the game closes exactly when every player has
      disconnected or won. */
  lemma ClosingIffNobodyLeft(c: Relay)
    requires Counted(c)
    ensures Closing(c) <==> forall j :: 0 <= j < |c.seats| ==> !c.seats[j].connected || c.won[j]
  {
    ActiveFromZero(c.seats, c.won, 0);
  }

  /** Player `p` disconnects: a connected player's queue is closed, and the
      count drops unless the player had won; for a player already gone nothing
      changes. */
  function Disconnect(c: Relay, p: int): (r: Relay)
    requires Wf(c) && 0 <= p < |c.seats|
    ensures Wf(r) && r.won == c.won
    ensures !c.seats[p].connected ==> r == c
    ensures c.seats[p].connected ==> r.seats == c.seats[p := Seat(c.seats[p].queue.(closed := true), false)]
    ensures c.seats[p].connected ==> r.nPlaying == c.nPlaying - (if c.won[p] then 0 else 1)
    ensures Counted(c) ==> Counted(r)
  {
    if !c.seats[p].connected then c
    else
      var s := Seat(Close(c.seats[p].queue), false);
      var r := c.(seats := c.seats[p := s], nPlaying := if c.won[p] then c.nPlaying else c.nPlaying - 1);
      assert Counted(c) ==> Counted(r) by {
        if Counted(c) {
          CountedAfterUpdate(c, p, s, c.won[p], r.nPlaying);
          assert c.won[p := c.won[p]] == c.won;
        }
      }
      r
  }

  // ---------------------------------------------------------------------------
  // Starting a game

  /** The websocket controller's Init from seat `i` on: each seat in turn is
      sent its own init message, carrying the player count at that moment,
      the seat number and the board's record. */
  function InitFrom(c: Relay, i: int, w: WireBoard): (r: Relay)
    requires Wf(c) && 0 <= i <= |c.seats|
    ensures Wf(r) && |r.seats| == |c.seats| && r.won == c.won && r.nPlaying <= c.nPlaying
    ensures forall j :: 0 <= j < i ==> r.seats[j] == c.seats[j]
    ensures forall j :: i <= j < |c.seats| ==> r.seats[j].connected ==> c.seats[j].connected
    ensures (forall j :: i <= j < |c.seats| ==> c.seats[j].connected ==> HasRoom(c.seats[j].queue)) ==>
      r.nPlaying == c.nPlaying && forall j :: i <= j < |c.seats| ==> r.seats[j] == SendSeat(c.seats[j], InitMsg(c.nPlaying, j, w))
    ensures Counted(c) ==> Counted(r)
    decreases |c.seats| - i
  {
    if i == |c.seats| then c
    else InitFrom(SendTo(c, i, InitMsg(c.nPlaying, i, w)), i + 1, w)
  }

  function WsInit(c: Relay, b: Board): (r: Relay)
    requires Wf(c) && Shaped(b)
    ensures Wf(r) && |r.seats| == |c.seats| && r.won == c.won
    ensures (forall j :: 0 <= j < |c.seats| ==> c.seats[j].connected ==> HasRoom(c.seats[j].queue)) ==>
      r.nPlaying == c.nPlaying && forall j :: 0 <= j < |c.seats| ==> r.seats[j] == SendSeat(c.seats[j], InitMsg(c.nPlaying, j, ConvertFromBoard(b)))
    ensures Counted(c) ==> Counted(r)
  {
    InitFrom(c, 0, ConvertFromBoard(b))
  }

  /** The web controller's Init from seat `i` on: the same messages, but each
      send waits for room instead of dropping, whatever the connected flag
      says. `None` stands for a send still waiting on a full queue. */
  function WebInitFrom(c: Relay, i: int, w: WireBoard): (r: Option<Relay>)
    requires Wf(c) && 0 <= i <= |c.seats|
    requires forall j :: i <= j < |c.seats| ==> c.seats[j].connected
    ensures r.Some? <==> forall j :: i <= j < |c.seats| ==> HasRoom(c.seats[j].queue)
    ensures r.Some? ==> Wf(r.value) && r.value.nPlaying == c.nPlaying && r.value.won == c.won && |r.value.seats| == |c.seats|
    ensures r.Some? ==> forall j :: 0 <= j < |c.seats| ==>
      r.value.seats[j] == if i <= j then Seat(c.seats[j].queue.(items := c.seats[j].queue.items + [InitMsg(c.nPlaying, j, w)]), true) else c.seats[j]
    decreases |c.seats| - i
  {
    if i == |c.seats| then Some(c)
    else match Put(c.seats[i].queue, InitMsg(c.nPlaying, i, w))
      case None => None
      case Some(q) =>
        var c1 := c.(seats := c.seats[i := Seat(q, true)]);
        assert forall j :: 0 <= j < |c.seats| && j != i ==> c1.seats[j] == c.seats[j];
        WebInitFrom(c1, i + 1, w)
  }

  function WebInit(c: Relay, b: Board): (r: Option<Relay>)
    requires Wf(c) && Shaped(b) && forall j :: 0 <= j < |c.seats| ==> c.seats[j].connected
    ensures r.Some? <==> forall j :: 0 <= j < |c.seats| ==> HasRoom(c.seats[j].queue)
    ensures r.Some? ==> Wf(r.value) && r.value.nPlaying == c.nPlaying && r.value.won == c.won
    ensures r.Some? ==> forall j :: 0 <= j < |c.seats| ==>
      r.value.seats[j].connected && r.value.seats[j].queue.items == c.seats[j].queue.items + [InitMsg(c.nPlaying, j, ConvertFromBoard(b))]
  {
    WebInitFrom(c, 0, ConvertFromBoard(b))
  }

  // ---------------------------------------------------------------------------
  // Receiving

  /** A decoded JSON value, as far as the controllers look at it: a string or
      anything else. */
  datatype Json = JString(s: string) | JOther

  type Fields = map<string, Json>

  /** What a client forwards to the controller: its seat and the decoded object. */
  datatype Request = Request(player: int, fields: Fields)

  /** The object's "action" field is a string. */
  predicate HasAction(f: Fields) {
    "action" in f && f["action"].JString?
  }

  /** The direction named by the "direction" field, or -1 when it is missing,
      not a string, or not one of the four names. */
  function DecodeDirection(f: Fields): (d: Direction)
    ensures d == -1 || IsDirection(d)
    ensures d == Up <==> "direction" in f && f["direction"] == JString("up")
    ensures d == Down <==> "direction" in f && f["direction"] == JString("down")
    ensures d == Left <==> "direction" in f && f["direction"] == JString("left")
    ensures d == Right <==> "direction" in f && f["direction"] == JString("right")
  {
    var name := if "direction" in f && f["direction"].JString? then f["direction"].s else "";
    if name == "up" then Up
    else if name == "down" then Down
    else if name == "left" then Left
    else if name == "right" then Right
    else -1
  }

  /** The action a request asks for: "undo" and "reset" have no direction,
      "move" takes one, and any other action name gives the zero action. */
  function DecodeAction(f: Fields): (a: Action)
    requires HasAction(f)
    ensures a.kind == UndoType <==> f["action"].s == "undo"
    ensures a.kind == ResetType <==> f["action"].s == "reset"
    ensures a.kind == MoveType <==> f["action"].s == "move"
    ensures !IsActionType(a.kind) ==> a == NoAction
    ensures a.kind != MoveType ==> a.direction == 0
    ensures a.kind == MoveType ==> a.direction == DecodeDirection(f)
  {
    var name := f["action"].s;
    if name == "undo" then Action(UndoType, 0)
    else if name == "reset" then Action(ResetType, 0)
    else if name == "move" then Action(MoveType, DecodeDirection(f))
    else NoAction
  }

  /** The object a client would send for an action; the partner of DecodeAction. */
  function EncodeAction(a: Action): (f: Fields)
    ensures HasAction(f)
  {
    if a.kind == UndoType then map["action" := JString("undo")]
    else if a.kind == ResetType then map["action" := JString("reset")]
    else if a.kind == MoveType then map["action" := JString("move"), "direction" := JString(DirectionName(a.direction))]
    else map["action" := JString("")]
  }

  /** The lower-case direction names of the wire protocol. */
  function DirectionName(d: Direction): string {
    if d == Up then "up" else if d == Down then "down" else if d == Left then "left" else if d == Right then "right" else ""
  }

  /** Every action a player can mean survives encoding and decoding: a move
      in one of the four directions, an undo, a reset, each with a zero
      direction except the move. */
  lemma DecodeEncode(a: Action)
    requires (a.kind == MoveType && IsDirection(a.direction)) || ((a.kind == UndoType || a.kind == ResetType) && a.direction == 0)
    ensures DecodeAction(EncodeAction(a)) == a
  {
  }

  /** The websocket controller's RecvInput: a "disconnect" request, which
      clients send when their connection ends, disconnects the seat and yields
      the zero action; every other request is decoded and changes nothing. */
  function WsRecvInput(c: Relay, req: Request): (r: (Relay, int, Action))
    requires Wf(c) && HasAction(req.fields)
    requires req.fields["action"].s == "disconnect" ==> 0 <= req.player < |c.seats|
    ensures r.1 == req.player && r.2 == DecodeAction(req.fields)
    ensures req.fields["action"].s == "disconnect" ==> r.0 == Disconnect(c, req.player)
    ensures req.fields["action"].s != "disconnect" ==> r.0 == c
  {
    var a := DecodeAction(req.fields);
    if req.fields["action"].s == "disconnect" then (Disconnect(c, req.player), req.player, a)
    else (c, req.player, a)
  }

  /** The web controller's RecvInput has no "disconnect" case: it only decodes. */
  function WebRecvInput(req: Request): (r: (int, Action))
    requires HasAction(req.fields)
    ensures r == (req.player, DecodeAction(req.fields))
    ensures req.fields["action"].s == "disconnect" ==> r.1 == NoAction
  {
    (req.player, DecodeAction(req.fields))
  }

  // ---------------------------------------------------------------------------
  // The double count

  /** A board with no targets: won from the start. */
  function WonBoard(): (b: Board)
    ensures Won(b)
  {
    Board(0, 1, 1, [[EmptyItem]], Point(0, 0), [], [], [], 0)
  }

  /** Two connected players who have not won, with empty queues. */
  function TwoPlayers(): (c: Relay)
    ensures Counted(c) && c.nPlaying == 2
  {
    Relay([Seat(NewQueue(5), true), Seat(NewQueue(5), true)], 2, [false, false])
  }

  /** As written, a player whose won board is output a second time (after
      any further action) is subtracted again: the game closes while the
      other player is still connected and has not won. */
  lemma OutputBoardCountsTwice()
    ensures var c := OutputBoard(OutputBoard(TwoPlayers(), 0, WonBoard()), 0, WonBoard());
      && Closing(c) && c.seats[1].connected && !c.won[1]
  {
    var c0 := TwoPlayers();
    var c1 := OutputBoard(c0, 0, WonBoard());
    assert c1.seats[1].connected && c1.nPlaying <= 1;
  }

  /** Counted once, the same sequence leaves the other player in the game. */
  lemma OutputBoardOnceCountsOnce()
    ensures var c := OutputBoardOnce(OutputBoardOnce(TwoPlayers(), 0, WonBoard()), 0, WonBoard());
      && !Closing(c) && c.nPlaying == 1
  {
    var c0 := TwoPlayers();
    var c1 := OutputBoardOnce(c0, 0, WonBoard());
    ClosingIffNobodyLeft(c1);
    assert c1.seats[1].connected && !c1.won[1];
  }
}
