# Sokoban engine and multiplayer session layer, in Dafny

This project models a small Go Sokoban engine and the session layer that lets
several players race on copies of one board.

**Board engine** (`board.go`, `boardgen.go`, `boardplay.go`):
- A grid of cells. Each cell has a kind (space, target or wall), a box flag, and box and target ids.
- Board construction.
- The walk-or-push move rule and its score accounting.
- Undo and the win test.

**Game loop** (`game.go`):
- `InitGame` makes one board per player.
- `Play` drives a controller: Init once, then receive → apply → send result → output board, until the controller is closing.

**Controllers**:
- The websocket and web controllers (`websocket/controller.go`, `web/controller.go`) keep per-player `connected` and `won` flags and an `nPlaying` counter.
- They write into bounded outbound queues, dropping the message and disconnecting the player when a queue is full.
- The terminal controller (`terminal/controller.go`) reads keys, rotates turns past players who have won, counts wins, and draws the board.

**Hub** (`websocket/hub.go`):
- A waiting pool that starts a game whenever two clients wait.
- The end-of-game disconnect loops.

**Connection logic** (`websocket/client.go`):
- The not-playing → playing flag.
- Admission and normalisation of inbound frames.
- Routing of the cleanup when reading stops.
- Newline-joined batching of outbound messages.

**Wire record** (`parse/board.go`): conversion between a board and its wire record, and the rebuild from a record.

Everything is immutable data and pure functions. A Go channel is a `Queue` with a capacity, a buffer and a closed flag. A goroutine that mutates a structure becomes a function from the old value to the new one.

Modules, one per source component:

| module | file | models |
|---|---|---|
| `Wrappers` | wrappers.dfy | `Option`, `Result` |
| `Sokoban` | sokoban.dfy | board.go: the board record, cells, history entries, directions |
| `BoardGen` | boardgen.dfy | boardgen.go: construction and `Clone` |
| `BoardPlay` | boardplay.dfy | boardplay.go: moves, undo, reset, score, win |
| `Game` | game.dfy | game.go: actions, `InitGame`, the `Play` loop over an abstract controller |
| `Wire` | wire.dfy | parse/board.go: board ↔ record |
| `Outbox` | outbox.dfy | buffered channels |
| `Relay` | relay.dfy | websocket/controller.go and web/controller.go |
| `Hub` | hub.dfy | websocket/hub.go |
| `Client` | client.dfy | websocket/client.go |
| `Terminal` | terminal.dfy | terminal/controller.go, and the controller cmd/sokoban-local/main.go sets up |
| `Examples` | examples.dfy | the test tables of board_test.go and board_internal_test.go on the boards of mock/boardmaker.go |

### Decisions

- **Direction.**
  - Direction is declared twice in the source, identically. It is modelled once as an `int` with Up=0, Right=1, Down=2, Left=3.
  - It stays an `int` because the decoders produce -1 and the delta table uses the sentinel 55.
- **Field names.**
  - `board.go` exports the board's fields and `boardplay.go` uses lower-case names for the same fields.
  - Both are the one `Board` record here.
- **Board generators.**
  - A generator returns a board or an error. `InitGame` is therefore modelled as a `Result`: the generator's error comes back unchanged.
  - In the code, `InitGame` uses the generator single-valued. Its callers expect an error.
- **`Reset` is an assumption.** `Board.Reset` is called but its body is not part of this model. `BoardPlay.ResetBoard` assumes it undoes until the history is empty.
- **Clone.** With immutable values, `Clone`'s deep copy cannot share state with the original.
- **Panics.**
  - Most Go panics on an out-of-range index become an `Err`, a `None`, or the `Crashed` halt of the loop.
  - The exceptions are stated as preconditions instead. They are listed under "Left out": `Game.InitGame`, `Terminal.Init`, `Terminal.SendResult`, `BoardGen.NewEmptyBoard`.
  - Three operations use the corrected code from the Findings, so the panic of the code as written never shows in them: `Game.Apply` uses `BoardPlay.Undo`, and `Terminal.OutputBoard` and the Init of `Terminal.Keyboard` use `Terminal.ShowBoard`.
  - `Game.Play` is given an iteration bound (`fuel`).
- **Item.targetId.** It is set when a target is added (`BoardGen.AddTarget` states its value), but the code never reads it.
- **Map iteration order.** Go's map iteration order in `startNewGame` becomes a parameter `order`, which may be any enumeration of the waiting set.

### Where the code's own signals point different ways (the model follows the code)

- **Undo.**
  - `UndoMove` restores the player only. The comment at boardplay.go:135 leaves the box and score rollback to do.
  - So after undoing a winning push the board stays won (`Examples.UndoAfterWin`). TestUndo, at board_test.go:135-137, expects it not to be won.
- **Winning with no targets.**
  - `Won` (boardplay.go:146-148) compares the score with the number of targets.
  - So a board with no targets is won at once (`BoardPlay.NoTargetsWonAtStart`).
- **The double decrement.**
  - The websocket and web `OutputBoard` decrement `nPlaying` on every won board.
  - The terminal controller guards the same step with `!c.won[p]` at terminal/controller.go:88 (see Findings).
- **Failed session start.**
  - `runGame` (websocket/hub.go:81-90) defers `onFinishGame`.
  - So when `InitGame` fails, every connected queue is still closed (`Hub.OnFinishGame`).
- **Out-of-range players.**
  - `Play` indexes `boards[p]` at game.go:64-68 without a check.
  - In the model this is the `Crashed` halt.

## Model

| member | source | states |
|---|---|---|
| Sokoban.DirectionToStr | board.go:66-80 | each of the four directions has its own name, and the result is "?" exactly for any other value |
| Sokoban.DirectionNamesDistinct | board.go:59-80 | the four directions have four different names, none of them "?" |
| BoardGen.NewEmptyBoard | boardgen.go:13-27 | w columns of h cells, all empty spaces without boxes; no boxes, targets or history; score 0; the invariants hold |
| BoardGen.AddWall | boardgen.go:30-32 | only cell (x, y) changes, and only its kind, to Wall |
| BoardGen.AddTarget | boardgen.go:35-39 | cell (x, y) becomes a Target whose id is the old target count; (x, y) is appended to the targets and found at that id |
| BoardGen.AddBox | boardgen.go:42-46 | cell (x, y) gets a box whose id is the old box count; (x, y) is appended to the boxes, so boxes[boxId] is (x, y) |
| BoardGen.AddBoxKeepsInvariants | boardgen.go:42-46 | adding a box to a box-free cell keeps the grid's box flags and the boxes list consistent |
| BoardGen.AddTargetKeepsInvariants | boardgen.go:35-39 | adding a target keeps the board well formed |
| BoardGen.AddWallKeepsInvariants | boardgen.go:30-32 | adding a wall keeps the board well formed |
| BoardGen.InitPlayer | boardgen.go:49-51 | only the player's position changes |
| BoardGen.Clone | boardgen.go:54-78 | same id, dimensions, cells, player, boxes, targets and score, with an empty history; a board with no history is its own clone |
| BoardPlay.DirectionDelta | boardplay.go:31-45 | each direction is a unit step along one axis, with the sign each name implies; any other value gives the sentinel pair |
| BoardPlay.OppositeDeltas | boardplay.go:32-45 | Up and Down, and Left and Right, are opposite steps |
| BoardPlay.MakeMove | boardplay.go:50-114 | a failed move changes nothing; a successful one has a real direction, moves the player one step and appends exactly one history entry from the old to the new position; the score moves by at most one; kinds and targets never change |
| BoardPlay.MoveSucceedsIffLegal | boardplay.go:50-121 | a move succeeds exactly when the direction is real, the next cell is on the grid and not a wall, and any box there can go to a free, box-less cell beyond; a walk leaves grid, boxes and score alone and records no box |
| BoardPlay.PushEffect | boardplay.go:66-100 | a push moves the box from next to next2 in the grid and in boxes[id], moves the player to next, records the box shift, changes the score by -1 when it leaves a target and +1 when it enters one, and leaves every other cell alone |
| BoardPlay.MoveKeepsBoxesConsistent | boardplay.go:66-100 | after any move the grid's box flags and ids still agree with the boxes list |
| BoardPlay.MoveKeepsScoreDrift | boardplay.go:83-89 | the score minus the number of boxes on targets is the same after every move |
| BoardPlay.UndoAsWritten | boardplay.go:125-138 | as written, undo panics on every non-empty history and returns false on an empty one |
| BoardPlay.Undo | boardplay.go:125-138 | undo fails exactly on an empty history; otherwise it drops the last entry and puts the player back at its origin, leaving grid, boxes and score as they are |
| BoardPlay.MoveThenUndo | boardplay.go:50-138 | undo after a successful move restores the player and the history; after a walk it restores the whole board |
| BoardPlay.UndoKeepsInvariants | boardplay.go:125-138 | undo keeps the board well formed, the boxes consistent and the score drift |
| BoardPlay.ResetBoard | game.go:67-69 | reset empties the history and puts the player where the first recorded move started; nothing else changes |
| BoardPlay.MoveKeepsAnchored | boardplay.go:50-114 | a move keeps the history anchored at the starting position |
| BoardPlay.UndoKeepsAnchored | boardplay.go:125-138 | an undo keeps the history anchored at the starting position |
| BoardPlay.ResetReturnsToStart | game.go:67-69 | on a board whose history starts at the starting position, reset returns the player there |
| BoardPlay.GetScore | boardplay.go:140-143 | the score the moves keep; `BoardPlay.WonIffBoxesPlaced` states what it counts |
| BoardPlay.Won | boardplay.go:145-148 | won exactly when the score equals the number of targets; `BoardPlay.WonIffBoxesPlaced` and `BoardPlay.NoTargetsWonAtStart` characterise it |
| BoardPlay.WonIffBoxesPlaced | boardplay.go:140-148 | when the score counts exactly the boxes on targets (which every move and undo keeps, by `MoveKeepsScoreDrift` and `UndoKeepsInvariants`), the board is won exactly when as many boxes sit on targets as there are targets |
| BoardPlay.NoTargetsWonAtStart | boardplay.go:141-148 | with no targets and a zero score, the board is won |
| Game.Apply | game.go:62-72 | Move succeeds exactly when legal, Undo exactly with history, Reset always, every other type never; a failure changes nothing; a Reset empties the history |
| Game.ResetActionRestarts | game.go:67-69 | a Reset action puts the player back at the start |
| Game.ApplyKeepsInvariants | game.go:62-72 | every action keeps box consistency, score drift and the starting anchor |
| Game.InitGame | game.go:39-50 | a generator error comes back unchanged; otherwise n boards, the first the generated one and every other a clone of it |
| Game.InitGameSameBoards | game.go:40-50 | from a fresh board, all n boards equal it |
| Game.Loop | game.go:58-76 | the loop keeps the number of boards and their well-formedness |
| Game.LoopShape | game.go:58-76 | the loop's calls come in rounds of closing check, receive, send to that player about that action, output of that player's board; it stops on a yes from closing; a board whose player never acted is unchanged |
| Game.Play | game.go:54-77 | the first call is Init with boards[0], followed by the loop's rounds |
| Game.LoopCounts | game.go:58-76 | within the loop Init is never called, send and output are called once per receive, and closing once per receive plus the final one |
| Game.PlayCounts | game.go:54-77 | a run calls Init exactly once and send and output as often as receive |
| Game.ClosingStopsAtOnce | game.go:58 | a controller that is closing from the start gets one closing check and nothing else |
| Game.ReplayMatchesApplyAll | game.go:54-77 | a run over a recorded trace of inputs ends with the boards and results of applying the actions one after the other |
| Wire.ScanColumns | parse/board.go:78-90 | the scan lists exactly the cells that pass the test, in x-major then y order |
| Wire.ConvertFromBoard | parse/board.go:67-92 | id, dimensions and player are copied; walls, targets and boxes list exactly the wall, target and box cells |
| Wire.ConvertOrdered | parse/board.go:78-90 | the three lists are in x-major then y order |
| Wire.GenBoard | parse/board.go:47-57 | a record with non-negative dimensions and on-grid points builds a well-formed, fresh board with its id, dimensions, player, targets and boxes; any other record is an error |
| Wire.GenBoardCell | parse/board.go:47-57 | each built cell is a target if listed as one, else a wall if listed as one, else a space, and holds a box exactly when listed |
| Wire.ParseBoard | parse/board.go:37-60 | a decode failure becomes "unable to parse json - " followed by the decoder's message; otherwise the record is built |
| Wire.RebuildKeepsLayout | parse/board.go:47-92 | rebuilding a converted board keeps id, dimensions, player, and every cell's kind and box flag |
| Wire.ConvertAfterGen | parse/board.go:47-92 | an ordered record without a cell that is both wall and target survives build-then-convert unchanged |
| Wire.AddWallListCell | parse/board.go:48-50 | after the wall loop a cell is a wall exactly when listed, and otherwise unchanged |
| Wire.AddTargetListCell | parse/board.go:51-53 | after the target loop a cell is a target exactly when listed; its box is untouched |
| Wire.AddBoxListCell | parse/board.go:54-56 | after the box loop a cell holds a box exactly when listed or already boxed, with an id from the new range |
| Outbox.Offer | websocket/controller.go:122-124 | a send that never waits appends the message exactly when there is room, and otherwise leaves the channel unchanged |
| Outbox.Put | web/controller.go:28 | a waiting send completes exactly when there is room |
| Outbox.Take | websocket/client.go:128 | a receive yields the oldest message exactly when one is buffered |
| Outbox.OfferThenTake | websocket/client.go:128-147 | messages come out in the order they went in |
| Relay.SendSeat | websocket/controller.go:118-132 | a disconnected player is left alone; with room the message is queued; on a full queue the message is dropped, the queue closed and the player disconnected |
| Relay.SendTo | websocket/controller.go:118-132 | only the addressed seat changes; nPlaying drops by one exactly when that send disconnects a player who has not won, so the count of connected non-winners stays equal to nPlaying |
| Relay.Broadcast | websocket/controller.go:107-113 | every seat from index i onward except the skipped one gets the message; won flags stay; the count is kept |
| Relay.SendResult | websocket/controller.go:94-104 | the actor always gets its result; every other player gets the action only on success |
| Relay.OutputBoard | websocket/controller.go:107-116 | as written: a board not won changes nothing; a won board marks the player won, sends the win to everyone and lowers nPlaying by at least one, whether or not the player had won before |
| Relay.OutputBoardOnce | websocket/controller.go:107-116 | corrected: only the first win of a player is announced and counted, and the count of connected non-winners is kept |
| Relay.Closing | websocket/controller.go:135-142 | the game stops once the count of players left reaches zero; `Relay.ClosingIffNobodyLeft` characterises it |
| Relay.ClosingIffNobodyLeft | websocket/controller.go:135-142 | while the count is kept, the game is closing exactly when every player has disconnected or won |
| Relay.Disconnect | websocket/controller.go:74-82 | a connected player is disconnected, its queue closed, and nPlaying lowered unless it had won; an already disconnected player changes nothing |
| Relay.InitFrom | websocket/controller.go:28-37 | seats before i are untouched, no seat reconnects, and when every connected queue has room each player gets its own init message with the current player count |
| Relay.WsInit | websocket/controller.go:28-37 | when every connected queue has room, every player gets its init message and nPlaying is unchanged; the count is kept in any case |
| Relay.WebInit | web/controller.go:24-34 | the blocking broadcast completes exactly when every queue has room, and then appends each player's init message |
| Relay.DecodeDirection | websocket/controller.go:56-72 | "up", "down", "left", "right" give their directions; anything else, or a missing or non-string field, gives -1 |
| Relay.DecodeAction | websocket/controller.go:46-73 | "undo", "reset", "move" give their types; a move carries the decoded direction; any other action is the zero action |
| Relay.DecodeEncode | web/controller.go:42-72 | every meaningful action survives encoding and decoding |
| Relay.WsRecvInput | websocket/controller.go:41-90 | the request's player and decoded action are returned; "disconnect" disconnects that player; any other action changes no state |
| Relay.WebRecvInput | web/controller.go:38-74 | the request's player and decoded action are returned; "disconnect" is an unknown action there |
| Relay.OutputBoardCountsTwice | websocket/controller.go:107-116 | two won boards of the same player close a two-player game while the other is still connected and has not won |
| Relay.OutputBoardOnceCountsOnce | websocket/controller.go:107-116 | with the corrected output, the same two boards leave one player counted |
| Hub.NewHub | websocket/hub.go:21-28 | an empty, well-formed hub |
| Hub.StartRelay | websocket/hub.go:55-67 | n seats, all connected and not won, with nPlaying n |
| Hub.NewRoom | websocket/hub.go:51-79 | the controller has one connected, not-won seat per waiting client in the chosen order, each with that client's queue; nPlaying is the count and the inbox holds n+1 |
| Hub.StartNewGame | websocket/hub.go:51-79 | the pool is emptied into one new game, and no client is in two seats or in a seat and the pool |
| Hub.Register | websocket/hub.go:34-40 | a new client joins the pool; when the pool reaches two a game starts with all of them and the pool empties |
| Hub.RegisterKeepsPoolSmall | websocket/hub.go:10-40 | the pool never holds two clients after an event |
| Hub.Deregister | websocket/hub.go:41-47 | a waiting client is removed and its queue closed; any other client changes nothing |
| Hub.OnFinishGame | websocket/hub.go:92-106 | afterwards nobody is connected, only the previously connected queues were closed, and no buffered message is lost |
| Hub.ReceiveDisconnects | websocket/hub.go:109-116 | a sender's queue is closed only if still connected |
| Hub.DisconnectsAfterFinish | websocket/hub.go:92-116 | after the finish loop, the late disconnects change nothing, so no queue is closed twice |
| Client.NewClient | websocket/client.go:175-180 | player id -1, not playing, and an empty open queue of capacity 5 |
| Client.Assign | websocket/hub.go:69-72 | the client learns its game and its player number; its id and playing flag stay |
| Client.SeatClients | websocket/hub.go:63-75 | from the given seat on, the client listed at seat i learns the game and player number i; every other client is unchanged |
| Client.StartGame | websocket/hub.go:51-79 | the pool empties into one new game; the client listed at seat i is member i, seat i holds its queue, and it learns that game and player number i; other clients are unchanged |
| Client.SeatedRequestsTagged | websocket/hub.go:63-75 | once seated, a request the client's reader forwards, and the disconnect it sends as it ends, carry the seat whose member the client is |
| Client.CheckPlaying | websocket/client.go:71-78 | the client plays once it has a game, and never stops |
| Client.PlayingIsMonotone | websocket/client.go:71-78 | once playing, a client stays playing |
| Client.TrimSpace | websocket/client.go:93 | the result is the input without its leading and trailing white space |
| Client.NewlinesToSpaces | websocket/client.go:93 | every newline becomes a space and nothing else changes |
| Client.NormalizeProperties | websocket/client.go:93 | a normalised frame has no newline, no white space at either end, and normalising again changes nothing |
| Client.Admit | websocket/client.go:90-112 | a frame is forwarded, tagged with the player id, exactly when the client is playing and the frame decodes to an object whose "action" is a string |
| Client.ReadStep | websocket/client.go:69-113 | the playing flag is updated before reading, and only a playing client forwards a request |
| Client.OnReadEnd | websocket/client.go:47-59 | a client that is not playing leaves the hub; a playing one sends exactly one "disconnect" for its player |
| Client.ReadEndDisconnects | websocket/client.go:47-56 | that disconnect, received by the controller, disconnects exactly that player |
| Client.SplitJoin | websocket/client.go:141-148 | messages without newlines joined with newlines split back into the same messages |
| Client.WriteStep | websocket/client.go:126-148 | with buffered messages, one data frame carries all of them and empties the queue; an empty closed queue gives the close frame and stops the writer |
| Client.WriteStepDelivers | websocket/client.go:136-148 | the data frame splits back into exactly the queued messages in order |
| Client.Drain | websocket/client.go:118-165 | a closed queue ends with the close frame and no data frame follows it |
| Terminal.Init | terminal/controller.go:27-33 | nobody has won yet, the turn starts at player 0, and the game is closing from the start exactly when there are no players |
| Terminal.KeyToAction | terminal/controller.go:46-59 | a key gives a real action exactly when it is one of w, a, s, d, u, r; any other key gives the zero action |
| Terminal.KeysRoundTrip | terminal/controller.go:46-59 | each of the six keys names its own action |
| Terminal.Prompt | terminal/controller.go:63-72 | the first character that is not a newline, or none when the input holds only newlines |
| Terminal.SeekFrom | terminal/controller.go:39-41 | the search stops at the first player in turn order who has not won |
| Terminal.NextPlayer | terminal/controller.go:39-41 | there is a next player exactly when someone has not won, and it is the first one in turn order from the current player |
| Terminal.RecvInput | terminal/controller.go:36-61 | the returned player has not won and the action is the typed key's; there is no answer when everyone has won or the input runs out |
| Terminal.SendResult | terminal/controller.go:75-82 | success moves the turn on by one modulo the players, failure keeps it; valid records the result |
| Terminal.OutputBoard | terminal/controller.go:85-94 | only after a valid action is the board shown; a player's first win adds "You win!", marks the player and counts once |
| Terminal.Closing | terminal/controller.go:97-99 | the game ends when the win count equals the player count; `Terminal.ClosingIffAllWon` characterises it |
| Terminal.ClosingIffAllWon | terminal/controller.go:97-99 | the game is over exactly when every player has won |
| Terminal.OpenGameHasPlayer | terminal/controller.go:36-41 | while the game is open there is a player to ask |
| Terminal.Keyboard | terminal/controller.go:27-99 | the terminal controller as the loop's five operations: Init from the player count with the welcome line and the board; RecvInput, SendResult with "Invalid action", OutputBoard and Closing on that state; `Terminal.KeyboardKeepsTermOk` and `Terminal.LocalGamePlays` state what they keep and do |
| Terminal.KeyboardKeepsTermOk | terminal/controller.go:27-99 | every controller operation keeps one won flag per player, the win count equal to the flags set, and the turn on a valid seat |
| Terminal.LocalGameAsWritten | cmd/sokoban-local/main.go:28-32 | as written, on any board the source can draw, the local game calls Init, is closing at once, and stops without reading a key; the board is untouched |
| Terminal.LocalGamePlays | cmd/sokoban-local/main.go:28-32 | with one player, the first key typed is applied to the board as player 0's action, in a full round right after Init |
| Terminal.ShowBoard | terminal/controller.go:101-122 | one line per row and one character per column; an empty grid shows nothing |
| Terminal.ShowBoardReadable | terminal/controller.go:108-118 | each character is P for the player, else # for a wall, else B for a box, else T for a target, else a space |
| Terminal.ShowBoardAsWritten | terminal/controller.go:101-122 | as written, drawing panics exactly on a non-empty board one column wide |
| Terminal.ShowBoardAsWrittenAgrees | terminal/controller.go:106 | on boards of any other width, the code as written draws what ShowBoard draws |
| Terminal.ShowBoardAsWrittenFailsOnOneColumn | terminal/controller.go:106 | a one-by-one board fails as written but has a one-line drawing |
| Examples.BlankLayout | board_internal_test.go:5-16 | a new empty board has the given size, all spaces, no boxes, no targets, no history, score 0 |
| Examples.OpenBoardTable | board_internal_test.go:17-43 | four walks on the open board land where the test expects; undo returns to (4, 7); reset returns to (5, 7) |
| Examples.Board1Layout | mock/boardmaker.go:14-31 | BoardMaker1 is one open cell walled in on all sides |
| Examples.CellBoardRejectsEveryMove | board_test.go:10-30 | on that cell every direction fails, and the score is 0 |
| Examples.Board2Layout | mock/boardmaker.go:33-52 | BoardMaker2 is a two-by-two room inside a wall |
| Examples.MovePlayerTable | board_test.go:32-57 | TestMovePlayer's eleven results, ending at (1, 1) |
| Examples.Board3Layout | mock/boardmaker.go:54-77 | BoardMaker3's walls, one box at (3, 3), one target at (4, 3), the player at (4, 2) |
| Examples.BoxRoomPush | board_test.go:59-98 | on that board, pushing the box onto a free cell succeeds |
| Examples.BoxRoomPushBlocked | board_test.go:59-98 | on that board, pushing the box into a wall fails |
| Examples.WithBoxTable | board_test.go:59-98 | TestWithBox's first eight results |
| Examples.WithBoxTableMiddle | board_test.go:59-98 | TestWithBox's next four results, including the blocked push |
| Examples.WithBoxTableEnd | board_test.go:59-98 | TestWithBox's last three results, ending with a won board |
| Examples.UndoTable | board_test.go:100-126 | undo fails on the fresh board, and the first three moves of TestUndo succeed |
| Examples.UndoTableWin | board_test.go:100-126 | the last three moves of TestUndo succeed and win |
| Examples.UndoAfterWin | board_test.go:127-144 | as written the undo panics; the corrected undo succeeds but leaves the board won, and the final move succeeds |

## Left out

- **Goroutines and timing.** Goroutines, blocking as synchronisation, mutexes, tickers, deadlines, ping and pong, and `time.Sleep` are left out. A channel is only its buffer, capacity and closed flag. A blocked send is a `None`.
- **Sockets and HTTP.** The gorilla/websocket calls and the HTTP server are network I/O. `serveWsClient` is modelled only for the client's initial state.
- **JSON encoding.**
  - Byte-level JSON encoding and decoding is left out, including `BoardToJSON`'s `json.Marshal`.
  - The decoder is a parameter. A decoded object is a map from field names to JSON values.
  - The messages from parse/web_client.go are the constructors of `Relay.Msg`.
- **Logging and terminal text.** Log output and the terminal's prompts ("Player n: ", the action menu, "> ") are left out. `Prompt`'s reading of runes from a reader becomes a character sequence.
- **Entry points and test doubles.** The cmd programs, apart from the terminal controller cmd/sokoban-local/main.go builds, and mock/controller.go and tests/board_test.go are left out. The mock boards appear only as example inputs.
- BoardGen.NewEmptyBoard: requires non-negative dimensions. A negative width makes Go's `make` panic; a negative height with width 0 is accepted by Go, which then makes no rows.
- Wire.GenBoard: a record with a negative dimension is an error. Go accepts a negative height when the width is 0 and the record lists no points.
- Game.Play: the loop runs for at most `fuel` rounds. A run that reaches the bound halts with `OutOfFuel`, so a game that never closes is not modelled.
- Game.InitGame: requires at least one player. With none, Go's `boards[0]` panics, and the model does not represent that panic.
- Game.Apply: an Undo uses the corrected `BoardPlay.Undo`, so the index panic of boardplay.go:130 never shows as a `Crashed` halt.
- Terminal.Init: requires a non-negative player count. Go's `make` panics on a negative one; `Terminal.Keyboard` leaves its state unchanged then.
- Terminal.SendResult: requires a player when the action succeeded, since Go divides by the count. With no players the loop never gets there: RecvInput indexes `won[0]` and panics first.
- Terminal.OutputBoard: draws with the corrected `Terminal.ShowBoard`, so a board one column wide does not panic as it does in the code.
- Terminal.Keyboard: Init draws with the corrected `Terminal.ShowBoard`, so a board one column wide with a row does not panic in Init as it does in the code (terminal/controller.go:30, 106).
- Terminal.LocalGameAsWritten: leaves out the boards one column wide with a row. On those the source panics in Init, before the closing check, and the loop cannot show a panic in Init.
- Relay.WebInit: requires every seat connected. A send on a seat whose queue an earlier send had closed would panic in Go (web/controller.go:28); every caller calls Init on a fresh controller, whose seats are all connected.
- Terminal.Keyboard: a receive with nobody left to ask, or with no key left, names player -1 and so ends the loop as `Crashed`. Go panics (with no players) or waits for input forever.
- Client.Admit: frames are strings of Unicode scalar values, not bytes. Bytes that are not valid UTF-8, which `bytes.TrimSpace` treats as non-space, cannot be represented.
- Terminal.RecvInput: where every player has won, or where the input holds only newlines, Go loops forever. Here the result is `None`.
- Relay.WsInit: states the result only when every connected queue has room. Otherwise a full queue disconnects its player during the broadcast, and later players see the lowered count. The count is still kept.
- Relay.OutputBoard: its contract says only that `nPlaying` drops by at least one on a won board. The broadcast may disconnect players as well.
- BoardPlay.Undo: does not restore boxes or score. The code leaves that as a TODO, so undoing a push leaves the box where it was pushed.
- BoardPlay.ResetBoard: `Board.Reset` is not part of this model. Reset is assumed to undo until the history is empty.
- **Score of boxes placed on targets.** The score is not raised for a box generated on a target. The code does not raise it either.

## Findings

| source | as written | input that shows it | evidently intended | confidence | as-written member | corrected member |
|---|---|---|---|---|---|---|
| boardplay.go:130 | the last move is read at index `len(history)`, one past the end | any board with one move in its history, e.g. the open board after one walk | read the last element, `len(history)-1` | high, not executed | BoardPlay.UndoAsWritten | BoardPlay.Undo |
| websocket/controller.go:107-116, web/controller.go:91-100 | `nPlaying` is decremented for every won board, even when the player has won before | two players; player 0 outputs a won board twice, e.g. after a failed move on the won board | decrement only on the player's first win, as the terminal controller does at terminal/controller.go:88 | high, not executed | Relay.OutputBoardCountsTwice | Relay.OutputBoardOnce |
| cmd/sokoban-local/main.go:28-31 | the terminal controller is built without `NPlayers`, which stays 0; `Closing` (terminal/controller.go:97-99) compares the win count, 0, with it, so the game ends right after Init | any board and any keyboard input | `NPlayers: 1`, the single player of the comment at lines 13-14 and of `InitGame(1, …)` at line 32 | high, not executed | Terminal.LocalGameAsWritten | Terminal.LocalGamePlays |
| terminal/controller.go:106 | the rows are counted from `Grid[1]`, the second column | a board one column wide with at least one row | count rows from `Grid[0]`, which the guard at line 102 has checked | high, not executed | Terminal.ShowBoardAsWrittenFailsOnOneColumn | Terminal.ShowBoard |
