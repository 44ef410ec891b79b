/**
 The terminal controller: players share one keyboard and take turns, a turn
 passing on only after a successful action and skipping players who have
 already won; the board is drawn as text after every successful action.

 The keyboard is a sequence of runes and the screen a sequence of lines.
 */
module Terminal {
  import opened Wrappers
  import opened Sokoban
  import opened BoardPlay
  import opened Game

  /** The controller's state: whether the last action succeeded, how many
      players have won and which, the player count, and whose turn it is. */
  datatype Term = Term(valid: bool, nWon: int, won: seq<bool>, nPlayers: int, currPlayer: int)

  /** The number of true flags in `s`. */
  function CountTrue(s: seq<bool>): nat {
    if s == [] then 0 else (if s[0] then 1 else 0) + CountTrue(s[1..])
  }

  /** Setting a flag adds one to the count exactly when it was clear. */
  lemma {:induction false} CountTrueSet(s: seq<bool>, p: int)
    requires 0 <= p < |s|
    ensures CountTrue(s[p := true]) == CountTrue(s) + (if s[p] then 0 else 1)
  {
    if p > 0 {
      assert s[p := true][1..] == s[1..][p - 1 := true];
      CountTrueSet(s[1..], p - 1);
    } else {
      assert s[p := true][1..] == s[1..];
    }
  }

  /** The count is the length exactly when every flag is set. */
  lemma {:induction false} CountTrueFull(s: seq<bool>)
    ensures CountTrue(s) <= |s|
    ensures CountTrue(s) == |s| <==> forall j :: 0 <= j < |s| ==> s[j]
  {
    if s != [] {
      CountTrueFull(s[1..]);
      assert forall j :: 1 <= j < |s| ==> s[j] == s[1..][j - 1];
    }
  }

  /** Between actions: one flag per player, `nWon` counts the winners, and
      the turn is a valid seat (seat 0 when there are no players). */
  predicate TermOk(t: Term) {
    && t.nPlayers >= 0 && |t.won| == t.nPlayers && t.nWon == CountTrue(t.won)
    && (if t.nPlayers == 0 then t.currPlayer == 0 else 0 <= t.currPlayer < t.nPlayers)
  }

  /** The controller as Init leaves it: nobody has won, player 0 to play.
      With no players the game is over before it starts. A negative count
      makes Go's `make` panic. */
  function Init(n: int): (t: Term)
    requires n >= 0
    ensures TermOk(t) && t.nWon == 0 && t.currPlayer == 0 && !t.valid
    ensures |t.won| == n && forall j :: 0 <= j < n ==> !t.won[j]
    ensures Closing(t) <==> n == 0
  {
    var won := seq(n, j => false);
    assert CountTrue(won) == 0 by { CountTrueNone(won); }
    Term(false, 0, won, n, 0)
  }

  lemma {:induction false} CountTrueNone(s: seq<bool>)
    requires forall j :: 0 <= j < |s| ==> !s[j]
    ensures CountTrue(s) == 0
  {
    if s != [] {
      CountTrueNone(s[1..]);
    }
  }

  // ---------------------------------------------------------------------------
  // Input

  /** The action a key stands for: w, a, s and d move up, left, down and
      right, u undoes, r restarts, and every other key is the zero action. */
  function KeyToAction(k: char): (a: Action)
    ensures IsActionType(a.kind) <==> k in "wasdur"
    ensures !IsActionType(a.kind) ==> a == NoAction
  {
    match k
      case 'w' => Action(MoveType, Up)
      case 'a' => Action(MoveType, Left)
      case 's' => Action(MoveType, Down)
      case 'd' => Action(MoveType, Right)
      case 'u' => Action(UndoType, 0)
      case 'r' => Action(ResetType, 0)
      case _ => NoAction
  }

  /** The key for an action, the partner of KeyToAction. */
  function ActionKey(a: Action): char {
    if a.kind == UndoType then 'u'
    else if a.kind == ResetType then 'r'
    else if a.direction == Up then 'w'
    else if a.direction == Left then 'a'
    else if a.direction == Down then 's'
    else 'd'
  }

  /** Every action a player can type has exactly one key, and every one of
      the six keys names a different action. */
  lemma KeysRoundTrip(a: Action, k: char)
    requires (a.kind == MoveType && IsDirection(a.direction)) || ((a.kind == UndoType || a.kind == ResetType) && a.direction == 0)
    requires k in "wasdur"
    ensures KeyToAction(ActionKey(a)) == a
    ensures ActionKey(KeyToAction(k)) == k
  {
  }

  /** The next key typed: newlines are skipped; `None` when the input runs
      out, where the source keeps waiting. */
  function Prompt(input: seq<char>): (r: Option<(char, seq<char>)>)
    ensures r.None? <==> forall k :: 0 <= k < |input| ==> input[k] == '\n'
    ensures r.Some? ==> r.value.0 != '\n' && |r.value.1| < |input| && input[|input| - |r.value.1| - 1] == r.value.0
    ensures r.Some? ==> input[|input| - |r.value.1|..] == r.value.1
    ensures r.Some? ==> forall k :: 0 <= k < |input| - |r.value.1| - 1 ==> input[k] == '\n'
  {
    if input == [] then None
    else if input[0] == '\n' then Prompt(input[1..])
    else Some((input[0], input[1..]))
  }

  /** The seat `e` turns after seat `p`, going round `n` seats. */
  function TurnAfter(p: int, e: int, n: int): (q: int)
    requires 0 <= p < n && 0 <= e < n
    ensures 0 <= q < n
  {
    if p + e < n then p + e else p + e - n
  }

  /** How many turns after seat `p` seat `q` comes. */
  function Turns(p: int, q: int, n: int): (e: int)
    requires 0 <= p < n && 0 <= q < n
    ensures 0 <= e < n && TurnAfter(p, e, n) == q
  {
    if p <= q then q - p else q - p + n
  }

  /** The number of turns from `p` forward to the first seat, from `d` turns
      on, whose player has not won; `None` when there is none. */
  function SeekFrom(won: seq<bool>, p: int, d: nat): (r: Option<nat>)
    requires 0 <= p < |won| && d <= |won|
    ensures r.Some? ==> d <= r.value < |won| && !won[TurnAfter(p, r.value, |won|)]
    ensures r.Some? ==> forall e :: d <= e < r.value ==> won[TurnAfter(p, e, |won|)]
    ensures r.None? ==> forall e :: d <= e < |won| ==> won[TurnAfter(p, e, |won|)]
    decreases |won| - d
  {
    if d == |won| then None
    else if !won[TurnAfter(p, d, |won|)] then Some(d)
    else SeekFrom(won, p, d + 1)
  }

  /** The players' turn: starting from the current player and going round,
      the first who has not won. `None` when everybody has won, where the
      source would go round forever. */
  function NextPlayer(t: Term): (r: Option<int>)
    requires TermOk(t)
    ensures r.None? <==> forall j :: 0 <= j < t.nPlayers ==> t.won[j]
    ensures r.Some? ==> 0 <= r.value < t.nPlayers && !t.won[r.value]
    ensures r.Some? ==> forall e :: 0 <= e < Turns(t.currPlayer, r.value, t.nPlayers) ==> t.won[TurnAfter(t.currPlayer, e, t.nPlayers)]
  {
    if t.nPlayers == 0 then None
    else match SeekFrom(t.won, t.currPlayer, 0)
      case None =>
        assert forall j :: 0 <= j < t.nPlayers ==> t.won[j] by {
          forall j | 0 <= j < t.nPlayers ensures t.won[j] {
            assert TurnAfter(t.currPlayer, Turns(t.currPlayer, j, t.nPlayers), t.nPlayers) == j;
          }
        }
        None
      case Some(e) =>
        var q := TurnAfter(t.currPlayer, e, t.nPlayers);
        assert Turns(t.currPlayer, q, t.nPlayers) == e;
        Some(q)
  }

  /** RecvInput: the turn passes over players who have won, then one key is
      read and mapped to that player's action. */
  function RecvInput(t: Term, input: seq<char>): (r: Option<(Term, int, Action, seq<char>)>)
    requires TermOk(t)
    ensures r.None? <==> (forall j :: 0 <= j < t.nPlayers ==> t.won[j]) || Prompt(input).None?
    ensures r.Some? ==> TermOk(r.value.0) && r.value.0 == t.(currPlayer := r.value.1)
    ensures r.Some? ==> !t.won[r.value.1] && Prompt(input).Some?
    ensures r.Some? ==> r.value.2 == KeyToAction(Prompt(input).value.0) && r.value.3 == Prompt(input).value.1
  {
    match NextPlayer(t)
      case None => None
      case Some(p) =>
        match Prompt(input)
          case None => None
          case Some((k, rest)) => Some((t.(currPlayer := p), p, KeyToAction(k), rest))
  }

  /** SendResult: a successful action passes the turn to the next seat; a
      failed one keeps it. The outcome is remembered for OutputBoard. Passing
      the turn divides by the player count, so it needs a player; the loop
      only gets here after RecvInput, which already needs one. */
  function SendResult(t: Term, ok: bool): (r: Term)
    requires TermOk(t) && (ok ==> t.nPlayers >= 1)
    ensures TermOk(r) && r.valid == ok && r.won == t.won && r.nWon == t.nWon
    ensures ok ==> r.currPlayer == (t.currPlayer + 1) % t.nPlayers
    ensures !ok ==> r.currPlayer == t.currPlayer
  {
    if ok then t.(valid := true, currPlayer := (t.currPlayer + 1) % t.nPlayers) else t.(valid := false)
  }

  /** OutputBoard: after a successful action the board is drawn, and a
      player whose board is won is announced and counted, once. */
  function OutputBoard(t: Term, p: int, b: Board): (r: (Term, seq<string>))
    requires TermOk(t) && 0 <= p < t.nPlayers && Shaped(b)
    ensures TermOk(r.0) && r.0.currPlayer == t.currPlayer && r.0.valid == t.valid
    ensures t.valid && Won(b) ==> r.0.won == t.won[p := true]
    ensures !(t.valid && Won(b)) ==> r.0 == t
    ensures r.0.nWon == t.nWon + (if t.valid && Won(b) && !t.won[p] then 1 else 0)
    ensures r.1 == if !t.valid then [] else ShowBoard(b) + (if Won(b) && !t.won[p] then ["You win!"] else [])
  {
    if !t.valid then (t, [])
    else if Won(b) && !t.won[p] then
      CountTrueSet(t.won, p);
      (t.(won := t.won[p := true], nWon := t.nWon + 1), ShowBoard(b) + ["You win!"])
    else
      assert Won(b) ==> t.won[p := true] == t.won;
      (t, ShowBoard(b))
  }

  /** The game ends when every player has won. */
  predicate Closing(t: Term) {
    t.nWon == t.nPlayers
  }

  lemma ClosingIffAllWon(t: Term)
    requires TermOk(t)
    ensures Closing(t) <==> forall j :: 0 <= j < t.nPlayers ==> t.won[j]
    ensures t.nWon <= t.nPlayers
  {
    CountTrueFull(t.won);
  }

  /** While the game is still open, there is always a player to ask. */
  lemma OpenGameHasPlayer(t: Term)
    requires TermOk(t) && !Closing(t)
    ensures NextPlayer(t).Some?
  {
    ClosingIffAllWon(t);
  }

  // ---------------------------------------------------------------------------
  // Drawing

  /** A cell's character: the player first, then a wall, a box, a target. */
  function CellChar(b: Board, x: int, y: int): char
    requires 0 <= x < |b.grid| && 0 <= y < |b.grid[x]|
  {
    if b.player.x == x && b.player.y == y then 'P'
    else if b.grid[x][y].kind == Wall then '#'
    else if b.grid[x][y].hasBox then 'B'
    else if b.grid[x][y].kind == Target then 'T'
    else ' '
  }

  /** Row `y` of the drawing: one character per column. */
  function Row(b: Board, y: int): (line: string)
    requires Shaped(b) && 0 <= y < b.height
    ensures |line| == b.width
    ensures forall x :: 0 <= x < b.width ==> line[x] == CellChar(b, x, y)
  {
    seq(b.width, x requires 0 <= x < b.width => CellChar(b, x, y))
  }

  /** The board as text, one line per row, as the height is read off the
      first column; an empty grid draws nothing. */
  function ShowBoard(b: Board): (lines: seq<string>)
    requires Shaped(b)
    ensures b.width == 0 || b.height == 0 ==> lines == []
    ensures b.width > 0 && b.height > 0 ==> |lines| == b.height
    ensures forall y :: 0 <= y < |lines| ==> lines[y] == Row(b, y)
  {
    if |b.grid| == 0 || |b.grid[0]| == 0 then []
    else seq(|b.grid[0]|, y requires 0 <= y < b.height => Row(b, y))
  }

  /** The drawing can be read back: the player is shown at its own cell and
      nowhere else; every other cell shows `#` exactly when it is a wall,
      `B` exactly when it holds a box and is no wall, `T` exactly when it is
      an empty target, and a blank exactly when it is empty floor. */
  lemma ShowBoardReadable(b: Board, x: int, y: int)
    requires Shaped(b) && 0 <= x < b.width && 0 <= y < b.height
    ensures var ch := ShowBoard(b)[y][x]; var it := b.grid[x][y];
      && (ch == 'P' <==> b.player == Point(x, y))
      && (b.player != Point(x, y) ==>
           && (ch == '#' <==> it.kind == Wall)
           && (ch == 'B' <==> it.hasBox && it.kind != Wall)
           && (ch == 'T' <==> it.kind == Target && !it.hasBox)
           && (ch == ' ' <==> it.kind == Space && !it.hasBox))
  {
    assert ShowBoard(b)[y] == Row(b, y);
  }

  /** showBoard as the source writes it: the number of rows is read off the
      second column, so a one-column board makes it index out of range,
      shown as `None`. */
  function ShowBoardAsWritten(b: Board): (r: Option<seq<string>>)
    requires Shaped(b)
    ensures r.None? <==> b.width == 1 && b.height > 0
  {
    if |b.grid| == 0 || |b.grid[0]| == 0 then Some([])
    else if |b.grid| < 2 then None
    else Some(seq(|b.grid[1]|, y requires 0 <= y < b.height => Row(b, y)))
  }

  /** On every board of two or more columns, the source's drawing is the
      corrected one. */
  lemma ShowBoardAsWrittenAgrees(b: Board)
    requires Shaped(b) && b.width != 1
    ensures ShowBoardAsWritten(b) == Some(ShowBoard(b))
  {
  }

  /** A one-cell board, which the source cannot draw. */
  lemma ShowBoardAsWrittenFailsOnOneColumn()
    ensures ShowBoardAsWritten(Board(0, 1, 1, [[EmptyItem]], Point(0, 0), [], [], [], 0)).None?
    ensures |ShowBoard(Board(0, 1, 1, [[EmptyItem]], Point(0, 0), [], [], [], 0))| == 1
  {
  }

  // ---------------------------------------------------------------------------
  // The controller on a console

  /** The terminal controller with its keyboard and screen: `term.nPlayers`
      is the count the caller sets before the game starts. */
  datatype Console = Console(term: Term, input: seq<char>, screen: seq<string>)

  /** The terminal controller's five operations. A receive with nobody left
      to ask or no key left to read names no player (-1), which ends the
      loop; the source would index out of range or wait forever. */
  function Keyboard(): Controller<Console> {
    Controller(
      (c: Console, b: Board) =>
        if c.term.nPlayers >= 0 && Shaped(b)
        then c.(term := Init(c.term.nPlayers), screen := c.screen + ["Welcome to \U{5009}\U{5eab}\U{756a}!"] + ShowBoard(b))
        else c,
      (c: Console) => (c, Closing(c.term)),
      (c: Console) =>
        if !TermOk(c.term) then (c, -1, NoAction)
        else match RecvInput(c.term, c.input)
          case None => (c, -1, NoAction)
          case Some((t, p, a, rest)) => (c.(term := t, input := rest), p, a),
      (c: Console, p: int, ok: bool, a: Action) =>
        if TermOk(c.term) && (ok ==> c.term.nPlayers >= 1)
        then c.(term := SendResult(c.term, ok), screen := c.screen + (if ok then [] else ["Invalid action"]))
        else c,
      (c: Console, p: int, b: Board) =>
        if TermOk(c.term) && 0 <= p < c.term.nPlayers && Shaped(b)
        then c.(term := OutputBoard(c.term, p, b).0, screen := c.screen + OutputBoard(c.term, p, b).1)
        else c)
  }

  /** Each operation keeps the controller's state well formed, and Init
      starts from a well-formed state whatever the count's sign. */
  lemma KeyboardKeepsTermOk(c: Console, p: int, ok: bool, a: Action, b: Board)
    requires TermOk(c.term) && Valid(b)
    ensures TermOk(Keyboard().init(c, b).term)
    ensures TermOk(Keyboard().closing(c).0.term)
    ensures TermOk(Keyboard().recv(c).0.term)
    ensures TermOk(Keyboard().send(c, p, ok, a).term)
    ensures TermOk(Keyboard().output(c, p, b).term)
  {
  }

  /** The console the local single-player command builds: the player count
      is left at its zero value. */
  function LocalConsoleAsWritten(input: seq<char>): Console {
    Console(Term(false, 0, [], 0, 0), input, [])
  }

  /** The console with the one player the command means to seat. */
  function LocalConsole(input: seq<char>): Console {
    Console(Term(false, 0, [], 1, 0), input, [])
  }

  /** With the count left at zero, the game closes straight after Init: no
      key is ever read, and the board is never touched. A board one column
      wide with a row is left out: the source's Init already fails drawing it
      (ShowBoardAsWritten). */
  lemma LocalGameAsWritten(b: Board, input: seq<char>, fuel: nat)
    requires Valid(b) && fuel > 0
    requires ShowBoardAsWritten(b).Some?
    ensures var r := Play(Keyboard(), LocalConsoleAsWritten(input), [b], fuel);
      r.log == [InitCall(b), ClosingCall(true)] && r.boards == [b] && r.halt == Closed
  {
    var c := Keyboard().init(LocalConsoleAsWritten(input), b);
    assert c.term == Init(0);
    ClosingStopsAtOnce(Keyboard(), c, [b], fuel);
  }

  /** With one player, the first key typed is read as player 0's action and
      applied to the board: the loop runs a full round. */
  lemma LocalGamePlays(b: Board, k: char, rest: seq<char>, fuel: nat)
    requires Valid(b) && fuel > 0 && k != '\n'
    ensures var r := Play(Keyboard(), LocalConsole([k] + rest), [b], fuel);
      var s := Apply(b, KeyToAction(k));
      |r.log| >= 5 && r.log[..5] == [InitCall(b)] + Round(0, KeyToAction(k), s.ok, s.board)
  {
    var c := Keyboard().init(LocalConsole([k] + rest), b);
    assert c.term == Init(1);
    assert !Closing(c.term);
    assert NextPlayer(c.term) == Some(0);
    assert Prompt(c.input) == Some((k, rest));
    assert Keyboard().recv(Keyboard().closing(c).0).1 == 0;
    LoopStep(Keyboard(), c, [b], fuel);
    var r := Play(Keyboard(), LocalConsole([k] + rest), [b], fuel);
    var s := Apply(b, KeyToAction(k));
    assert r.log[1..] == Loop(Keyboard(), c, [b], fuel).log;
  }
}
