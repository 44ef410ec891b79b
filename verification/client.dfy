/**
 The per-connection logic of the websocket server, as pure functions over
 abstract frames: the client's state before and after its game starts, which
 inbound frames are forwarded to the game, what happens when the connection's
 reader ends, and how the writer batches queued messages into one frame.

 Frames are strings of runes; decoding JSON is a parameter, and so is the
 encoding of an outbound message.
 */
module Client {
  import opened Wrappers
  import opened Game
  import opened Outbox
  import opened Relay
  import opened Hub

  /** The capacity of a client's outbound queue. */
  const SendCapacity: nat := 5

  /** A connection's state: its seat once a game has taken it (`-1` before),
      whether its reader has noticed that, and the game it belongs to. */
  datatype Client = Client(id: ClientId, playerId: int, isPlaying: bool, game: Option<nat>)

  /** The reader only believes it is playing once a game has been assigned. */
  predicate ClientOk(c: Client) {
    c.isPlaying ==> c.game.Some?
  }

  /** A fresh connection, with its outbound queue. */
  function NewClient(id: ClientId): (r: (Client, Queue<Msg>))
    ensures r.0.id == id && r.0.playerId == -1 && !r.0.isPlaying && r.0.game.None? && ClientOk(r.0)
    ensures r.1.items == [] && r.1.capacity == 5 && !r.1.closed && Bounded(r.1)
  {
    (Client(id, -1, false, None), NewQueue(SendCapacity))
  }

  /** The hub seats the client: it learns its game and player number. */
  function Assign(c: Client, game: nat, player: nat): (r: Client)
    requires ClientOk(c)
    ensures ClientOk(r) && r.id == c.id && r.isPlaying == c.isPlaying
    ensures r.game == Some(game) && r.playerId == player
  {
    c.(game := Some(game), playerId := player)
  }

  /** At the top of each read, a reader that is not yet playing starts
      playing once a game has been assigned; a playing reader stays so. */
  function CheckPlaying(c: Client): (r: Client)
    requires ClientOk(c)
    ensures ClientOk(r) && r.id == c.id && r.playerId == c.playerId && r.game == c.game
    ensures r.isPlaying <==> c.isPlaying || c.game.Some?
  {
    if !c.isPlaying && c.game.Some? then c.(isPlaying := true) else c
  }

  /** Once playing, a client never stops playing, whatever the hub and the
      reader do next. */
  lemma PlayingIsMonotone(c: Client, game: nat, player: nat)
    requires ClientOk(c) && c.isPlaying
    ensures CheckPlaying(c).isPlaying && Assign(c, game, player).isPlaying
    ensures CheckPlaying(Assign(c, game, player)).isPlaying
  {
  }

  // ---------------------------------------------------------------------------
  // Seating

  /** The connections the hub has seen, keyed by their own ids. */
  ghost predicate ClientsOk(cs: map<ClientId, Client>) {
    && (forall id :: id in cs ==> cs[id].id == id)
    && (forall id :: id in cs ==> ClientOk(cs[id]))
  }

  /** startNewGame's loop from seat `from` on: the client listed at seat `i`
      learns the game and its seat `i`; every other client is untouched. */
  function SeatClients(cs: map<ClientId, Client>, order: seq<ClientId>, game: nat, from: nat): (r: map<ClientId, Client>)
    requires ClientsOk(cs) && Distinct(order) && from <= |order|
    requires forall i :: 0 <= i < |order| ==> order[i] in cs
    ensures ClientsOk(r) && r.Keys == cs.Keys
    ensures forall i :: from <= i < |order| ==> ClientOk(cs[order[i]]) && r[order[i]] == Assign(cs[order[i]], game, i)
    ensures forall id :: id in cs && id !in order[from..] ==> r[id] == cs[id]
    decreases |order| - from
  {
    if from == |order| then cs
    else
      var id := order[from];
      var r := SeatClients(cs[id := Assign(cs[id], game, from)], order, game, from + 1);
      assert id !in order[from + 1..] by {
        forall k | from + 1 <= k < |order| ensures order[k] != id { }
      }
      assert forall i :: from + 1 <= i < |order| ==> order[i] != id;
      assert forall x :: x !in order[from..] ==> x != id && x !in order[from + 1..];
      r
  }

  /** startNewGame, both sides: the waiting clients move into a new game in
      the order given, and the client in seat `i` learns that game and that
      its player number is `i`. */
  function StartGame(h: Hub, cs: map<ClientId, Client>, order: seq<ClientId>): (r: (Hub, map<ClientId, Client>))
    requires HubOk(h) && Enumerates(order, h.waiting.Keys)
    requires ClientsOk(cs) && h.waiting.Keys <= cs.Keys
    ensures HubOk(r.0) && r.0.waiting == map[]
    ensures |r.0.rooms| == |h.rooms| + 1 && r.0.rooms[..|h.rooms|] == h.rooms
    ensures r.0.rooms[|h.rooms|].members == order
    ensures ClientsOk(r.1) && r.1.Keys == cs.Keys
    ensures forall i :: 0 <= i < |order| ==>
      && r.0.rooms[|h.rooms|].members[i] == order[i]
      && r.0.rooms[|h.rooms|].relay.seats[i] == Seat(h.waiting[order[i]], true)
      && r.1[order[i]].playerId == i && r.1[order[i]].game == Some(|h.rooms|)
      && r.1[order[i]].isPlaying == cs[order[i]].isPlaying
    ensures forall id :: id in cs && id !in h.waiting ==> r.1[id] == cs[id]
  {
    assert forall i :: 0 <= i < |order| ==> order[i] in h.waiting;
    (StartNewGame(h, order), SeatClients(cs, order, |h.rooms|, 0))
  }

  /** Once seated, whatever a client's reader forwards, and the disconnect it
      sends as it ends, is tagged with the seat that game gave the client. */
  lemma SeatedRequestsTagged(h: Hub, cs: map<ClientId, Client>, order: seq<ClientId>, i: int,
                             frame: string, decode: string -> Option<Fields>)
    requires HubOk(h) && Enumerates(order, h.waiting.Keys)
    requires ClientsOk(cs) && h.waiting.Keys <= cs.Keys
    requires 0 <= i < |order|
    ensures var r := StartGame(h, cs, order);
      var c := r.1[order[i]];
      var step := ReadStep(c, frame, decode);
      && c.game == Some(|h.rooms|)
      && step.0.isPlaying
      && (step.1.Some? ==> r.0.rooms[|h.rooms|].members[step.1.value.player] == order[i])
      && OnReadEnd(step.0) == Forward(Request(i, DisconnectFields))
      && r.0.rooms[|h.rooms|].members[i] == order[i]
  {
  }

  // ---------------------------------------------------------------------------
  // Inbound frames

  /** The runes Go's unicode.IsSpace accepts. */
  predicate IsSpace(ch: char) {
    || ch == '\t' || ch == '\n' || ch == '\U{000B}' || ch == '\U{000C}' || ch == '\r' || ch == ' '
    || ch == '\U{0085}' || ch == '\U{00A0}' || ch == '\U{1680}'
    || ('\U{2000}' <= ch <= '\U{200A}')
    || ch == '\U{2028}' || ch == '\U{2029}' || ch == '\U{202F}' || ch == '\U{205F}' || ch == '\U{3000}'
  }

  /** Every newline replaced by a space. */
  function NewlinesToSpaces(s: string): (r: string)
    ensures |r| == |s|
    ensures forall k :: 0 <= k < |s| ==> r[k] == if s[k] == '\n' then ' ' else s[k]
  {
    if s == [] then [] else [if s[0] == '\n' then ' ' else s[0]] + NewlinesToSpaces(s[1..])
  }

  /** `s` without its leading white space. */
  function TrimLeft(s: string): (r: string)
    ensures |r| <= |s| && r == s[|s| - |r|..]
    ensures forall k :: 0 <= k < |s| - |r| ==> IsSpace(s[k])
    ensures |r| > 0 ==> !IsSpace(r[0])
  {
    if |s| > 0 && IsSpace(s[0]) then TrimLeft(s[1..]) else s
  }

  /** `s` without its trailing white space. */
  function TrimRight(s: string): (r: string)
    ensures |r| <= |s| && r == s[..|r|]
    ensures forall k :: |r| <= k < |s| ==> IsSpace(s[k])
    ensures |r| > 0 ==> !IsSpace(r[|r| - 1])
  {
    if |s| > 0 && IsSpace(s[|s| - 1]) then TrimRight(s[..|s| - 1]) else s
  }

  /** Go's bytes.TrimSpace: the part of `s` between its leading and trailing
      white space. */
  function TrimSpace(s: string): (r: string)
    ensures exists i :: Trimmed(s, r, i)
  {
    var l := TrimLeft(s);
    var r := TrimRight(l);
    assert Trimmed(s, r, |s| - |l|);
    r
  }

  /** `r` sits at `i` in `s`, with only white space around it and none at
      its ends. */
  ghost predicate Trimmed(s: string, r: string, i: int) {
    && 0 <= i <= i + |r| <= |s| && s[i..i + |r|] == r
    && (forall k :: 0 <= k < i ==> IsSpace(s[k]))
    && (forall k :: i + |r| <= k < |s| ==> IsSpace(s[k]))
    && (|r| > 0 ==> !IsSpace(r[0]) && !IsSpace(r[|r| - 1]))
  }

  /** A frame as the reader hands it to the JSON decoder. */
  function Normalize(frame: string): string {
    TrimSpace(NewlinesToSpaces(frame))
  }

  /** A string with no white space at either end is its own trim. */
  lemma TrimSpaceFixed(s: string)
    requires |s| > 0 ==> !IsSpace(s[0]) && !IsSpace(s[|s| - 1])
    ensures TrimSpace(s) == s
  {
    assert TrimLeft(s) == s;
  }

  /** A normalized frame has no newline, no white space at either end, and
      normalizing it again changes nothing. */
  lemma NormalizeProperties(frame: string)
    ensures '\n' !in Normalize(frame)
    ensures |Normalize(frame)| > 0 ==> !IsSpace(Normalize(frame)[0]) && !IsSpace(Normalize(frame)[|Normalize(frame)| - 1])
    ensures Normalize(Normalize(frame)) == Normalize(frame)
  {
    var s := NewlinesToSpaces(frame);
    var r := Normalize(frame);
    var i :| Trimmed(s, r, i);
    forall k | 0 <= k < |r| ensures r[k] != '\n' {
      assert r[k] == s[i + k];
    }
    assert NewlinesToSpaces(r) == r;
    TrimSpaceFixed(r);
  }

  /** A frame the reader takes in: it is discarded while the client is not
      playing; otherwise it is normalized and decoded, and forwarded, tagged
      with the client's seat, exactly when it decodes to an object whose
      "action" is a string. */
  function Admit(c: Client, frame: string, decode: string -> Option<Fields>): (r: Option<Request>)
    ensures r.Some? <==> c.isPlaying && decode(Normalize(frame)).Some? && HasAction(decode(Normalize(frame)).value)
    ensures r.Some? ==> r.value == Request(c.playerId, decode(Normalize(frame)).value)
  {
    if !c.isPlaying then None
    else match decode(Normalize(frame))
      case None => None
      case Some(f) => if HasAction(f) then Some(Request(c.playerId, f)) else None
  }

  /** One turn of the reader loop: check for a game, then read a frame. */
  function ReadStep(c: Client, frame: string, decode: string -> Option<Fields>): (r: (Client, Option<Request>))
    requires ClientOk(c)
    ensures ClientOk(r.0) && r.0.isPlaying == (c.isPlaying || c.game.Some?)
    ensures r.1.Some? ==> r.0.isPlaying && r.1.value.player == c.playerId && HasAction(r.1.value.fields)
  {
    var c1 := CheckPlaying(c);
    (c1, Admit(c1, frame, decode))
  }

  /** What the reader does as it ends: leave the hub, or tell the game. */
  datatype Cleanup = LeaveHub(id: ClientId) | Forward(req: Request)

  /** The request a playing client's reader sends when it ends. */
  const DisconnectFields: Fields := map["action" := JString("disconnect")]

  function OnReadEnd(c: Client): (r: Cleanup)
    ensures !c.isPlaying <==> r == LeaveHub(c.id)
    ensures c.isPlaying <==> r.Forward? && r.req.player == c.playerId && HasAction(r.req.fields) && r.req.fields["action"].s == "disconnect"
  {
    if !c.isPlaying then LeaveHub(c.id) else Forward(Request(c.playerId, DisconnectFields))
  }

  /** The disconnect request a playing client leaves behind disconnects its
      seat in the websocket controller, and decodes to the zero action. */
  lemma ReadEndDisconnects(cl: Client, c: Relay)
    requires cl.isPlaying && Wf(c) && 0 <= cl.playerId < |c.seats|
    ensures OnReadEnd(cl).Forward?
    ensures var r := WsRecvInput(c, OnReadEnd(cl).req);
      && r.0 == Disconnect(c, cl.playerId) && !r.0.seats[cl.playerId].connected && r.2 == NoAction
  {
  }

  // ---------------------------------------------------------------------------
  // Outbound frames

  /** `parts` separated by newlines. */
  function Join(parts: seq<string>): (r: string)
    requires |parts| > 0
    ensures |r| >= |parts| - 1
  {
    if |parts| == 1 then parts[0] else parts[0] + "\n" + Join(parts[1..])
  }

  /** The position of the first newline of `s`, if any. */
  function FirstNewline(s: string): (r: Option<nat>)
    ensures r.None? <==> '\n' !in s
    ensures r.Some? ==> r.value < |s| && s[r.value] == '\n' && '\n' !in s[..r.value]
  {
    if s == [] then None
    else if s[0] == '\n' then Some(0)
    else match FirstNewline(s[1..])
      case None => None
      case Some(k) =>
        assert s[..k + 1] == [s[0]] + s[1..][..k];
        Some(k + 1)
  }

  /** `s` cut at every newline: what a reader of the frame recovers. */
  function Split(s: string): (r: seq<string>)
    ensures |r| > 0
    decreases |s|
  {
    match FirstNewline(s)
      case None => [s]
      case Some(k) => [s[..k]] + Split(s[k + 1..])
  }

  /** Cutting a joined batch at its newlines gives back the messages, as long
      as no message holds a newline of its own. */
  lemma {:induction false} SplitJoin(parts: seq<string>)
    requires |parts| > 0 && forall k :: 0 <= k < |parts| ==> '\n' !in parts[k]
    ensures Split(Join(parts)) == parts
    decreases |parts|
  {
    if |parts| > 1 {
      var s := Join(parts);
      var p := parts[0];
      assert s == p + "\n" + Join(parts[1..]);
      assert s[|p|] == '\n' && s[..|p|] == p;
      assert FirstNewline(s) == Some(|p|);
      assert s[|p| + 1..] == Join(parts[1..]);
      SplitJoin(parts[1..]);
    } else {
      assert '\n' !in parts[0];
    }
  }

  /** What the writer does on one wake-up. */
  datatype Frame = Data(text: string) | CloseFrame | Wait

  /** The writer's step: with messages queued, it sends them all as one
      frame, the first followed by every one still queued, each after a
      newline; with none queued it writes the close frame and stops if the
      queue is closed, and otherwise waits. The flag says whether it goes on. */
  function WriteStep(q: Queue<Msg>, enc: Msg -> string): (r: (Frame, Queue<Msg>, bool))
    ensures |q.items| > 0 ==> r.0.Data? && r.1 == q.(items := []) && r.2
    ensures |q.items| > 0 ==> r.0.text == Join(seq(|q.items|, k requires 0 <= k < |q.items| => enc(q.items[k])))
    ensures |q.items| == 0 && q.closed ==> r.0 == CloseFrame && !r.2 && r.1 == q
    ensures |q.items| == 0 && !q.closed ==> r.0 == Wait && r.2 && r.1 == q
  {
    if |q.items| > 0 then (Data(Join(seq(|q.items|, k requires 0 <= k < |q.items| => enc(q.items[k])))), q.(items := []), true)
    else if q.closed then (CloseFrame, q, false)
    else (Wait, q, true)
  }

  /** A peer that cuts a data frame at its newlines reads back exactly the
      queued messages, in order, when no encoded message holds a newline. */
  lemma WriteStepDelivers(q: Queue<Msg>, enc: Msg -> string)
    requires |q.items| > 0 && forall k :: 0 <= k < |q.items| ==> '\n' !in enc(q.items[k])
    ensures Split(WriteStep(q, enc).0.text) == seq(|q.items|, k requires 0 <= k < |q.items| => enc(q.items[k]))
  {
    SplitJoin(seq(|q.items|, k requires 0 <= k < |q.items| => enc(q.items[k])));
  }

  /** The writer run on a queue nobody sends to any more: data frames until
      the queue is empty, then the close frame if it is closed. */
  function Drain(q: Queue<Msg>, enc: Msg -> string): (r: seq<Frame>)
    ensures q.closed ==> |r| > 0 && r[|r| - 1] == CloseFrame
    ensures forall k :: 0 <= k < |r| - 1 ==> r[k].Data?
    ensures !q.closed ==> forall k :: 0 <= k < |r| ==> r[k].Data?
    decreases |q.items|
  {
    var (f, q1, go) := WriteStep(q, enc);
    if !go then [f]
    else if f == Wait then []
    else [f] + Drain(q1, enc)
  }
}
