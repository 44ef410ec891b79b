/**
 The websocket hub: clients wait in a pool, and as soon as enough of them
 have joined they are all handed to a new game controller, one seat each.
 Also the clean-up a finished game does to the connections still attached
 to it.

 Clients are identified by an abstract id (the Go code keys clients by
 address); Go's map iteration order, which decides the seat each waiting
 client gets, is a parameter.
 */
module Hub {
  import opened Wrappers
  import opened Outbox
  import opened Relay

  /** The identity of a connection. */
  type ClientId = int

  /** The number of waiting clients that starts a game. */
  const MaxRoomPlayers: nat := 2

  /** A running game: its controller, the client in each seat, and the
      channel the clients' readers forward requests on. */
  datatype Room = Room(relay: Relay, members: seq<ClientId>, inbox: Queue<Request>)

  /** The clients waiting for a game, each with its outbound queue, and the
      games started so far. */
  datatype Hub = Hub(waiting: map<ClientId, Queue<Msg>>, rooms: seq<Room>)

  predicate Distinct<T(==)>(s: seq<T>) {
    forall i, j :: 0 <= i < j < |s| ==> s[i] != s[j]
  }

  /** `order` lists every element of `s` exactly once: one possible
      iteration order of a Go map with keys `s`. */
  predicate Enumerates<T(==)>(order: seq<T>, s: set<T>) {
    Distinct(order) && (forall i :: 0 <= i < |order| ==> order[i] in s) && forall x :: x in s ==> x in order
  }

  /** A list without repetitions has as many elements as its set of elements. */
  lemma {:induction false} DistinctCard<T>(s: seq<T>)
    requires Distinct(s)
    ensures |set x | x in s| == |s|
  {
    if s != [] {
      DistinctCard(s[1..]);
      assert (set x | x in s) == (set x | x in s[1..]) + {s[0]};
      assert s[0] !in s[1..] by {
        forall k | 0 <= k < |s[1..]| ensures s[1..][k] != s[0] {
          assert s[1..][k] == s[k + 1];
        }
      }
    }
  }

  /** An enumeration of a set is as long as the set is large. */
  lemma EnumeratesCard<T>(order: seq<T>, s: set<T>)
    requires Enumerates(order, s)
    ensures |order| == |s|
  {
    DistinctCard(order);
    assert (set x | x in order) == s;
  }

  /** Every open queue in the pool is within its capacity. */
  ghost predicate WaitingOk(w: map<ClientId, Queue<Msg>>) {
    forall id :: id in w ==> !w[id].closed && Bounded(w[id])
  }

  /** What the hub keeps true between events: every waiting client has an
      open queue; every game's controller is well formed, with one client
      per seat; no client sits in two seats, or in a seat and the pool. */
  ghost predicate HubOk(h: Hub) {
    && WaitingOk(h.waiting)
    && (forall a :: 0 <= a < |h.rooms| ==>
          Wf(h.rooms[a].relay) && |h.rooms[a].members| == |h.rooms[a].relay.seats|)
    && (forall a, i :: 0 <= a < |h.rooms| && 0 <= i < |h.rooms[a].members| ==> h.rooms[a].members[i] !in h.waiting)
    && (forall a, i, b, j :: 0 <= a < |h.rooms| && 0 <= b < |h.rooms| && 0 <= i < |h.rooms[a].members| && 0 <= j < |h.rooms[b].members|
          && h.rooms[a].members[i] == h.rooms[b].members[j]
          ==> a == b && i == j)
  }

  /** A client seen for the first time: neither waiting nor seated. */
  ghost predicate Fresh(h: Hub, id: ClientId) {
    id !in h.waiting && forall a, i :: 0 <= a < |h.rooms| && 0 <= i < |h.rooms[a].members| ==> h.rooms[a].members[i] != id
  }

  /** An empty hub. */
  function NewHub(): (h: Hub)
    ensures HubOk(h) && |h.waiting| == 0 && h.rooms == []
  {
    Hub(map[], [])
  }

  /** A controller whose seat `i` holds queue `qs[i]`, connected, with
      nobody having won and everybody playing. */
  function StartRelay(qs: seq<Queue<Msg>>): (c: Relay)
    requires forall i :: 0 <= i < |qs| ==> !qs[i].closed && Bounded(qs[i])
    ensures Counted(c) && c.nPlaying == |qs| && |c.seats| == |qs|
    ensures forall i :: 0 <= i < |qs| ==> c.seats[i] == Seat(qs[i], true) && !c.won[i]
  {
    var seats := seq(|qs|, i requires 0 <= i < |qs| => Seat(qs[i], true));
    var won := seq(|qs|, i => false);
    AllPlaying(seats, won, 0);
    Relay(seats, |qs|, won)
  }

  /** The controller for the clients of `order`, in that order: seat `i`
      holds the queue of `order[i]`, connected; nobody has won; all are
      playing; requests queue up in a channel of one more than the player
      count. */
  function NewRoom(w: map<ClientId, Queue<Msg>>, order: seq<ClientId>): (r: Room)
    requires WaitingOk(w) && Enumerates(order, w.Keys)
    ensures |order| == |w| && r.members == order
    ensures Counted(r.relay) && r.relay.nPlaying == |order| && |r.relay.seats| == |order|
    ensures forall i :: 0 <= i < |order| ==> !r.relay.won[i]
    ensures forall i :: 0 <= i < |order| ==> r.relay.seats[i] == Seat(w[order[i]], true)
    ensures r.inbox == NewQueue(|w| + 1)
  {
    EnumeratesCard(order, w.Keys);
    var qs := seq(|order|, i requires 0 <= i < |order| => w[order[i]]);
    forall i | 0 <= i < |qs| ensures !qs[i].closed && Bounded(qs[i]) {
      assert order[i] in w.Keys;
      PooledQueueOk(w, order[i]);
    }
    Room(StartRelay(qs), order, NewQueue(|order| + 1))
  }

  /** A pooled queue is open and within its capacity. */
  lemma PooledQueueOk(w: map<ClientId, Queue<Msg>>, id: ClientId)
    requires WaitingOk(w) && id in w
    ensures !w[id].closed && Bounded(w[id])
  {
  }

  /** With everybody connected and nobody having won, everybody counts. */
  lemma {:induction false} AllPlaying(seats: seq<Seat>, won: seq<bool>, i: int)
    requires |seats| == |won| && 0 <= i <= |seats|
    requires forall j :: 0 <= j < |seats| ==> seats[j].connected && !won[j]
    ensures ActiveFrom(seats, won, i) == |seats| - i
    decreases |seats| - i
  {
    if i < |seats| {
      AllPlaying(seats, won, i + 1);
    }
  }

  /** Moves every waiting client into a new game, in the order given. */
  function StartNewGame(h: Hub, order: seq<ClientId>): (r: Hub)
    requires HubOk(h) && Enumerates(order, h.waiting.Keys)
    ensures HubOk(r)
    ensures r.waiting == map[] && r.rooms == h.rooms + [NewRoom(h.waiting, order)]
  {
    var room := NewRoom(h.waiting, order);
    var r := Hub(map[], h.rooms + [room]);
    assert forall a :: 0 <= a < |h.rooms| ==> r.rooms[a] == h.rooms[a];
    assert forall i :: 0 <= i < |order| ==> order[i] in h.waiting;
    r
  }

  /** A new connection joins the pool; once the pool has `MaxRoomPlayers`
      clients, they all start a game, in the order `order` lists them. */
  function Register(h: Hub, id: ClientId, q: Queue<Msg>, order: seq<ClientId>): (r: Hub)
    requires HubOk(h) && Fresh(h, id) && !q.closed && Bounded(q)
    requires |h.waiting| + 1 >= MaxRoomPlayers ==> Enumerates(order, h.waiting.Keys + {id})
    ensures HubOk(r)
    ensures |h.waiting| + 1 < MaxRoomPlayers ==> r == h.(waiting := h.waiting[id := q])
    ensures |h.waiting| + 1 >= MaxRoomPlayers ==>
      r.waiting == map[] && r.rooms == h.rooms + [NewRoom(h.waiting[id := q], order)]
  {
    var h1 := h.(waiting := h.waiting[id := q]);
    assert |h1.waiting| == |h.waiting| + 1 by {
      assert h1.waiting.Keys == h.waiting.Keys + {id};
    }
    assert HubOk(h1);
    if |h1.waiting| >= MaxRoomPlayers then
      assert h1.waiting.Keys == h.waiting.Keys + {id};
      StartNewGame(h1, order)
    else h1
  }

  /** The pool never holds a full room between events. */
  lemma RegisterKeepsPoolSmall(h: Hub, id: ClientId, q: Queue<Msg>, order: seq<ClientId>)
    requires HubOk(h) && Fresh(h, id) && !q.closed && Bounded(q)
    requires |h.waiting| + 1 >= MaxRoomPlayers ==> Enumerates(order, h.waiting.Keys + {id})
    requires |h.waiting| < MaxRoomPlayers
    ensures |Register(h, id, q, order).waiting| < MaxRoomPlayers
  {
    if |h.waiting| + 1 < MaxRoomPlayers {
      assert h.waiting[id := q].Keys == h.waiting.Keys + {id};
    }
  }

  /** A client leaves before its game starts: if it is waiting it is removed
      and its queue is closed and handed back; otherwise nothing changes. */
  function Deregister(h: Hub, id: ClientId): (r: (Hub, Option<Queue<Msg>>))
    requires HubOk(h)
    ensures HubOk(r.0)
    ensures id in h.waiting ==> r.0 == h.(waiting := h.waiting - {id}) && r.1 == Some(h.waiting[id].(closed := true))
    ensures id !in h.waiting ==> r == (h, None)
    ensures |r.0.waiting| <= |h.waiting|
  {
    if id in h.waiting then (h.(waiting := h.waiting - {id}), Some(Close(h.waiting[id]))) else (h, None)
  }

  // ---------------------------------------------------------------------------
  // After a game

  /** The loop of onFinishGame from seat `i` on: every connected player is
      disconnected and its queue closed; `nPlaying` and `won` stay. */
  function FinishFrom(c: Relay, i: int): (r: Relay)
    requires Wf(c) && 0 <= i <= |c.seats|
    ensures Wf(r) && |r.seats| == |c.seats| && r.won == c.won && r.nPlaying == c.nPlaying
    ensures forall j :: 0 <= j < |c.seats| ==>
      r.seats[j] == if i <= j && c.seats[j].connected then Seat(c.seats[j].queue.(closed := true), false) else c.seats[j]
    decreases |c.seats| - i
  {
    if i == |c.seats| then c
    else if c.seats[i].connected then
      FinishFrom(c.(seats := c.seats[i := Seat(Close(c.seats[i].queue), false)]), i + 1)
    else FinishFrom(c, i + 1)
  }

  /** After a game ends nobody is connected any more; only the queues of
      players who were still connected were closed, so no queue is closed
      twice. */
  function OnFinishGame(c: Relay): (r: Relay)
    requires Wf(c)
    ensures Wf(r) && |r.seats| == |c.seats| && r.won == c.won && r.nPlaying == c.nPlaying
    ensures forall j :: 0 <= j < |r.seats| ==> !r.seats[j].connected
    ensures forall j :: 0 <= j < |c.seats| && !c.seats[j].connected ==> r.seats[j] == c.seats[j]
    ensures forall j :: 0 <= j < |c.seats| ==> r.seats[j].queue.items == c.seats[j].queue.items
  {
    FinishFrom(c, 0)
  }

  /** The players named by a sequence of requests. */
  function Senders(reqs: seq<Request>): set<int> {
    set k | 0 <= k < |reqs| :: reqs[k].player
  }

  /** receiveDisconnects: for each request still waiting in the game's
      channel, the sending player is disconnected and its queue closed, but
      only if it is still connected. */
  function ReceiveDisconnects(c: Relay, reqs: seq<Request>): (r: Relay)
    requires Wf(c) && forall k :: 0 <= k < |reqs| ==> 0 <= reqs[k].player < |c.seats|
    ensures Wf(r) && |r.seats| == |c.seats| && r.won == c.won && r.nPlaying == c.nPlaying
    ensures forall j :: 0 <= j < |c.seats| ==>
      r.seats[j] == if j in Senders(reqs) && c.seats[j].connected then Seat(c.seats[j].queue.(closed := true), false) else c.seats[j]
    decreases |reqs|
  {
    if reqs == [] then c
    else
      var p := reqs[0].player;
      var c1 := if c.seats[p].connected then c.(seats := c.seats[p := Seat(Close(c.seats[p].queue), false)]) else c;
      assert Senders(reqs) == {p} + Senders(reqs[1..]) by {
        forall x | x in Senders(reqs) ensures x == p || x in Senders(reqs[1..]) {
          var k :| 0 <= k < |reqs| && reqs[k].player == x;
          if k > 0 { assert reqs[1..][k - 1] == reqs[k]; }
        }
        forall x | x in Senders(reqs[1..]) ensures x in Senders(reqs) {
          var k :| 0 <= k < |reqs[1..]| && reqs[1..][k].player == x;
          assert reqs[k + 1] == reqs[1..][k];
        }
      }
      ReceiveDisconnects(c1, reqs[1..])
  }

  /** Once the game has finished, the late disconnect requests change nothing. */
  lemma DisconnectsAfterFinish(c: Relay, reqs: seq<Request>)
    requires Wf(c) && forall k :: 0 <= k < |reqs| ==> 0 <= reqs[k].player < |c.seats|
    ensures ReceiveDisconnects(OnFinishGame(c), reqs) == OnFinishGame(c)
  {
    var f := OnFinishGame(c);
    var r := ReceiveDisconnects(f, reqs);
    assert r.seats == f.seats;
  }
}
