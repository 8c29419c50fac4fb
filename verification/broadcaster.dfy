/** The broadcast hub (`broadcaster.ts`): every overlay connected to the
    server's WebSocket is a client; a new client first receives a welcome and
    the current goal snapshot, and every published event is then sent to all
    clients whose socket is open.

    A client's socket is modelled by its ready state and the frames written to
    it so far, in order. */
module Broadcaster {
  import opened Wrappers
  import opened Shared
  import Goals

  datatype ReadyState = Connecting | Open | Closing | Closed

  datatype Client = Client(id: nat, ready: ReadyState, outbox: seq<Frame>)

  /** `wss` before and after `initWebSocket`. */
  datatype Hub = Uninitialized | Listening(clients: seq<Client>)

  /** No two clients share an id. */
  ghost predicate DistinctIds(clients: seq<Client>) {
    forall i, j :: 0 <= i < j < |clients| ==> clients[i].id != clients[j].id
  }

  predicate Known(hub: Hub, id: nat) {
    hub.Listening? && exists i :: 0 <= i < |hub.clients| && hub.clients[i].id == id
  }

  // ---------------------------------------------------------------------------
  // Broadcasting
  // ---------------------------------------------------------------------------

  /** Write one frame to every open client; the others are skipped. */
  function Deliver(clients: seq<Client>, f: Frame): (r: seq<Client>)
    ensures |r| == |clients|
    ensures forall i :: 0 <= i < |r| ==> r[i].id == clients[i].id && r[i].ready == clients[i].ready
    ensures forall i :: 0 <= i < |r| && clients[i].ready == Open ==> r[i].outbox == clients[i].outbox + [f]
    ensures forall i :: 0 <= i < |r| && clients[i].ready != Open ==> r[i].outbox == clients[i].outbox
  {
    if |clients| == 0 then []
    else
      var c := clients[0];
      var c' := if c.ready == Open then c.(outbox := c.outbox + [f]) else c;
      [c'] + Deliver(clients[1..], f)
  }

  /** `broadcast(event)`: before initialisation only a warning is logged;
      afterwards the event, serialised once, goes to every open client. */
  function Broadcast(hub: Hub, e: WSEvent): (r: Hub)
    ensures hub.Uninitialized? ==> r == hub
    ensures hub.Listening? ==> r.Listening? && |r.clients| == |hub.clients|
    ensures hub.Listening? ==> forall i :: 0 <= i < |r.clients| ==>
      && r.clients[i].id == hub.clients[i].id
      && r.clients[i].ready == hub.clients[i].ready
      && r.clients[i].outbox == hub.clients[i].outbox + (if hub.clients[i].ready == Open then [Event(e)] else [])
  {
    match hub
    case Uninitialized => Uninitialized
    case Listening(clients) => Listening(Deliver(clients, Event(e)))
  }

  /** The number of clients whose socket is open (the `sent` counter). */
  function OpenCount(clients: seq<Client>): (n: nat)
    ensures n <= |clients|
  {
    if |clients| == 0 then 0 else (if clients[0].ready == Open then 1 else 0) + OpenCount(clients[1..])
  }

  /** Total number of frames written to all clients. */
  function TotalFrames(clients: seq<Client>): nat {
    if |clients| == 0 then 0 else |clients[0].outbox| + TotalFrames(clients[1..])
  }

  /** One broadcast writes exactly one frame per open client. */
  lemma {:induction false} DeliverCount(clients: seq<Client>, f: Frame)
    ensures TotalFrames(Deliver(clients, f)) == TotalFrames(clients) + OpenCount(clients)
  {
    if |clients| > 0 {
      DeliverCount(clients[1..], f);
      assert Deliver(clients, f)[1..] == Deliver(clients[1..], f);
    }
  }

  /** Broadcasting twice: every open client receives the two events in
      publication order, appended to what it had. */
  lemma BroadcastOrder(hub: Hub, e1: WSEvent, e2: WSEvent)
    requires hub.Listening?
    ensures var r := Broadcast(Broadcast(hub, e1), e2);
      forall i :: 0 <= i < |hub.clients| && hub.clients[i].ready == Open ==>
        r.clients[i].outbox == hub.clients[i].outbox + [Event(e1), Event(e2)]
  {
  }

  // ---------------------------------------------------------------------------
  // Connections
  // ---------------------------------------------------------------------------

  const ServerName := "Castellan"
  const ServerVersion := "0.1.0"

  /** The frames a new client receives, in order: the welcome, the two goals,
      then the last follower and the last subscriber as synthetic alerts when
      those names are set. */
  function Snapshot(goals: Goals.GoalsConfig, uptime: int): (r: seq<Frame>)
    ensures 3 <= |r| <= 5
    ensures r[0] == Welcome(ServerName, ServerVersion, uptime)
    ensures r[1] == Event(GoalUpdate(GoalPayload(Followers, goals.followers.current, goals.followers.target)))
    ensures r[2] == Event(GoalUpdate(GoalPayload(Subscribers, goals.subscribers.current, goals.subscribers.target)))
    ensures r[3..] == EventFrames(Goals.LastNameAlerts(goals))
    ensures Goals.Truthy(goals.lastFollow) ==>
      r[3] == Event(AlertFollow(Goals.SyntheticViewer(goals.lastFollow.value)))
    ensures Goals.Truthy(goals.lastSub) ==>
      r[|r| - 1] == Event(AlertSub(Goals.SyntheticViewer(goals.lastSub.value), 1.0, 0))
  {
    var init := Goals.GoalsInitPayload(goals);
    [Welcome(ServerName, ServerVersion, uptime), Event(GoalUpdate(init[0])), Event(GoalUpdate(init[1]))]
    + (if Goals.Truthy(goals.lastFollow)
       then [Event(AlertFollow(Goals.SyntheticViewer(goals.lastFollow.value)))] else [])
    + (if Goals.Truthy(goals.lastSub)
       then [Event(AlertSub(Goals.SyntheticViewer(goals.lastSub.value), 1.0, 0))] else [])
  }

  function EventFrames(events: seq<WSEvent>): (r: seq<Frame>)
    ensures |r| == |events|
    ensures forall i :: 0 <= i < |events| ==> r[i] == Event(events[i])
  {
    if |events| == 0 then [] else [Event(events[0])] + EventFrames(events[1..])
  }

  /** A connecting client sees after the welcome exactly what
      `broadcastAllGoals` would publish for the same state. */
  lemma SnapshotIsWelcomeThenGoals(goals: Goals.GoalsConfig, uptime: int)
    ensures Snapshot(goals, uptime)
         == [Welcome(ServerName, ServerVersion, uptime)] + EventFrames(Goals.BroadcastAllGoals(goals))
  {
    var all := Goals.BroadcastAllGoals(goals);
    var r := Snapshot(goals, uptime);
    var want := [Welcome(ServerName, ServerVersion, uptime)] + EventFrames(all);
    assert |r| == |want|;
    forall i | 0 <= i < |r| ensures r[i] == want[i] {
      if i >= 1 {
        assert want[i] == Event(all[i - 1]);
      }
    }
  }

  /** A new socket on a listening server: it is open and holds the snapshot. */
  function Connect(hub: Hub, id: nat, goals: Goals.GoalsConfig, uptime: int): (r: Hub)
    requires hub.Listening? && !Known(hub, id)
    ensures r.Listening? && r.clients == hub.clients + [Client(id, Open, Snapshot(goals, uptime))]
    ensures Known(r, id)
  {
    var c := Client(id, Open, Snapshot(goals, uptime));
    var r := Listening(hub.clients + [c]);
    assert r.clients[|hub.clients|] == c;
    r
  }

  /** Connecting under a fresh id keeps the ids distinct. */
  lemma ConnectKeepsIdsDistinct(hub: Hub, id: nat, goals: Goals.GoalsConfig, uptime: int)
    requires hub.Listening? && !Known(hub, id) && DistinctIds(hub.clients)
    ensures DistinctIds(Connect(hub, id, goals, uptime).clients)
  {
  }

  /** An incoming frame, as far as the server reads it. */
  datatype Inbound =
    | NotJson                          // JSON.parse threw: ignored
    | Json(kind: Option<string>)       // the value of its `type` field

  /** A client's message: a `ping` is answered on the same socket with a
      `pong` carrying the server clock; everything else is ignored. */
  function OnMessage(hub: Hub, id: nat, msg: Inbound, now: int): (r: Hub)
    requires Known(hub, id)
    ensures r.Listening? && |r.clients| == |hub.clients|
    ensures msg != Json(Some("ping")) ==> r == hub
    ensures forall i :: 0 <= i < |r.clients| ==>
      && r.clients[i].id == hub.clients[i].id
      && r.clients[i].ready == hub.clients[i].ready
      && r.clients[i].outbox == hub.clients[i].outbox +
           (if msg == Json(Some("ping")) && hub.clients[i].id == id then [Pong(now)] else [])
  {
    if msg == Json(Some("ping")) then Listening(AppendTo(hub.clients, id, Pong(now))) else hub
  }

  function AppendTo(clients: seq<Client>, id: nat, f: Frame): (r: seq<Client>)
    ensures |r| == |clients|
    ensures forall i :: 0 <= i < |r| ==>
      && r[i].id == clients[i].id && r[i].ready == clients[i].ready
      && r[i].outbox == clients[i].outbox + (if clients[i].id == id then [f] else [])
  {
    if |clients| == 0 then []
    else
      var c := clients[0];
      [if c.id == id then c.(outbox := c.outbox + [f]) else c] + AppendTo(clients[1..], id, f)
  }

  /** The socket's ready state changes (it starts closing, say); it stays in
      the set of clients until it is gone. */
  function SetReadyState(hub: Hub, id: nat, ready: ReadyState): (r: Hub)
    requires hub.Listening?
    ensures r.Listening? && |r.clients| == |hub.clients|
    ensures forall i :: 0 <= i < |r.clients| ==>
      && r.clients[i].id == hub.clients[i].id
      && r.clients[i].outbox == hub.clients[i].outbox
      && r.clients[i].ready == (if hub.clients[i].id == id then ready else hub.clients[i].ready)
  {
    Listening(SetReady(hub.clients, id, ready))
  }

  function SetReady(clients: seq<Client>, id: nat, ready: ReadyState): (r: seq<Client>)
    ensures |r| == |clients|
    ensures forall i :: 0 <= i < |r| ==>
      && r[i].id == clients[i].id && r[i].outbox == clients[i].outbox
      && r[i].ready == (if clients[i].id == id then ready else clients[i].ready)
  {
    if |clients| == 0 then []
    else
      var c := clients[0];
      [if c.id == id then c.(ready := ready) else c] + SetReady(clients[1..], id, ready)
  }

  /** A closed socket leaves the set of clients. */
  function Disconnect(hub: Hub, id: nat): (r: Hub)
    requires hub.Listening?
    ensures r.Listening?
    ensures !Known(r, id)
    ensures forall c :: c in r.clients <==> c in hub.clients && c.id != id
  {
    Listening(Remove(hub.clients, id))
  }

  function Remove(clients: seq<Client>, id: nat): (r: seq<Client>)
    ensures |r| <= |clients|
    ensures forall c :: c in r <==> c in clients && c.id != id
    ensures forall i :: 0 <= i < |r| ==> r[i].id != id
  {
    if |clients| == 0 then []
    else (if clients[0].id == id then [] else [clients[0]]) + Remove(clients[1..], id)
  }

  /** `getClientCount`: the number of sockets, 0 before initialisation. */
  function ClientCount(hub: Hub): (n: nat)
    ensures hub.Uninitialized? ==> n == 0
    ensures hub.Listening? ==> n == |hub.clients|
  {
    if hub.Uninitialized? then 0 else |hub.clients|
  }

  lemma BroadcastToOpen(hub: Hub, e: WSEvent, i: nat)
    requires hub.Listening? && i < |hub.clients| && hub.clients[i].ready == Open
    ensures Broadcast(hub, e).Listening? && i < |Broadcast(hub, e).clients|
    ensures Broadcast(hub, e).clients[i] == hub.clients[i].(outbox := hub.clients[i].outbox + [Event(e)])
  {
  }

  /** A client that connected and stays open receives, after its snapshot,
      every event broadcast since, in order. */
  lemma {:induction false} OpenClientSeesAllEvents(hub: Hub, i: nat, events: seq<WSEvent>)
    requires hub.Listening? && i < |hub.clients| && hub.clients[i].ready == Open
    ensures var r := BroadcastAll(hub, events);
      r.Listening? && i < |r.clients| && r.clients[i].outbox == hub.clients[i].outbox + EventFrames(events)
    decreases |events|
  {
    if |events| > 0 {
      var next := Broadcast(hub, events[0]);
      BroadcastToOpen(hub, events[0], i);
      var c := hub.clients[i];
      OpenClientSeesAllEvents(next, i, events[1..]);
      assert BroadcastAll(hub, events) == BroadcastAll(next, events[1..]);
      assert EventFrames(events) == [Event(events[0])] + EventFrames(events[1..]);
      var o := BroadcastAll(hub, events).clients[i].outbox;
      assert o == c.outbox + [Event(events[0])] + EventFrames(events[1..]);
      SeqAssoc(c.outbox, [Event(events[0])], EventFrames(events[1..]));
    }
  }

  lemma SeqAssoc<T>(a: seq<T>, b: seq<T>, c: seq<T>)
    ensures a + b + c == a + (b + c)
  {
  }

  /** Broadcast a sequence of events, one after the other. */
  function BroadcastAll(hub: Hub, events: seq<WSEvent>): (r: Hub)
    ensures hub.Listening? ==> r.Listening? && |r.clients| == |hub.clients|
    ensures hub.Uninitialized? ==> r == hub
    decreases |events|
  {
    if |events| == 0 then hub else BroadcastAll(Broadcast(hub, events[0]), events[1..])
  }
}
