/** The realtime hub as a protocol: every interleaving of connections, their pumps, publishers
    and the hub's own loop, which may serve its three queues in any order. */
module HubProtocol {

  const BUFFER := 256
  const CLIENT_QUEUE := 1024
  const BROADCAST_QUEUE := 4096

  datatype Client = Client(id: string, user: string, tenant: string)

  /** An event for a user, or else for a tenant, or else for everyone. */
  datatype Message = Message(user: string, tenant: string, event: nat, encodable: bool)

  /** What goes through a client's buffer: a broadcast event, or a greeting or pong of its own. */
  datatype Frame = Broadcast(event: nat) | Own

  type Rooms = map<string, map<string, Client>>

  // ----- What the hub's three handlers do to rooms and buffers -----

  function Added(rooms: Rooms, c: Client): Rooms {
    var room := if c.tenant in rooms then rooms[c.tenant] else map[];
    rooms[c.tenant := room[c.id := c]]
  }

  function Removed(rooms: Rooms, c: Client): Rooms {
    if c.tenant !in rooms then rooms
    else
      var room := rooms[c.tenant] - {c.id};
      if |room| == 0 then rooms - {c.tenant} else rooms[c.tenant := room]
  }

  /** Whether the message is sent to the room of this key, and there to this client. */
  predicate GoesTo(m: Message, tenant: string, c: Client) {
    m.encodable && if m.user != "" then c.user == m.user else m.tenant == "" || m.tenant == tenant
  }

  predicate Receives(rooms: Rooms, m: Message, c: Client) {
    exists t, i :: t in rooms && i in rooms[t] && rooms[t][i] == c && GoesTo(m, t, c)
  }

  /** A non-blocking send: dropped when the buffer is full. */
  function Pushed(buffer: seq<Frame>, f: Frame): seq<Frame> {
    if |buffer| < BUFFER then buffer + [f] else buffer
  }

  predicate Registered(rooms: Rooms, c: Client) {
    c.tenant in rooms && c.id in rooms[c.tenant] && rooms[c.tenant][c.id] == c
  }

  /** No room is empty, and every client sits under its own id in the room of its own tenant. */
  ghost predicate Orderly(rooms: Rooms) {
    && (forall t :: t in rooms ==> |rooms[t]| > 0)
    && (forall t, i :: t in rooms && i in rooms[t] ==> rooms[t][i].id == i && rooms[t][i].tenant == t)
  }

  lemma {:induction false} InAdded(rooms: Rooms, c: Client, t: string, i: string)
    ensures t in Added(rooms, c) && i in Added(rooms, c)[t] <==>
            (t in rooms && i in rooms[t]) || (t == c.tenant && i == c.id)
    ensures t in Added(rooms, c) && i in Added(rooms, c)[t] ==>
              Added(rooms, c)[t][i] == if t == c.tenant && i == c.id then c else rooms[t][i]
  {}

  lemma {:induction false} InRemoved(rooms: Rooms, c: Client, t: string, i: string)
    ensures t in Removed(rooms, c) && i in Removed(rooms, c)[t] <==>
            t in rooms && i in rooms[t] && !(t == c.tenant && i == c.id)
    ensures t in Removed(rooms, c) && i in Removed(rooms, c)[t] ==> Removed(rooms, c)[t][i] == rooms[t][i]
  {
    if t == c.tenant && t in rooms {
      var room := rooms[t] - {c.id};
      if |room| == 0 {
        assert i !in room;
      }
    }
  }

  lemma {:induction false} AddedIsOrderly(rooms: Rooms, c: Client)
    requires Orderly(rooms)
    ensures Orderly(Added(rooms, c)) && Registered(Added(rooms, c), c)
  {
    var more: Rooms := Added(rooms, c);
    forall t | t in more ensures |more[t]| > 0 {
      assert t == c.tenant ==> c.id in more[t];
    }
    forall t: string, i: string | t in more && i in more[t] ensures more[t][i].id == i && more[t][i].tenant == t {
      InAdded(rooms, c, t, i);
    }
  }

  lemma {:induction false} RemovedIsOrderly(rooms: Rooms, c: Client)
    requires Orderly(rooms)
    ensures Orderly(Removed(rooms, c)) && !Registered(Removed(rooms, c), c)
  {
    var fewer: Rooms := Removed(rooms, c);
    forall t | t in fewer ensures |fewer[t]| > 0 {
    }
    forall t: string, i: string | t in fewer && i in fewer[t] ensures fewer[t][i].id == i && fewer[t][i].tenant == t {
      InRemoved(rooms, c, t, i);
    }
    InRemoved(rooms, c, c.tenant, c.id);
  }

  /** In orderly rooms the walk over rooms reaches exactly the registered clients that the
      message is for: of that user, else of that tenant, else all. */
  lemma {:induction false} ReachesTheAddressed(rooms: Rooms, m: Message, c: Client)
    requires Orderly(rooms)
    ensures Receives(rooms, m, c) <==> Registered(rooms, c) && GoesTo(m, c.tenant, c)
  {
    if Registered(rooms, c) && GoesTo(m, c.tenant, c) {
      assert c.tenant in rooms && c.id in rooms[c.tenant] && rooms[c.tenant][c.id] == c;
    }
  }

  // ----- How many clients there are -----

  function Places(rooms: Rooms): set<(string, string)> {
    set t, i | t in rooms && i in rooms[t] :: (t, i)
  }

  lemma {:induction false} PlacesSplit(rooms: Rooms, t: string)
    requires t in rooms
    ensures |Places(rooms)| == |Places(rooms - {t})| + |rooms[t]|
  {
    var here := set i | i in rooms[t] :: (t, i);
    assert Places(rooms) == Places(rooms - {t}) + here;
    assert Places(rooms - {t}) !! here;
    PairedSize(rooms[t].Keys, t);
    assert here == set i | i in rooms[t].Keys :: (t, i);
  }

  lemma {:induction false} PairedSize(ids: set<string>, t: string)
    ensures |set i | i in ids :: (t, i)| == |ids|
  {
    if ids != {} {
      var j :| j in ids;
      PairedSize(ids - {j}, t);
      assert (set i | i in ids :: (t, i)) == (set i | i in ids - {j} :: (t, i)) + {(t, j)};
    } else {
    }
  }

  lemma {:induction false} InPlaces(rooms: Rooms, q: (string, string))
    ensures q in Places(rooms) <==> q.0 in rooms && q.1 in rooms[q.0]
  {}

  lemma {:induction false} AddedPlaces(rooms: Rooms, c: Client)
    ensures Places(Added(rooms, c)) == Places(rooms) + {(c.tenant, c.id)}
  {
    forall q: (string, string) ensures q in Places(Added(rooms, c)) <==> q in Places(rooms) || q == (c.tenant, c.id) {
      InPlaces(rooms, q);
      InPlaces(Added(rooms, c), q);
      InAdded(rooms, c, q.0, q.1);
    }
  }

  lemma {:induction false} RemovedPlaces(rooms: Rooms, c: Client)
    ensures Places(Removed(rooms, c)) == Places(rooms) - {(c.tenant, c.id)}
  {
    forall q: (string, string) ensures q in Places(Removed(rooms, c)) <==> q in Places(rooms) && q != (c.tenant, c.id) {
      InPlaces(rooms, q);
      InPlaces(Removed(rooms, c), q);
      InRemoved(rooms, c, q.0, q.1);
    }
  }

  // ----- The protocol -----

  /** A connection: its buffer, the frames written to its socket, the one whose write failed,
      and whether it has closed. */
  datatype Conn = Conn(buffer: seq<Frame>, written: seq<Frame>, failed: seq<Frame>, closed: bool)

  /** The hub's rooms and counter, all connections so far and the ids given out to them, the
      hub's three queues, and the two metrics. */
  datatype State = State(
    rooms: Rooms, count: int, conns: Conns, issued: map<string, Client>,
    registers: seq<Client>, unregisters: seq<Client>, broadcasts: seq<Message>,
    dispatched: nat, sendErrors: nat)

  datatype Step =
    | Connect(client: Client)
    | Speak(client: Client)
    | Pump(client: Client, ok: bool)
    | Close(client: Client)
    | Publish(message: Message)
    | HandleRegister
    | HandleUnregister
    | HandleBroadcast

  const START := State(map[], 0, map[], map[], [], [], [], 0, 0)

  type Conns = map<Client, Conn>

  function Targets(rooms: Rooms, conns: Conns, m: Message): set<Client> {
    set c | c in conns && Receives(rooms, m, c)
  }

  function Accepting(rooms: Rooms, conns: Conns, m: Message): set<Client> {
    set c | c in conns && Receives(rooms, m, c) && |conns[c].buffer| < BUFFER
  }

  function Delivered(rooms: Rooms, conns: Conns, m: Message): Conns {
    map c | c in conns ::
      if Receives(rooms, m, c) then conns[c].(buffer := Pushed(conns[c].buffer, Broadcast(m.event))) else conns[c]
  }

  /** One atomic step; a step that is blocked changes nothing. Client ids are fresh. */
  function Next(s: State, step: Step): State {
    match step
    case Connect(c) =>
      if c.id !in s.issued && |s.registers| < CLIENT_QUEUE
      then s.(conns := s.conns[c := Conn([], [], [], false)], issued := s.issued[c.id := c],
          registers := s.registers + [c])
      else s
    case Speak(c) =>
      if c in s.conns then s.(conns := s.conns[c := s.conns[c].(buffer := Pushed(s.conns[c].buffer, Own))]) else s
    case Pump(c, ok) =>
      if c in s.conns && s.conns[c].buffer != [] && s.conns[c].failed == []
      then s.(conns := s.conns[c := Pumped(s.conns[c], ok)])
      else s
    case Close(c) =>
      if c in s.conns && !s.conns[c].closed && |s.unregisters| < CLIENT_QUEUE
      then s.(conns := s.conns[c := s.conns[c].(closed := true)], unregisters := s.unregisters + [c])
      else s
    case Publish(m) =>
      if |s.broadcasts| < BROADCAST_QUEUE then s.(broadcasts := s.broadcasts + [m]) else s
    case HandleRegister =>
      if s.registers == [] then s
      else s.(registers := s.registers[1..], rooms := Added(s.rooms, s.registers[0]), count := s.count + 1)
    case HandleUnregister =>
      if s.unregisters == [] then s
      else
        var c := s.unregisters[0];
        s.(unregisters := s.unregisters[1..], rooms := Removed(s.rooms, c),
           count := s.count - if c.tenant in s.rooms then 1 else 0)
    case HandleBroadcast =>
      if s.broadcasts == [] then s
      else
        var m := s.broadcasts[0];
        var targets, accepting := Targets(s.rooms, s.conns, m), Accepting(s.rooms, s.conns, m);
        s.(broadcasts := s.broadcasts[1..], conns := Delivered(s.rooms, s.conns, m),
           dispatched := s.dispatched + |accepting|, sendErrors := s.sendErrors + |targets - accepting|)
  }

  function Pumped(conn: Conn, ok: bool): Conn
    requires conn.buffer != []
  {
    var rest := conn.(buffer := conn.buffer[1..]);
    if ok then rest.(written := conn.written + [conn.buffer[0]]) else rest.(failed := [conn.buffer[0]])
  }

  function After(run: seq<Step>): State {
    if run == [] then START else Next(After(run[..|run| - 1]), run[|run| - 1])
  }

  // ----- What a run has asked of the hub -----

  /** The message that this step handles. */
  function Handling(s: State, step: Step): seq<Message> {
    if step.HandleBroadcast? && s.broadcasts != [] then [s.broadcasts[0]] else []
  }

  /** The events handled, in order, while the client was registered and that were for it. */
  function AddressedTo(c: Client, run: seq<Step>): seq<nat> {
    if run == [] then []
    else
      var s, before := After(run[..|run| - 1]), AddressedTo(c, run[..|run| - 1]);
      var ms := Handling(s, run[|run| - 1]);
      if ms != [] && Registered(s.rooms, c) && GoesTo(ms[0], c.tenant, c) then before + [ms[0].event] else before
  }

  /** What one step adds to the events accepted by a client. */
  function Accepts(s: State, step: Step, c: Client): seq<nat> {
    var ms := Handling(s, step);
    if ms != [] && Registered(s.rooms, c) && GoesTo(ms[0], c.tenant, c) && c in s.conns && |s.conns[c].buffer| < BUFFER
    then [ms[0].event] else []
  }

  /** Those of them that came while the client's buffer held fewer than 256 frames. */
  function AcceptedBy(c: Client, run: seq<Step>): seq<nat> {
    if run == [] then []
    else AcceptedBy(c, run[..|run| - 1]) + Accepts(After(run[..|run| - 1]), run[|run| - 1], c)
  }

  function ForWhom(rooms: Rooms, conns: Conns, m: Message): set<Client> {
    set c | c in conns && Registered(rooms, c) && GoesTo(m, c.tenant, c)
  }

  /** Over all handled events, the number of registered clients each was for. */
  function Deliveries(run: seq<Step>): nat {
    if run == [] then 0
    else
      var s, ms := After(run[..|run| - 1]), Handling(After(run[..|run| - 1]), run[|run| - 1]);
      Deliveries(run[..|run| - 1])
      + if ms == [] then 0 else |ForWhom(s.rooms, s.conns, ms[0])|
  }

  function OvertakenBy(s: State, step: Step): set<Client> {
    if step.HandleUnregister? && s.unregisters != [] && s.unregisters[0] in s.registers then {s.unregisters[0]} else {}
  }

  /** The clients whose unregister was handled while their register still waited. */
  function Overtaken(run: seq<Step>): set<Client> {
    if run == [] then {}
    else Overtaken(run[..|run| - 1]) + OvertakenBy(After(run[..|run| - 1]), run[|run| - 1])
  }

  function MiscountedBy(s: State, step: Step): nat {
    if OvertakenBy(s, step) != {} && s.unregisters[0].tenant in s.rooms then 1 else 0
  }

  /** How many of them found other clients in their tenant's room. */
  function Miscounted(run: seq<Step>): nat {
    if run == [] then 0
    else Miscounted(run[..|run| - 1]) + MiscountedBy(After(run[..|run| - 1]), run[|run| - 1])
  }

  // ----- What every step keeps -----

  ghost predicate Once(q: seq<Client>) {
    q == [] || (q[0] !in q[1..] && Once(q[1..]))
  }

  ghost predicate Bounded(s: State) {
    && |s.registers| <= CLIENT_QUEUE && |s.unregisters| <= CLIENT_QUEUE && |s.broadcasts| <= BROADCAST_QUEUE
    && forall c :: c in s.conns ==> |s.conns[c].buffer| <= BUFFER && |s.conns[c].failed| <= 1
  }

  ghost predicate Queued(s: State) {
    && Once(s.registers) && Once(s.unregisters)
    && (forall c :: c in s.registers ==> c in s.conns && !Registered(s.rooms, c))
    && (forall c :: c in s.unregisters ==> c in s.conns && s.conns[c].closed)
    && (forall c :: Registered(s.rooms, c) ==> c in s.conns)
    && (forall c :: c in s.conns ==> c.id in s.issued && s.issued[c.id] == c)
  }

  /** A client is waiting to be registered, or is registered, until its unregister has been
      handled - or for ever, if that came before its register. */
  ghost predicate Present(s: State, overtaken: set<Client>, c: Client)
    requires c in s.conns
  {
    && (c in s.registers || Registered(s.rooms, c) <==> !s.conns[c].closed || c in s.unregisters || c in overtaken)
    && (c in overtaken ==> s.conns[c].closed && c !in s.unregisters)
  }

  ghost predicate Inv(s: State, overtaken: set<Client>) {
    && Orderly(s.rooms) && Bounded(s) && Queued(s) && overtaken <= s.conns.Keys
    && forall c :: c in s.conns ==> Present(s, overtaken, c)
  }

  lemma {:induction false} TailOnce(q: seq<Client>)
    requires q != [] && Once(q)
    ensures Once(q[1..]) && q[0] !in q[1..]
    ensures forall c :: c in q <==> c == q[0] || c in q[1..]
  {
    assert q == [q[0]] + q[1..];
  }

  lemma {:induction false} AppendOnce(q: seq<Client>, c: Client)
    requires Once(q) && c !in q
    ensures Once(q + [c])
  {
    if q != [] {
      AppendOnce(q[1..], c);
      assert (q + [c])[1..] == q[1..] + [c];
    } else {
      assert [c][1..] == [];
    }
  }

  lemma {:induction false} ConnectKeeps(s: State, o: set<Client>, c: Client, t: State)
    requires Inv(s, o) && c.id !in s.issued && |s.registers| < CLIENT_QUEUE
    requires t == s.(conns := s.conns[c := Conn([], [], [], false)], issued := s.issued[c.id := c],
        registers := s.registers + [c])
    ensures Inv(t, o)
  {
    assert c !in s.conns;
    AppendOnce(s.registers, c);
    forall d | d in t.conns ensures Present(t, o, d) {
      if d != c {
        assert Present(s, o, d);
      }
    }
  }

  lemma {:induction false} CloseKeeps(s: State, o: set<Client>, c: Client, t: State)
    requires Inv(s, o) && c in s.conns && !s.conns[c].closed && |s.unregisters| < CLIENT_QUEUE
    requires t == s.(conns := s.conns[c := s.conns[c].(closed := true)], unregisters := s.unregisters + [c])
    ensures Inv(t, o)
  {
    AppendOnce(s.unregisters, c);
    forall d | d in t.conns ensures Present(t, o, d) {
      assert Present(s, o, d);
    }
  }

  lemma {:induction false} RegisteredAfterAdding(rooms: Rooms, c: Client, d: Client)
    requires Orderly(rooms) && (d.id == c.id ==> d == c)
    ensures Registered(Added(rooms, c), d) <==> d == c || Registered(rooms, d)
  {
    InAdded(rooms, c, d.tenant, d.id);
  }

  lemma {:induction false} RegisteredAfterRemoving(rooms: Rooms, c: Client, d: Client)
    requires Orderly(rooms) && (Registered(rooms, d) && d.id == c.id ==> d == c)
    ensures Registered(Removed(rooms, c), d) <==> d != c && Registered(rooms, d)
  {
    InRemoved(rooms, c, d.tenant, d.id);
  }

  lemma {:induction false} AllAfterAdding(s: State, c: Client, rooms: Rooms)
    requires Orderly(s.rooms) && Queued(s) && c in s.conns && rooms == Added(s.rooms, c)
    ensures Orderly(rooms) && forall d :: Registered(rooms, d) ==> d in s.conns
    ensures forall d :: d in s.conns ==> (Registered(rooms, d) <==> d == c || Registered(s.rooms, d))
  {
    AddedIsOrderly(s.rooms, c);
    forall d: Client | d in s.conns ensures Registered(rooms, d) <==> d == c || Registered(s.rooms, d) {
      RegisteredAfterAdding(s.rooms, c, d);
    }
    forall d: Client | Registered(rooms, d) ensures d in s.conns {
      InAdded(s.rooms, c, d.tenant, d.id);
    }
  }

  lemma {:induction false} RegisterKeeps(s: State, o: set<Client>, c: Client, t: State)
    requires Inv(s, o) && s.registers != [] && c == s.registers[0]
    requires t == s.(registers := s.registers[1..], rooms := t.rooms, count := t.count) && t.rooms == Added(s.rooms, c)
    ensures Inv(t, o)
  {
    TailOnce(s.registers);
    AllAfterAdding(s, c, t.rooms);
    forall d | d in t.conns ensures Present(t, o, d) {
      assert Present(s, o, d);
    }
  }

  /** The rooms hold the same clients as before except this one. */
  ghost predicate Without(before: Rooms, c: Client, rooms: Rooms) {
    forall d {:trigger Registered(rooms, d)} :: Registered(rooms, d) <==> d != c && Registered(before, d)
  }

  lemma {:induction false} AllAfterRemoving(s: State, c: Client, rooms: Rooms)
    requires Orderly(s.rooms) && Queued(s) && c in s.conns && rooms == Removed(s.rooms, c)
    ensures Orderly(rooms) && Without(s.rooms, c, rooms)
  {
    RemovedIsOrderly(s.rooms, c);
    forall d: Client ensures Registered(rooms, d) <==> d != c && Registered(s.rooms, d) {
      RegisteredAfterRemoving(s.rooms, c, d);
    }
  }

  lemma {:induction false} UnregisterKeeps(s: State, o: set<Client>, c: Client, t: State, p: set<Client>)
    requires Inv(s, o) && s.unregisters != [] && c == s.unregisters[0]
    requires t == s.(unregisters := s.unregisters[1..], rooms := t.rooms, count := t.count) && Orderly(t.rooms)
    requires Without(s.rooms, c, t.rooms)
    requires p == o + OvertakenBy(s, HandleUnregister)
    ensures Inv(t, p)
  {
    TailOnce(s.unregisters);
    forall d | d in t.conns ensures Present(t, p, d) {
      assert Present(s, o, d);
    }
  }

  /** Steps that change only what is in buffers and in the broadcast queue. */
  lemma {:induction false} ConnsKeep(s: State, o: set<Client>, t: State)
    requires Inv(s, o)
    requires t == s.(conns := t.conns, broadcasts := t.broadcasts, dispatched := t.dispatched,
        sendErrors := t.sendErrors)
    requires t.conns.Keys == s.conns.Keys && |t.broadcasts| <= BROADCAST_QUEUE
    requires forall d :: d in s.conns ==>
               t.conns[d].closed == s.conns[d].closed && |t.conns[d].buffer| <= BUFFER && |t.conns[d].failed| <= 1
    ensures Inv(t, o)
  {
    forall d | d in t.conns ensures Present(t, o, d) {
      assert Present(s, o, d);
    }
  }

  lemma {:induction false} ConnectStep(s: State, o: set<Client>, c: Client)
    requires Inv(s, o)
    ensures Inv(Next(s, Connect(c)), o)
  {
    if c.id !in s.issued && |s.registers| < CLIENT_QUEUE {
      ConnectKeeps(s, o, c, Next(s, Connect(c)));
    }
  }

  lemma {:induction false} ConnKeeps(s: State, o: set<Client>, c: Client, conn: Conn, t: State)
    requires Inv(s, o) && c in s.conns && t == s.(conns := s.conns[c := conn])
    requires conn.closed == s.conns[c].closed && |conn.buffer| <= BUFFER && |conn.failed| <= 1
    ensures Inv(t, o)
  {
    ConnsKeep(s, o, t);
  }

  lemma {:induction false} SpeakStep(s: State, o: set<Client>, c: Client)
    requires Inv(s, o)
    ensures Inv(Next(s, Speak(c)), o)
  {
    if c in s.conns {
      ConnKeeps(s, o, c, s.conns[c].(buffer := Pushed(s.conns[c].buffer, Own)), Next(s, Speak(c)));
    }
  }

  lemma {:induction false} PumpStep(s: State, o: set<Client>, c: Client, ok: bool)
    requires Inv(s, o)
    ensures Inv(Next(s, Pump(c, ok)), o)
  {
    if c in s.conns && s.conns[c].buffer != [] && s.conns[c].failed == [] {
      ConnKeeps(s, o, c, Pumped(s.conns[c], ok), Next(s, Pump(c, ok)));
    }
  }

  lemma {:induction false} PublishStep(s: State, o: set<Client>, m: Message)
    requires Inv(s, o)
    ensures Inv(Next(s, Publish(m)), o)
  {
    ConnsKeep(s, o, Next(s, Publish(m)));
  }

  lemma {:induction false} CloseStep(s: State, o: set<Client>, c: Client)
    requires Inv(s, o)
    ensures Inv(Next(s, Close(c)), o)
  {
    if c in s.conns && !s.conns[c].closed && |s.unregisters| < CLIENT_QUEUE {
      CloseKeeps(s, o, c, Next(s, Close(c)));
    }
  }

  lemma {:induction false} RegisterStep(s: State, o: set<Client>)
    requires Inv(s, o)
    ensures Inv(Next(s, HandleRegister), o)
  {
    if s.registers != [] {
      RegisterKeeps(s, o, s.registers[0], Next(s, HandleRegister));
    }
  }

  lemma {:induction false} UnregisterStep(s: State, o: set<Client>, t: State, p: set<Client>)
    requires Inv(s, o) && t == Next(s, HandleUnregister) && p == o + OvertakenBy(s, HandleUnregister)
    ensures Inv(t, p)
  {
    if s.unregisters != [] {
      AllAfterRemoving(s, s.unregisters[0], t.rooms);
      UnregisterKeeps(s, o, s.unregisters[0], t, p);
    } else {
      assert p == o;
    }
  }

  lemma {:induction false} DeliveredKeeps(rooms: Rooms, conns: Conns, m: Message, c: Client)
    requires c in conns && |conns[c].buffer| <= BUFFER
    ensures c in Delivered(rooms, conns, m)
    ensures var before, after := conns[c], Delivered(rooms, conns, m)[c];
            |after.buffer| <= BUFFER && after.failed == before.failed && after.closed == before.closed
  {}

  lemma {:induction false} BroadcastStep(s: State, o: set<Client>)
    requires Inv(s, o)
    ensures Inv(Next(s, HandleBroadcast), o)
  {
    if s.broadcasts != [] {
      var m, t := s.broadcasts[0], Next(s, HandleBroadcast);
      var conns := Delivered(s.rooms, s.conns, m);
      assert conns.Keys == s.conns.Keys;
      forall c | c in s.conns
        ensures conns[c].closed == s.conns[c].closed && |conns[c].buffer| <= BUFFER && |conns[c].failed| <= 1
      {
        DeliveredKeeps(s.rooms, s.conns, m, c);
      }
      BroadcastKeeps(s, o, conns, t);
    }
  }

  lemma {:induction false} BroadcastKeeps(s: State, o: set<Client>, conns: Conns, t: State)
    requires Inv(s, o) && s.broadcasts != []
    requires t == s.(broadcasts := s.broadcasts[1..], conns := conns, dispatched := t.dispatched,
        sendErrors := t.sendErrors)
    requires conns.Keys == s.conns.Keys
    requires forall d :: d in s.conns ==>
               conns[d].closed == s.conns[d].closed && |conns[d].buffer| <= BUFFER && |conns[d].failed| <= 1
    ensures Inv(t, o)
  {
    ConnsKeep(s, o, t);
  }

  lemma {:induction false} StepKeeps(s: State, o: set<Client>, step: Step)
    requires Inv(s, o)
    ensures Inv(Next(s, step), o + OvertakenBy(s, step))
  {
    assert !step.HandleUnregister? ==> o + OvertakenBy(s, step) == o;
    match step
    case Connect(c) => ConnectStep(s, o, c);
    case Speak(c) => SpeakStep(s, o, c);
    case Pump(c, ok) => PumpStep(s, o, c, ok);
    case Close(c) => CloseStep(s, o, c);
    case Publish(m) => PublishStep(s, o, m);
    case HandleRegister => RegisterStep(s, o);
    case HandleUnregister => UnregisterStep(s, o, Next(s, step), o + OvertakenBy(s, step));
    case HandleBroadcast => BroadcastStep(s, o);
  }

  /** In every interleaving: no room is empty, every client sits under its own id in its own
      tenant's room, the queues and buffers keep their bounds, and who is registered follows
      from who has closed and who was overtaken. */
  lemma {:induction false} AlwaysInv(run: seq<Step>)
    ensures Inv(After(run), Overtaken(run))
    decreases |run|
  {
    if run != [] {
      var before, last := run[..|run| - 1], run[|run| - 1];
      AlwaysInv(before);
      StepKeeps(After(before), Overtaken(before), last);
      assert Overtaken(run) == Overtaken(before) + OvertakenBy(After(before), last);
    } else {
    }
  }

  // ----- What each client gets -----

  function Events(frames: seq<Frame>): seq<nat> {
    if frames == [] then []
    else Events(frames[..|frames| - 1]) + (match frames[|frames| - 1] case Broadcast(e) => [e] case Own => [])
  }

  lemma {:induction false} EventsAppend(a: seq<Frame>, b: seq<Frame>)
    ensures Events(a + b) == Events(a) + Events(b)
    decreases |b|
  {
    if b == [] {
      assert a + b == a;
    } else {
      EventsAppend(a, b[..|b| - 1]);
      assert (a + b)[..|a + b| - 1] == a + b[..|b| - 1];
    }
  }

  /** `a` is `b` with some entries left out. */
  ghost predicate Subsequence(a: seq<nat>, b: seq<nat>) {
    if a == [] then true
    else if b == [] then false
    else
      || (a[|a| - 1] == b[|b| - 1] && Subsequence(a[..|a| - 1], b[..|b| - 1]))
      || Subsequence(a, b[..|b| - 1])
  }

  lemma {:induction false} SubsequenceSelf(a: seq<nat>)
    ensures Subsequence(a, a)
  {
    if a != [] {
      SubsequenceSelf(a[..|a| - 1]);
    } else {
    }
  }

  lemma {:induction false} SubsequenceDrop(a: seq<nat>, b: seq<nat>)
    requires a != [] && Subsequence(a, b)
    ensures Subsequence(a[..|a| - 1], b)
    decreases |b|
  {
    if |a| > 1 {
      if a[|a| - 1] == b[|b| - 1] && Subsequence(a[..|a| - 1], b[..|b| - 1]) {
      } else {
        SubsequenceDrop(a, b[..|b| - 1]);
      }
    } else {
    }
  }

  /** Leaving out a middle part as well. */
  lemma {:induction false} SubsequenceWithout(a: seq<nat>, m: seq<nat>, z: seq<nat>, b: seq<nat>)
    requires Subsequence(a + m + z, b)
    ensures Subsequence(a + z, b)
    decreases |b| + |m|
  {
    if m == [] {
      assert a + m + z == a + z;
    } else if z == [] {
      SubsequenceDrop(a + m + z, b);
      assert (a + m + z)[..|a + m + z| - 1] == a + m[..|m| - 1] + z;
      SubsequenceWithout(a, m[..|m| - 1], z, b);
    } else {
      var y, amz := z[..|z| - 1], a + m + z;
      assert amz[..|amz| - 1] == a + m + y && (a + z)[..|a + z| - 1] == a + y;
      if amz[|amz| - 1] == b[|b| - 1] && Subsequence(a + m + y, b[..|b| - 1]) {
        SubsequenceWithout(a, m, y, b[..|b| - 1]);
      } else {
        SubsequenceWithout(a, m, z, b[..|b| - 1]);
      }
    }
  }

  function FramesOf(conn: Conn): seq<Frame> {
    conn.written + conn.failed + conn.buffer
  }

  lemma {:induction false} PumpedFrames(conn: Conn, ok: bool)
    requires conn.buffer != [] && conn.failed == []
    ensures FramesOf(Pumped(conn, ok)) == FramesOf(conn)
  {}

  lemma {:induction false} PushedFrames(conn: Conn, f: Frame)
    ensures Events(FramesOf(conn.(buffer := Pushed(conn.buffer, f)))) ==
            Events(FramesOf(conn)) + if |conn.buffer| < BUFFER && f.Broadcast? then [f.event] else []
  {
    if |conn.buffer| < BUFFER {
      EventsAppend(FramesOf(conn), [f]);
      assert Events([f]) == if f.Broadcast? then [f.event] else [];
      assert FramesOf(conn.(buffer := conn.buffer + [f])) == FramesOf(conn) + [f];
    } else {
    }
  }

  function EventsOf(s: State, c: Client): seq<nat> {
    if c in s.conns then Events(FramesOf(s.conns[c])) else []
  }

  lemma {:induction false} BroadcastAdds(s: State, c: Client)
    requires Orderly(s.rooms) && s.broadcasts != [] && c in s.conns
    ensures EventsOf(Next(s, HandleBroadcast), c) == EventsOf(s, c) + Accepts(s, HandleBroadcast, c)
  {
    var m := s.broadcasts[0];
    ReachesTheAddressed(s.rooms, m, c);
    PushedFrames(s.conns[c], Broadcast(m.event));
  }

  lemma {:induction false} OtherStepAdds(s: State, step: Step, c: Client)
    requires Queued(s) && !step.HandleBroadcast?
    ensures EventsOf(Next(s, step), c) == EventsOf(s, c)
  {
    match step
    case Connect(d) =>
    case Speak(d) =>
      if d == c && c in s.conns {
        PushedFrames(s.conns[c], Own);
      }
    case Pump(d, ok) =>
      if d == c && c in s.conns && s.conns[c].buffer != [] && s.conns[c].failed == [] {
        PumpedFrames(s.conns[c], ok);
      }
    case Close(_) =>
    case Publish(_) =>
    case HandleRegister =>
    case HandleUnregister =>
  }

  lemma {:induction false} StepAdds(s: State, step: Step, c: Client)
    requires Orderly(s.rooms) && Queued(s)
    ensures EventsOf(Next(s, step), c) == EventsOf(s, c) + Accepts(s, step, c)
  {
    if step.HandleBroadcast? && s.broadcasts != [] && c in s.conns {
      BroadcastAdds(s, c);
    } else if !step.HandleBroadcast? {
      OtherStepAdds(s, step, c);
    }
  }

  /** In every interleaving, the events written to a client, lost in its one failed write, or
      still queued are, in order, exactly those accepted for it; what it has received or has
      queued is an in-order subsequence of the events addressed to it while it was registered. */
  lemma {:induction false} GetsTheAcceptedInOrder(run: seq<Step>, c: Client)
    ensures EventsOf(After(run), c) == AcceptedBy(c, run)
    decreases |run|
  {
    if run != [] {
      var before, last := run[..|run| - 1], run[|run| - 1];
      GetsTheAcceptedInOrder(before, c);
      AlwaysInv(before);
      StepAdds(After(before), last, c);
    } else {
    }
  }

  lemma {:induction false} AcceptedIsSubsequence(run: seq<Step>, c: Client)
    ensures Subsequence(AcceptedBy(c, run), AddressedTo(c, run))
    decreases |run|
  {
    if run != [] {
      var before := run[..|run| - 1];
      AcceptedIsSubsequence(before, c);
      SubsequenceGrows(AcceptedBy(c, before), AddressedTo(c, before), AcceptedBy(c, run), AddressedTo(c, run));
    } else {
    }
  }

  lemma {:induction false} SubsequenceGrows(a: seq<nat>, b: seq<nat>, c: seq<nat>, d: seq<nat>)
    requires Subsequence(a, b)
    requires (c == a && d == b) || (|d| > 0 && d[..|d| - 1] == b && (c == a || c == a + [d[|d| - 1]]))
    ensures Subsequence(c, d)
  {
    if c != a {
      assert c[..|c| - 1] == a;
    }
  }

  lemma {:induction false} ReceivedIsSubsequence(run: seq<Step>, c: Client)
    requires c in After(run).conns
    ensures var conn := After(run).conns[c];
            Subsequence(Events(conn.written + conn.buffer), AddressedTo(c, run))
  {
    var conn := After(run).conns[c];
    GetsTheAcceptedInOrder(run, c);
    AcceptedIsSubsequence(run, c);
    EventsAppend(conn.written + conn.failed, conn.buffer);
    EventsAppend(conn.written, conn.failed);
    EventsAppend(conn.written, conn.buffer);
    SubsequenceWithout(Events(conn.written), Events(conn.failed), Events(conn.buffer), AddressedTo(c, run));
  }

  lemma {:induction false} DeliveriesOfOne(rooms: Rooms, conns: Conns, m: Message)
    requires Orderly(rooms)
    ensures |Accepting(rooms, conns, m)| + |Targets(rooms, conns, m) - Accepting(rooms, conns, m)| ==
        |ForWhom(rooms, conns, m)|
  {
    var targets, accepting := Targets(rooms, conns, m), Accepting(rooms, conns, m);
    forall c: Client ensures c in targets <==> c in ForWhom(rooms, conns, m) {
      ReachesTheAddressed(rooms, m, c);
    }
    assert targets == ForWhom(rooms, conns, m);
    assert accepting <= targets && accepting + (targets - accepting) == targets;
  }

  lemma {:induction false} StepDispatches(s: State, step: Step)
    requires Orderly(s.rooms)
    ensures var t, ms := Next(s, step), Handling(s, step);
            t.dispatched + t.sendErrors ==
            s.dispatched + s.sendErrors + if ms == [] then 0 else |ForWhom(s.rooms, s.conns, ms[0])|
  {
    if step.HandleBroadcast? && s.broadcasts != [] {
      DeliveriesOfOne(s.rooms, s.conns, s.broadcasts[0]);
    }
  }

  /** Every delivery is either dispatched or counted as a send error. */
  lemma {:induction false} DispatchedOrCounted(run: seq<Step>)
    ensures After(run).dispatched + After(run).sendErrors == Deliveries(run)
    decreases |run|
  {
    if run != [] {
      var before, last := run[..|run| - 1], run[|run| - 1];
      DispatchedOrCounted(before);
      AlwaysInv(before);
      StepDispatches(After(before), last);
    } else {
    }
  }

  // ----- The connection counter -----

  /** A registered place is that of a registered client. */
  lemma {:induction false} PlaceIsRegistered(s: State, c: Client)
    requires Orderly(s.rooms) && Queued(s) && c in s.conns
    ensures (c.tenant, c.id) in Places(s.rooms) <==> Registered(s.rooms, c)
  {
    if c.tenant in s.rooms && c.id in s.rooms[c.tenant] {
      var d := s.rooms[c.tenant][c.id];
      assert Registered(s.rooms, d);
    }
  }

  lemma {:induction false} RegisterCounts(s: State, o: set<Client>, c: Client)
    requires Inv(s, o) && s.registers != [] && c == s.registers[0]
    ensures |Places(Added(s.rooms, c))| == |Places(s.rooms)| + 1
  {
    AddedPlaces(s.rooms, c);
    PlaceIsRegistered(s, c);
  }

  /** An unregister removes its client unless the client's register still waits. */
  lemma {:induction false} UnregisterCounts(s: State, o: set<Client>, c: Client)
    requires Inv(s, o) && s.unregisters != [] && c == s.unregisters[0]
    ensures |Places(Removed(s.rooms, c))| == |Places(s.rooms)| - if c in s.registers then 0 else 1
    ensures c !in s.registers ==> c.tenant in s.rooms
  {
    RemovedPlaces(s.rooms, c);
    PlaceIsRegistered(s, c);
    assert Present(s, o, c);
  }

  lemma {:induction false} RegisterStepCounts(s: State, o: set<Client>, t: State)
    requires Inv(s, o) && t == Next(s, HandleRegister)
    ensures |Places(t.rooms)| - t.count == |Places(s.rooms)| - s.count
  {
    if s.registers != [] {
      RegisterCounts(s, o, s.registers[0]);
    }
  }

  lemma {:induction false} UnregisterStepCounts(s: State, o: set<Client>, t: State)
    requires Inv(s, o) && t == Next(s, HandleUnregister)
    ensures |Places(t.rooms)| - t.count == |Places(s.rooms)| - s.count + MiscountedBy(s, HandleUnregister)
  {
    if s.unregisters != [] {
      UnregisterCounts(s, o, s.unregisters[0]);
    }
  }

  lemma {:induction false} OtherStepCounts(s: State, step: Step)
    requires !step.HandleRegister? && !step.HandleUnregister?
    ensures Next(s, step).rooms == s.rooms && Next(s, step).count == s.count
  {}

  lemma {:induction false} StepCounts(s: State, o: set<Client>, step: Step, t: State)
    requires Inv(s, o) && t == Next(s, step)
    ensures |Places(t.rooms)| - t.count == |Places(s.rooms)| - s.count + MiscountedBy(s, step)
  {
    match step
    case HandleRegister => RegisterStepCounts(s, o, t);
    case HandleUnregister => UnregisterStepCounts(s, o, t);
    case _ => OtherStepCounts(s, step);
  }

  /** The counter is the number of clients in rooms, less one for each unregister that overtook
      its register and found other clients in the room. */
  lemma {:induction false} CounterAccounting(run: seq<Step>)
    ensures After(run).count + Miscounted(run) == |Places(After(run).rooms)|
    decreases |run|
  {
    if run != [] {
      var before, last := run[..|run| - 1], run[|run| - 1];
      CounterAccounting(before);
      AlwaysInv(before);
      StepCounts(After(before), Overtaken(before), last, After(run));
    } else {
    }
  }

  lemma {:induction false} NoneMiscounted(run: seq<Step>)
    requires Overtaken(run) == {}
    ensures Miscounted(run) == 0
    decreases |run|
  {
    if run != [] {
      NoneMiscounted(run[..|run| - 1]);
    } else {
    }
  }

  /** Nothing waits, and every client has closed. */
  ghost predicate Drained(s: State) {
    s.registers == [] && s.unregisters == [] && forall c :: c in s.conns ==> s.conns[c].closed
  }

  /** A drained hub holds exactly the clients whose unregister overtook their register: its
      rooms are empty if and only if there are none, and then the counter is zero. */
  lemma {:induction false} DrainedHoldsTheOvertaken(run: seq<Step>)
    requires Drained(After(run))
    ensures forall c :: Registered(After(run).rooms, c) <==> c in Overtaken(run)
    ensures After(run).rooms == map[] <==> Overtaken(run) == {}
    ensures Overtaken(run) == {} ==> After(run).count == 0
  {
    var s, o := After(run), Overtaken(run);
    AlwaysInv(run);
    forall c: Client ensures Registered(s.rooms, c) <==> c in o {
      if c in s.conns {
        assert Present(s, o, c);
      }
    }
    EmptyOrHeld(s.rooms);
    if o == {} {
      NoneMiscounted(run);
      CounterAccounting(run);
      assert Places(s.rooms) == {};
    }
  }

  lemma {:induction false} EmptyOrHeld(rooms: Rooms)
    requires Orderly(rooms)
    ensures rooms == map[] <==> forall c :: !Registered(rooms, c)
  {
    if t :| t in rooms {
      var i :| i in rooms[t];
      assert Registered(rooms, rooms[t][i]);
    }
  }

  lemma {:induction false} OneMore(run: seq<Step>, step: Step)
    ensures After(run + [step]) == Next(After(run), step)
    ensures Overtaken(run + [step]) == Overtaken(run) + OvertakenBy(After(run), step)
  {
    assert (run + [step])[..|run + [step]| - 1] == run;
  }

  lemma {:induction false} BothWait(c: Client, s: State)
    requires s == Next(Next(START, Connect(c)), Close(c))
    ensures s.registers == s.unregisters == [c] && s.rooms == map[] && s.count == 0
    ensures s.conns.Keys == {c} && s.conns[c].closed
  {}

  lemma {:induction false} ServedInOppositeOrder(c: Client, s: State, t: State)
    requires s.registers == s.unregisters == [c] && s.rooms == map[] && s.count == 0 && s.conns.Keys == {c}
        && s.conns[c].closed
    requires t == Next(Next(s, HandleUnregister), HandleRegister)
    ensures t.registers == t.unregisters == [] && t.conns == s.conns && t.count == 1 && t.rooms == Added(map[], c)
  {}

  lemma {:induction false} WaitingRun(c: Client)
    ensures var s := After([Connect(c), Close(c)]);
            && s.registers == s.unregisters == [c] && s.rooms == map[] && s.count == 0
            && s.conns.Keys == {c} && s.conns[c].closed
    ensures Overtaken([Connect(c), Close(c)]) == {}
  {
    var waiting := [Connect(c), Close(c)];
    assert waiting == [] + [Connect(c)] + [Close(c)];
    OneMore([], Connect(c));
    OneMore([] + [Connect(c)], Close(c));
    BothWait(c, After(waiting));
  }

  /** The hub may serve an unregister before the register that it follows: the closed client
      then stays registered. */
  lemma {:induction false} UnregisterCanOvertake(c: Client)
    ensures var run := [Connect(c), Close(c)] + [HandleUnregister] + [HandleRegister];
            && Drained(After(run)) && Registered(After(run).rooms, c) && After(run).count == 1
            && Overtaken(run) == {c}
  {
    var waiting := [Connect(c), Close(c)];
    WaitingRun(c);
    OneMore(waiting, HandleUnregister);
    OneMore(waiting + [HandleUnregister], HandleRegister);
    ServedInOppositeOrder(c, After(waiting), After(waiting + [HandleUnregister] + [HandleRegister]));
    AddedIsOrderly(map[], c);
  }

  /** The first client is in its room; the second has closed and waits both to be registered and
      to be unregistered. */
  predicate BesideAnother(a: Client, b: Client, s: State) {
    s.rooms == map[a.tenant := map[a.id := a]] && s.count == 1 && s.unregisters == [b]
  }

  lemma {:induction false} BesideAnotherRun(a: Client, b: Client, run: seq<Step>)
    requires a.id != b.id && run == [Connect(a)] + [HandleRegister] + [Connect(b)] + [Close(b)]
    ensures BesideAnother(a, b, After(run))
  {
    var one := [Connect(a)];
    var two := one + [HandleRegister];
    var three := two + [Connect(b)];
    assert one == [] + [Connect(a)];
    OneMore([], Connect(a));
    OneMore(one, HandleRegister);
    OneMore(two, Connect(b));
    OneMore(three, Close(b));
    OneRegistered(a, After(two));
    AnotherWaits(a, b, After(two), After(run));
  }

  lemma {:induction false} OnlyPlace(a: Client, rooms: Rooms)
    requires rooms == map[a.tenant := map[a.id := a]]
    ensures Places(rooms) == {(a.tenant, a.id)} && Registered(rooms, a)
  {}

  /** And the counter can drift: with another client in the room, such an unregister is counted. */
  lemma {:induction false} CounterCanDrift(a: Client, b: Client, run: seq<Step>)
    requires a.id != b.id && a.tenant == b.tenant
    requires run == [Connect(a)] + [HandleRegister] + [Connect(b)] + [Close(b)]
    ensures var s := After(run + [HandleUnregister]); s.count == 0 && Registered(s.rooms, a) && |Places(s.rooms)| == 1
    ensures Miscounted(run + [HandleUnregister]) == 1
  {
    BesideAnotherRun(a, b, run);
    OneMore(run, HandleUnregister);
    AnotherIsCounted(a, b, After(run), After(run + [HandleUnregister]));
    OnlyPlace(a, After(run + [HandleUnregister]).rooms);
    CounterAccounting(run + [HandleUnregister]);
  }

  lemma {:induction false} OneRegistered(a: Client, s: State)
    requires s == Next(Next(START, Connect(a)), HandleRegister)
    ensures s.rooms == map[a.tenant := map[a.id := a]] && s.count == 1
    ensures s.registers == s.unregisters == [] && s.issued == map[a.id := a]
  {}

  lemma {:induction false} AnotherWaits(a: Client, b: Client, s: State, t: State)
    requires a.id != b.id && s.issued == map[a.id := a] && s.registers == s.unregisters == []
    requires t == Next(Next(s, Connect(b)), Close(b))
    ensures t.rooms == s.rooms && t.count == s.count && t.registers == t.unregisters == [b]
  {}

  lemma {:induction false} AnotherIsCounted(a: Client, b: Client, s: State, t: State)
    requires a.id != b.id && a.tenant == b.tenant && s.rooms == map[a.tenant := map[a.id := a]] && s.count == 1
    requires s.unregisters == [b] && t == Next(s, HandleUnregister)
    ensures t.rooms == s.rooms && t.count == 0
  {
    var room := s.rooms[b.tenant] - {b.id};
    assert room == map[a.id := a];
    assert a.id in room.Keys && |room| != 0;
  }
}
