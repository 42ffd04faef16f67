/** The hub, its rooms and clients as objects that change in place; what they do is stated in
    terms of the protocol's rooms and buffers. Go walks a map in any order, and so do these. */
module HubService {
  import opened HubProtocol

  class Peer {
    const id: string
    const user: string
    const tenant: string
    var send: seq<Frame>

    constructor (id: string, user: string, tenant: string)
      ensures Info() == HubProtocol.Client(id, user, tenant) && send == []
    {
      this.id, this.user, this.tenant := id, user, tenant;
      send := [];
    }

    function Info(): HubProtocol.Client {
      HubProtocol.Client(id, user, tenant)
    }

    /** A send that never waits. */
    method TrySend(f: Frame) returns (sent: bool)
      modifies this
      ensures send == Pushed(old(send), f)
      ensures sent <==> send != old(send)
    {
      sent := |send| < BUFFER;
      if sent {
        send := send + [f];
      }
    }
  }

  class Metrics {
    var dispatched: nat
    var sendErrors: nat

    constructor ()
      ensures dispatched == sendErrors == 0
    {
      dispatched, sendErrors := 0, 0;
    }
  }

  datatype Who = Nobody | Everyone | User(user: string) {
    predicate Picks(peer: string) {
      Everyone? || (User? && peer == user)
    }
  }

  function Audience(who: Who, encodable: bool): Who {
    if encodable then who else Nobody
  }

  twostate predicate Sent(peers: set<Peer>, who: Who, f: Frame)
    reads peers
  {
    forall c :: c in peers ==> c.send == if who.Picks(c.user) then Pushed(old(c.send), f) else old(c.send)
  }

  ghost function Fitting(peers: set<Peer>, who: Who): set<Peer>
    reads peers
  {
    set c | c in peers && who.Picks(c.user) && |c.send| < BUFFER
  }

  ghost function Full(peers: set<Peer>, who: Who): set<Peer>
    reads peers
  {
    set c | c in peers && who.Picks(c.user) && |c.send| >= BUFFER
  }

  method SendTo(c: Peer, who: Who, f: Frame, metrics: Metrics)
    modifies metrics, c
    ensures c.send == if who.Picks(c.user) then Pushed(old(c.send), f) else old(c.send)
    ensures metrics.dispatched == old(metrics.dispatched) + if who.Picks(c.user) && |old(c.send)| < BUFFER then 1 else 0
    ensures metrics.sendErrors ==
            old(metrics.sendErrors) + if who.Picks(c.user) && |old(c.send)| >= BUFFER then 1 else 0
  {
    if who.Picks(c.user) {
      var sent := c.TrySend(f);
      if sent {
        metrics.dispatched := metrics.dispatched + 1;
      } else {
        metrics.sendErrors := metrics.sendErrors + 1;
      }
    }
  }

  method SendAll(peers: set<Peer>, who: Who, f: Frame, metrics: Metrics)
    modifies metrics, peers
    ensures Sent(peers, who, f)
    ensures metrics.dispatched == old(metrics.dispatched) + |old(Fitting(peers, who))|
    ensures metrics.sendErrors == old(metrics.sendErrors) + |old(Full(peers, who))|
  {
    ghost var fits, full := Fitting(peers, who), Full(peers, who);
    var rest := peers;
    while rest != {}
      invariant rest <= peers
      invariant forall c :: c in peers ==>
        c.send == if c !in rest && who.Picks(c.user) then Pushed(old(c.send), f) else old(c.send)
      invariant metrics.dispatched == old(metrics.dispatched) + |Besides(fits, rest)|
      invariant metrics.sendErrors == old(metrics.sendErrors) + |Besides(full, rest)|
      decreases |rest|
    {
      var c :| c in rest;
      SendTo(c, who, f, metrics);
      OneLess(fits, rest, c);
      OneLess(full, rest, c);
      rest := rest - {c};
    }
    assert Besides(fits, {}) == fits && Besides(full, {}) == full;
  }

  ghost function Besides(s: set<Peer>, rest: set<Peer>): set<Peer> {
    set c | c in s && c !in rest
  }

  lemma {:induction false} OneLess(s: set<Peer>, rest: set<Peer>, c: Peer)
    requires c in rest
    ensures |Besides(s, rest - {c})| == |Besides(s, rest)| + if c in s then 1 else 0
  {
    assert Besides(s, rest - {c}) == if c in s then Besides(s, rest) + {c} else Besides(s, rest);
  }

  /** The peers whose tenant is not among `rest`. */
  ghost function Served(s: set<Peer>, rest: set<string>): set<Peer> {
    set c | c in s && c.tenant !in rest
  }

  lemma {:induction false} OneTenantLess(s: set<Peer>, rest: set<string>, t: string)
    requires t in rest
    ensures |Served(s, rest - {t})| == |Served(s, rest)| + |OfTenant(s, t)|
  {
    assert Served(s, rest - {t}) == Served(s, rest) + OfTenant(s, t);
    assert Served(s, rest) !! OfTenant(s, t);
  }

  // The same of buffers as they were noted down.

  ghost function FitIn(before: map<Peer, seq<Frame>>, who: Who): set<Peer> {
    set c | c in before && who.Picks(c.user) && |before[c]| < BUFFER
  }

  ghost function FullIn(before: map<Peer, seq<Frame>>, who: Who): set<Peer> {
    set c | c in before && who.Picks(c.user) && |before[c]| >= BUFFER
  }

  lemma {:induction false} AllToServe(before: map<Peer, seq<Frame>>, tenants: set<string>, who: Who)
    requires forall c :: c in before ==> c.tenant in tenants
    ensures |Served(FitIn(before, who), tenants)| == |Served(FullIn(before, who), tenants)| == 0
    ensures Served(FitIn(before, who), {}) == FitIn(before, who)
        && Served(FullIn(before, who), {}) == FullIn(before, who)
  {
    assert Served(FitIn(before, who), tenants) == {} && Served(FullIn(before, who), tenants) == {};
  }

  /** All but the peers of the tenants of `rest` have been served. */
  ghost predicate Progress(peers: set<Peer>, before: map<Peer, seq<Frame>>, rest: set<string>, who: Who, f: Frame)
    reads peers
  {
    && before.Keys == peers
    && forall c :: c in peers ==>
        c.send == if c.tenant !in rest && who.Picks(c.user) then Pushed(before[c], f) else before[c]
  }

  lemma {:induction false} NotedDown(peers: set<Peer>, before: map<Peer, seq<Frame>>, tenants: set<string>,
          who: Who, f: Frame)
    requires before.Keys == peers && forall c :: c in peers ==> c.tenant in tenants && before[c] == c.send
    ensures Fitting(peers, who) == FitIn(before, who) && Full(peers, who) == FullIn(before, who)
    ensures Progress(peers, before, tenants, who, f)
    ensures |Served(FitIn(before, who), tenants)| == |Served(FullIn(before, who), tenants)| == 0
    ensures Served(FitIn(before, who), {}) == FitIn(before, who)
        && Served(FullIn(before, who), {}) == FullIn(before, who)
  {
    AllToServe(before, tenants, who);
  }

  function OfTenant(peers: set<Peer>, tenant: string): set<Peer> {
    set c | c in peers && c.tenant == tenant
  }

  // ----- The rooms -----

  /** Each room maps client ids to clients. */
  type Directory = map<string, map<string, Peer>>

  function View(rooms: Directory): Rooms {
    map t | t in rooms :: RoomView(rooms[t])
  }

  function RoomView(room: map<string, Peer>): map<string, HubProtocol.Client> {
    map i | i in room :: room[i].Info()
  }

  function Admitted(rooms: Directory, c: Peer): Directory {
    var room: map<string, Peer> := if c.tenant in rooms then rooms[c.tenant] else map[];
    rooms[c.tenant := room[c.id := c]]
  }

  lemma {:induction false} ViewOfAdmitted(rooms: Directory, c: Peer)
    ensures View(Admitted(rooms, c)) == Added(View(rooms), c.Info())
  {
    var room: map<string, Peer> := if c.tenant in rooms then rooms[c.tenant] else map[];
    assert RoomView(room[c.id := c]) == RoomView(room)[c.id := c.Info()];
    assert View(Admitted(rooms, c)).Keys == Added(View(rooms), c.Info()).Keys;
  }

  lemma {:induction false} RoomViewOfRest(room: map<string, Peer>, id: string)
    ensures RoomView(room - {id}) == RoomView(room) - {id} && |RoomView(room - {id})| == |room - {id}|
  {
    assert RoomView(room - {id}).Keys == (room - {id}).Keys;
  }

  lemma {:induction false} ViewOfEmptied(rooms: Directory, c: Peer)
    requires c.tenant in rooms && |rooms[c.tenant] - {c.id}| == 0
    ensures View(rooms - {c.tenant}) == Removed(View(rooms), c.Info())
  {
    RoomViewOfRest(rooms[c.tenant], c.id);
    assert View(rooms - {c.tenant}) == View(rooms) - {c.tenant};
  }

  lemma {:induction false} ViewOfReduced(rooms: Directory, c: Peer)
    requires c.tenant in rooms && |rooms[c.tenant] - {c.id}| != 0
    ensures View(rooms[c.tenant := rooms[c.tenant] - {c.id}]) == Removed(View(rooms), c.Info())
  {
    RoomViewOfRest(rooms[c.tenant], c.id);
    assert View(rooms[c.tenant := rooms[c.tenant] - {c.id}]) ==
        View(rooms)[c.tenant := RoomView(rooms[c.tenant]) - {c.id}];
  }

  function Left(rooms: Directory, c: Peer): Directory {
    if c.tenant !in rooms then rooms
    else
      var room := rooms[c.tenant] - {c.id};
      if |room| == 0 then rooms - {c.tenant} else rooms[c.tenant := room]
  }

  lemma {:induction false} ViewOfLeft(rooms: Directory, c: Peer)
    ensures View(Left(rooms, c)) == Removed(View(rooms), c.Info())
  {
    if c.tenant in rooms {
      if |rooms[c.tenant] - {c.id}| == 0 {
        ViewOfEmptied(rooms, c);
      } else {
        ViewOfReduced(rooms, c);
      }
    }
  }

  lemma {:induction false} SetThenGone(rooms: Directory, t: string, room: map<string, Peer>)
    ensures rooms[t := room] - {t} == rooms - {t}
  {}

  /** The clients in the rooms of these tenants. */
  ghost function Members(rooms: Directory, tenants: set<string>): set<Peer> {
    set t, i | t in tenants && t in rooms && i in rooms[t] :: rooms[t][i]
  }

  lemma {:induction false} RoomIsOfTenant(rooms: Directory, tenants: set<string>, t: string)
    requires Orderly(View(rooms)) && t in tenants && t in rooms
    ensures rooms[t].Values == OfTenant(Members(rooms, tenants), t)
  {
    forall c ensures c in rooms[t].Values <==> c in OfTenant(Members(rooms, tenants), t) {
      if c in rooms[t].Values {
        var i :| i in rooms[t] && rooms[t][i] == c;
        assert View(rooms)[t][i].tenant == t;
      }
      if c in OfTenant(Members(rooms, tenants), t) {
        var u, i :| u in tenants && u in rooms && i in rooms[u] && rooms[u][i] == c;
        assert View(rooms)[u][i].tenant == u;
      }
    }
  }

  lemma {:induction false} MembersAreOfTenants(rooms: Directory, tenants: set<string>, c: Peer)
    requires Orderly(View(rooms)) && c in Members(rooms, tenants)
    ensures c.tenant in tenants
  {
    var u, i :| u in tenants && u in rooms && i in rooms[u] && rooms[u][i] == c;
    assert View(rooms)[u][i].tenant == u;
  }

  lemma {:induction false} MembersOfOne(rooms: Directory, t: string)
    requires Orderly(View(rooms)) && t in rooms
    ensures Members(rooms, {t}) == OfTenant(Members(rooms, rooms.Keys), t)
  {
    RoomIsOfTenant(rooms, {t}, t);
    RoomIsOfTenant(rooms, rooms.Keys, t);
    forall c | c in Members(rooms, {t}) ensures c.tenant == t {
      MembersAreOfTenants(rooms, {t}, c);
    }
    assert OfTenant(Members(rooms, {t}), t) == Members(rooms, {t});
  }

  // The peers that a message is for, with room in their buffers or without.

  ghost function FittingFor(peers: set<Peer>, m: Message): set<Peer>
    reads peers
  {
    set c | c in peers && GoesTo(m, c.tenant, c.Info()) && |c.send| < BUFFER
  }

  ghost function FullFor(peers: set<Peer>, m: Message): set<Peer>
    reads peers
  {
    set c | c in peers && GoesTo(m, c.tenant, c.Info()) && |c.send| >= BUFFER
  }

  /** Being in a room, and receiving there, is what the protocol says of it. */
  lemma {:induction false} MembersReceive(rooms: Directory, m: Message, c: Peer)
    requires Orderly(View(rooms)) && c in Members(rooms, rooms.Keys)
    ensures Registered(View(rooms), c.Info())
    ensures Receives(View(rooms), m, c.Info()) <==> GoesTo(m, c.tenant, c.Info())
  {
    var t, i :| t in rooms && i in rooms[t] && rooms[t][i] == c;
    assert View(rooms)[t][i] == c.Info();
    ReachesTheAddressed(View(rooms), m, c.Info());
  }

  lemma {:induction false} OneRoomLess(left: Rooms, t: string, room: map<string, Peer>)
    requires t in left && left[t] == RoomView(room)
    ensures |Places(left)| == |Places(left - {t})| + |room|
  {
    PlacesSplit(left, t);
    assert RoomView(room).Keys == room.Keys;
  }

  class Hub {
    var rooms: Directory
    var totalConnections: int
    const metrics: Metrics

    constructor (metrics: Metrics)
      ensures rooms == map[] && totalConnections == 0 && this.metrics == metrics
    {
      rooms, totalConnections := map[], 0;
      this.metrics := metrics;
    }

    method HandleRegister(c: Peer)
      modifies this
      ensures rooms == Admitted(old(rooms), c) && View(rooms) == Added(View(old(rooms)), c.Info())
      ensures totalConnections == old(totalConnections) + 1
    {
      var room: map<string, Peer> := if c.tenant in rooms then rooms[c.tenant] else map[];
      rooms := rooms[c.tenant := room[c.id := c]];
      totalConnections := totalConnections + 1;
      ViewOfAdmitted(old(rooms), c);
    }

    method HandleUnregister(c: Peer)
      modifies this
      ensures View(rooms) == Removed(View(old(rooms)), c.Info())
      ensures totalConnections == old(totalConnections) - if c.tenant in old(rooms) then 1 else 0
    {
      ViewOfLeft(rooms, c);
      if c.tenant in rooms {
        var room := rooms[c.tenant] - {c.id};
        SetThenGone(rooms, c.tenant, room);
        rooms := rooms[c.tenant := room];
        if |room| == 0 {
          rooms := rooms - {c.tenant};
        }
        totalConnections := totalConnections - 1;
      }
    }

    /** The next room, when the rooms of `rest` are still to be served. */
    method SendToRoom(t: string, who: Who, event: nat, encodable: bool,
                      ghost peers: set<Peer>, ghost before: map<Peer, seq<Frame>>, ghost rest: set<string>)
      requires t in rooms && t in rest && rooms[t].Values == OfTenant(peers, t)
      requires Progress(peers, before, rest, Audience(who, encodable), Broadcast(event))
      modifies metrics, OfTenant(peers, t)
      ensures Progress(peers, before, rest - {t}, Audience(who, encodable), Broadcast(event))
      ensures metrics.dispatched == old(metrics.dispatched) + |OfTenant(FitIn(before, Audience(who, encodable)), t)|
      ensures metrics.sendErrors == old(metrics.sendErrors) + |OfTenant(FullIn(before, Audience(who, encodable)), t)|
    {
      ghost var aud := Audience(who, encodable);
      assert Fitting(OfTenant(peers, t), aud) == OfTenant(FitIn(before, aud), t);
      assert Full(OfTenant(peers, t), aud) == OfTenant(FullIn(before, aud), t);
      SendAll(rooms[t].Values, Audience(who, encodable), Broadcast(event), metrics);
    }

    /** One room after another, in any order. */
    method ServeRooms(tenants: set<string>, who: Who, event: nat, encodable: bool,
                      ghost peers: set<Peer>, ghost before: map<Peer, seq<Frame>>)
      requires Orderly(View(rooms)) && tenants <= rooms.Keys && peers == Members(rooms, tenants)
      requires Progress(peers, before, tenants, Audience(who, encodable), Broadcast(event))
      modifies metrics, peers
      ensures Progress(peers, before, {}, Audience(who, encodable), Broadcast(event))
      ensures metrics.dispatched ==
              old(metrics.dispatched) + |Served(FitIn(before, Audience(who, encodable)), {})|
              - |Served(FitIn(before, Audience(who, encodable)), tenants)|
      ensures metrics.sendErrors ==
              old(metrics.sendErrors) + |Served(FullIn(before, Audience(who, encodable)), {})|
              - |Served(FullIn(before, Audience(who, encodable)), tenants)|
    {
      ghost var aud := Audience(who, encodable);
      ghost var fits, full := FitIn(before, aud), FullIn(before, aud);
      var rest := tenants;
      while rest != {}
        invariant rest <= tenants
        invariant Progress(peers, before, rest, aud, Broadcast(event))
        invariant metrics.dispatched == old(metrics.dispatched) + |Served(fits, rest)| - |Served(fits, tenants)|
        invariant metrics.sendErrors == old(metrics.sendErrors) + |Served(full, rest)| - |Served(full, tenants)|
        decreases rest
      {
        var t :| t in rest;
        RoomIsOfTenant(rooms, tenants, t);
        SendToRoom(t, who, event, encodable, peers, before, rest);
        OneTenantLess(fits, rest, t);
        OneTenantLess(full, rest, t);
        rest := rest - {t};
      }
    }

    method SendToRooms(tenants: set<string>, who: Who, event: nat, encodable: bool)
      requires Orderly(View(rooms)) && tenants <= rooms.Keys
      modifies metrics, Members(rooms, tenants)
      ensures Sent(Members(rooms, tenants), Audience(who, encodable), Broadcast(event))
      ensures metrics.dispatched ==
          old(metrics.dispatched) + |old(Fitting(Members(rooms, tenants), Audience(who, encodable)))|
      ensures metrics.sendErrors ==
          old(metrics.sendErrors) + |old(Full(Members(rooms, tenants), Audience(who, encodable)))|
    {
      ghost var aud, peers := Audience(who, encodable), Members(rooms, tenants);
      ghost var before: map<Peer, seq<Frame>> := map c: Peer | c in peers :: c.send;
      forall c | c in peers ensures c.tenant in tenants {
        MembersAreOfTenants(rooms, tenants, c);
      }
      NotedDown(peers, before, tenants, aud, Broadcast(event));
      ServeRooms(tenants, who, event, encodable, peers, before);
    }

    /** Each client in a room that the message is for is sent to once: those of its user, or without
        a user those of its tenant, or without either all. The others are left alone. */
    method HandleBroadcast(m: Message)
      requires Orderly(View(rooms))
      modifies metrics, Members(rooms, rooms.Keys)
      ensures forall c :: c in Members(rooms, rooms.Keys) ==>
                c.send ==
                old(c.send) + if && m.encodable && |old(c.send)| < 256
                                 && if m.user != "" then c.user == m.user
                                    else m.tenant != "" ==> c.tenant == m.tenant
                              then [Broadcast(m.event)] else []
      ensures metrics.dispatched ==
              old(metrics.dispatched) + |set c | c in Members(rooms, rooms.Keys) && c.send != old(c.send)|
      ensures metrics.sendErrors == old(metrics.sendErrors) + |old(FullFor(Members(rooms, rooms.Keys), m))|
    {
      ghost var fits := FittingFor(Members(rooms, rooms.Keys), m);
      Route(m);
      assert (set c | c in Members(rooms, rooms.Keys) && c.send != old(c.send)) == fits;
    }

    /** The choice of rooms and clients. */
    method Route(m: Message)
      requires Orderly(View(rooms))
      modifies metrics, Members(rooms, rooms.Keys)
      ensures forall c :: c in Members(rooms, rooms.Keys) ==>
                c.send == if GoesTo(m, c.tenant, c.Info()) then Pushed(old(c.send), Broadcast(m.event)) else old(c.send)
      ensures metrics.dispatched == old(metrics.dispatched) + |old(FittingFor(Members(rooms, rooms.Keys), m))|
      ensures metrics.sendErrors == old(metrics.sendErrors) + |old(FullFor(Members(rooms, rooms.Keys), m))|
    {
      ghost var all := Members(rooms, rooms.Keys);
      if m.user != "" {
        assert Fitting(all, Audience(User(m.user), m.encodable)) == FittingFor(all, m);
        assert Full(all, Audience(User(m.user), m.encodable)) == FullFor(all, m);
        SendToRooms(rooms.Keys, User(m.user), m.event, m.encodable);
      } else if m.tenant == "" {
        assert Fitting(all, Audience(Everyone, m.encodable)) == FittingFor(all, m);
        assert Full(all, Audience(Everyone, m.encodable)) == FullFor(all, m);
        SendToRooms(rooms.Keys, Everyone, m.event, m.encodable);
      } else if m.tenant in rooms {
        MembersOfOne(rooms, m.tenant);
        assert Fitting(OfTenant(all, m.tenant), Audience(Everyone, m.encodable)) == FittingFor(all, m);
        assert Full(OfTenant(all, m.tenant), Audience(Everyone, m.encodable)) == FullFor(all, m);
        SendToRooms({m.tenant}, Everyone, m.event, m.encodable);
      } else {
        forall c | c in all ensures c.tenant in rooms {
          MembersAreOfTenants(rooms, rooms.Keys, c);
        }
        assert FittingFor(all, m) == {} && FullFor(all, m) == {};
      }
    }

    method GetStats() returns (totalRooms: nat, totalClients: nat, clientsPerRoom: map<string, nat>)
      ensures totalRooms == |rooms| && totalClients == |Places(View(rooms))|
      ensures clientsPerRoom.Keys == rooms.Keys && forall t :: t in rooms ==> clientsPerRoom[t] == |rooms[t]|
    {
      totalRooms, totalClients, clientsPerRoom := |rooms|, 0, map[];
      var rest := rooms.Keys;
      ghost var left := View(rooms);
      while rest != {}
        invariant rest <= rooms.Keys && left.Keys == rest
        invariant forall t :: t in rest ==> left[t] == RoomView(rooms[t])
        invariant totalClients + |Places(left)| == |Places(View(rooms))|
        invariant forall t :: t in clientsPerRoom <==> t in rooms && t !in rest
        invariant forall t :: t in clientsPerRoom ==> clientsPerRoom[t] == |rooms[t]|
        decreases rest
      {
        var t :| t in rest;
        var size := |rooms[t]|;
        clientsPerRoom := clientsPerRoom[t := size];
        totalClients := totalClients + size;
        OneRoomLess(left, t, rooms[t]);
        rest, left := rest - {t}, left - {t};
      }
      assert Places(left) == {};
    }
  }
}
