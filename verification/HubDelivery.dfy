/** What the hub's queues and metrics say of the events that clients get, over every run: who gets
    which event, in which order requests are served, and what is counted as dispatched. */
module HubDelivery {
  import opened HubProtocol

  // ----- Who gets what: isolation and reach -----

  /** For this user, or without one for this tenant, or without either for everyone. */
  predicate IsFor(m: Message, c: Client) {
    if m.user != "" then m.user == c.user
    else if m.tenant != "" then m.tenant == c.tenant
    else true
  }

  /** In every run, handling a message adds its event to a client's if and only if the message can
      be encoded, the client is registered with room in its buffer, and the message is for its user,
      or without a user for its tenant, or without either. To everyone else it adds nothing. */
  lemma {:induction false} DeliversExactly(run: seq<Step>, c: Client)
    requires After(run).broadcasts != [] && c in After(run).conns
    ensures var s, m := After(run), After(run).broadcasts[0];
            EventsOf(Next(s, HandleBroadcast), c) ==
            EventsOf(s, c) + if m.encodable && Registered(s.rooms, c) && |s.conns[c].buffer| < 256 && IsFor(m, c)
                             then [m.event] else []
  {
    AlwaysInv(run);
    BroadcastAdds(After(run), c);
  }

  /** A message for a tenant and no user adds nothing to a client of another tenant. */
  lemma {:induction false} TenantsAreApart(run: seq<Step>, c: Client)
    requires After(run).broadcasts != [] && c in After(run).conns
    requires var m := After(run).broadcasts[0]; m.user == "" && m.tenant != "" && m.tenant != c.tenant
    ensures EventsOf(Next(After(run), HandleBroadcast), c) == EventsOf(After(run), c)
  {
    DeliversExactly(run, c);
  }

  // ----- The queues are served in order -----

  /** The messages published while fewer than 4096 were waiting. */
  function Published(run: seq<Step>): seq<Message> {
    if run == [] then []
    else
      var before, last := run[..|run| - 1], run[|run| - 1];
      Published(before) + if last.Publish? && |After(before).broadcasts| < 4096 then [last.message] else []
  }

  function Handled(run: seq<Step>): seq<Message> {
    if run == [] then []
    else Handled(run[..|run| - 1]) + Handling(After(run[..|run| - 1]), run[|run| - 1])
  }

  lemma {:induction false} StepServes(s: State, step: Step, t: State, handled: seq<Message>, published: seq<Message>)
    requires t == Next(s, step) && handled + s.broadcasts == published
    ensures handled + Handling(s, step) + t.broadcasts ==
            published + if step.Publish? && |s.broadcasts| < 4096 then [step.message] else []
  {
    match step
    case Publish(m) =>
    case HandleBroadcast =>
      if s.broadcasts != [] {
        assert [s.broadcasts[0]] + s.broadcasts[1..] == s.broadcasts;
      }
    case _ => OthersKeepQueue(s, step);
  }

  lemma {:induction false} OthersKeepQueue(s: State, step: Step)
    requires !step.Publish? && !step.HandleBroadcast?
    ensures Next(s, step).broadcasts == s.broadcasts
  {}

  /** In every run, the messages handled and those still waiting are the published ones, in order. */
  lemma {:induction false} HandledInOrder(run: seq<Step>)
    ensures Handled(run) + After(run).broadcasts == Published(run)
    decreases |run|
  {
    if run != [] {
      var before, last := run[..|run| - 1], run[|run| - 1];
      HandledInOrder(before);
      StepServes(After(before), last, After(run), Handled(before), Published(before));
    } else {
    }
  }

  /** The clients whose connection found an unused id and fewer than 1024 waiting to be registered. */
  function Joined(run: seq<Step>): seq<Client> {
    if run == [] then []
    else
      var before, last := run[..|run| - 1], run[|run| - 1];
      Joined(before)
      + if last.Connect? && last.client.id !in After(before).issued && |After(before).registers| < 1024
        then [last.client] else []
  }

  function HandledRegisters(run: seq<Step>): seq<Client> {
    if run == [] then []
    else
      var s := After(run[..|run| - 1]);
      HandledRegisters(run[..|run| - 1])
      + if run[|run| - 1].HandleRegister? && s.registers != [] then [s.registers[0]] else []
  }

  /** The clients that closed, each once, while fewer than 1024 waited to be unregistered. */
  function Departed(run: seq<Step>): seq<Client> {
    if run == [] then []
    else
      var s, last := After(run[..|run| - 1]), run[|run| - 1];
      Departed(run[..|run| - 1])
      + if last.Close? && last.client in s.conns && !s.conns[last.client].closed && |s.unregisters| < 1024
        then [last.client] else []
  }

  function HandledUnregisters(run: seq<Step>): seq<Client> {
    if run == [] then []
    else
      var s := After(run[..|run| - 1]);
      HandledUnregisters(run[..|run| - 1])
      + if run[|run| - 1].HandleUnregister? && s.unregisters != [] then [s.unregisters[0]] else []
  }

  lemma {:induction false} OthersKeepRegisters(s: State, step: Step)
    requires !step.Connect? && !step.HandleRegister?
    ensures Next(s, step).registers == s.registers
  {}

  lemma {:induction false} OthersKeepUnregisters(s: State, step: Step)
    requires !step.Close? && !step.HandleUnregister?
    ensures Next(s, step).unregisters == s.unregisters
  {}

  lemma {:induction false} StepJoins(s: State, step: Step, t: State, handled: seq<Client>, joined: seq<Client>)
    requires t == Next(s, step) && handled + s.registers == joined
    ensures handled + (if step.HandleRegister? && s.registers != [] then [s.registers[0]] else []) + t.registers ==
            joined + if step.Connect? && step.client.id !in s.issued && |s.registers| < 1024 then [step.client] else []
  {
    match step
    case HandleRegister =>
      if s.registers != [] {
        assert [s.registers[0]] + s.registers[1..] == s.registers;
      }
    case Connect(c) =>
    case _ => OthersKeepRegisters(s, step);
  }

  lemma {:induction false} StepDeparts(s: State, step: Step, t: State, handled: seq<Client>, departed: seq<Client>)
    requires t == Next(s, step) && handled + s.unregisters == departed
    ensures handled + (if step.HandleUnregister? && s.unregisters != [] then [s.unregisters[0]] else []) + t.unregisters
            == departed + if step.Close? && step.client in s.conns && !s.conns[step.client].closed
                             && |s.unregisters| < 1024
                          then [step.client] else []
  {
    match step
    case HandleUnregister =>
      if s.unregisters != [] {
        assert [s.unregisters[0]] + s.unregisters[1..] == s.unregisters;
      }
    case Close(c) =>
    case _ => OthersKeepUnregisters(s, step);
  }

  /** In every run, clients are registered in the order in which they connected, and unregistered in
      the order in which they closed. */
  lemma {:induction false} ClientsInOrder(run: seq<Step>)
    ensures HandledRegisters(run) + After(run).registers == Joined(run)
    ensures HandledUnregisters(run) + After(run).unregisters == Departed(run)
    decreases |run|
  {
    if run != [] {
      var before, last := run[..|run| - 1], run[|run| - 1];
      ClientsInOrder(before);
      StepJoins(After(before), last, After(run), HandledRegisters(before), Joined(before));
      StepDeparts(After(before), last, After(run), HandledUnregisters(before), Departed(before));
    } else {
    }
  }

  /** Where a message was published. */
  ghost predicate PublishedFor(run: seq<Step>, k: nat, c: Client, event: nat) {
    k < |run| && run[k].Publish? && run[k].message.event == event && IsFor(run[k].message, c)
  }

  lemma {:induction false} PublishedSomewhere(run: seq<Step>, m: Message) returns (k: nat)
    requires m in Published(run)
    ensures k < |run| && run[k] == Publish(m)
    decreases |run|
  {
    var before := run[..|run| - 1];
    if m in Published(before) {
      k := PublishedSomewhere(before, m);
    } else {
      k := |run| - 1;
    }
  }

  lemma {:induction false} WaitingWasPublished(run: seq<Step>, c: Client) returns (k: nat)
    requires After(run).broadcasts != [] && IsFor(After(run).broadcasts[0], c)
    ensures PublishedFor(run, k, c, After(run).broadcasts[0].event)
  {
    var m := After(run).broadcasts[0];
    HandledInOrder(run);
    assert m in Handled(run) + After(run).broadcasts;
    k := PublishedSomewhere(run, m);
  }

  lemma {:induction false} NewEvent(s: State, step: Step, c: Client, event: nat)
    requires Orderly(s.rooms) && Queued(s) && event in EventsOf(Next(s, step), c) && event !in EventsOf(s, c)
    ensures s.broadcasts != [] && IsFor(s.broadcasts[0], c) && s.broadcasts[0].event == event
  {
    StepAdds(s, step, c);
  }

  lemma {:induction false} NothingAtFirst(c: Client)
    ensures EventsOf(START, c) == []
  {}

  /** In every run, each event that a client was sent, lost in its failed write or has queued was
      published for its user, for its tenant, or for everyone. */
  lemma {:induction false} NothingLeaks(run: seq<Step>, c: Client, event: nat)
    requires event in EventsOf(After(run), c)
    ensures exists k :: PublishedFor(run, k, c, event)
    decreases |run|
  {
    NothingAtFirst(c);
    if run != [] {
      var before, last := run[..|run| - 1], run[|run| - 1];
      var k: nat;
      if event in EventsOf(After(before), c) {
        NothingLeaks(before, c, event);
        k :| PublishedFor(before, k, c, event);
      } else {
        AlwaysInv(before);
        NewEvent(After(before), last, c, event);
        k := WaitingWasPublished(before, c);
      }
      assert PublishedFor(run, k, c, event);
    }
  }

  // ----- What is dispatched is what clients got -----

  function EventsOver(s: State, cs: seq<Client>): nat {
    if cs == [] then 0 else EventsOver(s, cs[..|cs| - 1]) + |EventsOf(s, cs[|cs| - 1])|
  }

  function HowMany(cs: seq<Client>, gained: set<Client>): nat {
    if cs == [] then 0 else HowMany(cs[..|cs| - 1], gained) + if cs[|cs| - 1] in gained then 1 else 0
  }

  ghost predicate Gains(s: State, t: State, c: Client, gained: set<Client>) {
    |EventsOf(t, c)| == |EventsOf(s, c)| + if c in gained then 1 else 0
  }

  lemma {:induction false} EventsOverGrow(s: State, t: State, cs: seq<Client>, gained: set<Client>)
    requires forall c :: c in cs ==> Gains(s, t, c, gained)
    ensures EventsOver(t, cs) == EventsOver(s, cs) + HowMany(cs, gained)
    decreases |cs|
  {
    if cs != [] {
      EventsOverGrow(s, t, cs[..|cs| - 1], gained);
      assert Gains(s, t, cs[|cs| - 1], gained);
    } else {
    }
  }

  lemma {:induction false} CountedOnce(cs: seq<Client>, gained: set<Client>)
    requires Once(cs) && forall c :: c in gained ==> c in cs
    ensures HowMany(cs, gained) == |gained|
    decreases |cs|
  {
    if cs != [] {
      var init, last := cs[..|cs| - 1], cs[|cs| - 1];
      InitOnce(cs);
      assert cs == init + [last];
      CountedOnce(init, gained - {last});
      OneFewer(init, gained, last);
    } else {
      assert gained == {};
    }
  }

  lemma {:induction false} OneFewer(cs: seq<Client>, gained: set<Client>, c: Client)
    requires c !in cs
    ensures HowMany(cs, gained - {c}) == HowMany(cs, gained)
    decreases |cs|
  {
    if cs != [] {
      OneFewer(cs[..|cs| - 1], gained, c);
    } else {
    }
  }

  lemma {:induction false} InitOnce(cs: seq<Client>)
    requires cs != [] && Once(cs)
    ensures Once(cs[..|cs| - 1]) && cs[|cs| - 1] !in cs[..|cs| - 1]
    decreases |cs|
  {
    if |cs| > 1 {
      TailOnce(cs);
      InitOnce(cs[1..]);
      assert cs[1..][..|cs| - 2] == cs[..|cs| - 1][1..];
      assert cs[..|cs| - 1] == [cs[0]] + cs[1..][..|cs| - 2];
      assert cs[|cs| - 1] in cs[1..];
    } else {
    }
  }

  /** The connections are those of the clients that joined, each once. */
  ghost predicate JoinedOnce(s: State, joined: seq<Client>) {
    Once(joined) && forall c :: c in joined <==> c in s.conns
  }

  lemma {:induction false} SameEvents(s: State, t: State, cs: seq<Client>)
    requires forall c :: c in cs ==> EventsOf(t, c) == EventsOf(s, c)
    ensures EventsOver(t, cs) == EventsOver(s, cs)
    decreases |cs|
  {
    if cs != [] {
      SameEvents(s, t, cs[..|cs| - 1]);
    } else {
    }
  }

  lemma {:induction false} ConnectJoins(s: State, c: Client, joined: seq<Client>, t: State)
    requires JoinedOnce(s, joined) && c !in s.conns && t.conns == s.conns[c := Conn([], [], [], false)]
    ensures JoinedOnce(t, joined + [c]) && EventsOver(t, joined + [c]) == EventsOver(s, joined)
  {
    AppendOnce(joined, c);
    assert (joined + [c])[..|joined|] == joined;
    SameEvents(s, t, joined);
    assert FramesOf(t.conns[c]) == [];
  }

  lemma {:induction false} OthersJoinNobody(s: State, step: Step, joined: seq<Client>, t: State)
    requires JoinedOnce(s, joined) && t.conns.Keys == s.conns.Keys
    ensures JoinedOnce(t, joined)
  {}

  lemma {:induction false} OneGains(s: State, c: Client, t: State, accepting: set<Client>)
    requires Orderly(s.rooms) && s.broadcasts != [] && c in s.conns && t == Next(s, HandleBroadcast)
    requires accepting == Accepting(s.rooms, s.conns, s.broadcasts[0])
    ensures Gains(s, t, c, accepting)
  {
    BroadcastAdds(s, c);
    ReachesTheAddressed(s.rooms, s.broadcasts[0], c);
  }

  lemma {:induction false} CountsAccepting(s: State, t: State)
    requires s.broadcasts != [] && t == Next(s, HandleBroadcast)
    ensures t.dispatched == s.dispatched + |Accepting(s.rooms, s.conns, s.broadcasts[0])|
  {}

  lemma {:induction false} BroadcastDispatches(s: State, joined: seq<Client>, t: State)
    requires Orderly(s.rooms) && JoinedOnce(s, joined) && s.broadcasts != []
    requires t == Next(s, HandleBroadcast)
    ensures EventsOver(t, joined) - t.dispatched == EventsOver(s, joined) - s.dispatched
  {
    var accepting := Accepting(s.rooms, s.conns, s.broadcasts[0]);
    forall c | c in joined ensures Gains(s, t, c, accepting) {
      OneGains(s, c, t, accepting);
    }
    CountsAccepting(s, t);
    EventsOverGrow(s, t, joined, accepting);
    CountedOnce(joined, accepting);
  }

  lemma {:induction false} OtherDispatchesNone(s: State, step: Step, joined: seq<Client>, t: State)
    requires Queued(s) && !step.HandleBroadcast? && t == Next(s, step)
    ensures EventsOver(t, joined) == EventsOver(s, joined) && t.dispatched == s.dispatched
  {
    forall c | c in joined ensures EventsOf(t, c) == EventsOf(s, c) {
      OtherStepAdds(s, step, c);
    }
    SameEvents(s, t, joined);
    OtherKeepsMetrics(s, step);
  }

  lemma {:induction false} OtherKeepsMetrics(s: State, step: Step)
    requires !step.HandleBroadcast?
    ensures Next(s, step).dispatched == s.dispatched && Next(s, step).sendErrors == s.sendErrors
  {}

  lemma {:induction false} ConnsKept(s: State, step: Step)
    requires !(step.Connect? && step.client.id !in s.issued && |s.registers| < 1024)
    ensures Next(s, step).conns.Keys == s.conns.Keys
  {}

  lemma {:induction false} JoinedRun(run: seq<Step>)
    ensures JoinedOnce(After(run), Joined(run))
    decreases |run|
  {
    if run != [] {
      var before, last := run[..|run| - 1], run[|run| - 1];
      JoinedRun(before);
      AlwaysInv(before);
      var s := After(before);
      if last.Connect? && last.client.id !in s.issued && |s.registers| < 1024 {
        ConnectJoins(s, last.client, Joined(before), After(run));
      } else {
        ConnsKept(s, last);
        OthersJoinNobody(s, last, Joined(before), After(run));
        assert Joined(run) == Joined(before);
      }
    } else {
    }
  }

  /** In every run, the dispatched messages are the events that clients were sent, lost in a failed
      write, or still have queued - all clients together. */
  lemma {:induction false} DispatchedIsDelivered(run: seq<Step>)
    ensures After(run).dispatched == EventsOver(After(run), Joined(run))
    decreases |run|
  {
    if run != [] {
      var before, last := run[..|run| - 1], run[|run| - 1];
      DispatchedIsDelivered(before);
      AlwaysInv(before);
      JoinedRun(before);
      StepDelivers(After(before), last, Joined(before), After(run), Joined(run));
    } else {
    }
  }

  lemma {:induction false} StepDelivers(s: State, step: Step, joined: seq<Client>, t: State, more: seq<Client>)
    requires Orderly(s.rooms) && Queued(s) && JoinedOnce(s, joined) && t == Next(s, step)
    requires more == joined + if step.Connect? && step.client.id !in s.issued && |s.registers| < 1024
                              then [step.client] else []
    ensures EventsOver(t, more) - t.dispatched == EventsOver(s, joined) - s.dispatched
  {
    if step.HandleBroadcast? {
      assert more == joined;
      if s.broadcasts != [] {
        BroadcastDispatches(s, joined, t);
      }
    } else if step.Connect? && step.client.id !in s.issued && |s.registers| < 1024 {
      ConnectJoins(s, step.client, joined, t);
    } else {
      assert more == joined;
      OtherDispatchesNone(s, step, joined, t);
    }
  }

  // ----- A client's own frames -----

  /** A greeting or pong joins the buffer if that holds fewer than 256 frames; a pump writes the oldest
      frame, or loses it in the one write that fails; closing queues the unregister. Nobody else's
      connection changes. */
  lemma {:induction false} OwnFrames(s: State, step: Step, c: Client)
    requires step.Speak? || step.Pump? || step.Close?
    ensures c in s.conns <==> c in Next(s, step).conns
    ensures c in s.conns ==>
              var before, after := s.conns[c], Next(s, step).conns[c];
              && (step.client != c ==> after == before)
              && (step == Speak(c) ==>
                    after == before.(buffer := before.buffer + if |before.buffer| < 256 then [Own] else []))
              && (step == Pump(c, true) && before.failed == [] && before.buffer != [] ==>
                    after == before.(buffer := before.buffer[1..], written := before.written + [before.buffer[0]]))
              && (step == Pump(c, false) && before.failed == [] && before.buffer != [] ==>
                    after == before.(buffer := before.buffer[1..], failed := [before.buffer[0]]))
              && (step.Pump? && (before.failed != [] || before.buffer == []) ==> after == before)
              && (step == Close(c) && |s.unregisters| < 1024 ==> after == before.(closed := true))
  {
    assert c in s.conns ==> s.conns[c].buffer + [] == s.conns[c].buffer;
  }
}
