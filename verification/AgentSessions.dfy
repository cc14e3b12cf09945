/**
 Agent sockets and the commands they carry. Every region the server runs under a lock, and every
 store call, is one atomic step; a run is any interleaving of steps of any number of sockets,
 deliveries and unwinds. deliverCommand is two steps (carry, then try to send), an agent's answer
 is two (write the outcome, then stop carrying), and a socket's end is as many as it takes.
 */
module AgentSessions {
  import opened Options

  type Id = string

  /** What a socket's send channel holds at most, of commands and of every other frame. */
  const SEND_QUEUE: nat := 8

  datatype Outcome = Succeeded | Failed | Denied | TimedOut | Unknown

  /** Dialing until the registry admits it, Leaving once its slot is given up, Unwound once its carried commands are taken. */
  datatype Phase = Dialing | Serving | Leaving | Unwound

  /** `carried` is what the socket took and has not answered, `left` what its end still has to settle. */
  datatype Socket = Socket(endpoint: Id, phase: Phase, carried: set<Id>, left: set<Id>, queued: nat)

  datatype Command = Command(endpoint: Id, outcome: Option<Outcome>)

  /**
   `sending` is the deliveries between carrying a command and trying to send it, `accepted` the
   commands for which deliverCommand returned true, `answering` the sockets between writing an
   answer and no longer carrying its command, `givenUp` the commands a stopping server left to its
   next start.
   */
  datatype Net = Net(
    conns: map<Id, Id>,
    sockets: map<Id, Socket>,
    commands: map<Id, Command>,
    tried: set<Id>,
    sending: map<Id, Id>,
    accepted: set<Id>,
    answering: map<Id, Id>,
    stopping: bool,
    givenUp: set<Id>)

  const EMPTY: Net := Net(map[], map[], map[], {}, map[], {}, map[], false, {})

  datatype Event =
    | Dial(s: Id, endpoint: Id)
    | Add(s: Id)
    | Replace(incumbent: Id, s: Id)
    | Create(cmd: Id, endpoint: Id)
    | Carry(cmd: Id)
    | TrySend(cmd: Id)
    | FailUnsent(cmd: Id)
    | Frame(s: Id)
    | Drain(s: Id)
    | Answer(s: Id, cmd: Id, outcome: Outcome)
    | Answered(s: Id)
    | Remove(s: Id)
    | TakeUnanswered(s: Id)
    | SettleLeft(s: Id, cmd: Id)
    | AbandonCommands(endpoint: Id, dispatched: set<Id>)
    | Stop
    | GiveUp(s: Id)
    | Restart

  /** SettleCommand when the store accepts the write: scoped to the endpoint, and the first answer wins. */
  function Settled(commands: map<Id, Command>, endpoint: Id, cmd: Id, outcome: Outcome): (c: map<Id, Command>) {
    if cmd in commands && commands[cmd].endpoint == endpoint && commands[cmd].outcome.None? then
      commands[cmd := commands[cmd].(outcome := Some(outcome))]
    else commands
  }

  function SettleAll(commands: map<Id, Command>, which: set<Id>): (c: map<Id, Command>) {
    map cmd | cmd in commands ::
      if cmd in which && commands[cmd].outcome.None? then commands[cmd].(outcome := Some(Unknown)) else commands[cmd]
  }

  function Put(net: Net, s: Id, socket: Socket): (net': Net) {
    net.(sockets := net.sockets[s := socket])
  }

  /** The step may happen now. What the code does under a lock it does whatever the state; these say who may do it. */
  predicate Enabled(net: Net, e: Event) {
    match e
    case Dial(s, _) => s !in net.sockets
    case Add(s) => s in net.sockets && net.sockets[s].phase == Dialing
    case Replace(_, s) => s in net.sockets && net.sockets[s].phase == Dialing
    case Create(cmd, _) => cmd !in net.commands && cmd !in net.tried && cmd !in net.answering.Values
    case Carry(cmd) => cmd in net.commands && cmd !in net.tried
    case TrySend(cmd) => cmd in net.sending && net.sending[cmd] in net.sockets
    case FailUnsent(cmd) => cmd in net.tried && cmd in net.commands && cmd !in net.accepted && cmd !in net.sending
    case Frame(s) => s in net.sockets && net.sockets[s].queued < SEND_QUEUE
    case Drain(s) => s in net.sockets && net.sockets[s].queued > 0
    case Answer(s, _, _) => s in net.sockets && net.sockets[s].phase == Serving && s !in net.answering
    case Answered(s) => s in net.answering && s in net.sockets
    case Remove(s) => s in net.sockets && net.sockets[s].phase == Serving && s !in net.answering
    case TakeUnanswered(s) => s in net.sockets && net.sockets[s].phase == Leaving
    case SettleLeft(s, cmd) => s in net.sockets && cmd in net.sockets[s].left
    case AbandonCommands(_, dispatched) => dispatched <= net.accepted
    case Stop => true
    case GiveUp(s) => net.stopping && s in net.sockets
    case Restart => true
  }

  /** A step not enabled does nothing, and so does a store call that fails: failures need no step of their own. */
  function Step(net: Net, e: Event): (net': Net) {
    if Enabled(net, e) then Take(net, e) else net
  }

  function Take(net: Net, e: Event): (net': Net)
    requires Enabled(net, e)
  {
    match e
    case Dial(s, endpoint) => Put(net, s, Socket(endpoint, Dialing, {}, {}, 0))
    case Add(s) => AddSocket(net, s)
    case Replace(incumbent, s) => ReplaceSocket(net, incumbent, s)
    case Create(cmd, endpoint) => net.(commands := net.commands[cmd := Command(endpoint, None)])
    case Carry(cmd) => CarryCommand(net, cmd)
    case TrySend(cmd) => TrySendCommand(net, cmd)
    case FailUnsent(cmd) => net.(commands := Settled(net.commands, net.commands[cmd].endpoint, cmd, Failed))
    case Frame(s) => Put(net, s, net.sockets[s].(queued := net.sockets[s].queued + 1))
    case Drain(s) => Put(net, s, net.sockets[s].(queued := net.sockets[s].queued - 1))
    case Answer(s, cmd, outcome) =>
      net.(commands := Settled(net.commands, net.sockets[s].endpoint, cmd, outcome), answering := net.answering[s := cmd])
    case Answered(s) => StopCarrying(net, s)
    case Remove(s) => RemoveSocket(net, s)
    case TakeUnanswered(s) => Put(net, s, net.sockets[s].(phase := Unwound, left := net.sockets[s].carried, carried := {}))
    case SettleLeft(s, cmd) => SettleLeftover(net, s, cmd)
    case AbandonCommands(endpoint, dispatched) =>
      net.(commands := SettleAll(net.commands, set c | c in dispatched && c in net.commands && net.commands[c].endpoint == endpoint))
    case Stop => net.(stopping := true)
    case GiveUp(s) => Put(net, s, net.sockets[s].(left := {})).(givenUp := net.givenUp + net.sockets[s].left)
    case Restart =>
      net.(conns := map[], sockets := map[], sending := map[], answering := map[], stopping := false, givenUp := {},
           tried := net.tried + net.commands.Keys,
           commands := SettleAll(net.commands, net.commands.Keys))
  }

  function AddSocket(net: Net, s: Id): (net': Net)
    requires s in net.sockets
  {
    var c := net.sockets[s];
    if c.endpoint in net.conns then net
    else Put(net, s, c.(phase := Serving)).(conns := net.conns[c.endpoint := s])
  }

  function ReplaceSocket(net: Net, incumbent: Id, s: Id): (net': Net)
    requires s in net.sockets
  {
    var c := net.sockets[s];
    if c.endpoint in net.conns && net.conns[c.endpoint] != incumbent then net
    else Put(net, s, c.(phase := Serving)).(conns := net.conns[c.endpoint := s])
  }

  /** The locked half of deliverCommand. */
  function CarryCommand(net: Net, cmd: Id): (net': Net)
    requires cmd in net.commands
  {
    var endpoint := net.commands[cmd].endpoint;
    var net1 := net.(tried := net.tried + {cmd});
    if endpoint in net.conns && net.conns[endpoint] in net.sockets then
      var s := net.conns[endpoint];
      Put(net1, s, net.sockets[s].(carried := net.sockets[s].carried + {cmd})).(sending := net.sending[cmd := s])
    else net1
  }

  /** The other half: the channel takes the frame, or the command is no longer carried and the call returns false. */
  function TrySendCommand(net: Net, cmd: Id): (net': Net)
    requires cmd in net.sending && net.sending[cmd] in net.sockets
  {
    var s := net.sending[cmd];
    var c := net.sockets[s];
    var net1 := net.(sending := net.sending - {cmd});
    if c.queued < SEND_QUEUE then Put(net1, s, c.(queued := c.queued + 1)).(accepted := net.accepted + {cmd})
    else Put(net1, s, c.(carried := c.carried - {cmd}))
  }

  function StopCarrying(net: Net, s: Id): (net': Net)
    requires s in net.answering && s in net.sockets
  {
    var c := net.sockets[s];
    Put(net, s, c.(carried := c.carried - {net.answering[s]})).(answering := net.answering - {s})
  }

  function RemoveSocket(net: Net, s: Id): (net': Net)
    requires s in net.sockets
  {
    var c := net.sockets[s];
    var conns := if c.endpoint in net.conns && net.conns[c.endpoint] == s then net.conns - {c.endpoint} else net.conns;
    Put(net, s, c.(phase := Leaving)).(conns := conns)
  }

  function SettleLeftover(net: Net, s: Id, cmd: Id): (net': Net)
    requires s in net.sockets
  {
    var c := net.sockets[s];
    Put(net, s, c.(left := c.left - {cmd})).(commands := Settled(net.commands, c.endpoint, cmd, Unknown))
  }

  /** Any sequence of events is a run. */
  function After(events: seq<Event>): (net: Net) {
    if events == [] then EMPTY else Step(After(events[..|events| - 1]), events[|events| - 1])
  }

  // ----- The invariant -----

  predicate Done(commands: map<Id, Command>, cmd: Id) {
    cmd in commands && commands[cmd].outcome.Some?
  }

  predicate Has(c: Socket, cmd: Id) {
    cmd in c.carried || cmd in c.left
  }

  /** Settled, carried by a socket whose unwind is still to come, or in an unwind's retry list. */
  ghost predicate Kept(commands: map<Id, Command>, sockets: map<Id, Socket>, cmd: Id) {
    Done(commands, cmd) || exists s :: s in sockets && Has(sockets[s], cmd)
  }

  /** A socket holds commands of its endpoint only, carries while it is registered or leaving, and retries once unwound. */
  predicate SocketOk(c: Socket, commands: map<Id, Command>) {
    && (c.phase == Dialing || c.phase == Unwound ==> c.carried == {})
    && (c.phase != Unwound ==> c.left == {})
    && (forall cmd :: cmd in c.carried + c.left ==> cmd in commands && commands[cmd].endpoint == c.endpoint)
  }

  predicate Sockets(sockets: map<Id, Socket>, commands: map<Id, Command>) {
    forall s :: s in sockets ==> SocketOk(sockets[s], commands)
  }

  predicate Registry(conns: map<Id, Id>, sockets: map<Id, Socket>) {
    forall e :: e in conns ==>
      conns[e] in sockets && sockets[conns[e]].endpoint == e && sockets[conns[e]].phase == Serving
  }

  /** A command being answered is settled, if it is the socket's endpoint's at all. */
  predicate Answers(answering: map<Id, Id>, sockets: map<Id, Socket>, commands: map<Id, Command>) {
    forall s :: s in answering ==> s in sockets && AnswerOk(sockets[s], answering[s], commands)
  }

  predicate AnswerOk(c: Socket, cmd: Id, commands: map<Id, Command>) {
    c.phase == Serving && (cmd in commands && commands[cmd].endpoint == c.endpoint ==> Done(commands, cmd))
  }

  predicate Deliveries(sending: map<Id, Id>, accepted: set<Id>, tried: set<Id>, commands: map<Id, Command>, sockets: map<Id, Socket>) {
    && (forall cmd :: cmd in sending ==> cmd in commands && cmd in tried && cmd !in accepted && sending[cmd] in sockets)
    && (forall cmd :: cmd in accepted ==> cmd in commands && cmd in tried)
  }

  /** Nothing in `which` is lost. */
  ghost predicate AllKept(which: set<Id>, commands: map<Id, Command>, sockets: map<Id, Socket>) {
    forall cmd :: cmd in which ==> Kept(commands, sockets, cmd)
  }

  /** What was accepted, or is about to be, and was not left to the next start. */
  function Owed(net: Net): (which: set<Id>) {
    net.accepted + net.sending.Keys - net.givenUp
  }

  ghost predicate Inv(net: Net) {
    && Sockets(net.sockets, net.commands)
    && Registry(net.conns, net.sockets)
    && Answers(net.answering, net.sockets, net.commands)
    && Deliveries(net.sending, net.accepted, net.tried, net.commands, net.sockets)
    && AllKept(Owed(net), net.commands, net.sockets)
    && (!net.stopping ==> net.givenUp == {})
  }

  // ----- Steps on the command table alone -----

  /** Outcomes are only ever added, and a new command is not one an agent already named. */
  ghost predicate Grows(net: Net, commands: map<Id, Command>) {
    && (forall k :: k in net.commands ==>
          && k in commands && commands[k].endpoint == net.commands[k].endpoint
          && (net.commands[k].outcome.Some? ==> commands[k].outcome == net.commands[k].outcome))
    && (forall k :: k in commands && k !in net.commands ==> k !in net.answering.Values)
  }

  lemma GrowKeepsSockets(net: Net, commands: map<Id, Command>)
    requires Sockets(net.sockets, net.commands) && Grows(net, commands)
    ensures Sockets(net.sockets, commands)
  {
    forall s | s in net.sockets ensures SocketOk(net.sockets[s], commands) {
      assert SocketOk(net.sockets[s], net.commands);
    }
  }

  lemma GrowKeepsAnswers(net: Net, commands: map<Id, Command>)
    requires Answers(net.answering, net.sockets, net.commands) && Grows(net, commands)
    requires Deliveries(net.sending, net.accepted, net.tried, net.commands, net.sockets)
    ensures Answers(net.answering, net.sockets, commands)
    ensures Deliveries(net.sending, net.accepted, net.tried, commands, net.sockets)
  {
  }

  lemma GrowKeepsKept(net: Net, commands: map<Id, Command>, which: set<Id>)
    requires AllKept(which, net.commands, net.sockets) && Grows(net, commands)
    ensures AllKept(which, commands, net.sockets)
  {
    forall cmd | cmd in which ensures Kept(commands, net.sockets, cmd) {
      assert Kept(net.commands, net.sockets, cmd);
    }
  }

  lemma GrowKeeps(net: Net, commands: map<Id, Command>)
    requires Inv(net) && Grows(net, commands)
    ensures Inv(net.(commands := commands))
  {
    hide Sockets, Registry, Answers, Deliveries, AllKept, Grows;
    GrowKeepsSockets(net, commands);
    GrowKeepsAnswers(net, commands);
    GrowKeepsKept(net, commands, Owed(net));
  }

  // ----- Steps on one socket -----

  /** The socket keeps its endpoint and does not leave the registry or the phase its answer needs. */
  predicate Evolves(c: Socket, c': Socket) {
    && c'.endpoint == c.endpoint
    && (c.phase == Serving ==> c'.phase == Serving)
  }

  lemma PutKeepsParts(net: Net, s: Id, c: Socket)
    requires Inv(net) && s in net.sockets && Evolves(net.sockets[s], c) && SocketOk(c, net.commands)
    ensures Sockets(net.sockets[s := c], net.commands)
    ensures Registry(net.conns, net.sockets[s := c])
    ensures Answers(net.answering, net.sockets[s := c], net.commands)
    ensures Deliveries(net.sending, net.accepted, net.tried, net.commands, net.sockets[s := c])
  {
    hide AllKept, SocketOk, Done;
  }

  /** Whatever the socket lets go is settled, or not in `which`. */
  lemma PutKeepsKept(commands: map<Id, Command>, sockets: map<Id, Socket>, which: set<Id>, s: Id, c: Socket)
    requires AllKept(which, commands, sockets) && s in sockets
    requires forall cmd :: cmd in which && Has(sockets[s], cmd) && !Has(c, cmd) ==> Done(commands, cmd)
    ensures AllKept(which, commands, sockets[s := c])
  {
    hide Has, Done;
    var sockets' := sockets[s := c];
    forall cmd | cmd in which ensures Kept(commands, sockets', cmd) {
      assert Kept(commands, sockets, cmd);
      if !Done(commands, cmd) {
        var t :| t in sockets && Has(sockets[t], cmd);
        assert t in sockets' && Has(sockets'[t], cmd);
      }
    }
  }

  lemma PutKeeps(net: Net, s: Id, c: Socket)
    requires Inv(net) && s in net.sockets && Evolves(net.sockets[s], c) && SocketOk(c, net.commands)
    requires forall cmd :: cmd in Owed(net) && Has(net.sockets[s], cmd) && !Has(c, cmd) ==> Done(net.commands, cmd)
    ensures Inv(Put(net, s, c))
  {
    hide Sockets, Registry, Answers, Deliveries, AllKept, SocketOk, Has, Done;
    PutKeepsParts(net, s, c);
    PutKeepsKept(net.commands, net.sockets, Owed(net), s, c);
  }

  // ----- Every step -----

  lemma NewSocketKeepsKept(commands: map<Id, Command>, sockets: map<Id, Socket>, which: set<Id>, s: Id, c: Socket)
    requires AllKept(which, commands, sockets) && s !in sockets
    ensures AllKept(which, commands, sockets[s := c])
  {
    hide Has, Done;
    forall cmd | cmd in which ensures Kept(commands, sockets[s := c], cmd) {
      assert Kept(commands, sockets, cmd);
      if !Done(commands, cmd) {
        var t :| t in sockets && Has(sockets[t], cmd);
        assert t in sockets[s := c] && Has(sockets[s := c][t], cmd);
      }
    }
  }

  lemma DialKeeps(net: Net, s: Id, endpoint: Id)
    requires Inv(net) && s !in net.sockets
    ensures Inv(Put(net, s, Socket(endpoint, Dialing, {}, {}, 0)))
  {
    var c := Socket(endpoint, Dialing, {}, {}, 0);
    assert SocketOk(c, net.commands);
    hide AllKept, SocketOk, Done;
    NewSocketKeepsKept(net.commands, net.sockets, Owed(net), s, c);
  }

  lemma ServeKeeps(net: Net, s: Id)
    requires Inv(net) && s in net.sockets && net.sockets[s].phase == Dialing
    ensures Inv(Put(net, s, net.sockets[s].(phase := Serving)).(conns := net.conns[net.sockets[s].endpoint := s]))
  {
    var c := net.sockets[s].(phase := Serving);
    assert SocketOk(net.sockets[s], net.commands);
    PutKeeps(net, s, c);
    hide Sockets, Answers, Deliveries, AllKept;
  }

  lemma AddKeeps(net: Net, s: Id)
    requires Inv(net) && s in net.sockets && net.sockets[s].phase == Dialing
    ensures Inv(AddSocket(net, s))
  {
    hide Inv;
    ServeKeeps(net, s);
  }

  lemma ReplaceKeeps(net: Net, incumbent: Id, s: Id)
    requires Inv(net) && s in net.sockets && net.sockets[s].phase == Dialing
    ensures Inv(ReplaceSocket(net, incumbent, s))
  {
    hide Inv;
    ServeKeeps(net, s);
  }

  lemma CreateKeeps(net: Net, cmd: Id, endpoint: Id)
    requires Inv(net) && cmd !in net.commands && cmd !in net.answering.Values
    ensures Inv(net.(commands := net.commands[cmd := Command(endpoint, None)]))
  {
    hide Inv;
    GrowKeeps(net, net.commands[cmd := Command(endpoint, None)]);
  }

  lemma FailKeeps(net: Net, cmd: Id)
    requires Inv(net) && cmd in net.commands
    ensures Inv(net.(commands := Settled(net.commands, net.commands[cmd].endpoint, cmd, Failed)))
  {
    hide Inv;
    GrowKeeps(net, Settled(net.commands, net.commands[cmd].endpoint, cmd, Failed));
  }

  lemma AbandonKeeps(net: Net, which: set<Id>)
    requires Inv(net)
    ensures Inv(net.(commands := SettleAll(net.commands, which)))
  {
    hide Inv;
    GrowKeeps(net, SettleAll(net.commands, which));
  }

  lemma CarryKeeps(net: Net, cmd: Id)
    requires Inv(net) && cmd in net.commands && cmd !in net.tried
    ensures Inv(CarryCommand(net, cmd))
  {
    var endpoint := net.commands[cmd].endpoint;
    var mid := net.(tried := net.tried + {cmd});
    assert Inv(mid) by {
      hide Sockets, Registry, Answers, AllKept;
    }
    if endpoint in net.conns && net.conns[endpoint] in net.sockets {
      var s := net.conns[endpoint];
      var c := net.sockets[s].(carried := net.sockets[s].carried + {cmd});
      assert SocketOk(net.sockets[s], net.commands);
      PutKeeps(mid, s, c);
      SendStarts(Put(mid, s, c), cmd, s);
    }
  }

  lemma SendStarts(net: Net, cmd: Id, s: Id)
    requires Inv(net) && s in net.sockets && cmd in net.sockets[s].carried
    requires cmd in net.commands && cmd in net.tried && cmd !in net.accepted
    ensures Inv(net.(sending := net.sending[cmd := s]))
  {
    hide Sockets, Registry, Answers;
    assert Has(net.sockets[s], cmd);
  }

  /** The call returns: true when the frame was taken, and then the command is as kept as it was in flight. */
  lemma SendEnds(net: Net, cmd: Id, taken: bool)
    requires Inv(net) && cmd in net.sending
    ensures Inv(net.(sending := net.sending - {cmd}, accepted := if taken then net.accepted + {cmd} else net.accepted))
  {
    hide Sockets, Registry, Answers, Kept;
  }

  lemma TakenKeeps(net: Net, cmd: Id, s: Id)
    requires Inv(net) && cmd in net.sending && s in net.sockets
    ensures var c := net.sockets[s];
            Inv(Put(net.(sending := net.sending - {cmd}, accepted := net.accepted + {cmd}), s, c.(queued := c.queued + 1)))
  {
    var c := net.sockets[s];
    assert SocketOk(c, net.commands);
    hide Sockets, Registry, Answers, Deliveries, AllKept;
    SendEnds(net, cmd, true);
    PutKeeps(net.(sending := net.sending - {cmd}, accepted := net.accepted + {cmd}), s, c.(queued := c.queued + 1));
  }

  lemma RefusedKeeps(net: Net, cmd: Id, s: Id)
    requires Inv(net) && cmd in net.sending && s in net.sockets
    ensures var c := net.sockets[s];
            Inv(Put(net.(sending := net.sending - {cmd}), s, c.(carried := c.carried - {cmd})))
  {
    var c := net.sockets[s];
    assert SocketOk(c, net.commands) && cmd !in net.accepted;
    hide Sockets, Registry, Answers, Deliveries, AllKept;
    SendEnds(net, cmd, false);
    PutKeeps(net.(sending := net.sending - {cmd}), s, c.(carried := c.carried - {cmd}));
  }

  lemma TrySendKeeps(net: Net, cmd: Id)
    requires Inv(net) && cmd in net.sending && net.sending[cmd] in net.sockets
    ensures Inv(TrySendCommand(net, cmd))
  {
    hide Inv;
    if net.sockets[net.sending[cmd]].queued < SEND_QUEUE {
      TakenKeeps(net, cmd, net.sending[cmd]);
    } else {
      RefusedKeeps(net, cmd, net.sending[cmd]);
    }
  }

  lemma AnswerSettles(net: Net, s: Id, cmd: Id, outcome: Outcome)
    requires s in net.sockets && net.sockets[s].phase == Serving
    ensures var commands := Settled(net.commands, net.sockets[s].endpoint, cmd, outcome);
            Grows(net, commands) && AnswerOk(net.sockets[s], cmd, commands)
  {
  }

  lemma AnswerKeeps(net: Net, s: Id, cmd: Id, outcome: Outcome)
    requires Inv(net) && Enabled(net, Answer(s, cmd, outcome))
    ensures Inv(Take(net, Answer(s, cmd, outcome)))
  {
    var commands := Settled(net.commands, net.sockets[s].endpoint, cmd, outcome);
    hide Sockets, Registry, AnswerOk, Deliveries, AllKept, Grows, Settled;
    AnswerSettles(net, s, cmd, outcome);
    GrowKeeps(net, commands);
  }

  lemma AnsweredKeeps(net: Net, s: Id)
    requires Inv(net) && s in net.answering && s in net.sockets
    ensures Inv(StopCarrying(net, s))
  {
    var c := net.sockets[s];
    assert SocketOk(c, net.commands) && AnswerOk(c, net.answering[s], net.commands);
    PutKeeps(net, s, c.(carried := c.carried - {net.answering[s]}));
    hide Sockets, Registry, AnswerOk, Deliveries, AllKept;
  }

  /** The slot is given up by its holder only, so no other endpoint loses its socket. */
  lemma RemoveKeepsRegistry(net: Net, s: Id)
    requires Registry(net.conns, net.sockets) && s in net.sockets
    ensures Registry(RemoveSocket(net, s).conns, RemoveSocket(net, s).sockets)
  {
  }

  lemma RemoveKeepsParts(net: Net, s: Id, c: Socket)
    requires Inv(net) && s in net.sockets && s !in net.answering && SocketOk(c, net.commands)
    ensures Sockets(net.sockets[s := c], net.commands)
    ensures Answers(net.answering, net.sockets[s := c], net.commands)
    ensures Deliveries(net.sending, net.accepted, net.tried, net.commands, net.sockets[s := c])
  {
    hide AllKept, SocketOk, AnswerOk, Done, Registry;
  }

  lemma RemoveKeeps(net: Net, s: Id)
    requires Inv(net) && s in net.sockets && net.sockets[s].phase == Serving && s !in net.answering
    ensures Inv(RemoveSocket(net, s))
  {
    var c := net.sockets[s].(phase := Leaving);
    assert SocketOk(net.sockets[s], net.commands);
    assert SocketOk(c, net.commands);
    hide Sockets, Registry, Answers, Deliveries, AllKept, SocketOk, Done;
    RemoveKeepsRegistry(net, s);
    RemoveKeepsParts(net, s, c);
    PutKeepsKept(net.commands, net.sockets, Owed(net), s, c);
  }

  lemma TakeKeeps(net: Net, s: Id)
    requires Inv(net) && s in net.sockets && net.sockets[s].phase == Leaving
    ensures Inv(Take(net, TakeUnanswered(s)))
  {
    assert SocketOk(net.sockets[s], net.commands);
    PutKeeps(net, s, net.sockets[s].(phase := Unwound, left := net.sockets[s].carried, carried := {}));
  }

  lemma SettleLeftKeeps(net: Net, s: Id, cmd: Id)
    requires Inv(net) && s in net.sockets && cmd in net.sockets[s].left
    ensures Inv(SettleLeftover(net, s, cmd))
  {
    var c := net.sockets[s];
    assert SocketOk(c, net.commands);
    var commands := Settled(net.commands, c.endpoint, cmd, Unknown);
    assert Grows(net, commands) && Done(commands, cmd);
    GrowKeeps(net, commands);
    hide Sockets, Registry, Answers, Deliveries, AllKept, Grows, Settled;
    PutKeeps(net.(commands := commands), s, c.(left := c.left - {cmd}));
  }

  /** Frames come and go in the channel without touching what the socket carries. */
  lemma QueueKeeps(net: Net, s: Id, queued: nat)
    requires Inv(net) && s in net.sockets
    ensures Inv(Put(net, s, net.sockets[s].(queued := queued)))
  {
    assert SocketOk(net.sockets[s], net.commands);
    hide Sockets, Registry, Answers, Deliveries, AllKept;
    PutKeeps(net, s, net.sockets[s].(queued := queued));
  }

  lemma StopKeeps(net: Net)
    requires Inv(net)
    ensures Inv(net.(stopping := true))
  {
  }

  lemma GiveUpKeeps(net: Net, s: Id)
    requires Inv(net) && net.stopping && s in net.sockets
    ensures Inv(Take(net, GiveUp(s)))
  {
    assert SocketOk(net.sockets[s], net.commands);
    var gone := net.(givenUp := net.givenUp + net.sockets[s].left);
    FewerOwed(net, gone.givenUp);
    hide Sockets, Registry, Answers, Deliveries, AllKept;
    PutKeeps(gone, s, net.sockets[s].(left := {}));
  }

  lemma FewerOwed(net: Net, givenUp: set<Id>)
    requires Inv(net) && net.stopping && net.givenUp <= givenUp
    ensures Inv(net.(givenUp := givenUp))
  {
    hide Sockets, Registry, Answers, Deliveries, Kept;
  }

  lemma RestartKeeps(net: Net)
    requires Inv(net)
    ensures Inv(Take(net, Restart))
  {
    var net' := Take(net, Restart);
    forall cmd | cmd in net'.accepted ensures Kept(net'.commands, net'.sockets, cmd) {
      assert Done(net'.commands, cmd);
    }
  }

  /** A step of a socket's beginning or of a delivery. */
  predicate Delivers(e: Event) {
    e.Dial? || e.Add? || e.Replace? || e.Create? || e.Carry? || e.TrySend? || e.FailUnsent? || e.Frame? || e.Drain?
  }

  lemma DeliveryKeeps(net: Net, e: Event)
    requires Inv(net) && Enabled(net, e) && Delivers(e)
    ensures Inv(Take(net, e))
  {
    hide Inv, AddSocket, ReplaceSocket, CarryCommand, TrySendCommand;
    match e
    case Dial(s, endpoint) => DialKeeps(net, s, endpoint);
    case Add(s) => AddKeeps(net, s);
    case Replace(incumbent, s) => ReplaceKeeps(net, incumbent, s);
    case Create(cmd, endpoint) => CreateKeeps(net, cmd, endpoint);
    case Carry(cmd) => CarryKeeps(net, cmd);
    case TrySend(cmd) => TrySendKeeps(net, cmd);
    case FailUnsent(cmd) => FailKeeps(net, cmd);
    case Frame(s) => QueueKeeps(net, s, net.sockets[s].queued + 1);
    case Drain(s) => QueueKeeps(net, s, net.sockets[s].queued - 1);
  }

  lemma EndingKeeps(net: Net, e: Event)
    requires Inv(net) && Enabled(net, e) && !Delivers(e)
    ensures Inv(Take(net, e))
  {
    hide Inv, StopCarrying, RemoveSocket, SettleLeftover;
    match e
    case Answer(s, cmd, outcome) => AnswerKeeps(net, s, cmd, outcome);
    case Answered(s) => AnsweredKeeps(net, s);
    case Remove(s) => RemoveKeeps(net, s);
    case TakeUnanswered(s) => TakeKeeps(net, s);
    case SettleLeft(s, cmd) => SettleLeftKeeps(net, s, cmd);
    case AbandonCommands(endpoint, dispatched) =>
      AbandonKeeps(net, set c | c in dispatched && c in net.commands && net.commands[c].endpoint == endpoint);
    case Stop => StopKeeps(net);
    case GiveUp(s) => GiveUpKeeps(net, s);
    case Restart => RestartKeeps(net);
  }

  lemma StepKeeps(net: Net, e: Event)
    requires Inv(net)
    ensures Inv(Step(net, e))
  {
    hide Inv, Take, Enabled;
    if Enabled(net, e) {
      if Delivers(e) {
        DeliveryKeeps(net, e);
      } else {
        EndingKeeps(net, e);
      }
    }
  }

  lemma {:induction false} RunKeeps(events: seq<Event>)
    ensures Inv(After(events))
  {
    hide Inv, Step;
    if events == [] {
      EmptyOk();
    } else {
      RunKeeps(events[..|events| - 1]);
      StepKeeps(After(events[..|events| - 1]), events[|events| - 1]);
    }
  }

  lemma EmptyOk()
    ensures Inv(EMPTY)
  {
  }

  // ----- What follows -----

  /**
   In every interleaving, a command deliverCommand accepted is settled, carried by a socket whose
   unwind is to come, in the list an unwound socket is still settling, or in a list a stopping server
   gave up; and it gives up none unless it is stopping.
   */
  lemma AcceptedIsNeverLost(events: seq<Event>, cmd: Id)
    requires cmd in After(events).accepted
    ensures cmd in After(events).givenUp ==> After(events).stopping
    ensures var net := After(events);
            || Done(net.commands, cmd)
            || (exists s :: s in net.sockets && cmd in net.sockets[s].carried && (net.sockets[s].phase == Serving || net.sockets[s].phase == Leaving))
            || (exists s :: s in net.sockets && cmd in net.sockets[s].left && net.sockets[s].phase == Unwound)
            || cmd in net.givenUp
  {
    RunKeeps(events);
    var net := After(events);
    assert cmd in Owed(net) ==> Kept(net.commands, net.sockets, cmd);
    if cmd in Owed(net) && !Done(net.commands, cmd) {
      var s :| s in net.sockets && Has(net.sockets[s], cmd);
      assert SocketOk(net.sockets[s], net.commands);
    }
  }

  /** Once every socket has unwound and every list is settled, every accepted command has an outcome. */
  lemma QuietMeansSettled(events: seq<Event>, cmd: Id)
    requires var net := After(events);
             && cmd in net.accepted && cmd !in net.givenUp
             && forall s :: s in net.sockets ==> (net.sockets[s].phase == Dialing || net.sockets[s].phase == Unwound) && net.sockets[s].left == {}
    ensures Done(After(events).commands, cmd)
  {
    AcceptedIsNeverLost(events, cmd);
  }

  /** A restart settles every command, whatever shutdown left behind. */
  lemma RestartSettlesAll(net: Net, cmd: Id)
    requires cmd in net.commands
    ensures Done(Step(net, Restart).commands, cmd)
  {
  }

  /** No socket gains a carried command once its unwind took what it carried, and it never serves again. */
  lemma UnwoundCarriesNothing(events: seq<Event>, e: Event, s: Id)
    requires s in After(events).sockets && After(events).sockets[s].phase == Unwound
    ensures After(events).sockets[s].carried == {}
    ensures var net' := Step(After(events), e);
            s in net'.sockets ==> net'.sockets[s].phase == Unwound && net'.sockets[s].carried == {}
  {
    RunKeeps(events);
    StepKeeps(After(events), e);
    var net, net' := After(events), Step(After(events), e);
    assert SocketOk(net.sockets[s], net.commands);
    if s in net'.sockets {
      assert SocketOk(net'.sockets[s], net'.commands);
      hide Inv, After, SocketOk;
      UnwoundStays(net, e, s);
    }
  }

  lemma UnwoundStays(net: Net, e: Event, s: Id)
    requires Registry(net.conns, net.sockets) && s in net.sockets && net.sockets[s].phase == Unwound && s in Step(net, e).sockets
    ensures Step(net, e).sockets[s].phase == Unwound
  {
    hide Settled, SettleAll;
    if e.Carry? && Enabled(net, e) {
      hide Enabled;
      CarryPhase(net, e.cmd, s);
    }
  }

  lemma CarryPhase(net: Net, cmd: Id, s: Id)
    requires s in net.sockets && cmd in net.commands
    ensures CarryCommand(net, cmd).sockets[s].phase == net.sockets[s].phase
  {
  }

  lemma OutcomeStays(net: Net, e: Event, cmd: Id)
    requires Done(net.commands, cmd)
    ensures Done(Step(net, e).commands, cmd) && Step(net, e).commands[cmd].outcome == net.commands[cmd].outcome
  {
    if e.Carry? || e.TrySend? || e.Remove? || e.Add? || e.Replace? || e.Answered? {
      hide Settled, SettleAll;
    }
  }

  /** The first answer wins: an outcome once written is the outcome after every continuation of the run. */
  lemma {:induction false} FirstAnswerWins(events: seq<Event>, more: seq<Event>, cmd: Id)
    requires Done(After(events).commands, cmd)
    ensures var net' := After(events + more);
            Done(net'.commands, cmd) && net'.commands[cmd].outcome == After(events).commands[cmd].outcome
  {
    hide Step;
    if more == [] {
      assert events + more == events;
    } else {
      var before := events + more[..|more| - 1];
      FirstAnswerWins(events, more[..|more| - 1], cmd);
      assert (events + more)[..|events + more| - 1] == before;
      OutcomeStays(After(before), more[|more| - 1], cmd);
    }
  }

  /** A slot is emptied only by its own holder's end or by a restart, and handed over only while it is held or free. */
  lemma SlotPassesWhole(events: seq<Event>, e: Event, endpoint: Id)
    requires endpoint in After(events).conns
    ensures var net, net' := After(events), Step(After(events), e);
            && (endpoint !in net'.conns ==> e == Restart || e == Remove(net.conns[endpoint]))
            && (endpoint in net'.conns && net'.conns[endpoint] != net.conns[endpoint] ==>
                  e.Replace? && e.incumbent == net.conns[endpoint] && e.s == net'.conns[endpoint])
  {
    RunKeeps(events);
    var net := After(events);
    assert Registry(net.conns, net.sockets);
    hide Inv, After, Registry;
    SlotPasses(net, e, endpoint);
  }

  lemma SlotPasses(net: Net, e: Event, endpoint: Id)
    requires Registry(net.conns, net.sockets) && endpoint in net.conns
    ensures var net' := Step(net, e);
            && (endpoint !in net'.conns ==> e == Restart || e == Remove(net.conns[endpoint]))
            && (endpoint in net'.conns && net'.conns[endpoint] != net.conns[endpoint] ==>
                  e.Replace? && e.incumbent == net.conns[endpoint] && e.s == net'.conns[endpoint])
  {
    if !(e.Add? || e.Replace? || e.Remove? || e.Restart?) {
      ConnsStay(net, e);
      hide Step;
    } else {
      hide SettleAll;
    }
  }

  lemma ConnsStay(net: Net, e: Event)
    requires !(e.Add? || e.Replace? || e.Remove? || e.Restart?)
    ensures Step(net, e).conns == net.conns
  {
    hide Settled, SettleAll;
  }
}
