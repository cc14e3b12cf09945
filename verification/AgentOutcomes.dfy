/**
 Which outcome each step of the agent sessions writes, and what each does to the sockets, told over the
 commands and sockets alone; and from it where every stored outcome of a run comes from.
 */
module AgentOutcomes {
  import opened Options
  import opened AgentSessions

  // ----- What a step writes -----

  /** The step, taken now, is one that gives the command the outcome `o` if it has none. */
  predicate Writes(net: Net, e: Event, cmd: Id, o: Outcome)
    requires cmd in net.commands
  {
    match e
    case Answer(s, named, reported) =>
      && named == cmd && o == reported
      && s in net.sockets && net.sockets[s].phase == Serving && s !in net.answering
      && net.sockets[s].endpoint == net.commands[cmd].endpoint
    case FailUnsent(named) =>
      named == cmd && o == Failed && cmd in net.tried && cmd !in net.accepted && cmd !in net.sending
    case SettleLeft(s, named) =>
      && named == cmd && o == Unknown
      && s in net.sockets && cmd in net.sockets[s].left && net.sockets[s].endpoint == net.commands[cmd].endpoint
    case AbandonCommands(endpoint, dispatched) =>
      o == Unknown && dispatched <= net.accepted && cmd in dispatched && net.commands[cmd].endpoint == endpoint
    case Restart => o == Unknown
    case _ => false
  }

  /** A step that has nothing to do with the command table. */
  predicate Quiet(e: Event) {
    !(e.Create? || e.Answer? || e.SettleLeft? || e.AbandonCommands? || e.Restart? || e.FailUnsent?)
  }

  lemma CommandsStay(net: Net, e: Event)
    requires Quiet(e)
    ensures Step(net, e).commands == net.commands
  {
    hide Settled, SettleAll;
  }

  /** The command keeps its endpoint and any outcome it has, and gets an outcome exactly if it is written. */
  ghost predicate Follows(net: Net, e: Event, cmd: Id, commands: map<Id, Command>)
    requires cmd in net.commands
  {
    && cmd in commands && commands[cmd].endpoint == net.commands[cmd].endpoint
    && (net.commands[cmd].outcome.Some? ==> commands[cmd].outcome == net.commands[cmd].outcome)
    && (net.commands[cmd].outcome.None? ==> forall o :: commands[cmd].outcome == Some(o) <==> Writes(net, e, cmd, o))
  }

  lemma SettlingWrites(net: Net, e: Event, cmd: Id)
    requires cmd in net.commands && (e.Answer? || e.SettleLeft? || e.FailUnsent?)
    ensures Follows(net, e, cmd, Step(net, e).commands)
  {
    hide SettleAll;
  }

  lemma SweepingWrites(net: Net, e: Event, cmd: Id)
    requires cmd in net.commands && (e.Create? || e.AbandonCommands? || e.Restart?)
    ensures Follows(net, e, cmd, Step(net, e).commands)
  {
    hide Settled;
  }

  /** A step gives a command without an outcome exactly the outcome it writes; one with an outcome keeps it. */
  lemma StepWrites(net: Net, e: Event, cmd: Id)
    requires cmd in net.commands
    ensures Follows(net, e, cmd, Step(net, e).commands)
  {
    if Quiet(e) {
      CommandsStay(net, e);
      hide Step;
    } else if e.Answer? || e.SettleLeft? || e.FailUnsent? {
      hide *;
      SettlingWrites(net, e, cmd);
    } else {
      SweepingWrites(net, e, cmd);
      hide Follows, Step;
    }
  }

  /** A command comes to be, without an outcome, only by being created under a new identifier. */
  lemma StepCreates(net: Net, e: Event, cmd: Id)
    requires cmd !in net.commands
    ensures var commands := Step(net, e).commands;
            && (cmd in commands <==> e.Create? && e.cmd == cmd && cmd !in net.tried && forall s :: s in net.answering ==> net.answering[s] != cmd)
            && (cmd in commands ==> commands[cmd] == Command(e.endpoint, None))
  {
    if Quiet(e) {
      CommandsStay(net, e);
      hide Step;
    } else {
      hide AddSocket, ReplaceSocket, CarryCommand, TrySendCommand, StopCarrying, RemoveSocket, Put;
    }
  }

  /**
   In every run, an answer over a serving socket that names a command of its endpoint without an outcome
   leaves it with the reported outcome; one that names another endpoint's command, or one that has an
   outcome, leaves it as it was. No other command changes either way.
   */
  lemma AnswerWrites(events: seq<Event>, s: Id, cmd: Id, o: Outcome, other: Id)
    requires Enabled(After(events), Answer(s, cmd, o)) && cmd in After(events).commands && other in After(events).commands
    ensures var net, net' := After(events), After(events + [Answer(s, cmd, o)]);
            && other in net'.commands && cmd in net'.commands
            && (net.commands[cmd].endpoint == net.sockets[s].endpoint && net.commands[cmd].outcome.None? ==>
                  net'.commands[cmd].outcome == Some(o))
            && (net.commands[cmd].endpoint != net.sockets[s].endpoint || net.commands[cmd].outcome.Some? ==>
                  net'.commands[cmd] == net.commands[cmd])
            && (other != cmd ==> net'.commands[other] == net.commands[other])
  {
    var net, e := After(events), Answer(s, cmd, o);
    assert (events + [e])[..|events|] == events;
    StepWrites(net, e, cmd);
    StepWrites(net, e, other);
    hide Step;
    assert forall p :: Writes(net, e, cmd, p) ==> p == o;
    assert net.commands[cmd].endpoint == net.sockets[s].endpoint ==> Writes(net, e, cmd, o);
    assert forall p :: !Writes(net, e, cmd, p) || net.commands[cmd].endpoint == net.sockets[s].endpoint;
    assert other != cmd ==> forall p :: !Writes(net, e, other, p);
    Unwritten(net, e, cmd);
    Unwritten(net, e, other);
  }

  /** A command to which the step writes nothing is as it was. */
  lemma Unwritten(net: Net, e: Event, cmd: Id)
    requires cmd in net.commands
    ensures (forall o :: !Writes(net, e, cmd, o)) ==> cmd in Step(net, e).commands && Step(net, e).commands[cmd] == net.commands[cmd]
  {
    StepWrites(net, e, cmd);
    hide Step, Writes;
    var outcome := Step(net, e).commands[cmd].outcome;
    if outcome.Some? && net.commands[cmd].outcome.None? {
      assert Writes(net, e, cmd, outcome.value);
    }
  }

  /** What an unwind, an abandonment and a restart cover they leave unknown, what was never sent failed, and nothing else changes. */
  lemma ServerWrites(events: seq<Event>, e: Event, cmd: Id)
    requires cmd in After(events).commands && (e.SettleLeft? || e.AbandonCommands? || e.Restart? || e.FailUnsent?)
    ensures var net, net' := After(events), After(events + [e]);
            var covered :=
              match e
              case SettleLeft(s, named) => named == cmd && s in net.sockets && cmd in net.sockets[s].left
              case AbandonCommands(endpoint, dispatched) =>
                dispatched <= net.accepted && cmd in dispatched && net.commands[cmd].endpoint == endpoint
              case FailUnsent(named) => named == cmd && cmd in net.tried && cmd !in net.accepted && cmd !in net.sending
              case _ => true;
            && cmd in net'.commands
            && net'.commands[cmd] ==
                 if covered && net.commands[cmd].outcome.None? then
                   net.commands[cmd].(outcome := Some(if e.FailUnsent? then Failed else Unknown))
                 else net.commands[cmd]
  {
    var net := After(events);
    assert (events + [e])[..|events|] == events;
    RunKeeps(events);
    StepWrites(net, e, cmd);
    Unwritten(net, e, cmd);
    if e.SettleLeft? && e.s in net.sockets {
      assert SocketOk(net.sockets[e.s], net.commands);
    }
    hide Step, Inv;
    var o := if e.FailUnsent? then Failed else Unknown;
    assert forall p :: Writes(net, e, cmd, p) ==> p == o;
    if Writes(net, e, cmd, o) {
      assert net.commands[cmd].outcome.None? ==> Step(net, e).commands[cmd].outcome == Some(o);
    }
  }

  /** Any other step leaves every command as it was. */
  lemma OthersWriteNothing(events: seq<Event>, e: Event, cmd: Id)
    requires cmd in After(events).commands
    requires Quiet(e) || e.Create?
    ensures var net' := After(events + [e]); cmd in net'.commands && net'.commands[cmd] == After(events).commands[cmd]
  {
    assert (events + [e])[..|events|] == events;
    Unwritten(After(events), e, cmd);
    hide Step;
  }

  // ----- Where an outcome comes from -----

  /** The event found the command without an outcome and wrote `o`. */
  ghost predicate WrittenAt(events: seq<Event>, r: nat, cmd: Id, o: Outcome)
    requires r < |events|
  {
    var net := After(events[..r]);
    cmd in net.commands && net.commands[cmd].outcome.None? && Writes(net, events[r], cmd, o)
  }

  lemma {:induction false} OutcomeWasWritten(events: seq<Event>, cmd: Id, o: Outcome)
    requires cmd in After(events).commands && After(events).commands[cmd].outcome == Some(o)
    ensures exists r :: 0 <= r < |events| && WrittenAt(events, r, cmd, o)
  {
    hide Step, Writes;
    var n := |events| - 1;
    var front, e := events[..n], events[n];
    var net := After(front);
    if cmd !in net.commands {
      StepCreates(net, e, cmd);
    } else if net.commands[cmd].outcome.Some? {
      StepWrites(net, e, cmd);
      OutcomeWasWritten(front, cmd, o);
      var r :| 0 <= r < |front| && WrittenAt(front, r, cmd, o);
      assert front[..r] == events[..r] && WrittenAt(events, r, cmd, o);
    } else {
      StepWrites(net, e, cmd);
      assert WrittenAt(events, n, cmd, o);
    }
  }

  /**
   In every run a command has the outcome `o` if and only if some event found it without one and wrote
   `o`: the agent reported it over a serving socket of its endpoint, or the command was never sent and
   failed, or a socket's end, an abandonment or a restart left it unknown.
   */
  lemma OutcomeExactly(events: seq<Event>, cmd: Id, o: Outcome)
    ensures cmd in After(events).commands && After(events).commands[cmd].outcome == Some(o) <==>
            exists r :: 0 <= r < |events| && WrittenAt(events, r, cmd, o)
  {
    hide Step, Writes;
    if cmd in After(events).commands && After(events).commands[cmd].outcome == Some(o) {
      OutcomeWasWritten(events, cmd, o);
    }
    if r :| 0 <= r < |events| && WrittenAt(events, r, cmd, o) {
      var upTo := events[..r + 1];
      assert upTo[..r] == events[..r] && upTo[r] == events[r];
      StepWrites(After(events[..r]), events[r], cmd);
      assert After(upTo).commands[cmd].outcome == Some(o);
      hide WrittenAt;
      assert upTo + events[r + 1..] == events;
      FirstAnswerWins(upTo, events[r + 1..], cmd);
    }
  }

  // ----- What a socket carries -----

  /** Each command the socket carries was accepted, or is on its way over this very socket. */
  predicate CarriesOwed(net: Net, s: Id)
    requires s in net.sockets
  {
    forall cmd :: cmd in net.sockets[s].carried ==> cmd in net.accepted || (cmd in net.sending && net.sending[cmd] == s)
  }

  /** What was accepted or is on its way was tried. */
  predicate Tried(net: Net) {
    (forall cmd :: cmd in net.accepted ==> cmd in net.tried) && (forall cmd :: cmd in net.sending ==> cmd in net.tried)
  }

  lemma CarryStaysOwed(net: Net, cmd: Id, s: Id)
    requires Tried(net) && s in net.sockets && CarriesOwed(net, s)
    ensures s in Step(net, Carry(cmd)).sockets && CarriesOwed(Step(net, Carry(cmd)), s)
  {
    if Enabled(net, Carry(cmd)) {
      assert cmd !in net.sockets[s].carried;
    }
  }

  lemma SendStaysOwed(net: Net, cmd: Id, s: Id)
    requires s in net.sockets && CarriesOwed(net, s)
    ensures s in Step(net, TrySend(cmd)).sockets && CarriesOwed(Step(net, TrySend(cmd)), s)
  {
    if Enabled(net, TrySend(cmd)) {
      SendExactly(net, cmd);
      hide Step;
    }
  }

  lemma DeliveringKeepsSockets(net: Net, e: Event)
    requires e.Carry? || e.TrySend?
    ensures Step(net, e).sockets.Keys == net.sockets.Keys
  {
  }

  lemma OthersStayOwed(net: Net, e: Event, s: Id)
    requires (forall t :: t in net.sockets ==> CarriesOwed(net, t)) && s in Step(net, e).sockets
    requires !(e.Carry? || e.TrySend?)
    ensures CarriesOwed(Step(net, e), s)
  {
    assert s in net.sockets ==> CarriesOwed(net, s);
    hide Settled, SettleAll;
  }

  /**
   In every run, a command a socket carries was accepted, or its delivery is between the two halves of
   deliverCommand on that very socket. So a delivery that was refused is carried nowhere.
   */
  lemma {:induction false} CarriedIsOwed(events: seq<Event>, s: Id)
    requires s in After(events).sockets
    ensures CarriesOwed(After(events), s)
  {
    if events != [] {
      var front, e := events[..|events| - 1], events[|events| - 1];
      var net := After(front);
      assert Tried(net) by { RunKeeps(front); }
      hide Step, CarriesOwed;
      forall t | t in net.sockets ensures CarriesOwed(net, t) {
        CarriedIsOwed(front, t);
      }
      hide After;
      if e.Carry? {
        DeliveringKeepsSockets(net, e);
        CarryStaysOwed(net, e.cmd, s);
      } else if e.TrySend? {
        DeliveringKeepsSockets(net, e);
        SendStaysOwed(net, e.cmd, s);
      } else {
        OthersStayOwed(net, e, s);
      }
    }
  }

  /** The sockets but `s` are as they were. */
  predicate OnlySocket(net: Net, net': Net, s: Id) {
    net'.sockets.Keys == net.sockets.Keys && forall t :: t in net.sockets && t != s ==> net'.sockets[t] == net.sockets[t]
  }

  /**
   In every run, a delivery is carried by the socket that holds the endpoint's slot, and by no other, and
   is then on its way over it; with the slot empty nothing carries it. It is tried once.
   */
  lemma CarryExactly(events: seq<Event>, cmd: Id)
    requires var net := After(events); cmd in net.commands && cmd !in net.tried
    ensures var net, net' := After(events), After(events + [Carry(cmd)]);
            var endpoint := net.commands[cmd].endpoint;
            && net' == net.(sockets := net'.sockets, sending := net'.sending, tried := net.tried + {cmd})
            && (endpoint !in net.conns ==> net'.sockets == net.sockets && net'.sending == net.sending)
            && (endpoint in net.conns ==>
                  var s := net.conns[endpoint];
                  && s in net.sockets && OnlySocket(net, net', s) && net'.sending == net.sending[cmd := s]
                  && net'.sockets[s] == net.sockets[s].(carried := net.sockets[s].carried + {cmd}))
  {
    assert (events + [Carry(cmd)])[..|events|] == events;
    var net := After(events);
    assert Registry(net.conns, net.sockets) by { RunKeeps(events); }
    hide After;
  }

  /**
   The delivery ends: with fewer than eight frames in the channel it takes its place and is accepted,
   carried still; with eight it is not accepted, and the socket no longer carries it.
   */
  lemma SendExactly(net: Net, cmd: Id)
    requires cmd in net.sending && net.sending[cmd] in net.sockets
    ensures var s := net.sending[cmd];
            var net' := Step(net, TrySend(cmd));
            && OnlySocket(net, net', s) && cmd !in net'.sending
            && net' == net.(sockets := net'.sockets, sending := net.sending - {cmd}, accepted := net'.accepted)
            && (net.sockets[s].queued < 8 ==>
                  && net'.accepted == net.accepted + {cmd}
                  && net'.sockets[s] == net.sockets[s].(queued := net.sockets[s].queued + 1))
            && (net.sockets[s].queued >= 8 ==>
                  && net'.accepted == net.accepted
                  && net'.sockets[s] == net.sockets[s].(carried := net.sockets[s].carried - {cmd}))
  {
  }

  /** In every run, a command whose delivery was refused is carried by no socket. */
  lemma RefusedIsNotCarried(events: seq<Event>, cmd: Id, s: Id)
    requires var net := After(events); s in net.sockets && cmd !in net.accepted && cmd !in net.sending
    ensures cmd !in After(events).sockets[s].carried
  {
    CarriedIsOwed(events, s);
    hide After;
  }

  // ----- The life of a socket -----

  /**
   A socket is admitted exactly if the endpoint's slot is free, or held by the incumbent it replaces; it
   then holds the slot and serves, and no other slot or socket changes.
   */
  lemma AdmitExactly(net: Net, s: Id, incumbent: Option<Id>)
    requires s in net.sockets && net.sockets[s].phase == Dialing
    ensures var endpoint := net.sockets[s].endpoint;
            var net' := Step(net, if incumbent.Some? then Replace(incumbent.value, s) else Add(s));
            if endpoint !in net.conns || Some(net.conns[endpoint]) == incumbent then
              && OnlySocket(net, net', s) && net'.sockets[s] == net.sockets[s].(phase := Serving)
              && net' == net.(sockets := net'.sockets, conns := net.conns[endpoint := s])
            else net' == net
  {
  }

  /** A serving socket that is not answering gives up its slot, if it has it, and leaves; it carries what it carried. */
  lemma LeaveExactly(net: Net, s: Id)
    requires s in net.sockets && net.sockets[s].phase == Serving && s !in net.answering
    ensures var endpoint := net.sockets[s].endpoint;
            var net' := Step(net, Remove(s));
            && OnlySocket(net, net', s) && net'.sockets[s] == net.sockets[s].(phase := Leaving)
            && net' == net.(sockets := net'.sockets, conns := net'.conns)
            && (forall e :: e in net'.conns <==> e in net.conns && !(e == endpoint && net.conns[e] == s))
            && (forall e :: e in net'.conns ==> net'.conns[e] == net.conns[e])
  {
  }

  /** A leaving socket unwinds: what it carried is what it has left to settle, and it carries nothing. */
  lemma UnwindExactly(net: Net, s: Id)
    requires s in net.sockets && net.sockets[s].phase == Leaving
    ensures var c := net.sockets[s];
            var net' := Step(net, TakeUnanswered(s));
            && OnlySocket(net, net', s) && net' == net.(sockets := net'.sockets)
            && net'.sockets[s] == Socket(c.endpoint, Unwound, {}, c.carried, c.queued)
  {
  }

  /** Once its answer is written the socket carries everything but the command it named. */
  lemma AnsweredExactly(net: Net, s: Id)
    requires s in net.sockets && s in net.answering
    ensures var c := net.sockets[s];
            var net' := Step(net, Answered(s));
            && OnlySocket(net, net', s) && net' == net.(sockets := net'.sockets, answering := net.answering - {s})
            && net'.sockets[s] == c.(carried := c.carried - {net.answering[s]})
  {
  }

  /** Only a stopping server gives up what a socket has left to settle, and then all of it. */
  lemma GiveUpExactly(net: Net, s: Id)
    requires s in net.sockets
    ensures var net' := Step(net, GiveUp(s));
            if net.stopping then
              && OnlySocket(net, net', s) && net'.sockets[s] == net.sockets[s].(left := {})
              && net' == net.(sockets := net'.sockets, givenUp := net.givenUp + net.sockets[s].left)
            else net' == net
  {
  }
}
