/**
 The registry and its sockets as the server holds them. Each method is one region the server runs
 under a lock, or one store call, and moves the fields as the step of that name does; so any order
 of calls is a run of the state machine, and its theorems hold of the fields.
 */
module AgentRegistry {
  import opened Options
  import opened AgentSessions

  /** The steps taken one after the other. */
  function Steps(net: Net, events: seq<Event>): (net': Net) {
    if events == [] then net else Step(Steps(net, events[..|events| - 1]), events[|events| - 1])
  }

  lemma {:induction false} StepsKeep(net: Net, events: seq<Event>)
    requires Inv(net)
    ensures Inv(Steps(net, events))
  {
    hide Inv, Step;
    if events != [] {
      StepsKeep(net, events[..|events| - 1]);
      StepKeeps(Steps(net, events[..|events| - 1]), events[|events| - 1]);
    }
  }

  /** The ids whose write the store refuses, in order. */
  function Refused(ids: seq<Id>, refused: set<Id>): (left: seq<Id>)
    ensures forall id :: id in left <==> id in ids && id in refused
  {
    if ids == [] then []
    else Refused(ids[..|ids| - 1], refused) + (if ids[|ids| - 1] in refused then [ids[|ids| - 1]] else [])
  }

  /** One settling write for each id the store accepts, in order. */
  function Settles(s: Id, ids: seq<Id>, refused: set<Id>): (events: seq<Event>) {
    if ids == [] then []
    else Settles(s, ids[..|ids| - 1], refused) +
         (if ids[|ids| - 1] in refused then [] else [SettleLeft(s, ids[|ids| - 1])])
  }

  /** A pass over one id more. */
  lemma PassGrows(net: Net, s: Id, ids: seq<Id>, refused: set<Id>, id: Id)
    ensures Refused(ids + [id], refused) == Refused(ids, refused) + (if id in refused then [id] else [])
    ensures var events := Settles(s, ids, refused);
            Steps(net, Settles(s, ids + [id], refused)) ==
            if id in refused then Steps(net, events) else Step(Steps(net, events), SettleLeft(s, id))
  {
    hide Step;
    assert (ids + [id])[..|ids + [id]| - 1] == ids;
    var events := Settles(s, ids + [id], refused);
    if id in refused {
      assert events == Settles(s, ids, refused);
    } else {
      assert events[..|events| - 1] == Settles(s, ids, refused);
    }
  }

  lemma PassStarts(net: Net, s: Id, refused: set<Id>)
    ensures Steps(net, Settles(s, [], refused)) == net && Refused([], refused) == []
  {
  }

  /** What a pass over `ids` leaves of a list. */
  function Rest(list: set<Id>, ids: seq<Id>, refused: set<Id>): (rest: set<Id>) {
    set id | id in list && (id !in ids || id in refused)
  }

  lemma RestGrows(list: set<Id>, ids: seq<Id>, refused: set<Id>, id: Id)
    ensures Rest(list, [], refused) == list
    ensures Rest(list, ids + [id], refused) == Rest(list, ids, refused) - (if id in refused then {} else {id})
  {
  }

  /** After a pass, the socket's list is exactly what the store refused of it. */
  lemma {:induction false} PassLeavesRefused(net: Net, s: Id, ids: seq<Id>, refused: set<Id>)
    requires s in net.sockets
    ensures var net' := Steps(net, Settles(s, ids, refused));
            s in net'.sockets && net'.sockets[s] == net.sockets[s].(left := Rest(net.sockets[s].left, ids, refused))
  {
    hide Step, Rest;
    if ids == [] {
      RestGrows(net.sockets[s].left, [], refused, s);
    } else {
      var id, before := ids[|ids| - 1], ids[..|ids| - 1];
      PassLeavesRefused(net, s, before, refused);
      assert ids == before + [id];
      hide Settles, Steps, Refused;
      PassGrows(net, s, before, refused, id);
      OneLeaves(Steps(net, Settles(s, before, refused)), s, id);
      RestGrows(net.sockets[s].left, before, refused, id);
    }
  }

  lemma OneLeaves(net: Net, s: Id, cmd: Id)
    requires s in net.sockets
    ensures var net' := Step(net, SettleLeft(s, cmd));
            s in net'.sockets && net'.sockets[s] == net.sockets[s].(left := net.sockets[s].left - {cmd})
  {
    if cmd !in net.sockets[s].left {
      assert net.sockets[s].left - {cmd} == net.sockets[s].left;
    }
  }

  /** A write the store accepts settles the command. */
  lemma OneSettles(net: Net, s: Id, cmd: Id)
    requires Inv(net) && s in net.sockets && cmd in net.sockets[s].left
    ensures Done(Step(net, SettleLeft(s, cmd)).commands, cmd)
  {
    assert SocketOk(net.sockets[s], net.commands);
    hide Inv;
  }

  /** After a pass, every id on the list that the store did not refuse has an outcome. */
  lemma {:induction false} PassSettles(net: Net, s: Id, ids: seq<Id>, refused: set<Id>, cmd: Id)
    requires Inv(net) && s in net.sockets && cmd in net.sockets[s].left
    requires cmd in ids && cmd !in refused
    ensures Done(Steps(net, Settles(s, ids, refused)).commands, cmd)
  {
    hide Inv, Step, Done;
    var id, before := ids[|ids| - 1], ids[..|ids| - 1];
    assert ids == before + [id];
    PassGrows(net, s, before, refused, id);
    var mid := Steps(net, Settles(s, before, refused));
    if cmd in before {
      PassSettles(net, s, before, refused, cmd);
      OutcomeStays(mid, SettleLeft(s, id), cmd);
    } else {
      PassLeavesRefused(net, s, before, refused);
      StepsKeep(net, Settles(s, before, refused));
      OneSettles(mid, s, cmd);
    }
  }

  /** What the first two steps of a session's end make of its socket. */
  lemma EndPhases(net: Net, s: Id)
    requires Enabled(net, Remove(s))
    ensures var gone := Step(net, Remove(s));
            var taken := Step(gone, TakeUnanswered(s));
            && Enabled(gone, TakeUnanswered(s))
            && s in taken.sockets && taken.sockets[s].phase == Unwound && taken.sockets[s].left == net.sockets[s].carried
  {
  }

  class Server {
    var conns: map<Id, Id>
    var sockets: map<Id, Socket>
    var commands: map<Id, Command>
    var tried: set<Id>
    var sending: map<Id, Id>
    var accepted: set<Id>
    var answering: map<Id, Id>
    var stopping: bool
    var givenUp: set<Id>

    ghost function View(): (net: Net)
      reads this
    {
      Net(conns, sockets, commands, tried, sending, accepted, answering, stopping, givenUp)
    }

    constructor ()
      ensures View() == EMPTY
    {
      conns, sockets, commands, tried := map[], map[], map[], {};
      sending, accepted, answering, stopping, givenUp := map[], {}, map[], false, {};
    }

    /** The incumbent that holds the endpoint, or nothing and the socket is registered. */
    method AddConn(s: Id) returns (incumbent: Option<Id>)
      requires Enabled(View(), Add(s))
      modifies this
      ensures View() == Step(old(View()), Add(s))
      ensures incumbent.None? <==> old(sockets[s].endpoint !in conns)
      ensures incumbent.Some? ==> View() == old(View()) && conns[sockets[s].endpoint] == incumbent.value
    {
      var c := sockets[s];
      if c.endpoint in conns {
        return Some(conns[c.endpoint]);
      }
      conns := conns[c.endpoint := s];
      sockets := sockets[s := c.(phase := Serving)];
      incumbent := None;
    }

    /** Hands the endpoint from one socket to the next in one step, unless a third one holds it. */
    method ReplaceConn(incumbent: Id, s: Id) returns (ok: bool)
      requires Enabled(View(), Replace(incumbent, s))
      modifies this
      ensures View() == Step(old(View()), Replace(incumbent, s))
      ensures ok <==> old(sockets[s].endpoint in conns ==> conns[sockets[s].endpoint] == incumbent)
      ensures ok ==> sockets[s].endpoint in conns && conns[sockets[s].endpoint] == s
      ensures !ok ==> View() == old(View())
    {
      var c := sockets[s];
      if c.endpoint in conns && conns[c.endpoint] != incumbent {
        return false;
      }
      conns := conns[c.endpoint := s];
      sockets := sockets[s := c.(phase := Serving)];
      ok := true;
    }

    /** Frees the slot only while this socket holds it. */
    method RemoveConn(s: Id)
      requires Enabled(View(), Remove(s))
      modifies this
      ensures View() == Step(old(View()), Remove(s))
      ensures forall e :: e in old(conns) && old(conns)[e] != s ==> e in conns && conns[e] == old(conns)[e]
    {
      var c := sockets[s];
      if c.endpoint in conns && conns[c.endpoint] == s {
        conns := conns - {c.endpoint};
      }
      sockets := sockets[s := c.(phase := Leaving)];
    }

    /** The locked half of deliverCommand: the socket holding the endpoint, if any, now carries the command. */
    method CarryOnConn(cmd: Id) returns (conn: Option<Id>)
      requires Enabled(View(), Carry(cmd)) && Inv(View())
      modifies this
      ensures View() == Step(old(View()), Carry(cmd))
      ensures conn.Some? <==> commands[cmd].endpoint in conns
      ensures conn.Some? ==> conn.value in sockets && cmd in sockets[conn.value].carried && cmd in sending
    {
      tried := tried + {cmd};
      var endpoint := commands[cmd].endpoint;
      if endpoint !in conns {
        return None;
      }
      var s := conns[endpoint];
      sockets := sockets[s := sockets[s].(carried := sockets[s].carried + {cmd})];
      sending := sending[cmd := s];
      conn := Some(s);
    }

    /** The rest of deliverCommand: true exactly when the channel had room, and then the command is accepted. */
    method SendOnConn(cmd: Id) returns (taken: bool)
      requires Enabled(View(), TrySend(cmd))
      modifies this
      ensures View() == Step(old(View()), TrySend(cmd))
      ensures taken <==> old(sockets[sending[cmd]].queued < SEND_QUEUE)
      ensures taken ==> cmd in accepted
    {
      var s := sending[cmd];
      var c := sockets[s];
      sending := sending - {cmd};
      if c.queued < SEND_QUEUE {
        sockets := sockets[s := c.(queued := c.queued + 1)];
        accepted := accepted + {cmd};
        return true;
      }
      sockets := sockets[s := c.(carried := c.carried - {cmd})];
      taken := false;
    }

    /** The store's write of one outcome. */
    method SettleCommand(endpoint: Id, cmd: Id, outcome: Outcome)
      modifies `commands
      ensures commands == Settled(old(commands), endpoint, cmd, outcome)
      ensures commands.Keys == old(commands.Keys) && forall c :: c in commands && c != cmd ==> commands[c] == old(commands)[c]
      ensures cmd in commands && commands[cmd].endpoint == endpoint && old(commands)[cmd].outcome.None? ==>
                commands[cmd] == Command(endpoint, Some(outcome))
    {
      if cmd in commands && commands[cmd].endpoint == endpoint && commands[cmd].outcome.None? {
        commands := commands[cmd := commands[cmd].(outcome := Some(outcome))];
      }
    }

    /** Any other frame takes its place in the channel, or is not taken. */
    method Deliver(s: Id) returns (taken: bool)
      requires s in sockets
      modifies `sockets
      ensures View() == Step(old(View()), Frame(s))
      ensures taken <==> old(sockets[s].queued < SEND_QUEUE)
    {
      taken := sockets[s].queued < SEND_QUEUE;
      if taken {
        sockets := sockets[s := sockets[s].(queued := sockets[s].queued + 1)];
      }
    }

    /** The locked part of a socket's end: what it carried becomes its list of commands to settle, in any order. */
    method Unanswered(s: Id) returns (ids: seq<Id>)
      requires Enabled(View(), TakeUnanswered(s))
      modifies this
      ensures View() == Step(old(View()), TakeUnanswered(s))
      ensures s in sockets && forall id :: id in ids <==> id in sockets[s].left
    {
      var c := sockets[s];
      ids := [];
      var todo := c.carried;
      while todo != {}
        invariant todo <= c.carried && forall id :: id in ids <==> id in c.carried && id !in todo
        invariant View() == old(View())
        decreases |todo|
      {
        var id :| id in todo;
        todo := todo - {id};
        ids := ids + [id];
      }
      sockets := sockets[s := c.(phase := Unwound, left := c.carried, carried := {})];
    }

    /**
     A session's end: the slot is freed, what the socket carried is taken, and one settling pass is
     made; what the store refused is what is left to retry.
     */
    method EndSession(s: Id, refused: set<Id>) returns (left: seq<Id>)
      requires Enabled(View(), Remove(s)) && Inv(View())
      modifies this
      ensures Inv(View()) && s in sockets && sockets[s].phase == Unwound
      ensures forall id :: id in left <==> id in sockets[s].left
      ensures forall id :: id in left <==> id in old(sockets[s].carried) && id in refused
      ensures forall id :: id in old(sockets[s].carried) && id !in refused ==> Done(commands, id)
    {
      EndPhases(View(), s);
      StepKeeps(View(), Remove(s));
      hide Inv, Step;
      RemoveConn(s);
      StepKeeps(View(), TakeUnanswered(s));
      var ids := Unanswered(s);
      ghost var mid := View();
      left := SettleCarried(s, ids, refused);
      PassLeavesRefused(mid, s, ids, refused);
    }

    /**
     One pass over the unanswered commands. What the store refused comes back and stays on the
     list; everything else the socket was to settle has an outcome.
     */
    method SettleCarried(s: Id, ids: seq<Id>, refused: set<Id>) returns (left: seq<Id>)
      requires s in sockets && (forall id :: id in ids <==> id in sockets[s].left)
      requires Inv(View())
      modifies `sockets, `commands
      ensures View() == Steps(old(View()), Settles(s, ids, refused)) && Inv(View())
      ensures left == Refused(ids, refused)
      ensures s in sockets && forall id :: id in left <==> id in sockets[s].left
      ensures forall id :: id in ids && id !in refused ==> Done(commands, id)
    {
      left := [];
      ghost var start := View();
      hide Step, Inv, Settles, Refused, Steps, Done;
      assert ids[..0] == [];
      PassStarts(start, s, refused);
      for n := 0 to |ids|
        invariant s in sockets && View() == Steps(start, Settles(s, ids[..n], refused))
        invariant left == Refused(ids[..n], refused)
      {
        assert ids[..n + 1] == ids[..n] + [ids[n]];
        PassGrows(start, s, ids[..n], refused, ids[n]);
        PassLeavesRefused(start, s, ids[..n + 1], refused);
        if ids[n] in refused {
          left := left + [ids[n]];
        } else {
          SettleOne(s, ids[n]);
        }
      }
      assert ids[..|ids|] == ids;
      PassLeavesRefused(start, s, ids, refused);
      StepsKeep(start, Settles(s, ids, refused));
      forall id | id in ids && id !in refused ensures Done(commands, id) {
        PassSettles(start, s, ids, refused, id);
      }
    }

    /** One settling write, and the id leaves the list. */
    method SettleOne(s: Id, cmd: Id)
      requires s in sockets
      modifies `sockets, `commands
      ensures View() == Step(old(View()), SettleLeft(s, cmd))
    {
      var c := sockets[s];
      if cmd in c.left {
        SettleCommand(c.endpoint, cmd, Unknown);
        sockets := sockets[s := c.(left := c.left - {cmd})];
      }
    }
  }
}
