/** Exactly when a tick starts a row and which it starts, told over the pending rows and the trace. */
module TickOrder {
  import opened ValidationTick

  /** Some of the organization's pending rows have not been started, and none of them runs. */
  predicate Waiting(pending: seq<Row>, trace: seq<Event>, org: Org) {
    org !in Running(trace) && |OfOrg(Rows(trace), org)| < |OfOrg(pending, org)|
  }

  lemma WaitingIsEligible(pending: seq<Row>, t: Tick, org: Org)
    requires Inv(pending, t)
    ensures Waiting(pending, t.trace, org) <==> Eligible(t, org)
    ensures Waiting(pending, t.trace, org) ==> org in t.orgs && t.next < |t.orgs|
  {
    if org in t.queues {
      assert |OfOrg(Rows(t.trace), org) + t.queues[org]| == |OfOrg(pending, org)|;
    } else {
      NotStarted(pending, org);
    }
  }

  /** In every run, the tick starts a row exactly while it is not stopped, fewer than four rows run, and some organization waits. */
  lemma StartsExactly(pending: seq<Row>, choices: seq<Choice>)
    ensures var t := Run(pending, choices);
            Run(pending, choices + [Go]).trace != t.trace <==>
            !t.stopped && |Running(t.trace)| < 4 && exists org :: Waiting(pending, t.trace, org)
  {
    RunKeeps(pending, choices);
    LastStep(pending, choices, Go);
    var t := Run(pending, choices);
    assert t.busy == Running(t.trace);
    if org :| Waiting(pending, t.trace, org) {
      WaitingIsEligible(pending, t, org);
      SomeTurn(t, org);
    }
    if CanStart(t) {
      WaitingIsEligible(pending, t, t.orgs[Place(t.next, Turn(t, 0), |t.orgs|)]);
    }
    hide Inv, Run, Waiting, Turn, Place, Eligible;
  }

  lemma SomeTurn(t: Tick, org: Org)
    requires Eligible(t, org) && org in t.orgs && t.next < |t.orgs|
    ensures Turn(t, 0) < |t.orgs|
  {
    hide Place, IndexOf;
    var d := Distance(t, org);
    assert Eligible(t, t.orgs[Place(t.next, d, |t.orgs|)]);
  }

  /** The event starts the organization's oldest row not yet started. */
  predicate StartsOldest(pending: seq<Row>, trace: seq<Event>, e: Event, org: Org) {
    Waiting(pending, trace, org) && e == Started(OfOrg(pending, org)[|OfOrg(Rows(trace), org)|])
  }

  /**
   In every run, a start takes the oldest row not yet started of a waiting organization, and of the
   waiting ones of the one fewest turns from its own.
   */
  lemma StartIsNearest(pending: seq<Row>, choices: seq<Choice>)
    requires Run(pending, choices + [Go]).trace != Run(pending, choices).trace
    ensures var t := Run(pending, choices);
            exists org, e :: Run(pending, choices + [Go]).trace == t.trace + [e] && StartsOldest(pending, t.trace, e, org)
              && org in t.orgs && t.next < |t.orgs|
              && forall other :: Waiting(pending, t.trace, other) ==> other in t.orgs && Distance(t, org) <= Distance(t, other)
  {
    RunKeeps(pending, choices);
    LastStep(pending, choices, Go);
    var t := Run(pending, choices);
    hide Run, Waiting, StartsOldest, Inv, Distance;
    var org := NearestOf(pending, t);
    var e := Started(t.queues[org][0]);
    assert StartsOldest(pending, t.trace, e, org);
  }

  lemma NearestOf(pending: seq<Row>, t: Tick) returns (org: Org)
    requires Inv(pending, t) && CanStart(t)
    ensures org in t.orgs && org in t.queues && t.queues[org] != []
    ensures StartsOldest(pending, t.trace, Started(t.queues[org][0]), org)
    ensures StartOne(t).trace == t.trace + [Started(t.queues[org][0])]
    ensures forall other :: Waiting(pending, t.trace, other) ==> other in t.orgs && Distance(t, org) <= Distance(t, other)
  {
    var turn := Turn(t, 0);
    org := t.orgs[Place(t.next, turn, |t.orgs|)];
    OldestIsFirst(pending, t, org);
    DistanceIs(pending, t, turn);
    hide Inv, Distance, Waiting, StartsOldest, Turn, Place;
    forall other | Waiting(pending, t.trace, other) ensures other in t.orgs && turn <= Distance(t, other) {
      WaitingIsEligible(pending, t, other);
      TurnWithin(t, other);
    }
  }

  lemma OldestIsFirst(pending: seq<Row>, t: Tick, org: Org)
    requires Inv(pending, t) && Eligible(t, org)
    ensures StartsOldest(pending, t.trace, Started(t.queues[org][0]), org)
  {
    WaitingIsEligible(pending, t, org);
    var started := OfOrg(Rows(t.trace), org);
    assert started + t.queues[org] == OfOrg(pending, org);
    assert t.queues[org][0] == OfOrg(pending, org)[|started|];
  }

  lemma DistanceIs(pending: seq<Row>, t: Tick, d: nat)
    requires t.orgs == Orgs(pending) && d < |t.orgs| && t.next < |t.orgs|
    ensures Distance(t, t.orgs[Place(t.next, d, |t.orgs|)]) == d
  {
    var place := Place(t.next, d, |t.orgs|);
    var j := IndexOf(t.orgs, t.orgs[place]);
    assert j == place;
  }

  /** A row of `a` comes before every row of `b`. */
  predicate ComesBefore(rows: seq<Row>, a: Org, b: Org) {
    exists k :: 0 <= k < |rows| && rows[k].org == a && forall m :: 0 <= m <= k ==> rows[m].org != b
  }

  lemma StillBefore(rows: seq<Row>, last: Row, a: Org, b: Org)
    requires ComesBefore(rows, a, b)
    ensures ComesBefore(rows + [last], a, b)
  {
    var k :| 0 <= k < |rows| && rows[k].org == a && forall m :: 0 <= m <= k ==> rows[m].org != b;
    assert forall m :: 0 <= m <= k ==> (rows + [last])[m] == rows[m];
  }

  lemma HasRow(rows: seq<Row>, a: Org)
    requires a in Orgs(rows)
    ensures exists k :: 0 <= k < |rows| && rows[k].org == a
  {
    assert OfOrg(rows, a) != [];
    hide Orgs, OfOrg;
    OfOrgOwn(rows, a);
    OwnIsPending(rows, a);
    assert OfOrg(rows, a)[0] in rows;
  }

  lemma NotAmong(rows: seq<Row>, b: Org, m: nat)
    requires b !in Orgs(rows) && m < |rows|
    ensures rows[m].org != b
  {
    assert rows[m] in rows;
  }

  lemma FirstOfOrg(rows: seq<Row>, last: Row, a: Org)
    requires a in Orgs(rows) && last.org !in Orgs(rows)
    ensures ComesBefore(rows + [last], a, last.org)
  {
    HasRow(rows, a);
    hide Orgs;
    var k :| 0 <= k < |rows| && rows[k].org == a;
    forall m | 0 <= m <= k ensures (rows + [last])[m].org != last.org {
      NotAmong(rows, last.org, m);
    }
    assert (rows + [last])[k].org == a;
  }

  /** The organizations take their turns in the order their first rows are pending. */
  lemma {:induction false} TurnsInOrder(pending: seq<Row>, i: nat, j: nat)
    requires i < j < |Orgs(pending)|
    ensures ComesBefore(pending, Orgs(pending)[i], Orgs(pending)[j])
  {
    var n := |pending| - 1;
    var front, last := pending[..n], pending[n];
    assert pending == front + [last];
    OrgsPush(front, last);
    hide Orgs, ComesBefore;
    if j < |Orgs(front)| {
      TurnsInOrder(front, i, j);
      StillBefore(front, last, Orgs(front)[i], Orgs(front)[j]);
    } else {
      FirstOfOrg(front, last, Orgs(front)[i]);
    }
  }
}
