/**
 One tick of the validation workers. A choice is what the scheduler cannot foresee: which running row
 finishes next, and when shutdown stops new ones. A run is any sequence of choices.
 */
module ValidationTick {
  type Org = string

  const WORKERS: nat := 4

  datatype Row = Row(org: Org, id: string)
  datatype Event = Started(row: Row) | Finished(org: Org)
  datatype Choice = Go | Done(org: Org) | Stop

  /** `next` is the place in `orgs` whose turn is next. */
  datatype Tick = Tick(orgs: seq<Org>, queues: map<Org, seq<Row>>, busy: set<Org>, next: nat, trace: seq<Event>, stopped: bool)

  function OfOrg(rows: seq<Row>, org: Org): (own: seq<Row>) {
    if rows == [] then []
    else OfOrg(rows[..|rows| - 1], org) + if rows[|rows| - 1].org == org then [rows[|rows| - 1]] else []
  }

  /** The organizations in the order their first row comes. */
  function Orgs(rows: seq<Row>): (orgs: seq<Org>)
    ensures forall i, j :: 0 <= i < j < |orgs| ==> orgs[i] != orgs[j]
    ensures forall row :: row in rows ==> row.org in orgs
    ensures forall org :: org in orgs ==> OfOrg(rows, org) != []
  {
    if rows == [] then []
    else
      var orgs, last := Orgs(rows[..|rows| - 1]), rows[|rows| - 1];
      assert forall row :: row in rows ==> row in rows[..|rows| - 1] || row == last;
      if last.org in orgs then orgs else orgs + [last.org]
  }

  function Setup(pending: seq<Row>): (t: Tick) {
    Tick(Orgs(pending), map org | org in Orgs(pending) :: OfOrg(pending, org), {}, 0, [], false)
  }

  predicate Eligible(t: Tick, org: Org) {
    org in t.queues && org !in t.busy && t.queues[org] != []
  }

  /** The place `i` turns after `next`, going round. */
  function Place(next: nat, i: nat, n: nat): (place: nat)
    requires next < n && i < n
    ensures place < n && place == (next + i) % n
  {
    if next + i < n then next + i else GoesRound(next + i, n); next + i - n
  }

  lemma GoesRound(x: nat, n: nat)
    requires 0 < n <= x < 2 * n
    ensures x % n == x - n
  {
    assert x == 1 * n + (x - n);
    assert x / n == 1;
  }

  /** How many turns on the first eligible organization is, or as many as there are when none is. */
  function Turn(t: Tick, i: nat): (turn: nat)
    requires t.next < |t.orgs| && i <= |t.orgs|
    ensures i <= turn <= |t.orgs|
    ensures turn < |t.orgs| ==> Eligible(t, t.orgs[Place(t.next, turn, |t.orgs|)])
    ensures forall k :: i <= k < turn ==> !Eligible(t, t.orgs[Place(t.next, k, |t.orgs|)])
    decreases |t.orgs| - i
  {
    if i == |t.orgs| || Eligible(t, t.orgs[Place(t.next, i, |t.orgs|)]) then i else Turn(t, i + 1)
  }

  predicate CanStart(t: Tick) {
    && |t.busy| < WORKERS && !t.stopped
    && t.next < |t.orgs| && Turn(t, 0) < |t.orgs|
  }

  function StartOne(t: Tick): (t': Tick)
    requires CanStart(t)
  {
    var n := |t.orgs|;
    var org := t.orgs[Place(t.next, Turn(t, 0), n)];
    t.(next := (t.next + Turn(t, 0) + 1) % n, busy := t.busy + {org},
       queues := t.queues[org := t.queues[org][1..]], trace := t.trace + [Started(t.queues[org][0])])
  }

  /** A tick waits for a row only when it cannot start one. */
  function Step(t: Tick, c: Choice): (t': Tick) {
    match c
    case Go => if CanStart(t) then StartOne(t) else t
    case Done(org) => if !CanStart(t) && org in t.busy then t.(busy := t.busy - {org}, trace := t.trace + [Finished(org)]) else t
    case Stop => t.(stopped := true)
  }

  function Run(pending: seq<Row>, choices: seq<Choice>): (t: Tick) {
    if choices == [] then Setup(pending) else Step(Run(pending, choices[..|choices| - 1]), choices[|choices| - 1])
  }

  /** Nothing runs and nothing can start: the tick returns. */
  predicate Ended(t: Tick) {
    t.busy == {} && !CanStart(t)
  }

  // ----- What a trace says -----

  function Rows(trace: seq<Event>): (rows: seq<Row>) {
    if trace == [] then []
    else Rows(trace[..|trace| - 1]) + if trace[|trace| - 1].Started? then [trace[|trace| - 1].row] else []
  }

  function Running(trace: seq<Event>): (busy: set<Org>) {
    if trace == [] then {}
    else
      var last := trace[|trace| - 1];
      if last.Started? then Running(trace[..|trace| - 1]) + {last.row.org} else Running(trace[..|trace| - 1]) - {last.org}
  }

  /** At every moment at most four rows run, and no two of one organization. */
  predicate Orderly(trace: seq<Event>) {
    trace == [] ||
    var last, before := trace[|trace| - 1], trace[..|trace| - 1];
    && Orderly(before) && |Running(trace)| <= WORKERS
    && if last.Started? then last.row.org !in Running(before) else last.org in Running(before)
  }

  // ----- The invariant -----

  /** What an organization has started and what it has queued are its pending rows, in order. */
  ghost predicate Shared(pending: seq<Row>, orgs: seq<Org>, queues: map<Org, seq<Row>>, started: seq<Row>) {
    && (forall org :: org in orgs <==> org in queues)
    && (forall org :: org in queues ==> OfOrg(started, org) + queues[org] == OfOrg(pending, org))
    && (forall row :: row in started ==> row.org in orgs)
  }

  ghost predicate Queues(pending: seq<Row>, t: Tick) {
    t.orgs == Orgs(pending) && Shared(pending, t.orgs, t.queues, Rows(t.trace))
  }

  ghost predicate Inv(pending: seq<Row>, t: Tick) {
    && Queues(pending, t)
    && t.busy == Running(t.trace) && |t.busy| <= WORKERS
    && Orderly(t.trace)
    && (t.orgs != [] ==> t.next < |t.orgs|)
  }

  lemma TracePush(trace: seq<Event>, e: Event)
    ensures Rows(trace + [e]) == if e.Started? then Rows(trace) + [e.row] else Rows(trace)
    ensures Running(trace + [e]) == if e.Started? then Running(trace) + {e.row.org} else Running(trace) - {e.org}
  {
    assert (trace + [e])[..|trace|] == trace;
  }

  lemma OrderlyPush(trace: seq<Event>, e: Event)
    requires Orderly(trace) && |Running(trace + [e])| <= WORKERS
    requires if e.Started? then e.row.org !in Running(trace) else e.org in Running(trace)
    ensures Orderly(trace + [e])
  {
    hide Running;
    assert (trace + [e])[..|trace|] == trace;
  }

  lemma OfOrgPush(rows: seq<Row>, row: Row, org: Org)
    ensures OfOrg(rows + [row], org) == OfOrg(rows, org) + if row.org == org then [row] else []
  {
    assert (rows + [row])[..|rows|] == rows;
  }

  lemma {:induction false} OfOrgOwn(rows: seq<Row>, org: Org)
    ensures forall row :: row in OfOrg(rows, org) ==> row.org == org
  {
    if rows != [] {
      OfOrgOwn(rows[..|rows| - 1], org);
    }
  }

  /** The row a start takes is its organization's own, the oldest not yet started. */
  lemma HeadIsOwn(pending: seq<Row>, t: Tick, org: Org)
    requires Queues(pending, t) && org in t.queues && t.queues[org] != []
    ensures t.queues[org][0].org == org
  {
    OfOrgOwn(pending, org);
    var all := OfOrg(Rows(t.trace), org) + t.queues[org];
    assert t.queues[org][0] in all;
  }

  /** Moving an organization's oldest row from its queue to the started rows leaves their sum as it was. */
  lemma MovesOne(rows: seq<Row>, queue: seq<Row>, row: Row, org: Org)
    ensures queue != [] && row == queue[0] && row.org == org ==> OfOrg(rows + [row], org) + queue[1..] == OfOrg(rows, org) + queue
    ensures row.org != org ==> OfOrg(rows + [row], org) == OfOrg(rows, org)
  {
    OfOrgPush(rows, row, org);
    hide OfOrg;
    if queue != [] {
      assert (OfOrg(rows, org) + [queue[0]]) + queue[1..] == OfOrg(rows, org) + queue;
    }
  }

  lemma MoveKeepsShared(pending: seq<Row>, orgs: seq<Org>, queues: map<Org, seq<Row>>, started: seq<Row>, org: Org)
    requires Shared(pending, orgs, queues, started) && org in queues && queues[org] != [] && queues[org][0].org == org
    ensures Shared(pending, orgs, queues[org := queues[org][1..]], started + [queues[org][0]])
  {
    hide OfOrg;
    forall o | o in queues ensures OfOrg(started + [queues[org][0]], o) + queues[org := queues[org][1..]][o] == OfOrg(pending, o) {
      MovesOne(started, queues[o], queues[org][0], o);
    }
  }

  lemma StartKeepsQueues(pending: seq<Row>, t: Tick)
    requires Queues(pending, t) && CanStart(t)
    ensures Queues(pending, StartOne(t))
  {
    var org := t.orgs[Place(t.next, Turn(t, 0), |t.orgs|)];
    HeadIsOwn(pending, t, org);
    hide Orgs, Turn, Place, Rows, Shared;
    TracePush(t.trace, Started(t.queues[org][0]));
    MoveKeepsShared(pending, t.orgs, t.queues, Rows(t.trace), org);
  }

  lemma StartKeeps(pending: seq<Row>, t: Tick)
    requires Inv(pending, t) && CanStart(t)
    ensures Inv(pending, StartOne(t))
  {
    StartKeepsQueues(pending, t);
    var org := t.orgs[Place(t.next, Turn(t, 0), |t.orgs|)];
    HeadIsOwn(pending, t, org);
    hide Queues, Orderly, Turn, Place;
    TracePush(t.trace, Started(t.queues[org][0]));
    OrderlyPush(t.trace, Started(t.queues[org][0]));
  }

  lemma FinishKeeps(pending: seq<Row>, t: Tick, org: Org)
    requires Inv(pending, t) && !CanStart(t) && org in t.busy
    ensures Inv(pending, Step(t, Done(org)))
  {
    hide Orderly, CanStart, Orgs, OfOrg, Rows, Running;
    assert |t.busy - {org}| <= |t.busy|;
    TracePush(t.trace, Finished(org));
    OrderlyPush(t.trace, Finished(org));
  }

  lemma StepKeeps(pending: seq<Row>, t: Tick, c: Choice)
    requires Inv(pending, t)
    ensures Inv(pending, Step(t, c))
  {
    match c
    case Go =>
      if CanStart(t) {
        StartKeeps(pending, t);
      }
    case Done(org) =>
      if !CanStart(t) && org in t.busy {
        FinishKeeps(pending, t, org);
      }
    case Stop =>
  }

  lemma {:induction false} RunKeeps(pending: seq<Row>, choices: seq<Choice>)
    ensures Inv(pending, Run(pending, choices))
  {
    hide Inv, Step;
    if choices == [] {
      SetupOk(pending);
    } else {
      RunKeeps(pending, choices[..|choices| - 1]);
      StepKeeps(pending, Run(pending, choices[..|choices| - 1]), choices[|choices| - 1]);
    }
  }

  lemma SetupOk(pending: seq<Row>)
    ensures Inv(pending, Setup(pending))
  {
    forall org | org in Orgs(pending) ensures OfOrg([], org) + OfOrg(pending, org) == OfOrg(pending, org) {
    }
  }

  // ----- What follows -----

  /** In every run, at most four rows at once and one per organization, each organization's in order. */
  lemma OneAtATime(pending: seq<Row>, choices: seq<Choice>, org: Org)
    ensures var t := Run(pending, choices); Orderly(t.trace) && OfOrg(Rows(t.trace), org) <= OfOrg(pending, org)
  {
    RunKeeps(pending, choices);
    var t := Run(pending, choices);
    if org !in t.queues {
      NotStarted(Rows(t.trace), org);
    }
  }

  lemma {:induction false} NotStarted(rows: seq<Row>, org: Org)
    requires forall row :: row in rows ==> row.org != org
    ensures OfOrg(rows, org) == []
  {
    if rows != [] {
      NotStarted(rows[..|rows| - 1], org);
    }
  }

  lemma {:induction false} CountedByOrg(rows: seq<Row>, row: Row)
    ensures multiset(rows)[row] == multiset(OfOrg(rows, row.org))[row]
  {
    if rows != [] {
      CountedByOrg(rows[..|rows| - 1], row);
      assert rows == rows[..|rows| - 1] + [rows[|rows| - 1]];
    }
  }

  /** In every run, no row is started more often than it is pending. */
  lemma NoneTwice(pending: seq<Row>, choices: seq<Choice>)
    ensures multiset(Rows(Run(pending, choices).trace)) <= multiset(pending)
    ensures |Rows(Run(pending, choices).trace)| <= |pending|
  {
    var rows := Rows(Run(pending, choices).trace);
    forall row ensures multiset(rows)[row] <= multiset(pending)[row] {
      CountedByOrg(pending, row);
      CountedByOrg(rows, row);
      OneAtATime(pending, choices, row.org);
      PrefixCounts(OfOrg(rows, row.org), OfOrg(pending, row.org), row);
    }
    assert multiset(pending) == multiset(rows) + (multiset(pending) - multiset(rows));
    assert |multiset(rows)| == |rows| && |multiset(pending)| == |pending|;
  }

  /** A tick that was not stopped ends having started every row, as often as it is pending. */
  lemma AllStarted(pending: seq<Row>, choices: seq<Choice>)
    requires Ended(Run(pending, choices)) && !Run(pending, choices).stopped
    ensures multiset(Rows(Run(pending, choices).trace)) == multiset(pending)
  {
    RunKeeps(pending, choices);
    var t := Run(pending, choices);
    forall row ensures multiset(Rows(t.trace))[row] == multiset(pending)[row] {
      CountedByOrg(pending, row);
      CountedByOrg(Rows(t.trace), row);
      EmptyQueue(pending, t, row.org);
    }
  }

  lemma PrefixCounts(a: seq<Row>, b: seq<Row>, row: Row)
    requires a <= b
    ensures multiset(a)[row] <= multiset(b)[row]
  {
    assert b == a + b[|a|..];
  }

  lemma EmptyQueue(pending: seq<Row>, t: Tick, org: Org)
    requires Inv(pending, t) && Ended(t) && !t.stopped
    ensures OfOrg(Rows(t.trace), org) == OfOrg(pending, org)
  {
    if org in t.queues {
      NotEligible(t, org);
      hide CanStart, Orderly, Running;
      assert OfOrg(Rows(t.trace), org) + [] == OfOrg(Rows(t.trace), org);
    } else {
      NotStarted(Rows(t.trace), org);
      NotStarted(pending, org);
    }
  }

  lemma NotEligible(t: Tick, org: Org)
    requires org in t.orgs && t.next < |t.orgs| && t.busy == {} && !t.stopped && !CanStart(t)
    ensures !Eligible(t, org)
  {
    hide Place, IndexOf;
    var d := Distance(t, org);
    assert !Eligible(t, t.orgs[Place(t.next, d, |t.orgs|)]);
  }

  /** A tick never blocks: unless it has ended, it can start a row or one of those running can finish. */
  lemma NeverStuck(pending: seq<Row>, choices: seq<Choice>)
    requires !Ended(Run(pending, choices))
    ensures var t := Run(pending, choices);
            || Step(t, Go).trace != t.trace
            || exists org :: org in t.busy && Step(t, Done(org)).trace == t.trace + [Finished(org)]
  {
    var t := Run(pending, choices);
    hide Run, Turn;
    if !CanStart(t) {
      var org :| org in t.busy;
      assert Step(t, Done(org)).trace == t.trace + [Finished(org)];
    }
  }

  // ----- Turns -----

  function IndexOf(orgs: seq<Org>, org: Org): (j: nat)
    requires org in orgs
    ensures j < |orgs| && orgs[j] == org
  {
    if orgs[0] == org then 0 else 1 + IndexOf(orgs[1..], org)
  }

  /** How many turns an organization is from its own. */
  function Distance(t: Tick, org: Org): (d: nat)
    requires org in t.orgs && t.next < |t.orgs|
    ensures d < |t.orgs| && t.orgs[Place(t.next, d, |t.orgs|)] == org
  {
    var j := IndexOf(t.orgs, org);
    if j >= t.next then j - t.next else j + |t.orgs| - t.next
  }

  /** Starting another organization while this one is eligible brings its turn nearer. */
  lemma PassingBringsNearer(t: Tick, org: Org)
    requires CanStart(t) && Eligible(t, org) && org in t.orgs
    ensures var t' := StartOne(t);
            && org in t'.queues && t'.orgs == t.orgs && t'.next < |t.orgs|
            && (t.queues[org] == t'.queues[org] ==> Eligible(t', org) && Distance(t', org) < Distance(t, org))
  {
    var n, turn := |t.orgs|, Turn(t, 0);
    TurnWithin(t, org);
    hide Turn, IndexOf;
    var picked := t.orgs[Place(t.next, turn, n)];
    if picked == org {
      assert |StartOne(t).queues[org]| < |t.queues[org]|;
    } else {
      NextPlace(t.next, turn, n);
      Nearer(t.next, turn + 1, IndexOf(t.orgs, org), n);
    }
  }

  lemma TurnWithin(t: Tick, org: Org)
    requires CanStart(t) && Eligible(t, org) && org in t.orgs
    ensures Turn(t, 0) <= Distance(t, org)
  {
    hide Place, IndexOf;
  }

  lemma NextPlace(next: nat, turn: nat, n: nat)
    requires next < n && turn < n
    ensures (next + turn + 1) % n < n
    ensures turn + 1 < n ==> (next + turn + 1) % n == Place(next, turn + 1, n)
  {
  }

  lemma Nearer(next: nat, steps: nat, j: nat, n: nat)
    requires next < n && j < n && 0 < steps <= (if j >= next then j - next else j + n - next)
    ensures var moved := Place(next, steps, n);
            (if j >= moved then j - moved else j + n - moved) < (if j >= next then j - next else j + n - next)
  {
  }

  /** The rows started in a stretch of a trace. */
  function Starts(trace: seq<Event>): (n: nat) {
    |Rows(trace)|
  }

  /**
   In every run, from any moment an organization is eligible until its turn comes, at most n - 1
   rows of other organizations are started, n being the number of organizations with work.
   */
  lemma {:induction false} PassedOverAtMost(pending: seq<Row>, before: seq<Choice>, more: seq<Choice>, org: Org)
    requires Eligible(Run(pending, before), org)
    requires OfOrg(Rows(Run(pending, before + more).trace), org) == OfOrg(Rows(Run(pending, before).trace), org)
    ensures var t, t' := Run(pending, before), Run(pending, before + more);
            && Eligible(t', org) && org in t'.orgs && t'.next < |t'.orgs|
            && Starts(t'.trace) - Starts(t.trace) + Distance(t', org) <= |t'.orgs| - 1
  {
    RunKeeps(pending, before);
    hide *;
    if more == [] {
      assert before + more == before;
      AtFirst(pending, Run(pending, before), org);
    } else {
      var most, c := more[..|more| - 1], more[|more| - 1];
      assert before + more == before + most + [c];
      RunKeeps(pending, before + most);
      LastStep(pending, before + most, c);
      Between(pending, before, most, c, org);
      PassedOverAtMost(pending, before, most, org);
      OneMore(pending, Run(pending, before + most), c, org);
    }
  }

  lemma AtFirst(pending: seq<Row>, t: Tick, org: Org)
    requires Inv(pending, t) && Eligible(t, org)
    ensures org in t.orgs && t.next < |t.orgs| && Distance(t, org) <= |t.orgs| - 1
  {
    hide Distance, Orderly, Running, OfOrg, Rows;
  }

  lemma LastStep(pending: seq<Row>, choices: seq<Choice>, c: Choice)
    ensures Run(pending, choices + [c]) == Step(Run(pending, choices), c)
  {
    hide Step;
    assert (choices + [c])[..|choices|] == choices;
  }

  /** What an organization has started only grows, so it is unchanged in between if it is at both ends. */
  lemma Between(pending: seq<Row>, before: seq<Choice>, most: seq<Choice>, c: Choice, org: Org)
    requires OfOrg(Rows(Run(pending, before + most + [c]).trace), org) == OfOrg(Rows(Run(pending, before).trace), org)
    ensures OfOrg(Rows(Run(pending, before + most).trace), org) == OfOrg(Rows(Run(pending, before).trace), org)
  {
    Grows(pending, before, most, org);
    Grows(pending, before + most, [c], org);
  }

  lemma {:induction false} Grows(pending: seq<Row>, before: seq<Choice>, more: seq<Choice>, org: Org)
    ensures OfOrg(Rows(Run(pending, before).trace), org) <= OfOrg(Rows(Run(pending, before + more).trace), org)
  {
    if more == [] {
      assert before + more == before;
    } else {
      var most, c := more[..|more| - 1], more[|more| - 1];
      assert (before + more)[..|before + more| - 1] == before + most;
      Grows(pending, before, most, org);
      StepGrows(Run(pending, before + most), c, org);
    }
  }

  lemma StepGrows(t: Tick, c: Choice, org: Org)
    ensures OfOrg(Rows(t.trace), org) <= OfOrg(Rows(Step(t, c).trace), org)
  {
    var t' := Step(t, c);
    hide Turn, OfOrg, Rows;
    if t'.trace != t.trace {
      var e := t'.trace[|t.trace|];
      assert t'.trace == t.trace + [e];
      TracePush(t.trace, e);
      if e.Started? {
        OfOrgPush(Rows(t.trace), e.row, org);
      }
    }
  }

  lemma OneMore(pending: seq<Row>, t: Tick, c: Choice, org: Org)
    requires Inv(pending, t) && Eligible(t, org) && org in t.orgs && t.next < |t.orgs|
    requires OfOrg(Rows(Step(t, c).trace), org) == OfOrg(Rows(t.trace), org)
    ensures var t' := Step(t, c);
            && Eligible(t', org) && t'.orgs == t.orgs && t'.next < |t'.orgs|
            && Starts(t'.trace) + Distance(t', org) <= Starts(t.trace) + Distance(t, org)
  {
    hide Orderly, Running, OfOrg, Rows, Distance, Turn;
    var t' := Step(t, c);
    if c == Go && CanStart(t) {
      StartKeepsQueues(pending, t);
      SameQueue(pending, t, t', org);
      PassingBringsNearer(t, org);
      var e := t'.trace[|t.trace|];
      assert t'.trace == t.trace + [e];
      TracePush(t.trace, e);
    } else {
      Unmoved(t, c, org);
    }
  }

  lemma Unmoved(t: Tick, c: Choice, org: Org)
    requires org in t.orgs && t.next < |t.orgs| && Eligible(t, org) && !(c == Go && CanStart(t))
    ensures var t' := Step(t, c);
            t'.orgs == t.orgs && t'.next == t.next && Distance(t', org) == Distance(t, org) && Eligible(t', org) && Starts(t'.trace) == Starts(t.trace)
  {
    hide CanStart, Rows;
    if c.Done? {
      TracePush(t.trace, Finished(c.org));
    }
  }

  lemma SameQueue(pending: seq<Row>, t: Tick, t': Tick, org: Org)
    requires Queues(pending, t) && Queues(pending, t') && org in t.queues
    requires OfOrg(Rows(t'.trace), org) == OfOrg(Rows(t.trace), org)
    ensures org in t'.queues && t'.queues[org] == t.queues[org]
  {
    var done := OfOrg(Rows(t.trace), org);
    assert t.queues[org] == (done + t.queues[org])[|done|..];
    assert t'.queues[org] == (done + t'.queues[org])[|done|..];
  }

  // ----- The tick as it runs -----

  method GroupByOrg(pending: seq<Row>) returns (orgs: seq<Org>, queues: map<Org, seq<Row>>)
    ensures orgs == Orgs(pending)
    ensures queues == map org | org in Orgs(pending) :: OfOrg(pending, org)
  {
    orgs, queues := [], map[];
    assert pending[..0] == [];
    NoOrgs();
    hide Orgs, OfOrg, Grouped;
    for i := 0 to |pending|
      invariant Grouped(pending[..i], orgs, queues)
    {
      var row := pending[i];
      GroupGrows(pending[..i], orgs, queues, row);
      assert pending[..i] + [row] == pending[..i + 1];
      var own := if row.org in queues then queues[row.org] else [];
      if row.org !in queues {
        orgs := orgs + [row.org];
      }
      queues := queues[row.org := own + [row]];
    }
    assert pending[..|pending|] == pending;
    GroupedIs(pending, orgs, queues);
  }

  lemma GroupedIs(rows: seq<Row>, orgs: seq<Org>, queues: map<Org, seq<Row>>)
    requires Grouped(rows, orgs, queues)
    ensures orgs == Orgs(rows) && queues == map org | org in Orgs(rows) :: OfOrg(rows, org)
  {
    hide Orgs, OfOrg;
  }

  /** The organizations and their queues are those of the rows so far. */
  ghost predicate Grouped(rows: seq<Row>, orgs: seq<Org>, queues: map<Org, seq<Row>>) {
    && orgs == Orgs(rows)
    && (forall org :: org in queues <==> org in orgs)
    && (forall org :: org in queues ==> queues[org] == OfOrg(rows, org))
  }

  lemma GroupGrows(rows: seq<Row>, orgs: seq<Org>, queues: map<Org, seq<Row>>, row: Row)
    requires Grouped(rows, orgs, queues)
    ensures var own := if row.org in queues then queues[row.org] else [];
            Grouped(rows + [row], if row.org in queues then orgs else orgs + [row.org], queues[row.org := own + [row]])
  {
    OrgsPush(rows, row);
    var own := if row.org in queues then queues[row.org] else [];
    var grown := queues[row.org := own + [row]];
    forall org | org in grown ensures grown[org] == OfOrg(rows + [row], org) {
      OfOrgPush(rows, row, org);
      if org !in queues {
        NotYet(rows, org);
      }
      hide Orgs, OfOrg;
      assert org != row.org ==> OfOrg(rows, org) + [] == OfOrg(rows, org);
    }
    hide Orgs, OfOrg;
  }

  lemma NoOrgs()
    ensures Grouped([], [], map[])
  {
  }

  lemma OrgsPush(rows: seq<Row>, row: Row)
    ensures Orgs(rows + [row]) == if row.org in Orgs(rows) then Orgs(rows) else Orgs(rows) + [row.org]
  {
    assert (rows + [row])[..|rows|] == rows;
  }

  lemma NotYet(rows: seq<Row>, org: Org)
    requires org !in Orgs(rows)
    ensures OfOrg(rows, org) == []
  {
    NotStarted(rows, org);
  }

  /** A step effective on the trace uses up pending rows or frees a worker, and keeps the invariant. */
  lemma Advance(pending: seq<Row>, choices: seq<Choice>, c: Choice)
    ensures Run(pending, choices + [c]) == Step(Run(pending, choices), c)
    ensures Inv(pending, Run(pending, choices + [c])) && Starts(Run(pending, choices + [c]).trace) <= |pending|
  {
    LastStep(pending, choices, c);
    RunKeeps(pending, choices + [c]);
    NoneTwice(pending, choices + [c]);
  }

  lemma StartsMore(t: Tick)
    requires CanStart(t)
    ensures Starts(Step(t, Go).trace) == Starts(t.trace) + 1
  {
    hide Turn, Rows;
    var e := StartOne(t).trace[|t.trace|];
    assert StartOne(t).trace == t.trace + [e];
    TracePush(t.trace, e);
  }

  lemma FinishFrees(t: Tick, org: Org)
    requires !CanStart(t) && org in t.busy
    ensures var t' := Step(t, Done(org)); Starts(t'.trace) == Starts(t.trace) && |t'.busy| < |t.busy|
  {
    hide CanStart, Rows;
    TracePush(t.trace, Finished(org));
  }

  lemma OrgsNamed(pending: seq<Row>, t: Tick)
    requires Inv(pending, t) && forall row :: row in pending ==> row.org != ""
    ensures forall o :: o in t.orgs ==> o in t.queues && o != ""
    ensures t.orgs != [] ==> t.next < |t.orgs|
  {
    forall o | o in t.orgs ensures o != "" {
      OfOrgOwn(pending, o);
      assert OfOrg(pending, o)[0] in OfOrg(pending, o);
      OwnIsPending(pending, o);
    }
  }

  lemma {:induction false} OwnIsPending(rows: seq<Row>, org: Org)
    ensures forall row :: row in OfOrg(rows, org) ==> row in rows
  {
    if rows != [] {
      OwnIsPending(rows[..|rows| - 1], org);
    }
  }

  class Workers {
    var orgs: seq<Org>
    var queues: map<Org, seq<Row>>
    var busy: set<Org>
    var next: nat
    var trace: seq<Event>
    var stopped: bool

    ghost function View(): (t: Tick)
      reads this
    {
      Tick(orgs, queues, busy, next, trace, stopped)
    }

    constructor (orgs: seq<Org>, queues: map<Org, seq<Row>>)
      ensures View() == Tick(orgs, queues, {}, 0, [], false)
    {
      this.orgs, this.queues, busy, next, trace, stopped := orgs, queues, {}, 0, [], false;
    }

    /** The organization whose turn it is, the first from `next` on that is not busy and has rows left. */
    method PickOrg() returns (org: Org, after: nat)
      requires orgs != [] ==> next < |orgs|
      requires forall o :: o in orgs ==> o in queues && o != ""
      ensures org == "" <==> orgs == [] || Turn(View(), 0) == |orgs|
      ensures org != "" ==> org == orgs[Place(next, Turn(View(), 0), |orgs|)] && after == (next + Turn(View(), 0) + 1) % |orgs|
    {
      org, after := "", next;
      for i := 0 to |orgs|
        invariant org == ""
        invariant orgs != [] ==> Turn(View(), 0) == Turn(View(), i)
      {
        var o := orgs[Place(next, i, |orgs|)];
        if o !in busy && |queues[o]| > 0 {
          org, after := o, (next + i + 1) % |orgs|;
          return;
        }
      }
    }

    /** Starts the row whose turn it is, if a worker is free and there is one. */
    method TryStart() returns (started: bool)
      requires orgs != [] ==> next < |orgs|
      requires forall o :: o in orgs ==> o in queues && o != ""
      modifies this
      ensures View() == Step(old(View()), Go) && (started <==> old(CanStart(View())))
    {
      if |busy| >= WORKERS || stopped {
        return false;
      }
      var org, after := PickOrg();
      if org == "" {
        return false;
      }
      trace := trace + [Started(queues[org][0])];
      queues := queues[org := queues[org][1..]];
      busy := busy + {org};
      next := after;
      started := true;
    }

    /** Waits for a running row; which one is not for the tick to say. */
    method AwaitOne() returns (org: Org)
      requires busy != {} && !CanStart(View())
      modifies this
      ensures org in old(busy) && View() == Step(old(View()), Done(org))
    {
      org :| org in busy;
      busy := busy - {org};
      trace := trace + [Finished(org)];
    }
  }

  /** Starts rows while it can, shutdown striking at any point. */
  method StartRows(w: Workers, ghost pending: seq<Row>, ghost choices: seq<Choice>) returns (ghost more: seq<Choice>)
    requires w.View() == Run(pending, choices) && Inv(pending, w.View()) && Starts(w.trace) <= |pending|
    requires forall row :: row in pending ==> row.org != ""
    modifies w
    ensures w.View() == Run(pending, more) && Inv(pending, w.View()) && Starts(w.trace) <= |pending|
    ensures !CanStart(w.View())
    ensures Starts(w.trace) > old(Starts(w.trace)) || (Starts(w.trace) == old(Starts(w.trace)) && |w.busy| == old(|w.busy|))
  {
    hide Run, Inv, Step, CanStart, Rows;
    more := choices;
    var started := true;
    while started
      invariant w.View() == Run(pending, more) && Inv(pending, w.View()) && Starts(w.trace) <= |pending|
      invariant Starts(w.trace) > old(Starts(w.trace)) || (Starts(w.trace) == old(Starts(w.trace)) && |w.busy| == old(|w.busy|))
      invariant !started ==> !CanStart(w.View())
      decreases |pending| - Starts(w.trace), started
    {
      if * {
        Advance(pending, more, Stop);
        StopOnly(w.View());
        w.stopped := true;
        more := more + [Stop];
      }
      ghost var before := w.View();
      OrgsNamed(pending, before);
      Advance(pending, more, Go);
      started := w.TryStart();
      more := more + [Go];
      if started {
        StartsMore(before);
      } else {
        NoStart(before);
      }
    }
  }

  /**
   The whole tick, shutdown striking at any point: it always returns, with nothing running; every
   row was started once unless it was stopped, and what it did is one of the runs.
   */
  method RunTick(pending: seq<Row>) returns (trace: seq<Event>, stopped: bool, ghost choices: seq<Choice>)
    requires forall row :: row in pending ==> row.org != ""
    ensures var t := Run(pending, choices); t.trace == trace && t.stopped == stopped && Ended(t)
    ensures Orderly(trace) && Running(trace) == {}
    ensures !stopped ==> multiset(Rows(trace)) == multiset(pending)
  {
    var orgs, queues := GroupByOrg(pending);
    var w := new Workers(orgs, queues);
    choices := [];
    RunKeeps(pending, choices);
    NoneTwice(pending, choices);
    hide Run, Inv, Step, CanStart, Rows, Setup, Orgs, Orderly, Running, Turn, Eligible, OfOrg, Starts, Ended;
    while true
      invariant w.View() == Run(pending, choices) && Inv(pending, w.View()) && Starts(w.trace) <= |pending|
      decreases |pending| - Starts(w.trace), |w.busy|
    {
      choices := StartRows(w, pending, choices);
      if w.busy == {} {
        break;
      }
      ghost var before := w.View();
      var org := w.AwaitOne();
      Advance(pending, choices, Done(org));
      FinishFrees(before, org);
      choices := choices + [Done(org)];
    }
    trace, stopped := w.trace, w.stopped;
    AtTheEnd(pending, choices);
  }

  lemma StopOnly(t: Tick)
    ensures Step(t, Stop) == t.(stopped := true)
  {
  }

  lemma NoStart(t: Tick)
    requires !CanStart(t)
    ensures Step(t, Go) == t
  {
  }

  lemma AtTheEnd(pending: seq<Row>, choices: seq<Choice>)
    requires Run(pending, choices).busy == {} && !CanStart(Run(pending, choices))
    ensures var t := Run(pending, choices);
            Ended(t) && Orderly(t.trace) && Running(t.trace) == {} && (!t.stopped ==> multiset(Rows(t.trace)) == multiset(pending))
  {
    RunKeeps(pending, choices);
    if !Run(pending, choices).stopped {
      AllStarted(pending, choices);
    }
  }
}
