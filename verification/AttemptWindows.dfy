/** Attempts counted in windows, one for each key, in a map that never grows past its cap. */
module AttemptWindows {
  import opened Options

  type Key = string

  const ATTEMPTS_CAP: nat := 10000

  datatype Window = Window(count: nat, reset: nat)
  type Windows = map<Key, Window>

  predicate Expired(w: Window, now: nat) {
    now > w.reset
  }

  /** A key with no window, and one whose window has passed, begin a new one. */
  function Bump(w: Option<Window>, now: nat, span: nat): (w': Window) {
    if w.None? || Expired(w.value, now) then Window(1, now + span) else w.value.(count := w.value.count + 1)
  }

  function Lookup(m: Windows, key: Key): (w: Option<Window>) {
    if key in m then Some(m[key]) else None
  }

  function DropExpired(m: Windows, now: nat): (m': Windows) {
    map k | k in m && !Expired(m[k], now) :: m[k]
  }

  function MakeRoom(m: Windows, now: nat, victim: Key): (m': Windows) {
    var kept := DropExpired(m, now);
    if |kept| < ATTEMPTS_CAP then kept else kept - {victim}
  }

  predicate NeedsRoom(m: Windows, key: Key) {
    key !in m && |m| >= ATTEMPTS_CAP
  }

  /** One attempt; `victim` is the live entry a random choice would fall on. */
  datatype Op = Attempt(key: Key, now: nat, limit: int, span: nat, victim: Key)

  function Step(m: Windows, op: Op): (m': Windows) {
    var room := if NeedsRoom(m, op.key) then MakeRoom(m, op.now, op.victim) else m;
    room[op.key := Bump(Lookup(m, op.key), op.now, op.span)]
  }

  predicate Allows(m: Windows, op: Op) {
    Bump(Lookup(m, op.key), op.now, op.span).count <= op.limit
  }

  predicate Possible(m: Windows, op: Op) {
    NeedsRoom(m, op.key) ==> var kept := DropExpired(m, op.now); |kept| < ATTEMPTS_CAP || op.victim in kept
  }

  function Run(ops: seq<Op>): (m: Windows) {
    if ops == [] then map[] else Step(Run(ops[..|ops| - 1]), ops[|ops| - 1])
  }

  function Clock(ops: seq<Op>): (now: nat) {
    if ops == [] then 0 else ops[|ops| - 1].now
  }

  predicate Legal(ops: seq<Op>) {
    ops == [] ||
    var before, op := ops[..|ops| - 1], ops[|ops| - 1];
    Legal(before) && Possible(Run(before), op) && op.now >= Clock(before)
  }

  // ----- The cap -----

  lemma RoomIsMade(m: Windows, now: nat, victim: Key)
    requires |m| <= ATTEMPTS_CAP
    requires |DropExpired(m, now)| < ATTEMPTS_CAP || victim in DropExpired(m, now)
    ensures |MakeRoom(m, now, victim)| < ATTEMPTS_CAP
  {
    var kept := DropExpired(m, now);
    assert m.Keys == kept.Keys + (m.Keys - kept.Keys);
    hide DropExpired;
    assert (kept - {victim}).Keys == kept.Keys - {victim};
  }

  lemma StepWithinCap(m: Windows, op: Op)
    requires |m| <= ATTEMPTS_CAP && Possible(m, op)
    ensures |Step(m, op)| <= ATTEMPTS_CAP
  {
    hide DropExpired, Bump;
    if NeedsRoom(m, op.key) {
      RoomIsMade(m, op.now, op.victim);
    }
    var room := if NeedsRoom(m, op.key) then MakeRoom(m, op.now, op.victim) else m;
    assert Step(m, op).Keys == room.Keys + {op.key};
    assert op.key in room ==> room.Keys + {op.key} == room.Keys;
  }

  /** In every run the map holds at most its cap. */
  lemma {:induction false} WithinCap(ops: seq<Op>)
    requires Legal(ops)
    ensures |Run(ops)| <= ATTEMPTS_CAP
  {
    hide Step, Possible;
    if ops != [] {
      WithinCap(ops[..|ops| - 1]);
      StepWithinCap(Run(ops[..|ops| - 1]), ops[|ops| - 1]);
    }
  }

  // ----- How many attempts a window allows -----

  /** An allowed attempt: when, the window's reset, and its number in the window. */
  datatype Pass = Pass(now: nat, reset: nat, count: nat)

  function Passes(ops: seq<Op>, key: Key): (log: seq<Pass>) {
    if ops == [] then []
    else
      var before, op := ops[..|ops| - 1], ops[|ops| - 1];
      if op.key == key && Allows(Run(before), op) then
        var w := Bump(Lookup(Run(before), key), op.now, op.span);
        Passes(before, key) + [Pass(op.now, w.reset, w.count)]
      else Passes(before, key)
  }

  /** The key's own attempts have one limit and window, and it is not evicted while its window is open. */
  predicate Steady(ops: seq<Op>, key: Key, limit: int, span: nat) {
    forall i :: 0 <= i < |ops| ==> if ops[i].key == key then ops[i].limit == limit && ops[i].span == span else ops[i].victim != key
  }

  /** The next pass is the next in the same window, or the first of one that opened after it had passed. */
  predicate Follows(a: Pass, b: Pass, span: nat) {
    || (b.reset == a.reset && b.count == a.count + 1)
    || (b.count == 1 && b.reset > a.reset + span)
  }

  predicate Counted(p: Pass, limit: int, span: nat) {
    1 <= p.count <= limit && p.now <= p.reset <= p.now + span && (p.count == 1 ==> p.reset == p.now + span)
  }

  predicate Ordered(log: seq<Pass>, limit: int, span: nat) {
    && (forall i :: 0 <= i < |log| ==> Counted(log[i], limit, span))
    && (forall i :: 0 <= i < |log| - 1 ==> Follows(log[i], log[i + 1], span))
  }

  /** The window is the last pass's, maybe with refused attempts since, or it is gone or later because that one closed. */
  predicate Tracks(m: Windows, log: seq<Pass>, key: Key, clock: nat, limit: int, span: nat) {
    && (key in m ==> m[key].count >= 1 && m[key].reset <= clock + span)
    && if log == [] then (key in m ==> m[key].count > limit)
       else
         var last := log[|log| - 1];
         if key in m then
           || (m[key].reset == last.reset && (m[key].count == last.count || (m[key].count > limit && last.count == limit)))
           || (m[key].reset > last.reset + span && m[key].count > limit && limit < 1)
         else clock > last.reset
  }

  lemma OrderedPush(log: seq<Pass>, p: Pass, limit: int, span: nat)
    requires Ordered(log, limit, span) && Counted(p, limit, span) && (log != [] ==> Follows(log[|log| - 1], p, span))
    ensures Ordered(log + [p], limit, span)
  {
    hide Follows, Counted;
    var all := log + [p];
    forall i | 0 <= i < |all| - 1 ensures Follows(all[i], all[i + 1], span) {
      if i < |log| - 1 {
        assert all[i] == log[i] && all[i + 1] == log[i + 1];
      } else {
        assert all[i] == log[|log| - 1] && all[i + 1] == p;
      }
    }
  }

  lemma OtherKeepsTrack(m: Windows, op: Op, log: seq<Pass>, key: Key, clock: nat, limit: int, span: nat)
    requires Tracks(m, log, key, clock, limit, span) && op.key != key && op.victim != key && op.now >= clock
    ensures Tracks(Step(m, op), log, key, op.now, limit, span)
  {
  }

  lemma OwnAttempt(m: Windows, op: Op, log: seq<Pass>, key: Key, clock: nat, limit: int, span: nat)
    requires Tracks(m, log, key, clock, limit, span) && Ordered(log, limit, span)
    requires op.key == key && op.now >= clock && op.limit == limit && op.span == span
    ensures var w := Bump(Lookup(m, key), op.now, span);
            var log' := if Allows(m, op) then log + [Pass(op.now, w.reset, w.count)] else log;
            Tracks(Step(m, op), log', key, op.now, limit, span) && Ordered(log', limit, span)
  {
    hide MakeRoom;
    var w := Bump(Lookup(m, key), op.now, span);
    if Allows(m, op) {
      var p := Pass(op.now, w.reset, w.count);
      assert Counted(p, limit, span);
      assert log != [] ==> Follows(log[|log| - 1], p, span);
      hide Ordered, Follows, Counted;
      OrderedPush(log, p, limit, span);
    }
  }

  lemma {:induction false} PassesAreOrdered(ops: seq<Op>, key: Key, limit: int, span: nat)
    requires Legal(ops) && Steady(ops, key, limit, span)
    ensures Ordered(Passes(ops, key), limit, span)
    ensures Tracks(Run(ops), Passes(ops, key), key, Clock(ops), limit, span)
  {
    if ops != [] {
      var before, op := ops[..|ops| - 1], ops[|ops| - 1];
      PassesAreOrdered(before, key, limit, span);
      hide Ordered, Tracks, Step, Possible, Bump, Allows;
      var m, log := Run(before), Passes(before, key);
      if op.key == key {
        OwnAttempt(m, op, log, key, Clock(before), limit, span);
      } else {
        OtherKeepsTrack(m, op, log, key, Clock(before), limit, span);
      }
    }
  }

  lemma {:induction false} LaterWindow(log: seq<Pass>, i: nat, k: nat, limit: int, span: nat)
    requires Ordered(log, limit, span) && i + k < |log|
    ensures || (log[i + k].reset == log[i].reset && log[i + k].count == log[i].count + k)
            || log[i + k].reset > log[i].reset + span
  {
    if k > 0 {
      LaterWindow(log, i, k - 1, limit, span);
      assert Follows(log[i + k - 1], log[i + k - 1 + 1], span);
    }
  }

  /** In every run, one counted window allows at most the limit. */
  lemma WindowAllowsLimit(ops: seq<Op>, key: Key, limit: int, span: nat, i: nat, k: nat)
    requires Legal(ops) && Steady(ops, key, limit, span) && i + k < |Passes(ops, key)|
    requires Passes(ops, key)[i].reset == Passes(ops, key)[i + k].reset
    ensures k + 1 <= limit
  {
    PassesAreOrdered(ops, key, limit, span);
    var log := Passes(ops, key);
    LaterWindow(log, i, k, limit, span);
    assert Counted(log[i], limit, span) && Counted(log[i + k], limit, span);
  }

  /**
   In every run, any 2 * limit allowed attempts span more than a window: no interval one window long
   allows more than 2 * limit - 1.
   */
  lemma IntervalAllowsLessThanTwice(ops: seq<Op>, key: Key, limit: nat, span: nat, i: nat)
    requires Legal(ops) && Steady(ops, key, limit, span) && limit >= 1 && i + 2 * limit - 1 < |Passes(ops, key)|
    ensures Passes(ops, key)[i + 2 * limit - 1].now > Passes(ops, key)[i].now + span
  {
    PassesAreOrdered(ops, key, limit, span);
    var log := Passes(ops, key);
    hide Passes, Run, Legal, Steady;
    var a, b, c := log[i], log[i + limit - 1], log[i + 2 * limit - 1];
    assert Counted(a, limit, span) && Counted(b, limit, span) && Counted(c, limit, span);
    LaterWindow(log, i, limit - 1, limit, span);
    LaterWindow(log, i + limit - 1, limit, limit, span);
    assert i + limit - 1 + limit == i + 2 * limit - 1;
  }

  /** When the k-th of these attempts is made: one opens a window, the rest of it waits to the end, then a whole window. */
  function BusyAt(k: nat, limit: nat, span: nat): (now: nat) {
    if k == 0 then 0 else if k < limit then span else span + 1
  }

  function Busy(k: nat, limit: nat, span: nat): (ops: seq<Op>) {
    if k == 0 then [] else Busy(k - 1, limit, span) + [Attempt("k", BusyAt(k - 1, limit, span), limit, span, "")]
  }

  function BusyWindow(k: nat, limit: nat, span: nat): (w: Window)
    requires k > 0
  {
    if k <= limit then Window(k, span) else Window(k - limit, 2 * span + 1)
  }

  lemma BusyStep(m: Windows, k: nat, limit: nat, span: nat)
    requires 0 < k <= 2 * limit && m == (if k == 1 then map[] else map["k" := BusyWindow(k - 1, limit, span)])
    ensures var op := Attempt("k", BusyAt(k - 1, limit, span), limit, span, "");
            Possible(m, op) && Allows(m, op) && Step(m, op) == map["k" := BusyWindow(k, limit, span)]
  {
    hide MakeRoom, DropExpired;
  }

  lemma {:induction false} BusyPasses(k: nat, limit: nat, span: nat)
    requires k <= 2 * limit
    ensures Legal(Busy(k, limit, span)) && Steady(Busy(k, limit, span), "k", limit, span) && |Passes(Busy(k, limit, span), "k")| == k
    ensures k > 0 ==> Run(Busy(k, limit, span)) == map["k" := BusyWindow(k, limit, span)] && Clock(Busy(k, limit, span)) == BusyAt(k - 1, limit, span)
    ensures forall i :: 0 <= i < k ==> Passes(Busy(k, limit, span), "k")[i].now == BusyAt(i, limit, span)
  {
    hide Step, Possible, Allows, Bump, BusyWindow, Steady;
    if k == 0 {
      NothingBusy(limit, span);
    } else {
      BusyPasses(k - 1, limit, span);
      var before, op := Busy(k - 1, limit, span), Attempt("k", BusyAt(k - 1, limit, span), limit, span, "");
      BusyStep(Run(before), k, limit, span);
      SteadyPush(before, op, limit, span);
      BusyGrows(before, op);
    }
  }

  lemma NothingBusy(limit: nat, span: nat)
    ensures Steady([], "k", limit, span)
  {
  }

  lemma SteadyPush(ops: seq<Op>, op: Op, limit: nat, span: nat)
    requires Steady(ops, "k", limit, span) && op.key == "k" && op.limit == limit && op.span == span
    ensures Steady(ops + [op], "k", limit, span)
  {
  }

  /** One more allowed attempt of the key. */
  lemma BusyGrows(before: seq<Op>, op: Op)
    requires Legal(before) && op.now >= Clock(before) && Possible(Run(before), op) && Allows(Run(before), op) && op.key == "k"
    ensures var ops := before + [op];
            && Legal(ops) && Run(ops) == Step(Run(before), op) && Clock(ops) == op.now
            && |Passes(ops, "k")| == |Passes(before, "k")| + 1 && Passes(ops, "k")[|Passes(before, "k")|].now == op.now
            && Passes(ops, "k")[..|Passes(before, "k")|] == Passes(before, "k")
  {
    hide Step, Possible, Allows, Bump;
    assert (before + [op])[..|before|] == before;
  }

  /** For every limit and window, 2 * limit - 1 attempts within one window's length are reached. */
  lemma IntervalReachesBound(limit: nat, span: nat)
    requires limit >= 1 && span >= 1
    ensures var ops := Busy(2 * limit, limit, span);
            var log := Passes(ops, "k");
            && Legal(ops) && Steady(ops, "k", limit, span) && |log| == 2 * limit
            && log[1 + 2 * limit - 2].now <= log[1].now + span
  {
    BusyPasses(2 * limit, limit, span);
  }

  // ----- The map as it changes -----

  class Attempts {
    var windows: Windows

    constructor ()
      ensures windows == map[]
    {
      windows := map[];
    }

    /** Drops every expired window, then one live entry at random if the map is still full. */
    method FreeSlot(now: nat) returns (ghost victim: Key)
      modifies this
      ensures windows == MakeRoom(old(windows), now, victim)
      ensures var kept := DropExpired(old(windows), now); |kept| < ATTEMPTS_CAP || victim in kept
    {
      var todo := windows.Keys;
      var kept := windows;
      while todo != {}
        invariant kept.Keys <= windows.Keys && todo <= kept.Keys
        invariant forall k :: k in kept ==> kept[k] == windows[k]
        invariant forall k :: k in windows && k !in kept ==> Expired(windows[k], now)
        invariant forall k :: k in kept && k !in todo ==> !Expired(windows[k], now)
        decreases |todo|
      {
        var k :| k in todo;
        todo := todo - {k};
        if Expired(windows[k], now) {
          kept := kept - {k};
        }
      }
      assert kept == DropExpired(windows, now);
      windows := kept;
      victim := "";
      if |windows| >= ATTEMPTS_CAP {
        assert windows.Keys != {};
        var chosen :| chosen in windows.Keys;
        victim := chosen;
        windows := windows - {chosen};
      }
    }

    /** Counts the attempt and says whether it is within the limit. */
    method AllowIn(key: Key, now: nat, limit: int, span: nat) returns (allowed: bool, ghost victim: Key)
      requires |windows| <= ATTEMPTS_CAP
      modifies this
      ensures var op := Attempt(key, now, limit, span, victim);
              Possible(old(windows), op) && windows == Step(old(windows), op) && (allowed <==> Allows(old(windows), op))
      ensures |windows| <= ATTEMPTS_CAP
    {
      ghost var before := windows;
      victim := "";
      if key !in windows && |windows| >= ATTEMPTS_CAP {
        victim := FreeSlot(now);
      }
      var w := Lookup(windows, key);
      if w.None? || now > w.value.reset {
        w := Some(Window(0, now + span));
      }
      var entry := w.value.(count := w.value.count + 1);
      windows := windows[key := entry];
      allowed := entry.count <= limit;
      StepWithinCap(before, Attempt(key, now, limit, span, victim));
    }
  }
}
