/**
 The delay after failed logins, one entry for each login key, in a map that never grows past its cap.
 `victim` is the entry the random map iteration would fall on when room is needed.
 */
module LoginBackoff {
  type Key = string

  const ATTEMPTS_CAP: nat := 10000
  const FREE_FAILURES: nat := 5
  const MINUTE: nat := 60_000_000_000
  const HOUR: nat := 60 * MINUTE
  const MAX_DELAY: nat := 15 * MINUTE
  const FORGET: nat := HOUR

  datatype Entry = Entry(failures: nat, until: nat)
  type Entries = map<Key, Entry>

  /** None below five failures, then a minute doubling four times, to a quarter of an hour at most. */
  function Delay(failures: nat): (d: nat) {
    if failures < FREE_FAILURES then 0
    else
      var shift := if failures - FREE_FAILURES < 4 then failures - FREE_FAILURES else 4;
      var doubled := MINUTE * [1, 2, 4, 8, 16][shift];
      if doubled < MAX_DELAY then doubled else MAX_DELAY
  }

  predicate Forgotten(e: Entry, now: nat) {
    now > e.until + FORGET
  }

  predicate BackingOff(e: Entry, now: nat) {
    now < e.until
  }

  function DropForgotten(m: Entries, now: nat): (m': Entries) {
    map k | k in m && !Forgotten(m[k], now) :: m[k]
  }

  /** One that is not backing off, if there is any. */
  predicate FairVictim(m: Entries, now: nat, victim: Key) {
    && victim in m
    && (BackingOff(m[victim], now) ==> forall k :: k in m ==> BackingOff(m[k], now))
  }

  function MakeRoom(m: Entries, now: nat, victim: Key): (m': Entries) {
    var kept := DropForgotten(m, now);
    if |kept| < ATTEMPTS_CAP then kept else kept - {victim}
  }

  predicate NeedsRoom(m: Entries, key: Key) {
    key !in m && |m| >= ATTEMPTS_CAP
  }

  predicate Admits(m: Entries, key: Key, now: nat) {
    key !in m || !BackingOff(m[key], now)
  }

  /** How many failures the attempt makes it, from none when the entry is missing or forgotten. */
  function Failures(m: Entries, key: Key, now: nat): (n: nat) {
    if key !in m || Forgotten(m[key], now) then 1 else m[key].failures + 1
  }

  datatype Op = Begin(key: Key, now: nat, victim: Key) | Succeeded(key: Key)

  function Step(m: Entries, op: Op): (m': Entries) {
    match op
    case Begin(key, now, victim) =>
      if !Admits(m, key, now) then m
      else
        var n := Failures(m, key, now);
        var room := if NeedsRoom(m, key) then MakeRoom(m, now, victim) else m;
        room[key := Entry(n, now + Delay(n))]
    case Succeeded(key) => m - {key}
  }

  predicate Fair(m: Entries, op: Op) {
    op.Begin? && Admits(m, op.key, op.now) && NeedsRoom(m, op.key) ==>
      var kept := DropForgotten(m, op.now);
      |kept| < ATTEMPTS_CAP || FairVictim(kept, op.now, op.victim)
  }

  function Run(ops: seq<Op>): (m: Entries) {
    if ops == [] then map[] else Step(Run(ops[..|ops| - 1]), ops[|ops| - 1])
  }

  /** The clock never goes back, and room is made the way the code makes it. */
  predicate Legal(ops: seq<Op>) {
    ops == [] ||
    var before, op := ops[..|ops| - 1], ops[|ops| - 1];
    Legal(before) && Fair(Run(before), op) && (op.Begin? ==> op.now >= Clock(before))
  }

  function Clock(ops: seq<Op>): (now: nat) {
    if ops == [] then 0
    else if ops[|ops| - 1].Begin? then ops[|ops| - 1].now
    else Clock(ops[..|ops| - 1])
  }

  // ----- The map stays within its cap -----

  lemma KeptIsFewer(m: Entries, now: nat)
    ensures |DropForgotten(m, now)| <= |m|
  {
    assert DropForgotten(m, now).Keys <= m.Keys;
    SubsetFewer(DropForgotten(m, now).Keys, m.Keys);
  }

  lemma SubsetFewer<T>(a: set<T>, b: set<T>)
    requires a <= b
    ensures |a| <= |b|
  {
    assert b == a + (b - a);
  }

  lemma RoomIsMade(m: Entries, now: nat, victim: Key)
    requires |m| <= ATTEMPTS_CAP
    requires |DropForgotten(m, now)| < ATTEMPTS_CAP || victim in DropForgotten(m, now)
    ensures |MakeRoom(m, now, victim)| < ATTEMPTS_CAP
  {
    KeptIsFewer(m, now);
    var kept := DropForgotten(m, now);
    hide DropForgotten;
    assert (kept - {victim}).Keys == kept.Keys - {victim};
  }

  lemma OneMore(m: Entries, key: Key, e: Entry)
    ensures |m[key := e]| == if key in m then |m| else |m| + 1
  {
    assert m[key := e].Keys == m.Keys + {key};
    assert key in m ==> m.Keys + {key} == m.Keys;
  }

  lemma StepWithinCap(m: Entries, op: Op)
    requires |m| <= ATTEMPTS_CAP && Fair(m, op)
    ensures |Step(m, op)| <= ATTEMPTS_CAP
  {
    hide DropForgotten, Delay;
    if op.Begin? && Admits(m, op.key, op.now) {
      if NeedsRoom(m, op.key) {
        RoomIsMade(m, op.now, op.victim);
      }
      var n := Failures(m, op.key, op.now);
      var room := if NeedsRoom(m, op.key) then MakeRoom(m, op.now, op.victim) else m;
      OneMore(room, op.key, Entry(n, op.now + Delay(n)));
    } else if op.Succeeded? {
      SubsetFewer((m - {op.key}).Keys, m.Keys);
    }
  }

  /** In every run the map holds at most its cap. */
  lemma {:induction false} WithinCap(ops: seq<Op>)
    requires Legal(ops)
    ensures |Run(ops)| <= ATTEMPTS_CAP
  {
    hide Step, Fair;
    if ops != [] {
      WithinCap(ops[..|ops| - 1]);
      StepWithinCap(Run(ops[..|ops| - 1]), ops[|ops| - 1]);
    }
  }

  /** Room for a new key never ends a delay being served while any entry is not serving one. */
  lemma DelaySurvivesFlood(m: Entries, op: Op, key: Key, other: Key)
    requires |m| <= ATTEMPTS_CAP && Fair(m, op) && op.Begin? && op.key != key
    requires key in m && BackingOff(m[key], op.now)
    requires other in m && !BackingOff(m[other], op.now)
    ensures key in Step(m, op) && Step(m, op)[key] == m[key]
  {
    var kept := DropForgotten(m, op.now);
    if |kept| >= ATTEMPTS_CAP {
      AllKept(m, op.now);
    }
  }

  lemma AllKept(m: Entries, now: nat)
    requires |DropForgotten(m, now)| >= |m|
    ensures DropForgotten(m, now) == m
  {
    var kept := DropForgotten(m, now);
    assert kept.Keys <= m.Keys;
    assert m.Keys == kept.Keys + (m.Keys - kept.Keys);
    assert |m.Keys - kept.Keys| == 0;
  }

  // ----- How many checks an hour admits -----

  /** An admitted check: when, and how many failures it made. */
  datatype Check = Check(now: nat, failures: nat)

  /** The checks admitted for a key, in order. */
  function Checks(ops: seq<Op>, key: Key): (log: seq<Check>) {
    if ops == [] then []
    else
      var before, op := ops[..|ops| - 1], ops[|ops| - 1];
      if op.Begin? && op.key == key && Admits(Run(before), key, op.now) then
        Checks(before, key) + [Check(op.now, Failures(Run(before), key, op.now))]
      else Checks(before, key)
  }

  /** The key is not cleared by a success, and not evicted while it still counts. */
  predicate Undisturbed(ops: seq<Op>, key: Key) {
    forall i :: 0 <= i < |ops| ==> (if ops[i].Begin? then ops[i].victim != key else ops[i].key != key)
  }

  /** The next check comes after the delay, or so long after it that the count began again. */
  predicate Follows(a: Check, b: Check) {
    || (b.failures == a.failures + 1 && b.now >= a.now + Delay(a.failures))
    || (b.failures == 1 && b.now > a.now + Delay(a.failures) + FORGET)
  }

  predicate Spaced(log: seq<Check>) {
    && (forall i :: 0 <= i < |log| ==> log[i].failures >= 1)
    && (forall i :: 0 <= i < |log| - 1 ==> Follows(log[i], log[i + 1]))
  }

  /** The entry is the last check's, or it is gone because that was forgotten. */
  predicate Tracks(m: Entries, log: seq<Check>, key: Key, clock: nat) {
    if log == [] then key !in m
    else
      var last := log[|log| - 1];
      if key in m then m[key] == Entry(last.failures, last.now + Delay(last.failures))
      else clock > last.now + Delay(last.failures) + FORGET
  }

  lemma SpacedPush(log: seq<Check>, c: Check)
    requires Spaced(log) && c.failures >= 1 && (log != [] ==> Follows(log[|log| - 1], c))
    ensures Spaced(log + [c])
  {
    hide Follows;
    var all := log + [c];
    forall i | 0 <= i < |all| - 1 ensures Follows(all[i], all[i + 1]) {
      if i < |log| - 1 {
        assert all[i] == log[i] && all[i + 1] == log[i + 1];
      } else {
        assert all[i] == log[|log| - 1] && all[i + 1] == c;
      }
    }
  }

  /** A step of another key leaves an entry, or drops one that was forgotten. */
  lemma OtherKeepsTrack(m: Entries, op: Op, log: seq<Check>, key: Key, clock: nat)
    requires Tracks(m, log, key, clock) && op.Begin? && op.key != key && op.victim != key && op.now >= clock
    ensures Tracks(Step(m, op), log, key, op.now)
  {
    hide Delay;
  }

  lemma OwnCheck(m: Entries, op: Op, log: seq<Check>, key: Key, clock: nat)
    requires Tracks(m, log, key, clock) && Spaced(log)
    requires op.Begin? && op.key == key && op.now >= clock && Admits(m, key, op.now)
    ensures var log' := log + [Check(op.now, Failures(m, key, op.now))]; Tracks(Step(m, op), log', key, op.now) && Spaced(log')
  {
    hide Delay, MakeRoom;
    var c := Check(op.now, Failures(m, key, op.now));
    assert log != [] ==> Follows(log[|log| - 1], c);
    hide Spaced, Follows;
    SpacedPush(log, c);
  }

  lemma {:induction false} ChecksAreSpaced(ops: seq<Op>, key: Key)
    requires Legal(ops) && Undisturbed(ops, key)
    ensures Spaced(Checks(ops, key)) && Tracks(Run(ops), Checks(ops, key), key, Clock(ops))
  {
    if ops != [] {
      var before, op := ops[..|ops| - 1], ops[|ops| - 1];
      ChecksAreSpaced(before, key);
      hide Spaced, Delay, DropForgotten, Fair;
      var m, log := Run(before), Checks(before, key);
      if op.Succeeded? {
        assert op.key != key;
      } else if op.key != key {
        OtherKeepsTrack(m, op, log, key, Clock(before));
      } else if Admits(m, key, op.now) {
        OwnCheck(m, op, log, key, Clock(before));
      }
    }
  }

  /** The least time k further checks take. */
  function Spread(k: nat): (d: nat) {
    if k == 0 then 0 else Spread(k - 1) + Delay(k)
  }

  lemma DelayGrows(a: nat, b: nat)
    requires a <= b
    ensures Delay(a) <= Delay(b) <= MAX_DELAY
  {
  }

  lemma {:induction false} ReachesFar(log: seq<Check>, i: nat, k: nat)
    requires Spaced(log) && i + k < |log|
    ensures log[i + k].now >= log[i].now
    ensures log[i + k].now >= log[i].now + HOUR || (log[i + k].failures >= k + 1 && log[i + k].now >= log[i].now + Spread(k))
  {
    if k > 0 {
      ReachesFar(log, i, k - 1);
      var a, b := log[i + k - 1], log[i + k];
      assert b == log[i + k - 1 + 1];
      assert Follows(a, b);
      if a.failures >= k {
        DelayGrows(k, a.failures);
      }
      hide Delay, Spaced;
    }
  }

  lemma ElevenDelays()
    ensures Spread(11) == HOUR
  {
    assert Spread(4) == 0;
    assert Spread(5) == MINUTE;
    assert Spread(7) == 7 * MINUTE;
    assert Spread(9) == 30 * MINUTE;
  }

  /**
   In every run without a success or an eviction of the key, any twelve checks admitted for it span
   an hour at least: no half-open hour admits more than eleven.
   */
  lemma AtMostElevenAnHour(ops: seq<Op>, key: Key, i: nat)
    requires Legal(ops) && Undisturbed(ops, key) && i + 11 < |Checks(ops, key)|
    ensures Checks(ops, key)[i + 11].now >= Checks(ops, key)[i].now + HOUR
  {
    ChecksAreSpaced(ops, key);
    hide Spaced, Delay, Checks;
    ElevenDelays();
    ReachesFar(Checks(ops, key), i, 11);
  }

  /** A check made the moment each delay ends. */
  function Eager(k: nat): (ops: seq<Op>) {
    if k == 0 then [] else Eager(k - 1) + [Begin("k", Spread(k - 1), "")]
  }

  lemma {:induction false} EagerRuns(k: nat)
    ensures Legal(Eager(k)) && Undisturbed(Eager(k), "k")
    ensures k > 0 ==> Run(Eager(k)) == map["k" := Entry(k, Spread(k))] && Clock(Eager(k)) == Spread(k - 1)
  {
    if k > 0 {
      EagerRuns(k - 1);
      EagerAdds(k);
      hide *;
      EagerStep(Run(Eager(k - 1)), k, Spread(k - 1));
      EagerClock(k);
      EagerGrows(Eager(k - 1), Begin("k", Spread(k - 1), ""));
    }
  }

  lemma EagerAdds(k: nat)
    requires k > 0
    ensures Eager(k) == Eager(k - 1) + [Begin("k", Spread(k - 1), "")]
    ensures k == 1 ==> Run(Eager(k - 1)) == map[] && Clock(Eager(k - 1)) == 0
  {
  }

  lemma {:induction false} EagerIsAdmitted(k: nat)
    ensures Legal(Eager(k)) && Undisturbed(Eager(k), "k") && |Checks(Eager(k), "k")| == k
    ensures forall i :: 0 <= i < k ==> Checks(Eager(k), "k")[i].now == Spread(i)
  {
    hide *;
    EagerRuns(k);
    if k == 0 {
      NoneEager();
    } else {
      EagerIsAdmitted(k - 1);
      EagerRuns(k - 1);
      EagerAdds(k);
      EagerStep(Run(Eager(k - 1)), k, Spread(k - 1));
      EagerClock(k);
      EagerGrows(Eager(k - 1), Begin("k", Spread(k - 1), ""));
      EagerTimes(Checks(Eager(k - 1), "k"), Check(Spread(k - 1), k));
    }
  }

  lemma NoneEager()
    ensures Checks(Eager(0), "k") == []
  {
  }

  lemma EagerTimes(log: seq<Check>, c: Check)
    requires (forall i :: 0 <= i < |log| ==> log[i].now == Spread(i)) && c.now == Spread(|log|)
    ensures |log + [c]| == |log| + 1 && forall i :: 0 <= i < |log| + 1 ==> (log + [c])[i].now == Spread(i)
  {
    hide Spread;
  }

  lemma EagerClock(k: nat)
    ensures k > 1 ==> Spread(k - 1) >= Spread(k - 2)
    ensures k > 0 ==> Spread(k) == Spread(k - 1) + Delay(k)
  {
  }

  /** One more check of the key, admitted. */
  lemma EagerGrows(before: seq<Op>, op: Op)
    requires Legal(before) && Undisturbed(before, "k") && Fair(Run(before), op)
    requires op.Begin? && op.key == "k" && op.victim != "k" && op.now >= Clock(before) && Admits(Run(before), "k", op.now)
    ensures var ops := before + [op];
            && Legal(ops) && Undisturbed(ops, "k") && Run(ops) == Step(Run(before), op) && Clock(ops) == op.now
            && Checks(ops, "k") == Checks(before, "k") + [Check(op.now, Failures(Run(before), "k", op.now))]
  {
    hide Step, Fair, Admits, Failures;
    assert (before + [op])[..|before|] == before;
  }

  lemma EagerStep(m: Entries, k: nat, now: nat)
    requires k > 0 && m == (if k == 1 then map[] else map["k" := Entry(k - 1, now)])
    ensures Admits(m, "k", now) && Failures(m, "k", now) == k && Fair(m, Begin("k", now, ""))
    ensures Step(m, Begin("k", now, "")) == map["k" := Entry(k, now + Delay(k))]
  {
    hide Delay, MakeRoom, DropForgotten;
  }

  /** Eleven is reached: the bound cannot be lowered. */
  lemma ElevenIsReached()
    ensures Legal(Eager(11)) && Undisturbed(Eager(11), "k") && |Checks(Eager(11), "k")| == 11
    ensures forall i :: 0 <= i < 11 ==> Checks(Eager(11), "k")[0].now <= Checks(Eager(11), "k")[i].now < Checks(Eager(11), "k")[0].now + HOUR
  {
    EagerIsAdmitted(11);
    ElevenDelays();
    forall i | 0 <= i < 11 ensures Spread(i) < HOUR {
      SpreadGrows(i, 10);
      assert Spread(11) == Spread(10) + Delay(11) && Delay(11) > 0;
    }
  }

  lemma {:induction false} SpreadGrows(a: nat, b: nat)
    requires a <= b
    ensures Spread(a) <= Spread(b)
  {
    if a < b {
      SpreadGrows(a, b - 1);
    }
  }

  // ----- The limiter -----

  class Limiter {
    var entries: Entries

    constructor ()
      ensures entries == map[]
    {
      entries := map[];
    }

    /** Drops what is forgotten, then one entry that is not backing off if any is not. */
    method MakeLoginRoom(now: nat) returns (ghost victim: Key)
      requires |entries| <= ATTEMPTS_CAP && entries.Keys != {}
      modifies this
      ensures entries == MakeRoom(old(entries), now, victim)
      ensures var kept := DropForgotten(old(entries), now); |kept| < ATTEMPTS_CAP || FairVictim(kept, now, victim)
      ensures |entries| < ATTEMPTS_CAP
    {
      var todo := entries.Keys;
      var kept := entries;
      while todo != {}
        invariant kept.Keys <= entries.Keys && todo <= kept.Keys
        invariant forall k :: k in kept ==> kept[k] == entries[k]
        invariant forall k :: k in entries && k !in kept ==> Forgotten(entries[k], now)
        invariant forall k :: k in kept && k !in todo ==> !Forgotten(entries[k], now)
        decreases |todo|
      {
        var k :| k in todo;
        todo := todo - {k};
        if Forgotten(entries[k], now) {
          kept := kept - {k};
        }
      }
      assert kept == DropForgotten(entries, now);
      KeptIsFewer(entries, now);
      ghost var before := entries;
      entries := kept;
      victim := "";
      if |entries| < ATTEMPTS_CAP {
        return;
      }
      var chosen := PickVictim(now);
      victim := chosen;
      entries := entries - {chosen};
      RoomIsMade(before, now, victim);
    }

    method PickVictim(now: nat) returns (victim: Key)
      requires |entries| >= ATTEMPTS_CAP
      ensures FairVictim(entries, now, victim)
    {
      var todo := entries.Keys;
      assert |todo| == |entries|;
      victim :| victim in todo;
      todo := todo - {victim};
      while BackingOff(entries[victim], now) && todo != {}
        invariant victim in entries && todo <= entries.Keys && victim !in todo
        invariant forall k :: k in entries && k !in todo && k != victim ==> BackingOff(entries[k], now)
        decreases |todo|
      {
        victim :| victim in todo;
        todo := todo - {victim};
      }
    }

    /** Admits one check, counted as a failure until a success clears it, or refuses while backing off. */
    method BeginLogin(key: Key, now: nat) returns (admitted: bool, ghost victim: Key)
      requires |entries| <= ATTEMPTS_CAP
      modifies this
      ensures var op := Begin(key, now, victim); Fair(old(entries), op) && entries == Step(old(entries), op)
      ensures admitted <==> old(Admits(entries, key, now))
      ensures |entries| <= ATTEMPTS_CAP
    {
      ghost var before := entries;
      victim := "";
      if key in entries && now < entries[key].until {
        return false, victim;
      }
      var failures := 0;
      if key in entries && now <= entries[key].until + FORGET {
        failures := entries[key].failures;
      }
      if key !in entries && |entries| >= ATTEMPTS_CAP {
        victim := MakeLoginRoom(now);
      }
      failures := failures + 1;
      entries := entries[key := Entry(failures, now + Delay(failures))];
      StepWithinCap(before, Begin(key, now, victim));
      admitted := true;
    }

    method LoginSucceeded(key: Key)
      modifies this
      ensures entries == Step(old(entries), Succeeded(key))
    {
      entries := entries - {key};
    }
  }
}
