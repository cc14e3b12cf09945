/**
 What AcceptInventory keeps however reports are delayed, reordered and repeated, and the exact
 reports for which the stored snapshot depends on their order.
 */
module InventoryOrder {
  import opened Options
  import opened EndpointKeys

  /** A report within the size and clock bounds at the moment it is delivered. */
  predicate Timely(at: At) {
    && at.op.AcceptInventory?
    && |at.op.snapshot| <= MAX_SNAPSHOT_BYTES
    && at.op.generation <= (at.now + GENERATION_SKEW) / SECOND
  }

  predicate AllTimely(steps: seq<At>) {
    forall i :: 0 <= i < |steps| ==> Timely(steps[i])
  }

  /** One snapshot per generation. */
  predicate Consistent(steps: seq<At>)
    requires AllTimely(steps)
  {
    forall i, j :: 0 <= i < |steps| && 0 <= j < |steps| && steps[i].op.generation == steps[j].op.generation ==>
      steps[i].op.snapshot == steps[j].op.snapshot
  }

  /** The largest of the stored generation and the reported ones. */
  function Top(stored: nat, steps: seq<At>): (top: nat)
    requires AllTimely(steps)
    ensures top >= stored && forall i :: 0 <= i < |steps| ==> top >= steps[i].op.generation
    ensures top == stored || exists i :: 0 <= i < |steps| && top == steps[i].op.generation
  {
    if steps == [] then stored
    else
      var last := steps[|steps| - 1];
      var top := Top(stored, steps[..|steps| - 1]);
      if last.op.generation > top then assert steps[|steps| - 1].op.generation == last.op.generation; last.op.generation
      else
        assert top == stored || exists i :: 0 <= i < |steps| && top == steps[i].op.generation by {
          if top != stored {
            var i :| 0 <= i < |steps| - 1 && top == steps[..|steps| - 1][i].op.generation;
            assert top == steps[i].op.generation;
          }
        }
        top
  }

  lemma {:induction false} RunSplits(e: Endpoint, first: At, rest: seq<At>)
    ensures Run(e, [first] + rest) == Run(Step(e, first.now, first.op), rest)
  {
    hide Step;
    var all := [first] + rest;
    if rest == [] {
      assert all[..|all| - 1] == [] && all[|all| - 1] == first;
      assert Run(e, all[..|all| - 1]) == e;
    } else {
      assert all[..|all| - 1] == [first] + rest[..|rest| - 1];
      RunSplits(e, first, rest[..|rest| - 1]);
    }
  }

  /** Whatever the order and the repeats, the stored generation ends as the largest one reported or stored. */
  lemma {:induction false} LargestGenerationWins(e: Endpoint, steps: seq<At>)
    requires Accepting(e) && AllTimely(steps)
    ensures Accepting(Run(e, steps)) && Run(e, steps).generation == Top(e.generation, steps)
  {
    if steps != [] {
      LargestGenerationWins(e, steps[..|steps| - 1]);
    }
  }

  /** If the newest report has a snapshot, that is the stored one. */
  lemma {:induction false} NewestSnapshotStored(e: Endpoint, steps: seq<At>, k: nat)
    requires Accepting(e) && AllTimely(steps) && Consistent(steps)
    requires k < |steps| && steps[k].op.generation == Top(e.generation, steps) > e.generation && steps[k].op.snapshot != []
    ensures Run(e, steps).inventory == Some(Inventory(steps[k].op.generation, steps[k].op.snapshot))
  {
    hide Consistent;
    var n := |steps| - 1;
    var before := steps[..n];
    var last := steps[n].op;
    LargestGenerationWins(e, before);
    SameSnapshot(steps, k, n);
    if last.generation <= Top(e.generation, before) {
      var i := Newest(e.generation, before);
      assert before[i] == steps[i];
      SameSnapshot(steps, k, i);
      PrefixConsistent(steps, n);
      NewestSnapshotStored(e, before, i);
    }
  }

  lemma SameSnapshot(steps: seq<At>, i: nat, j: nat)
    requires AllTimely(steps) && Consistent(steps) && i < |steps| && j < |steps|
    ensures steps[i].op.generation == steps[j].op.generation ==> steps[i].op.snapshot == steps[j].op.snapshot
  {
  }

  lemma PrefixConsistent(steps: seq<At>, n: nat)
    requires AllTimely(steps) && Consistent(steps) && n <= |steps|
    ensures AllTimely(steps[..n]) && Consistent(steps[..n])
  {
  }

  lemma Newest(stored: nat, steps: seq<At>) returns (i: nat)
    requires AllTimely(steps) && Top(stored, steps) > stored
    ensures i < |steps| && steps[i].op.generation == Top(stored, steps)
  {
    i :| 0 <= i < |steps| && steps[i].op.generation == Top(stored, steps);
  }

  /** Reports that carry nothing newer leave the stored snapshot alone. */
  lemma {:induction false} NothingNewerStored(e: Endpoint, steps: seq<At>)
    requires Accepting(e) && AllTimely(steps)
    requires forall i :: 0 <= i < |steps| && steps[i].op.generation > e.generation ==> steps[i].op.snapshot == []
    ensures Run(e, steps).inventory == e.inventory
  {
    if steps != [] {
      LargestGenerationWins(e, steps[..|steps| - 1]);
      NothingNewerStored(e, steps[..|steps| - 1]);
    }
  }

  /** The stored snapshot is never replaced by an older one. */
  lemma {:induction false} SnapshotNeverOlder(e: Endpoint, steps: seq<At>)
    requires AllTimely(steps) && e.inventory.Some? && e.inventory.value.generation <= e.generation
    ensures var e' := Run(e, steps);
            e'.inventory.Some? && e.inventory.value.generation <= e'.inventory.value.generation <= e'.generation
  {
    if steps != [] {
      SnapshotNeverOlder(e, steps[..|steps| - 1]);
    }
  }

  /** Every order of the same reports stores the same snapshot. */
  ghost predicate OrderFree(e: Endpoint, steps: seq<At>) {
    forall other :: multiset(other) == multiset(steps) ==> Run(e, other).inventory == Run(e, steps).inventory
  }

  /** If any report newer than the stored one has a snapshot, the newest report has one. */
  predicate NewestIsFull(e: Endpoint, steps: seq<At>)
    requires AllTimely(steps)
  {
    (exists i :: 0 <= i < |steps| && steps[i].op.generation > e.generation && steps[i].op.snapshot != []) ==>
    (exists k :: 0 <= k < |steps| && steps[k].op.generation == Top(e.generation, steps) && steps[k].op.snapshot != [])
  }

  lemma SameReports(stored: nat, steps: seq<At>, other: seq<At>)
    requires multiset(other) == multiset(steps) && AllTimely(steps)
    ensures AllTimely(other) && (Consistent(steps) ==> Consistent(other))
    ensures Top(stored, other) == Top(stored, steps)
  {
    forall i | 0 <= i < |other| ensures other[i] in steps {
      assert other[i] in multiset(other);
    }
    forall i | 0 <= i < |steps| ensures steps[i] in other {
      assert steps[i] in multiset(steps);
    }
  }

  lemma FullMeansOrderFree(e: Endpoint, steps: seq<At>, other: seq<At>)
    requires Accepting(e) && AllTimely(steps) && Consistent(steps) && NewestIsFull(e, steps)
    requires multiset(other) == multiset(steps)
    ensures Run(e, other).inventory == Run(e, steps).inventory
  {
    hide Run;
    SameReports(e.generation, steps, other);
    if exists i :: 0 <= i < |steps| && steps[i].op.generation > e.generation && steps[i].op.snapshot != [] {
      var k :| 0 <= k < |steps| && steps[k].op.generation == Top(e.generation, steps) && steps[k].op.snapshot != [];
      assert steps[k] in multiset(other);
      var j :| 0 <= j < |other| && other[j] == steps[k];
      NewestSnapshotStored(e, steps, k);
      NewestSnapshotStored(e, other, j);
    } else {
      NothingNewerStored(e, steps);
      forall i | 0 <= i < |other| && other[i].op.generation > e.generation ensures other[i].op.snapshot == [] {
        assert other[i] in multiset(steps);
      }
      NothingNewerStored(e, other);
    }
  }

  /** The same reports with the i-th delivered first. */
  function First(steps: seq<At>, i: nat): (other: seq<At>)
    requires i < |steps|
    ensures multiset(other) == multiset(steps)
  {
    assert steps == steps[..i] + [steps[i]] + steps[i + 1..];
    [steps[i]] + (steps[..i] + steps[i + 1..])
  }

  lemma EmptyNewestMeansOrderMatters(e: Endpoint, steps: seq<At>)
    requires Accepting(e) && AllTimely(steps) && Consistent(steps) && !NewestIsFull(e, steps)
    requires e.inventory.Some? ==> e.inventory.value.generation <= e.generation
    ensures !OrderFree(e, steps)
  {
    var i :| 0 <= i < |steps| && steps[i].op.generation > e.generation && steps[i].op.snapshot != [];
    var k :| 0 <= k < |steps| && steps[k].op.generation == Top(e.generation, steps);
    NewestFirst(e, steps, k);
    FullFirst(e, steps, i);
    assert Run(e, First(steps, i)).inventory != Run(e, First(steps, k)).inventory;
  }

  lemma NewestFirst(e: Endpoint, steps: seq<At>, k: nat)
    requires Accepting(e) && AllTimely(steps)
    requires k < |steps| && steps[k].op.generation == Top(e.generation, steps) > e.generation && steps[k].op.snapshot == []
    ensures Run(e, First(steps, k)).inventory == e.inventory
  {
    var rest := steps[..k] + steps[k + 1..];
    hide Run;
    RunSplits(e, steps[k], rest);
    NothingNewerStored(Step(e, steps[k].now, steps[k].op), rest);
  }

  lemma FullFirst(e: Endpoint, steps: seq<At>, i: nat)
    requires Accepting(e) && AllTimely(steps)
    requires i < |steps| && steps[i].op.generation > e.generation && steps[i].op.snapshot != []
    ensures var v := Run(e, First(steps, i)).inventory; v.Some? && v.value.generation > e.generation
  {
    var rest := steps[..i] + steps[i + 1..];
    hide Run;
    RunSplits(e, steps[i], rest);
    SnapshotNeverOlder(Step(e, steps[i].now, steps[i].op), rest);
  }

  /** A stored snapshot is never stamped later than the stored generation. */
  lemma {:induction false} SnapshotWithinGeneration(born: nat, fp: Fingerprint, local: bool, steps: seq<At>)
    ensures var e := Run(Born(born, fp, local), steps);
            e.inventory.Some? ==> e.inventory.value.generation <= e.generation
  {
    if steps != [] {
      SnapshotWithinGeneration(born, fp, local, steps[..|steps| - 1]);
    }
  }

  /**
   On every endpoint a run can reach, the stored snapshot is independent of the order of delivery if
   and only if the newest report has a snapshot, or no report newer than the stored one has.
   */
  lemma OrderFreeExactly(e: Endpoint, steps: seq<At>)
    requires Reachable(e) && Accepting(e) && AllTimely(steps) && Consistent(steps)
    ensures OrderFree(e, steps) <==> NewestIsFull(e, steps)
  {
    if NewestIsFull(e, steps) {
      forall other | multiset(other) == multiset(steps) ensures Run(e, other).inventory == Run(e, steps).inventory {
        FullMeansOrderFree(e, steps, other);
      }
    } else {
      var born, fp, local, history :| e == Run(Born(born, fp, local), history);
      SnapshotWithinGeneration(born, fp, local, history);
      EmptyNewestMeansOrderMatters(e, steps);
    }
  }

  /** Reports that all carry a snapshot, as the agent connection sends them, may arrive in any order. */
  lemma FullReportsAreOrderFree(e: Endpoint, steps: seq<At>)
    requires Accepting(e) && AllTimely(steps) && Consistent(steps)
    requires forall i :: 0 <= i < |steps| ==> steps[i].op.snapshot != []
    ensures OrderFree(e, steps)
  {
    forall other | multiset(other) == multiset(steps) ensures Run(e, other).inventory == Run(e, steps).inventory {
      if exists i :: 0 <= i < |steps| && steps[i].op.generation > e.generation && steps[i].op.snapshot != [] {
        var k := Newest(e.generation, steps);
      }
      FullMeansOrderFree(e, steps, other);
    }
  }

  /** Two reports, the newer without a snapshot: the older one's snapshot is stored or not by their order. */
  lemma EmptySnapshotDependsOnOrder(fp: Fingerprint)
    ensures var e := Born(0, fp, true);
            var older, newer := At(0, AcceptInventory(1, "s")), At(0, AcceptInventory(2, ""));
            && Run(e, [older, newer]).inventory == Some(Inventory(1, "s"))
            && Run(e, [newer, older]).inventory == None
            && Run(e, [older, newer]).generation == Run(e, [newer, older]).generation == 2
  {
    var e := Born(0, fp, true);
    var older, newer := At(0, AcceptInventory(1, "s")), At(0, AcceptInventory(2, ""));
    RunSplits(e, older, [newer]);
    RunSplits(e, newer, [older]);
    RunSplits(Step(e, older.now, older.op), newer, []);
    RunSplits(Step(e, newer.now, newer.op), older, []);
  }

  /** In every run whose clock has reached `now`, the stored generation is at most an hour ahead of it. */
  lemma {:induction false} GenerationWithinSkew(born: nat, fp: Fingerprint, local: bool, steps: seq<At>, now: nat)
    requires forall i :: 0 <= i < |steps| ==> steps[i].now <= now
    ensures Run(Born(born, fp, local), steps).generation <= (now + GENERATION_SKEW) / SECOND
  {
    if steps != [] {
      GenerationWithinSkew(born, fp, local, steps[..|steps| - 1], now);
      Ordered(steps[|steps| - 1].now, now);
    }
  }

  lemma Ordered(a: nat, b: nat)
    requires a <= b
    ensures (a + GENERATION_SKEW) / SECOND <= (b + GENERATION_SKEW) / SECOND
    ensures a / SECOND <= b / SECOND <= (b + GENERATION_SKEW) / SECOND
  {
  }

  /** So no report can shut later ones out: one stamped with the time is accepted within an hour and a second. */
  lemma HonestReportAccepted(born: nat, fp: Fingerprint, local: bool, steps: seq<At>, now: nat, later: nat, snapshot: seq<char>)
    requires forall i :: 0 <= i < |steps| ==> steps[i].now <= now
    requires later >= now + GENERATION_SKEW + SECOND && |snapshot| <= MAX_SNAPSHOT_BYTES
    requires Accepting(Run(Born(born, fp, local), steps))
    ensures var e := Run(Born(born, fp, local), steps);
            Accepts(e, later, later / SECOND, snapshot) && AcceptReport(e, later, later / SECOND, snapshot).generation == later / SECOND
  {
    GenerationWithinSkew(born, fp, local, steps, now);
    Ordered(later, later);
    assert later / SECOND >= (now + GENERATION_SKEW) / SECOND + 1;
  }
}
