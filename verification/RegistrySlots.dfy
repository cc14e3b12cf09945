/** Slots for registry work: a quota for each organization and a pool for the server. */
module RegistrySlots {
  type Org = string

  const PER_ORG: int := 2
  const TOTAL: nat := 8

  /** `held` has an entry for an organization only while it holds a slot; `used` is the pool channel's length. */
  datatype Pool = Pool(held: map<Org, int>, used: nat)

  const EMPTY: Pool := Pool(map[], 0)

  function Count(held: map<Org, int>, org: Org): (n: int) {
    if org in held then held[org] else 0
  }

  predicate CanTake(p: Pool, org: Org) {
    Count(p.held, org) < PER_ORG && p.used < TOTAL
  }

  function Taken(p: Pool, org: Org): (p': Pool) {
    if CanTake(p, org) then Pool(p.held[org := Count(p.held, org) + 1], p.used + 1) else p
  }

  /** What the release closure does, called once for each slot taken. */
  function Released(p: Pool, org: Org): (p': Pool)
    requires Count(p.held, org) > 0 && p.used > 0
  {
    Pool(if Count(p.held, org) == 1 then p.held - {org} else p.held[org := Count(p.held, org) - 1], p.used - 1)
  }

  datatype Op = Take(org: Org) | Release(org: Org)

  function Step(p: Pool, op: Op): (p': Pool) {
    match op
    case Take(org) => Taken(p, org)
    case Release(org) => if Count(p.held, org) > 0 && p.used > 0 then Released(p, org) else p
  }

  function Run(ops: seq<Op>): (p: Pool) {
    if ops == [] then EMPTY else Step(Run(ops[..|ops| - 1]), ops[|ops| - 1])
  }

  // ----- The sum of the counts -----

  ghost function Sum(held: map<Org, int>): (n: int)
    decreases |held|
  {
    if held == map[] then 0
    else
      var org :| org in held;
      held[org] + Sum(held - {org})
  }

  lemma {:induction false} SumWithout(held: map<Org, int>, org: Org)
    requires org in held
    ensures Sum(held) == held[org] + Sum(held - {org})
    decreases |held|
  {
    var first :| first in held && Sum(held) == held[first] + Sum(held - {first});
    if first != org {
      var rest := held - {first};
      assert |rest| < |held|;
      SumWithout(rest, org);
      assert org in held - {first} && first in held - {org};
      assert |held - {org}| < |held|;
      SumWithout(held - {org}, first);
      assert (held - {first}) - {org} == (held - {org}) - {first};
    }
  }

  lemma SumPut(held: map<Org, int>, org: Org, n: int)
    ensures Sum(held[org := n]) == Sum(held) - Count(held, org) + n
  {
    SumWithout(held[org := n], org);
    assert held[org := n] - {org} == held - {org};
    if org in held {
      SumWithout(held, org);
    } else {
      assert held - {org} == held;
    }
  }

  lemma {:induction false} SumBounded(held: map<Org, int>)
    requires forall org :: org in held ==> 1 <= held[org] <= PER_ORG
    ensures |held| <= Sum(held) <= PER_ORG * |held|
    decreases |held|
  {
    if held != map[] {
      var org :| org in held;
      SumWithout(held, org);
      assert |held - {org}| == |held| - 1 by { assert (held - {org}).Keys == held.Keys - {org}; }
      SumBounded(held - {org});
    }
  }

  // ----- Every run -----

  ghost predicate Inv(p: Pool) {
    Sum(p.held) == p.used <= TOTAL && forall org :: org in p.held ==> 1 <= p.held[org] <= PER_ORG
  }

  lemma StepKeeps(p: Pool, op: Op)
    requires Inv(p)
    ensures Inv(Step(p, op))
  {
    match op
    case Take(org) => SumPut(p.held, org, Count(p.held, org) + 1);
    case Release(org) =>
      if Count(p.held, org) > 0 {
        SumWithout(p.held, org);
        SumPut(p.held, org, Count(p.held, org) - 1);
      }
  }

  /** In every run the counts add up to the slots in use, none above two and all of them at most eight. */
  lemma {:induction false} CountsAddUp(ops: seq<Op>)
    ensures var p := Run(ops); Sum(p.held) == p.used <= TOTAL && forall org :: org in p.held ==> 1 <= p.held[org] <= PER_ORG
  {
    hide Step;
    if ops == [] {
      assert Sum(map[]) == 0;
    } else {
      CountsAddUp(ops[..|ops| - 1]);
      StepKeeps(Run(ops[..|ops| - 1]), ops[|ops| - 1]);
    }
  }

  /** An organization holding none is refused exactly when the pool is full, and then at least four others hold slots. */
  lemma RefusedOnlyByFour(ops: seq<Op>, org: Org)
    requires org !in Run(ops).held
    ensures !CanTake(Run(ops), org) <==> Run(ops).used == TOTAL
    ensures !CanTake(Run(ops), org) ==> |Run(ops).held| >= 4
  {
    CountsAddUp(ops);
    SumBounded(Run(ops).held);
  }

  /** A slot just taken and given back leaves the pool as it was. */
  lemma ReleaseUndoesTake(ops: seq<Op>, org: Org)
    requires CanTake(Run(ops), org)
    ensures Step(Step(Run(ops), Take(org)), Release(org)) == Run(ops)
  {
    CountsAddUp(ops);
    var p := Run(ops);
    if org in p.held {
      assert p.held[org := p.held[org] + 1][org := p.held[org]] == p.held;
    } else {
      assert p.held[org := 1] - {org} == p.held;
    }
  }

  lemma HeldMeansUsed(p: Pool, org: Org)
    requires Inv(p) && Count(p.held, org) > 0
    ensures p.used > 0
  {
    SumBounded(p.held);
  }

  class Slots {
    var held: map<Org, int>
    var used: nat

    ghost function View(): (p: Pool)
      reads this
    {
      Pool(held, used)
    }

    /** The counts add up to the slots in use and keep to their limits. */
    ghost predicate Valid()
      reads this
    {
      Inv(View())
    }

    constructor ()
      ensures Valid() && View() == EMPTY
    {
      held, used := map[], 0;
      assert Sum(map[]) == 0;
    }

    /** The organization's quota first, then the pool. */
    method TakeSlot(org: Org) returns (ok: bool)
      requires Valid()
      modifies this
      ensures Valid() && View() == Step(old(View()), Take(org)) && (ok <==> old(CanTake(View(), org)))
    {
      StepKeeps(View(), Take(org));
      hide Inv;
      if Count(held, org) >= PER_ORG {
        return false;
      }
      if used >= TOTAL {
        return false;
      }
      used := used + 1;
      held := held[org := Count(held, org) + 1];
      ok := true;
    }

    method ReleaseSlot(org: Org)
      requires Valid() && Count(held, org) > 0
      modifies this
      ensures Valid() && View() == Step(old(View()), Release(org))
    {
      StepKeeps(View(), Release(org));
      HeldMeansUsed(View(), org);
      hide Inv;
      ghost var before := held;
      held := held[org := Count(held, org) - 1];
      if held[org] == 0 {
        held := held - {org};
        assert held == before - {org};
      }
      used := used - 1;
    }
  }
}
