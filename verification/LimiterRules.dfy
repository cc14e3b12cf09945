/** What one attempt does to each limiter, told over its map alone, with the limits and times written out in nanoseconds. */
module LimiterRules {
  import opened Options
  import L = LoginBackoff
  import A = AttemptWindows
  import R = RegistrySlots

  // ----- The delay after failed logins -----

  /** Four failures are free; then a minute, two, four and eight; and from the ninth on a quarter of an hour. */
  lemma DelayTable(failures: nat)
    ensures L.Delay(failures) ==
            if failures < 5 then 0
            else if failures == 5 then 60_000_000_000
            else if failures == 6 then 120_000_000_000
            else if failures == 7 then 240_000_000_000
            else if failures == 8 then 480_000_000_000
            else 900_000_000_000
  {
  }

  /**
   A login is checked exactly if its key has no entry or its delay is over. It counts one failure more
   than the entry, or one if there is none or its delay ended over an hour ago, and starts the delay of
   that count. No other key's entry changes; with the map full and the key new, what went is what
   ended its delay over an hour ago and, if that frees nothing, the chosen entry.
   */
  lemma LoginExactly(m: L.Entries, key: L.Key, now: nat, victim: L.Key)
    ensures L.Admits(m, key, now) <==> (key in m ==> m[key].until <= now)
    ensures var m' := L.Step(m, L.Begin(key, now, victim));
            var again := key in m && now <= m[key].until + 3_600_000_000_000;
            if key in m && now < m[key].until then m' == m
            else
              && key in m'
              && m'[key].failures == (if again then m[key].failures + 1 else 1)
              && m'[key].until == now + L.Delay(m'[key].failures)
              && (forall k :: k in m' && k != key ==> k in m && m'[k] == m[k])
              && (key in m || |m| < 10_000 ==> forall k :: k in m ==> k in m')
              && (key !in m && |m| >= 10_000 ==>
                    forall k :: k in m && k != key && k !in m' <==>
                      k in m && (now > m[k].until + 3_600_000_000_000 || (k == victim && StillFull(m, now))))
  {
    if key !in m && |m| >= 10_000 {
      var kept := L.DropForgotten(m, now);
      FullStays(m, now);
      hide L.Delay;
    }
  }

  /** The map is full even without the entries whose delay ended over an hour ago. */
  predicate StillFull(m: L.Entries, now: nat) {
    |set k | k in m && now <= m[k].until + 3_600_000_000_000| >= 10_000
  }

  lemma FullStays(m: L.Entries, now: nat)
    ensures |L.DropForgotten(m, now)| >= 10_000 <==> StillFull(m, now)
  {
    var kept := L.DropForgotten(m, now);
    assert kept.Keys == set k | k in m && now <= m[k].until + 3_600_000_000_000;
    assert |kept| == |kept.Keys|;
  }

  /** A success clears its own key and no other. */
  lemma SuccessExactly(m: L.Entries, key: L.Key)
    ensures var m' := L.Step(m, L.Succeeded(key));
            && (forall k :: k in m' <==> k in m && k != key) && (forall k :: k in m' ==> m'[k] == m[k])
  {
  }

  // ----- Attempts in windows -----

  /**
   An attempt opens a window of its length if the key has none or its window is over, and else counts
   one more in it, whether it is allowed or not; it is allowed exactly if the count is within the limit.
   No other key's window changes.
   */
  lemma AttemptExactly(m: A.Windows, key: A.Key, now: nat, limit: int, span: nat, victim: A.Key)
    ensures var op := A.Attempt(key, now, limit, span, victim);
            var m' := A.Step(m, op);
            && key in m'
            && m'[key] == (if key in m && now <= m[key].reset then A.Window(m[key].count + 1, m[key].reset) else A.Window(1, now + span))
            && (A.Allows(m, op) <==> m'[key].count <= limit)
            && (forall k :: k in m' && k != key ==> k in m && m'[k] == m[k])
            && (key in m || |m| < 10_000 ==> forall k :: k in m ==> k in m')
            && (forall k :: k in m && k !in m' ==> now > m[k].reset || k == victim)
  {
  }

  // ----- Slots -----

  /** A slot is taken exactly if the organization holds fewer than two and the server fewer than eight. */
  lemma SlotExactly(p: R.Pool, org: R.Org)
    ensures var holds := if org in p.held then p.held[org] else 0;
            var p' := R.Step(p, R.Take(org));
            if holds < 2 && p.used < 8 then p' == R.Pool(p.held[org := holds + 1], p.used + 1) else p' == p
    ensures R.CanTake(p, org) <==> (org in p.held ==> p.held[org] < 2) && p.used < 8
  {
  }

  /** A release gives back one slot of an organization that holds one, and its entry goes with its last. */
  lemma ReleaseExactly(p: R.Pool, org: R.Org)
    requires org in p.held && p.held[org] > 0 && p.used > 0
    ensures var p' := R.Step(p, R.Release(org));
            && p'.used == p.used - 1
            && (org in p'.held <==> p.held[org] > 1) && (org in p'.held ==> p'.held[org] == p.held[org] - 1)
            && (forall o :: o != org ==> (o in p'.held <==> o in p.held) && (o in p.held ==> p'.held[o] == p.held[o]))
  {
  }
}
