/**
 When each transaction on an endpoint is taken and what it writes, told over the key states, the stored
 times and what the handshake answers, with the constants written out in nanoseconds.
 */
module KeyRules {
  import opened Options
  import opened EndpointKeys

  const DAY: nat := 86_400_000_000_000

  /** The one fingerprint the handshake lets pass now. */
  ghost predicate Current(e: Endpoint, now: nat, fp: Fingerprint) {
    AgentIdentity(e, now, fp) == Passes && forall other :: AgentIdentity(e, now, other) == Passes ==> other == fp
  }

  /** A rotation to `fp` signed by the key that passes now, with no duplicate standing and no key under review for less than seven days. */
  ghost predicate Rotates(e: Endpoint, now: nat, op: Op, fp: Fingerprint) {
    && op.Rotate? && op.wellFormed && op.minted == fp && fp !in e.keys
    && (e.state == Approved || e.state == Active || e.state == Offline)
    && (exists current :: Current(e, now, current) && current in op.verifies)
    && "duplicate_connection" !in e.events
    && (forall k :: k in e.keys && e.keys[k].state == PendingReview ==> e.keys[k].created + 7 * DAY <= now)
  }

  /**
   On every reachable endpoint a step adds a key if and only if it is a well-formed rotation to a new
   fingerprint, signed by the one key that passes the handshake, on an endpoint that accepts, with no
   duplicate connection standing and no key under review for less than seven days. The key added is
   under review as of now, every key that was under review is retired, and no other key changes.
   */
  lemma KeyAddedExactly(e: Endpoint, now: nat, op: Op, fp: Fingerprint)
    requires Reachable(e)
    ensures fp !in e.keys && fp in Step(e, now, op).keys <==> Rotates(e, now, op, fp)
    ensures Rotates(e, now, op, fp) ==>
              var e' := Step(e, now, op);
              && e'.keys.Keys == e.keys.Keys + {fp} && e'.keys[fp] == Key(PendingReview, now)
              && (forall k :: k in e.keys ==>
                    e'.keys[k] == if e.keys[k].state == PendingReview then Key(RetiredKey, e.keys[k].created) else e.keys[k])
              && e' == e.(keys := e'.keys, events := e.events + {"rotation_pending"})
  {
    ReachableOk(e);
    hide Reachable;
    if op.Rotate? && Accepting(e) {
      CurrentIsApproved(e, now);
      SignedByCurrent(e, now, op.verifies);
      hide Current, Inv, AgentIdentity;
      RotationAdds(e, now, op, fp);
    } else {
      hide Inv, Current;
      NoKeyAdded(e, now, op);
      hide Step;
    }
  }

  /** Why a rotation is refused: its form, its signer or the endpoint, a duplicate, a key under review, or a known fingerprint, in that order. */
  lemma RotationRefusals(e: Endpoint, now: nat, wellFormed: bool, verifies: set<Fingerprint>, minted: Fingerprint)
    requires Reachable(e)
    ensures var r := RotateRefusal(e, now, wellFormed, verifies, minted);
            var signed := (e.state == Approved || e.state == Active || e.state == Offline)
                          && exists current :: Current(e, now, current) && current in verifies;
            && (r == Some(Invalid) <==> !wellFormed)
            && (r == Some(Forbidden) <==> wellFormed && !signed)
            && (r == Some(RotationBlocked) <==> wellFormed && signed && "duplicate_connection" in e.events)
            && (r == Some(RotationPending) ==> exists k :: k in e.keys && e.keys[k].state == PendingReview && now < e.keys[k].created + 7 * DAY)
            && (r == Some(AlreadyExists) ==> minted in e.keys)
  {
    ReachableOk(e);
    hide Reachable;
    if Accepting(e) {
      CurrentIsApproved(e, now);
      hide Current, Inv;
      SignedByCurrent(e, now, verifies);
    }
  }

  lemma SignedByCurrent(e: Endpoint, now: nat, verifies: set<Fingerprint>)
    requires forall fp :: Current(e, now, fp) <==> fp in InState(e.keys, ApprovedKey)
    ensures InState(e.keys, ApprovedKey) * verifies != {} <==> exists current :: Current(e, now, current) && current in verifies
  {
    hide Current;
    if current :| Current(e, now, current) && current in verifies {
      assert current in InState(e.keys, ApprovedKey) * verifies;
    }
    if InState(e.keys, ApprovedKey) * verifies != {} {
      var current :| current in InState(e.keys, ApprovedKey) * verifies;
      assert Current(e, now, current);
    }
  }

  lemma CurrentIsApproved(e: Endpoint, now: nat)
    requires Inv(e) && Accepting(e)
    ensures forall fp :: Current(e, now, fp) <==> fp in InState(e.keys, ApprovedKey)
  {
    var approved :| approved in e.keys && e.keys[approved].state == ApprovedKey;
    forall fp ensures AgentIdentity(e, now, fp) == Passes <==> fp == approved {
    }
    assert AgentIdentity(e, now, approved) == Passes;
  }

  lemma RotationAdds(e: Endpoint, now: nat, op: Op, fp: Fingerprint)
    requires op.Rotate? && Accepting(e)
    requires InState(e.keys, ApprovedKey) * op.verifies != {} <==> exists current :: Current(e, now, current) && current in op.verifies
    ensures fp !in e.keys && fp in Step(e, now, op).keys <==> Rotates(e, now, op, fp)
    ensures Rotates(e, now, op, fp) ==>
              var e' := Step(e, now, op);
              && e'.keys.Keys == e.keys.Keys + {fp} && e'.keys[fp] == Key(PendingReview, now)
              && (forall k :: k in e.keys ==>
                    e'.keys[k] == if e.keys[k].state == PendingReview then Key(RetiredKey, e.keys[k].created) else e.keys[k])
              && e' == e.(keys := e'.keys, events := e.events + {"rotation_pending"})
  {
    hide Current;
    assert LivePending(e.keys, now) <==>
           exists k :: k in e.keys && e.keys[k].state == PendingReview && e.keys[k].created + 7 * DAY > now;
  }

  lemma NoKeyAdded(e: Endpoint, now: nat, op: Op)
    requires !op.Rotate? || !Accepting(e)
    ensures Step(e, now, op).keys.Keys == e.keys.Keys
  {
    if op.Acknowledge? && Acknowledgeable(e, now, op.fingerprint) {
      assert AcknowledgeKeys(e.keys, op.fingerprint).Keys == e.keys.Keys;
    }
  }

  /**
   An acknowledgement is taken if and only if its key is under review for less than seven days on an
   endpoint that accepts. It then is the approved key, every other one is retired, and the event that
   announced it is gone.
   */
  lemma AcknowledgeExactly(e: Endpoint, now: nat, fp: Fingerprint)
    ensures var e' := Step(e, now, Acknowledge(fp));
            var taken := fp in e.keys && e.keys[fp].state == PendingReview && now < e.keys[fp].created + 7 * DAY
                         && (e.state == Approved || e.state == Active || e.state == Offline);
            && (!taken ==> e' == e)
            && (taken ==>
                  && e'.keys.Keys == e.keys.Keys && e'.keys[fp] == Key(ApprovedKey, e.keys[fp].created)
                  && (forall k :: k in e.keys && k != fp ==> e'.keys[k] == Key(RetiredKey, e.keys[k].created))
                  && e' == e.(keys := e'.keys, events := e.events - {"rotation_pending"}))
  {
  }

  /**
   An approval is taken if and only if the enrollment is pending for at most a day and the key is its
   key under review. Then exactly that key is approved and the endpoint starts with no inventory.
   */
  lemma ApproveExactly(e: Endpoint, now: nat, fp: Fingerprint)
    ensures var e' := Step(e, now, Approve(fp));
            var taken := e.state == Pending && now <= e.created + DAY && fp in e.keys && e.keys[fp].state == PendingReview;
            && (!taken ==> e' == e)
            && (taken ==>
                  && e'.keys.Keys == e.keys.Keys && e'.keys[fp] == Key(ApprovedKey, e.keys[fp].created)
                  && (forall k :: k in e.keys && k != fp ==> e'.keys[k] == e.keys[k])
                  && e' == e.(keys := e'.keys, state := Approved, generation := 0, inventory := None))
    ensures ApproveRefusal(e, now, fp) == None <==> e.state == Pending && now <= e.created + DAY && fp in e.keys && e.keys[fp].state == PendingReview
    ensures ApproveRefusal(e, now, fp) == Some(NotFound) <==> e.state != Pending
  {
  }

  /** A rejection ends a pending endpoint and a revocation any that is not revoked: every key is retired and the inventory is gone. */
  lemma TerminateExactly(e: Endpoint, now: nat, rejection: bool)
    ensures var e' := Step(e, now, if rejection then Reject else Revoke);
            var taken := if rejection then e.state == Pending else e.state != Revoked;
            && (!taken ==> e' == e)
            && (taken ==>
                  && e'.keys.Keys == e.keys.Keys && (forall k :: k in e.keys ==> e'.keys[k] == Key(RetiredKey, e.keys[k].created))
                  && e' == e.(keys := e'.keys, state := Revoked, generation := 0, inventory := None))
  {
  }

  /**
   A report is taken if and only if it is at most a mebibyte, stamped at most an hour ahead, newer than
   what is stored, and the endpoint accepts. It makes the endpoint active, and its snapshot replaces the
   stored one unless it is empty.
   */
  lemma ReportExactly(e: Endpoint, now: nat, generation: nat, snapshot: seq<char>)
    ensures var e' := Step(e, now, AcceptInventory(generation, snapshot));
            var taken := && |snapshot| <= 1_048_576 && generation * 1_000_000_000 <= now + 3_600_000_000_000 && e.generation < generation
                         && (e.state == Approved || e.state == Active || e.state == Offline);
            && (!taken ==> e' == e)
            && (taken ==>
                  && e' == e.(state := Active, generation := generation, inventory := e'.inventory)
                  && e'.inventory == if |snapshot| == 0 then e.inventory else Some(Inventory(generation, snapshot)))
  {
    assert generation <= (now + GENERATION_SKEW) / SECOND <==> generation * 1_000_000_000 <= now + 3_600_000_000_000;
  }

  /** Events come and go one at a time, and only an active endpoint goes offline. */
  lemma MarksExactly(e: Endpoint, now: nat, kind: Kind)
    ensures Step(e, now, RecordEvent(kind)) == e.(events := e.events + {kind})
    ensures Step(e, now, AcknowledgeEvent(kind)) == e.(events := e.events - {kind})
    ensures Step(e, now, MarkOffline) == if e.state == Active then e.(state := Offline) else e
  {
  }

  /**
   What the handshake answers, on every reachable endpoint: a fingerprint passes exactly if it is the
   approved key of an endpoint that accepts, or the first key of one pending for at most a day; a key
   offered by rotation is under review for seven days; any other known key is retired.
   */
  lemma IdentityExactly(e: Endpoint, now: nat, fp: Fingerprint)
    requires Reachable(e)
    ensures var alive := e.state != Revoked && (e.state == Pending ==> now <= e.created + DAY);
            var id := AgentIdentity(e, now, fp);
            && (id == Refused <==> !alive || fp !in e.keys)
            && (id == Passes <==> alive && fp in e.keys && e.keys[fp].state == if e.state == Pending then PendingReview else ApprovedKey)
            && (id == UnderReview <==>
                  alive && e.state != Pending && fp in e.keys && e.keys[fp].state == PendingReview && now <= e.keys[fp].created + 7 * DAY)
  {
    ReachableOk(e);
    hide Reachable;
  }
}
