/**
 The keys an endpoint's agent may connect with, and the endpoint's life from enrollment to
 revocation. Every transaction touches one endpoint's rows, so one endpoint is the state; `now` is
 the clock a transaction reads, in nanoseconds.
 */
module EndpointKeys {
  import opened Options

  type Fingerprint = string
  type Kind = string

  datatype KeyState = ApprovedKey | PendingReview | RetiredKey
  datatype Key = Key(state: KeyState, created: nat)

  datatype State = Pending | Approved | Active | Offline | Revoked

  /** `events` is the kinds with an unacknowledged event; a unique index allows one of each. */
  datatype Endpoint = Endpoint(
    state: State,
    created: nat,
    keys: map<Fingerprint, Key>,
    events: set<Kind>,
    generation: nat,
    inventory: Option<Inventory>)

  datatype Inventory = Inventory(generation: nat, snapshot: seq<char>)

  datatype Error = Invalid | Forbidden | NotFound | RotationBlocked | RotationPending | AlreadyExists
  datatype Identity = Passes | Refused | UnderReview | Retired

  const SECOND: nat := 1_000_000_000
  const HOUR: nat := 3600 * SECOND
  const PENDING_ENDPOINT_LIFE: nat := 24 * HOUR
  const PENDING_KEY_LIFE: nat := 7 * 24 * HOUR
  const GENERATION_SKEW: nat := HOUR
  const MAX_SNAPSHOT_BYTES: nat := 1024 * 1024
  const DUPLICATE_CONNECTION: Kind := "duplicate_connection"
  const ROTATION_PENDING: Kind := "rotation_pending"

  /** `verifies` is the keys the new key's signature verifies under. */
  datatype Op =
    | Rotate(wellFormed: bool, verifies: set<Fingerprint>, minted: Fingerprint)
    | Acknowledge(fingerprint: Fingerprint)
    | Approve(fingerprint: Fingerprint)
    | Reject
    | Revoke
    | RecordEvent(kind: Kind)
    | AcknowledgeEvent(kind: Kind)
    | AcceptInventory(generation: nat, snapshot: seq<char>)
    | MarkOffline

  // ----- The transactions -----

  /** A pending enrollment nobody reviewed in time reads as expired. */
  predicate Expired(e: Endpoint, now: nat) {
    e.state == Pending && now > e.created + PENDING_ENDPOINT_LIFE
  }

  predicate Accepting(e: Endpoint) {
    e.state == Approved || e.state == Active || e.state == Offline
  }

  function InState(keys: map<Fingerprint, Key>, state: KeyState): (which: set<Fingerprint>) {
    set fp | fp in keys && keys[fp].state == state
  }

  /** Young enough to count as pending: created after the cutoff. */
  predicate Young(k: Key, now: nat) {
    k.created + PENDING_KEY_LIFE > now
  }

  predicate LivePending(keys: map<Fingerprint, Key>, now: nat) {
    exists fp :: fp in keys && keys[fp].state == PendingReview && Young(keys[fp], now)
  }

  function RetireAll(keys: map<Fingerprint, Key>, which: set<Fingerprint>): (after: map<Fingerprint, Key>) {
    map fp | fp in keys :: if fp in which then keys[fp].(state := RetiredKey) else keys[fp]
  }

  /** Why a rotation is refused, in the order the transaction looks. */
  function RotateRefusal(e: Endpoint, now: nat, wellFormed: bool, verifies: set<Fingerprint>, minted: Fingerprint): (r: Option<Error>) {
    if !wellFormed then Some(Invalid)
    else if !Accepting(e) then Some(Forbidden)
    else if InState(e.keys, ApprovedKey) * verifies == {} then Some(Forbidden)
    else if DUPLICATE_CONNECTION in e.events then Some(RotationBlocked)
    else if LivePending(e.keys, now) then Some(RotationPending)
    else if minted in e.keys then Some(AlreadyExists)
    else None
  }

  function RotateKeys(keys: map<Fingerprint, Key>, now: nat, minted: Fingerprint): (after: map<Fingerprint, Key>) {
    RetireAll(keys, InState(keys, PendingReview))[minted := Key(PendingReview, now)]
  }

  predicate Acknowledgeable(e: Endpoint, now: nat, fp: Fingerprint) {
    fp in e.keys && e.keys[fp].state == PendingReview && Young(e.keys[fp], now) && Accepting(e)
  }

  function AcknowledgeKeys(keys: map<Fingerprint, Key>, fp: Fingerprint): (after: map<Fingerprint, Key>)
    requires fp in keys
  {
    RetireAll(keys, keys.Keys - {fp})[fp := keys[fp].(state := ApprovedKey)]
  }

  function ApproveRefusal(e: Endpoint, now: nat, fp: Fingerprint): (r: Option<Error>) {
    if e.state != Pending then Some(NotFound)
    else if now > e.created + PENDING_ENDPOINT_LIFE then Some(Invalid)
    else if fp !in e.keys || e.keys[fp].state != PendingReview then Some(Invalid)
    else None
  }

  function Terminated(e: Endpoint): (e': Endpoint) {
    e.(state := Revoked, generation := 0, inventory := None, keys := RetireAll(e.keys, e.keys.Keys))
  }

  /** The report is within the clock bound and newer than what is stored. */
  predicate Accepts(e: Endpoint, now: nat, generation: nat, snapshot: seq<char>) {
    && |snapshot| <= MAX_SNAPSHOT_BYTES
    && generation <= (now + GENERATION_SKEW) / SECOND
    && Accepting(e) && e.generation < generation
  }

  function AcceptReport(e: Endpoint, now: nat, generation: nat, snapshot: seq<char>): (e': Endpoint) {
    if Accepts(e, now, generation, snapshot) then
      e.(generation := generation, state := Active,
         inventory := if snapshot == [] then e.inventory else Some(Inventory(generation, snapshot)))
    else e
  }

  function Step(e: Endpoint, now: nat, op: Op): (e': Endpoint) {
    match op
    case Rotate(wellFormed, verifies, minted) =>
      if RotateRefusal(e, now, wellFormed, verifies, minted).Some? then e
      else e.(keys := RotateKeys(e.keys, now, minted), events := e.events + {ROTATION_PENDING})
    case Acknowledge(fp) =>
      if Acknowledgeable(e, now, fp) then
        e.(keys := AcknowledgeKeys(e.keys, fp), events := e.events - {ROTATION_PENDING})
      else e
    case Approve(fp) =>
      if ApproveRefusal(e, now, fp).Some? then e
      else e.(keys := e.keys[fp := e.keys[fp].(state := ApprovedKey)], state := Approved, generation := 0, inventory := None)
    case Reject => if e.state == Pending then Terminated(e) else e
    case Revoke => if e.state != Revoked then Terminated(e) else e
    case RecordEvent(kind) => e.(events := e.events + {kind})
    case AcknowledgeEvent(kind) => e.(events := e.events - {kind})
    case AcceptInventory(generation, snapshot) => AcceptReport(e, now, generation, snapshot)
    case MarkOffline => if e.state == Active then e.(state := Offline) else e
  }

  /** What the connection handshake is told about a fingerprint. */
  function AgentIdentity(e: Endpoint, now: nat, fp: Fingerprint): (id: Identity) {
    if e.state == Revoked || Expired(e, now) || fp !in e.keys then Refused
    else match e.keys[fp].state
      case ApprovedKey => Passes
      case PendingReview =>
        if e.state == Pending then Passes
        else if now <= e.keys[fp].created + PENDING_KEY_LIFE then UnderReview else Retired
      case RetiredKey => Retired
  }

  // ----- Runs -----

  /** Enrollment by token, or the built-in local connection, which is born approved. */
  function Born(now: nat, fp: Fingerprint, local: bool): (e: Endpoint) {
    if local then Endpoint(Approved, now, map[fp := Key(ApprovedKey, now)], {}, 0, None)
    else Endpoint(Pending, now, map[fp := Key(PendingReview, now)], {}, 0, None)
  }

  datatype At = At(now: nat, op: Op)

  function Run(e: Endpoint, steps: seq<At>): (e': Endpoint) {
    if steps == [] then e
    else Step(Run(e, steps[..|steps| - 1]), steps[|steps| - 1].now, steps[|steps| - 1].op)
  }

  ghost predicate Reachable(e: Endpoint) {
    exists now, fp, local, steps :: e == Run(Born(now, fp, local), steps)
  }

  // ----- The invariant -----

  predicate AtMostOne(keys: map<Fingerprint, Key>, state: KeyState) {
    forall a, b :: a in keys && b in keys && keys[a].state == state && keys[b].state == state ==> a == b
  }

  ghost predicate Inv(e: Endpoint) {
    && AtMostOne(e.keys, ApprovedKey) && AtMostOne(e.keys, PendingReview)
    && (Accepting(e) ==> exists fp :: fp in e.keys && e.keys[fp].state == ApprovedKey)
    && (e.state == Pending ==> exists fp :: fp in e.keys && e.keys[fp].state == PendingReview)
    && (e.state == Pending ==> forall fp :: fp in e.keys ==> e.keys[fp].state != ApprovedKey)
    && (e.state == Revoked ==> forall fp :: fp in e.keys ==> e.keys[fp].state == RetiredKey)
  }

  lemma RotateKeeps(e: Endpoint, now: nat, op: Op)
    requires Inv(e) && op.Rotate?
    ensures Inv(Step(e, now, op))
  {
    var e' := Step(e, now, op);
    if e' != e && Accepting(e) {
      var fp :| fp in e.keys && e.keys[fp].state == ApprovedKey;
      assert fp in e'.keys && e'.keys[fp].state == ApprovedKey;
    }
  }

  lemma AcknowledgeKeeps(e: Endpoint, now: nat, fp: Fingerprint)
    requires Inv(e) && Acknowledgeable(e, now, fp)
    ensures Inv(Step(e, now, Acknowledge(fp)))
    ensures InState(Step(e, now, Acknowledge(fp)).keys, ApprovedKey) == {fp}
    ensures InState(Step(e, now, Acknowledge(fp)).keys, PendingReview) == {}
  {
    var e' := Step(e, now, Acknowledge(fp));
    assert fp in e'.keys && e'.keys[fp].state == ApprovedKey;
  }

  lemma ApproveKeeps(e: Endpoint, now: nat, fp: Fingerprint)
    requires Inv(e)
    ensures Inv(Step(e, now, Approve(fp)))
  {
    var e' := Step(e, now, Approve(fp));
    if e' != e {
      assert fp in e'.keys && e'.keys[fp].state == ApprovedKey;
    }
  }

  lemma StepKeeps(e: Endpoint, now: nat, op: Op)
    requires Inv(e)
    ensures Inv(Step(e, now, op))
  {
    match op
    case Rotate(_, _, _) => RotateKeeps(e, now, op);
    case Acknowledge(fp) =>
      if Acknowledgeable(e, now, fp) {
        AcknowledgeKeeps(e, now, fp);
      }
    case Approve(fp) => ApproveKeeps(e, now, fp);
    case _ =>
  }

  lemma {:induction false} RunKeeps(e: Endpoint, steps: seq<At>)
    requires Inv(e)
    ensures Inv(Run(e, steps))
  {
    hide Inv, Step;
    if steps != [] {
      RunKeeps(e, steps[..|steps| - 1]);
      StepKeeps(Run(e, steps[..|steps| - 1]), steps[|steps| - 1].now, steps[|steps| - 1].op);
    }
  }

  lemma ReachableOk(e: Endpoint)
    requires Reachable(e)
    ensures Inv(e)
  {
    var now, fp, local, steps :| e == Run(Born(now, fp, local), steps);
    var born := Born(now, fp, local);
    assert fp in born.keys;
    RunKeeps(born, steps);
  }

  // ----- What follows -----

  /** From approval to revocation there is exactly one approved key and at most one under review. */
  lemma ExactlyOneApproved(e: Endpoint)
    requires Reachable(e) && Accepting(e)
    ensures |InState(e.keys, ApprovedKey)| == 1
    ensures |InState(e.keys, PendingReview)| <= 1
  {
    ReachableOk(e);
    var fp :| fp in e.keys && e.keys[fp].state == ApprovedKey;
    assert InState(e.keys, ApprovedKey) == {fp};
    var under := InState(e.keys, PendingReview);
    if under != {} {
      var p :| p in under;
      assert under == {p};
    }
  }

  /** One fingerprint passes the handshake while the endpoint lives, and none once it is revoked or expired. */
  lemma ExactlyOneIdentity(e: Endpoint, now: nat)
    requires Reachable(e)
    ensures e.state == Revoked || Expired(e, now) ==> forall fp :: AgentIdentity(e, now, fp) == Refused
    ensures e.state != Revoked && !Expired(e, now) ==>
              exists fp :: AgentIdentity(e, now, fp) == Passes && forall other :: AgentIdentity(e, now, other) == Passes ==> other == fp
  {
    ReachableOk(e);
    hide Reachable;
    if e.state != Revoked && !Expired(e, now) {
      var state := if e.state == Pending then PendingReview else ApprovedKey;
      var fp :| fp in e.keys && e.keys[fp].state == state;
      OnlyItPasses(e, now, fp);
    }
  }

  lemma OnlyItPasses(e: Endpoint, now: nat, fp: Fingerprint)
    requires Inv(e) && e.state != Revoked && !Expired(e, now)
    requires fp in e.keys && e.keys[fp].state == if e.state == Pending then PendingReview else ApprovedKey
    ensures AgentIdentity(e, now, fp) == Passes && forall other :: AgentIdentity(e, now, other) == Passes ==> other == fp
  {
  }

  lemma RetiredStepStays(e: Endpoint, now: nat, op: Op, fp: Fingerprint)
    requires fp in e.keys && e.keys[fp].state == RetiredKey
    ensures var e' := Step(e, now, op); fp in e'.keys && e'.keys[fp].state == RetiredKey
  {
  }

  /** A retired key stays retired after every continuation, and so never passes again. */
  lemma {:induction false} RetiredStaysRetired(e: Endpoint, steps: seq<At>, fp: Fingerprint, later: nat)
    requires fp in e.keys && e.keys[fp].state == RetiredKey
    ensures var e' := Run(e, steps);
            fp in e'.keys && e'.keys[fp].state == RetiredKey && AgentIdentity(e', later, fp) != Passes
  {
    hide Step;
    if steps != [] {
      RetiredStaysRetired(e, steps[..|steps| - 1], fp, later);
      RetiredStepStays(Run(e, steps[..|steps| - 1]), steps[|steps| - 1].now, steps[|steps| - 1].op, fp);
    }
  }

  /** The only step after which a fingerprint passes that did not pass before is an operator acknowledging it. */
  lemma OnlyAcknowledgementAdmits(e: Endpoint, before: nat, now: nat, after: nat, op: Op, fp: Fingerprint)
    requires Reachable(e) && before <= now <= after
    requires AgentIdentity(e, before, fp) != Passes && AgentIdentity(Step(e, now, op), after, fp) == Passes
    ensures op == Acknowledge(fp) && AgentIdentity(e, now, fp) == UnderReview
  {
    ReachableOk(e);
  }

  /** The key that authenticates stops only by being succeeded, by revocation, or by an enrollment expiring. */
  lemma ApprovedUntilSucceeded(e: Endpoint, now: nat, op: Op, fp: Fingerprint)
    requires Reachable(e) && Accepting(e)
    requires AgentIdentity(e, now, fp) == Passes && AgentIdentity(Step(e, now, op), now, fp) != Passes
    ensures op == Revoke || (op.Acknowledge? && op.fingerprint != fp && AgentIdentity(Step(e, now, op), now, op.fingerprint) == Passes)
  {
    ReachableOk(e);
  }

  /** Revocation is final. */
  lemma {:induction false} RevokedIsFinal(e: Endpoint, steps: seq<At>)
    requires Reachable(e) && e.state == Revoked
    ensures Run(e, steps).state == Revoked
    ensures forall fp, now :: AgentIdentity(Run(e, steps), now, fp) != Passes
  {
    hide Inv;
    if steps != [] {
      RevokedIsFinal(e, steps[..|steps| - 1]);
    }
  }

  /** While a duplicate connection stands unacknowledged, no key is added to the endpoint. */
  lemma NoRotationWhileDuplicated(e: Endpoint, now: nat, op: Op)
    requires DUPLICATE_CONNECTION in e.events
    ensures Step(e, now, op).keys.Keys == e.keys.Keys
  {
    if op.Acknowledge? && Acknowledgeable(e, now, op.fingerprint) {
      assert AcknowledgeKeys(e.keys, op.fingerprint).Keys == e.keys.Keys;
    } else if op.Approve? && ApproveRefusal(e, now, op.fingerprint).None? {
      assert Step(e, now, op).keys.Keys == e.keys.Keys;
    }
  }

  // ----- The transactions as they change the rows -----

  class EndpointRow {
    var state: State
    var created: nat
    var keys: map<Fingerprint, Key>
    var events: set<Kind>
    var generation: nat
    var inventory: Option<Inventory>

    ghost function View(): (e: Endpoint)
      reads this
    {
      Endpoint(state, created, keys, events, generation, inventory)
    }

    /** One approved key while the endpoint accepts, one under review before, none that is not retired after. */
    ghost predicate Valid()
      reads this
    {
      Inv(View())
    }

    constructor (now: nat, fp: Fingerprint, local: bool)
      ensures Valid() && View() == Born(now, fp, local)
    {
      state := if local then Approved else Pending;
      created, events, generation, inventory := now, {}, 0, None;
      keys := map[fp := Key(if local then ApprovedKey else PendingReview, now)];
      new;
      assert fp in keys;
    }

    method RotateEndpointKey(now: nat, wellFormed: bool, verifies: set<Fingerprint>, minted: Fingerprint) returns (r: Option<Error>)
      requires Valid()
      modifies this
      ensures Valid() && View() == Step(old(View()), now, Rotate(wellFormed, verifies, minted))
      ensures r == RotateRefusal(old(View()), now, wellFormed, verifies, minted)
      ensures r.None? <==> minted in keys && minted !in old(keys)
      ensures r.Some? ==> View() == old(View())
    {
      StepKeeps(View(), now, Rotate(wellFormed, verifies, minted));
      hide Inv;
      if !wellFormed {
        return Some(Invalid);
      }
      if state == Pending || state == Revoked {
        return Some(Forbidden);
      }
      var current := InState(keys, ApprovedKey);
      if current * verifies == {} {
        return Some(Forbidden);
      }
      if DUPLICATE_CONNECTION in events {
        return Some(RotationBlocked);
      }
      if exists fp :: fp in keys && keys[fp].state == PendingReview && Young(keys[fp], now) {
        return Some(RotationPending);
      }
      var retired := RetireAll(keys, InState(keys, PendingReview));
      if minted in retired {
        return Some(AlreadyExists);
      }
      keys := retired[minted := Key(PendingReview, now)];
      events := events + {ROTATION_PENDING};
      r := None;
    }

    method AcknowledgeEndpointKey(now: nat, fp: Fingerprint) returns (r: Option<Error>)
      requires Valid()
      modifies this
      ensures Valid() && View() == Step(old(View()), now, Acknowledge(fp))
      ensures r.None? <==> old(Acknowledgeable(View(), now, fp))
      ensures r.None? ==> InState(keys, ApprovedKey) == {fp} && InState(keys, PendingReview) == {}
    {
      StepKeeps(View(), now, Acknowledge(fp));
      hide Inv;
      if fp !in keys || keys[fp].state != PendingReview || !Young(keys[fp], now) || state == Pending || state == Revoked {
        return Some(Invalid);
      }
      ghost var before := View();
      keys := keys[fp := keys[fp].(state := ApprovedKey)];
      keys := RetireAll(keys, keys.Keys - {fp});
      assert keys == AcknowledgeKeys(before.keys, fp);
      events := events - {ROTATION_PENDING};
      AcknowledgeKeeps(before, now, fp);
      r := None;
    }

    method ApproveEndpoint(now: nat, fp: Fingerprint) returns (r: Option<Error>)
      requires Valid()
      modifies this
      ensures Valid() && View() == Step(old(View()), now, Approve(fp))
      ensures r == ApproveRefusal(old(View()), now, fp)
    {
      StepKeeps(View(), now, Approve(fp));
      hide Inv;
      if state != Pending {
        return Some(NotFound);
      }
      if now > created + PENDING_ENDPOINT_LIFE {
        return Some(Invalid);
      }
      if fp !in keys || keys[fp].state != PendingReview {
        return Some(Invalid);
      }
      keys := keys[fp := keys[fp].(state := ApprovedKey)];
      state, generation, inventory := Approved, 0, None;
      r := None;
    }

    /** The one transition into the terminal state, for a rejection and for a revocation. */
    method Terminate(now: nat, onlyPending: bool) returns (r: Option<Error>)
      requires Valid()
      modifies this
      ensures Valid() && View() == Step(old(View()), now, if onlyPending then Reject else Revoke)
      ensures r.Some? <==> if onlyPending then old(state) != Pending else old(state) == Revoked
    {
      StepKeeps(View(), now, if onlyPending then Reject else Revoke);
      hide Inv;
      if if onlyPending then state != Pending else state == Revoked {
        return Some(NotFound);
      }
      state, generation, inventory := Revoked, 0, None;
      keys := RetireAll(keys, keys.Keys);
      r := None;
    }

    /** False, and nothing changed, when the report is not applied. */
    method AcceptInventorySnapshot(now: nat, number: nat, snapshot: seq<char>) returns (accepted: bool)
      requires Valid()
      modifies this
      ensures Valid() && View() == Step(old(View()), now, AcceptInventory(number, snapshot))
      ensures accepted <==> Accepts(old(View()), now, number, snapshot)
    {
      StepKeeps(View(), now, AcceptInventory(number, snapshot));
      hide Inv;
      if |snapshot| > MAX_SNAPSHOT_BYTES || number > (now + GENERATION_SKEW) / SECOND {
        return false;
      }
      if state == Pending || state == Revoked || generation >= number {
        return false;
      }
      generation := number;
      if state == Approved || state == Offline {
        state := Active;
      }
      if |snapshot| > 0 {
        inventory := Some(Inventory(number, snapshot));
      }
      accepted := true;
    }
  }
}
