/** The bytes through one log stream, and the registry that opens, finds, ends and forgets streams. */
module LogFlow {
  import opened Options
  import opened LogStreams

  // ----- One stream's queue -----

  const HALF: int := 0x8000_0000_0000_0000
  const FULL: int := 0x1_0000_0000_0000_0000

  /** A 64-bit counter's value for an unbounded one. */
  function Wrap(n: int): (w: int)
    ensures -HALF <= w < HALF
    ensures -HALF <= n < HALF ==> w == n
  {
    (n + HALF) % FULL - HALF
  }

  /** `dropped` is the 64-bit count of bytes the reader has not been told about. */
  datatype Flow = Flow(queue: seq<string>, dropped: int)

  function Deliver(f: Flow, data: string, reported: int): (f': Flow) {
    var f1 := if reported > 0 then f.(dropped := Wrap(f.dropped + reported)) else f;
    if data == "" then f1
    else if |f1.queue| < QUEUE_CHUNKS then f1.(queue := f1.queue + [data])
    else f1.(dropped := Wrap(f1.dropped + |data|))
  }

  /**
   What happens to a stream, each act atomic: the deliverer adds the drops the agent reported, offers
   the chunk to the queue, and counts what was refused; the reader takes a chunk, or the gap.
   */
  datatype Act = Report(dropped: int) | Offer(data: string) | CountLost(n: nat) | Read | Gap

  function Bytes(chunks: seq<string>): (n: nat) {
    if chunks == [] then 0 else Bytes(chunks[..|chunks| - 1]) + |chunks[|chunks| - 1]|
  }

  /**
   What passed: the bytes that arrived, the drops the agent reported, the chunks queued and read in
   order, the bytes refused and not yet counted, the gaps the reader was told of, and how often the
   counter went round.
   */
  datatype Ledger = Ledger(
    flow: Flow, arrived: nat, reported: nat, queued: seq<string>, read: seq<string>, lost: nat, told: int, rounds: int)

  const OPENED: Ledger := Ledger(Flow([], 0), 0, 0, [], [], 0, 0, 0)

  function Rounds(n: int): (k: int) {
    (n + HALF) / FULL
  }

  function AddDropped(l: Ledger, n: nat): (l': Ledger) {
    var sum := l.flow.dropped + n;
    l.(flow := l.flow.(dropped := Wrap(sum)), rounds := l.rounds + Rounds(sum))
  }

  function Pass(l: Ledger, act: Act): (l': Ledger) {
    match act
    case Report(dropped) => if dropped > 0 then AddDropped(l, dropped).(reported := l.reported + dropped) else l
    case Offer(data) =>
      if data == "" then l
      else if |l.flow.queue| < QUEUE_CHUNKS then
        l.(flow := l.flow.(queue := l.flow.queue + [data]), arrived := l.arrived + |data|, queued := l.queued + [data])
      else l.(arrived := l.arrived + |data|, lost := l.lost + |data|)
    case CountLost(n) => if n <= l.lost then AddDropped(l, n).(lost := l.lost - n) else l
    case Read =>
      if l.flow.queue == [] then l
      else l.(flow := l.flow.(queue := l.flow.queue[1..]), read := l.read + [l.flow.queue[0]])
    case Gap => l.(flow := l.flow.(dropped := 0), told := l.told + l.flow.dropped)
  }

  function After(acts: seq<Act>): (l: Ledger) {
    if acts == [] then OPENED else Pass(After(acts[..|acts| - 1]), acts[|acts| - 1])
  }

  lemma BytesPush(chunks: seq<string>, data: string)
    ensures Bytes(chunks + [data]) == Bytes(chunks) + |data|
  {
    assert (chunks + [data])[..|chunks|] == chunks;
  }

  lemma {:induction false} BytesAppend(a: seq<string>, b: seq<string>)
    ensures Bytes(a + b) == Bytes(a) + Bytes(b)
  {
    if b == [] {
      assert a + b == a;
    } else {
      assert (a + b)[..|a + b| - 1] == a + b[..|b| - 1];
      BytesAppend(a, b[..|b| - 1]);
    }
  }

  /** Every byte that arrived or was reported lost is queued, untold or told of, up to whole turns of the counter. */
  ghost predicate Balanced(l: Ledger) {
    && l.queued == l.read + l.flow.queue && |l.flow.queue| <= QUEUE_CHUNKS
    && l.arrived + l.reported == Bytes(l.queued) + l.told + l.flow.dropped + l.lost + l.rounds * FULL
    && (l.arrived + l.reported < HALF ==> l.rounds == 0 && l.told >= 0 && l.flow.dropped >= 0)
  }

  lemma TurnExact(n: int)
    ensures n == Wrap(n) + Rounds(n) * FULL
    ensures 0 <= n < HALF ==> Rounds(n) == 0
  {
  }

  lemma AddBalances(l: Ledger, n: nat, l': Ledger)
    requires Balanced(l)
    requires l' == AddDropped(l, n).(reported := l'.reported, lost := l'.lost)
    requires l'.reported - l.reported + l.lost - l'.lost == n && l'.reported >= l.reported && l'.lost <= l.lost
    ensures Balanced(l')
  {
    TurnExact(l.flow.dropped + n);
    hide Bytes, Wrap, Rounds;
  }

  lemma PassBalances(l: Ledger, act: Act)
    requires Balanced(l)
    ensures Balanced(Pass(l, act))
  {
    hide Bytes, Wrap, Rounds;
    match act
    case Report(dropped) =>
      if dropped > 0 {
        AddBalances(l, dropped, Pass(l, act));
      }
    case Offer(data) =>
      BytesPush(l.queued, data);
      assert l.read + (l.flow.queue + [data]) == (l.read + l.flow.queue) + [data];
    case CountLost(n) =>
      if n <= l.lost {
        AddBalances(l, n, Pass(l, act));
      }
    case Read =>
      if l.flow.queue != [] {
        assert l.read + l.flow.queue == (l.read + [l.flow.queue[0]]) + l.flow.queue[1..];
      }
    case Gap =>
  }

  lemma {:induction false} AlwaysBalanced(acts: seq<Act>)
    ensures Balanced(After(acts))
  {
    if acts == [] {
      NoBytes();
    } else {
      hide Balanced, Pass;
      AlwaysBalanced(acts[..|acts| - 1]);
      PassBalances(After(acts[..|acts| - 1]), acts[|acts| - 1]);
    }
  }

  /** Undisturbed, a delivery is its report, its offer and the count of what was refused. */
  lemma DeliverIsItsActs(l: Ledger, data: string, reported: int)
    requires l.lost == 0
    ensures var offered := Pass(Pass(l, Report(reported)), Offer(data));
            (if offered.lost > 0 then Pass(offered, CountLost(offered.lost)) else offered).flow == Deliver(l.flow, data, reported)
  {
  }

  lemma NoBytes()
    ensures Bytes([]) == 0
  {
  }

  /**
   In every interleaving of deliverers and reader, chunks are read in the order they were queued, and
   bytes arrived plus drops the agent reported equal bytes read plus queued plus refused and not yet
   counted plus gaps told plus drops not yet told, while they number less than 2^63; beyond that,
   modulo 2^64.
   */
  lemma BytesConserved(acts: seq<Act>)
    ensures var l := After(acts);
            && l.queued == l.read + l.flow.queue && |l.flow.queue| <= QUEUE_CHUNKS
            && l.arrived + l.reported == Bytes(l.read) + Bytes(l.flow.queue) + l.lost + l.told + l.flow.dropped + l.rounds * FULL
            && (l.arrived + l.reported < HALF ==> l.rounds == 0 && l.told >= 0 && l.flow.dropped >= 0)
  {
    AlwaysBalanced(acts);
    var l := After(acts);
    BytesAppend(l.read, l.flow.queue);
  }

  /**
   A chunk takes its place behind those queued while they are fewer than thirty-two, and else its bytes
   join the untold drops, after those the agent reported.
   */
  lemma DeliverExactly(f: Flow, data: string, reported: nat)
    requires f.dropped >= 0 && f.dropped + reported + |data| < HALF
    ensures var f' := Deliver(f, data, reported);
            && f'.queue == (if data != "" && |f.queue| < 32 then f.queue + [data] else f.queue)
            && f'.dropped == f.dropped + reported + (if |f.queue| >= 32 then |data| else 0)
  {
  }

  class LogStream {
    var chunks: seq<string>
    var dropped: int

    ghost function View(): (f: Flow)
      reads this
    {
      Flow(chunks, dropped)
    }

    constructor ()
      ensures View() == OPENED.flow
    {
      chunks, dropped := [], 0;
    }

    /** Never blocks: a full queue costs the chunk, and the loss is counted. */
    method DeliverChunk(data: string, reported: int)
      modifies this
      ensures View() == Deliver(old(View()), data, reported)
    {
      if reported > 0 {
        dropped := Wrap(dropped + reported);
      }
      if data == "" {
        return;
      }
      if |chunks| < QUEUE_CHUNKS {
        chunks := chunks + [data];
      } else {
        dropped := Wrap(dropped + |data|);
      }
    }

    method TakeGap() returns (n: int)
      modifies this
      ensures n == old(dropped) && View() == old(View()).(dropped := 0)
    {
      n := dropped;
      dropped := 0;
    }
  }

  // ----- The registry -----

  /** Why each stream ended: the first reason stays, and a reader's own release gives none. */
  type Ends = map<Id, Option<string>>

  function Finish(ended: Ends, id: Id, reason: Option<string>): (after: Ends) {
    if id in ended then ended else ended[id := reason]
  }

  predicate Ending(streams: map<Id, Stream>, matches: Stream -> bool, id: Id) {
    id in streams && matches(streams[id])
  }

  /** One fewer, and no entry for none. */
  method Decrement(counters: map<string, int>, key: string) returns (after: map<string, int>)
    ensures after == Down(counters, key)
  {
    after := counters[key := Count(counters, key) - 1];
    if after[key] <= 0 {
      after := after - {key};
      assert after == counters - {key};
    }
  }

  class LogRegistry {
    var streams: map<Id, Stream>
    var perEnd: map<string, int>
    var perPair: map<string, int>
    var ended: Ends

    ghost function View(): (r: Registry)
      reads this
    {
      Registry(streams, perEnd, perPair)
    }

    /** The counters are the counts, and the limits hold. */
    ghost predicate Valid()
      reads this
    {
      EndExact(streams, perEnd) && PairExact(streams, perPair)
    }

    constructor ()
      ensures Valid() && View() == EMPTY && ended == map[]
    {
      NothingOpen();
      streams, perEnd, perPair, ended := map[], map[], map[], map[];
    }

    /** Reserves a stream under the id minted for it, or says which limit stopped it. */
    method OpenStream(id: Id, s: Stream) returns (refusal: Option<Refusal>)
      requires id !in streams && Valid()
      modifies this
      ensures Valid() && View() == Step(old(View()), Open(id, s)) && ended == old(ended)
      ensures refusal == OpenRefusal(old(View()), s.endpoint, s.actor)
      ensures refusal.None? ==> id in streams && streams[id] == s
    {
      StepKeepsEnd(View(), Open(id, s));
      StepKeepsPair(View(), Open(id, s));
      hide EndExact, PairExact, PairKey;
      var key := PairKey(s.endpoint, s.actor);
      if Count(perPair, key) >= MAX_STREAMS_PER_ACTOR {
        return Some(OwnLimit);
      }
      if Count(perEnd, s.endpoint) >= MAX_STREAMS_PER_ENDPOINT {
        return Some(EndpointLimit);
      }
      streams := streams[id := s];
      perEnd := perEnd[s.endpoint := Count(perEnd, s.endpoint) + 1];
      perPair := perPair[key := Count(perPair, key) + 1];
      refusal := None;
    }

    /** Forgets a stream, once: calling it again changes no counter. */
    method ReleaseStream(id: Id)
      requires Valid()
      modifies this
      ensures Valid() && View() == Step(old(View()), Release(id)) && id !in streams
      ensures ended == Finish(old(ended), id, None)
    {
      StepKeepsEnd(View(), Release(id));
      StepKeepsPair(View(), Release(id));
      hide EndExact, PairExact, PairKey;
      if id in streams {
        var s := streams[id];
        streams := streams - {id};
        perEnd := Decrement(perEnd, s.endpoint);
        perPair := Decrement(perPair, PairKey(s.endpoint, s.actor));
      }
      ended := Finish(ended, id, None);
    }

    /** The stream an endpoint may write to: an id it invented, or another endpoint's, addresses nothing. */
    method Find(endpoint: string, id: Id) returns (s: Option<Stream>)
      ensures s.Some? <==> id in streams && streams[id].endpoint == endpoint
      ensures s.Some? ==> s.value == streams[id]
    {
      if id in streams && streams[id].endpoint == endpoint {
        return Some(streams[id]);
      }
      s := None;
    }

    /** Ends exactly the open streams that match, with this reason where they had not ended before. */
    method CloseMatching(matches: Stream -> bool, reason: string)
      modifies `ended
      ensures forall id :: Ending(streams, matches, id) ==> id in ended
      ensures forall id :: id in ended && id !in old(ended) ==> Ending(streams, matches, id) && ended[id] == Some(reason)
      ensures forall id :: id in old(ended) ==> id in ended && ended[id] == old(ended)[id]
    {
      var ids := set id | id in streams && matches(streams[id]);
      ghost var all := ids;
      while ids != {}
        invariant ids <= all
        invariant forall id :: id in all && id !in ids ==> id in ended
        invariant forall id :: id in ended && id !in old(ended) ==> id in all && ended[id] == Some(reason)
        invariant forall id :: id in old(ended) ==> id in ended && ended[id] == old(ended)[id]
        decreases |ids|
      {
        var id :| id in ids;
        ended := Finish(ended, id, Some(reason));
        ids := ids - {id};
      }
    }
  }
}
