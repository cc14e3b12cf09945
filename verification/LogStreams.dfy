/** The log streams a server has open: who holds how many, and the bytes that pass through one. */
module LogStreams {
  import opened Options

  type Id = string

  const MAX_STREAMS_PER_ENDPOINT: int := 4
  const MAX_STREAMS_PER_ACTOR: int := 1
  const QUEUE_CHUNKS: nat := 32

  datatype Stream = Stream(endpoint: string, actor: string, organization: string)

  /** `streams` is what is open; the counters hold no entry for none. */
  datatype Registry = Registry(streams: map<Id, Stream>, perEnd: map<string, int>, perPair: map<string, int>)

  const EMPTY: Registry := Registry(map[], map[], map[])

  datatype Refusal = OwnLimit | EndpointLimit

  function PairKey(endpoint: string, actor: string): (key: string) {
    endpoint + "\0" + actor
  }

  function Count(counters: map<string, int>, key: string): (n: int) {
    if key in counters then counters[key] else 0
  }

  function Down(counters: map<string, int>, key: string): (after: map<string, int>) {
    if Count(counters, key) - 1 <= 0 then counters - {key} else counters[key := Count(counters, key) - 1]
  }

  function OpenRefusal(r: Registry, endpoint: string, actor: string): (refusal: Option<Refusal>) {
    if Count(r.perPair, PairKey(endpoint, actor)) >= MAX_STREAMS_PER_ACTOR then Some(OwnLimit)
    else if Count(r.perEnd, endpoint) >= MAX_STREAMS_PER_ENDPOINT then Some(EndpointLimit)
    else None
  }

  datatype Op = Open(id: Id, stream: Stream) | Release(id: Id)

  function Step(r: Registry, op: Op): (r': Registry) {
    match op
    case Open(id, s) =>
      if id in r.streams || OpenRefusal(r, s.endpoint, s.actor).Some? then r
      else
        var key := PairKey(s.endpoint, s.actor);
        Registry(r.streams[id := s], r.perEnd[s.endpoint := Count(r.perEnd, s.endpoint) + 1],
                 r.perPair[key := Count(r.perPair, key) + 1])
    case Release(id) =>
      if id !in r.streams then r
      else
        var s := r.streams[id];
        Registry(r.streams - {id}, Down(r.perEnd, s.endpoint), Down(r.perPair, PairKey(s.endpoint, s.actor)))
  }

  function Run(ops: seq<Op>): (r: Registry) {
    if ops == [] then EMPTY else Step(Run(ops[..|ops| - 1]), ops[|ops| - 1])
  }

  // ----- The counters -----

  function OnEndpoint(streams: map<Id, Stream>, endpoint: string): (ids: set<Id>) {
    set id | id in streams && streams[id].endpoint == endpoint
  }

  function OnPair(streams: map<Id, Stream>, key: string): (ids: set<Id>) {
    set id | id in streams && PairKey(streams[id].endpoint, streams[id].actor) == key
  }

  /** No entry stands for none: the maps hold only what is open. */
  predicate Positive(counters: map<string, int>) {
    forall key :: key in counters ==> counters[key] > 0
  }

  ghost predicate EndExact(streams: map<Id, Stream>, perEnd: map<string, int>) {
    && Positive(perEnd)
    && forall e :: Count(perEnd, e) == |OnEndpoint(streams, e)| <= MAX_STREAMS_PER_ENDPOINT
  }

  ghost predicate PairExact(streams: map<Id, Stream>, perPair: map<string, int>) {
    && Positive(perPair)
    && forall key :: Count(perPair, key) == |OnPair(streams, key)| <= MAX_STREAMS_PER_ACTOR
  }

  lemma OpenedCounts(streams: map<Id, Stream>, id: Id, s: Stream, e: string, key: string)
    requires id !in streams
    ensures |OnEndpoint(streams[id := s], e)| == |OnEndpoint(streams, e)| + if s.endpoint == e then 1 else 0
    ensures |OnPair(streams[id := s], key)| == |OnPair(streams, key)| + if PairKey(s.endpoint, s.actor) == key then 1 else 0
  {
    OpenedOnEndpoint(streams, id, s, e);
    OpenedOnPair(streams, id, s, key);
    hide OnEndpoint, OnPair, PairKey;
  }

  lemma OpenedOnEndpoint(streams: map<Id, Stream>, id: Id, s: Stream, e: string)
    requires id !in streams
    ensures OnEndpoint(streams[id := s], e) == OnEndpoint(streams, e) + (if s.endpoint == e then {id} else {}) && id !in OnEndpoint(streams, e)
  {
  }

  lemma OpenedOnPair(streams: map<Id, Stream>, id: Id, s: Stream, key: string)
    requires id !in streams
    ensures OnPair(streams[id := s], key) == OnPair(streams, key) + (if PairKey(s.endpoint, s.actor) == key then {id} else {}) && id !in OnPair(streams, key)
  {
    hide PairKey;
  }

  lemma ReleasedCounts(streams: map<Id, Stream>, id: Id, e: string, key: string)
    requires id in streams
    ensures var s := streams[id];
            && |OnEndpoint(streams - {id}, e)| == |OnEndpoint(streams, e)| - (if s.endpoint == e then 1 else 0)
            && |OnPair(streams - {id}, key)| == |OnPair(streams, key)| - (if PairKey(s.endpoint, s.actor) == key then 1 else 0)
  {
    var s := streams[id];
    assert streams == (streams - {id})[id := s];
    OpenedCounts(streams - {id}, id, s, e, key);
  }

  lemma StepKeepsEnd(r: Registry, op: Op)
    requires EndExact(r.streams, r.perEnd)
    ensures EndExact(Step(r, op).streams, Step(r, op).perEnd)
  {
    hide PairKey, OnEndpoint, OnPair;
    var r' := Step(r, op);
    if r' != r {
      forall e ensures Count(r'.perEnd, e) == |OnEndpoint(r'.streams, e)| <= MAX_STREAMS_PER_ENDPOINT {
        assert Count(r.perEnd, e) == |OnEndpoint(r.streams, e)|;
        if op.Open? {
          OpenedCounts(r.streams, op.id, op.stream, e, "");
        } else {
          ReleasedCounts(r.streams, op.id, e, "");
        }
      }
    }
  }

  lemma StepKeepsPair(r: Registry, op: Op)
    requires PairExact(r.streams, r.perPair)
    ensures PairExact(Step(r, op).streams, Step(r, op).perPair)
  {
    hide PairKey, OnEndpoint, OnPair;
    var r' := Step(r, op);
    if r' != r {
      forall key ensures Count(r'.perPair, key) == |OnPair(r'.streams, key)| <= MAX_STREAMS_PER_ACTOR {
        assert Count(r.perPair, key) == |OnPair(r.streams, key)|;
        if op.Open? {
          OpenedCounts(r.streams, op.id, op.stream, "", key);
        } else {
          ReleasedCounts(r.streams, op.id, "", key);
        }
      }
    }
  }

  /** In every run of opens and releases, repeated or not, the counters are the counts and the limits hold. */
  lemma {:induction false} CountersExact(ops: seq<Op>)
    ensures EndExact(Run(ops).streams, Run(ops).perEnd)
    ensures PairExact(Run(ops).streams, Run(ops).perPair)
  {
    hide Step, EndExact, PairExact;
    if ops == [] {
      NothingOpen();
    } else {
      CountersExact(ops[..|ops| - 1]);
      StepKeepsEnd(Run(ops[..|ops| - 1]), ops[|ops| - 1]);
      StepKeepsPair(Run(ops[..|ops| - 1]), ops[|ops| - 1]);
    }
  }

  lemma NothingOpen()
    ensures EndExact(map[], map[]) && PairExact(map[], map[])
  {
  }

  /** Releasing a stream again changes nothing, whatever happened in between unless its id was opened again. */
  lemma {:induction false} ReleasedOnce(ops: seq<Op>, more: seq<Op>, id: Id)
    requires forall i :: 0 <= i < |more| ==> more[i].Open? ==> more[i].id != id
    ensures var ever := ops + [Release(id)] + more; Run(ever + [Release(id)]) == Run(ever)
  {
    var ever := ops + [Release(id)] + more;
    assert (ever + [Release(id)])[..|ever|] == ever;
    StaysReleased(ops, more, id);
  }

  lemma {:induction false} StaysReleased(ops: seq<Op>, more: seq<Op>, id: Id)
    requires forall i :: 0 <= i < |more| ==> more[i].Open? ==> more[i].id != id
    ensures id !in Run(ops + [Release(id)] + more).streams
  {
    var ever := ops + [Release(id)] + more;
    if more == [] {
      assert ever == ops + [Release(id)] && ever[..|ever| - 1] == ops;
    } else {
      assert ever[..|ever| - 1] == ops + [Release(id)] + more[..|more| - 1];
      StaysReleased(ops, more[..|more| - 1], id);
    }
  }

  /** Endpoint ids hold no NUL, so a key is one endpoint and one actor. */
  lemma PairKeyInjective(e: string, a: string, e': string, a': string)
    requires '\0' !in e && '\0' !in e' && PairKey(e, a) == PairKey(e', a')
    ensures e == e' && a == a'
  {
    var k := PairKey(e, a);
    assert k[|e|] == '\0' && k[|e'|] == '\0';
    assert forall i :: 0 <= i < |e| ==> k[i] == e[i] != '\0';
    assert forall i :: 0 <= i < |e'| ==> k[i] == e'[i] != '\0';
    assert e == k[..|e|] && e' == k[..|e|];
    assert a == k[|e| + 1..] && a' == k[|e| + 1..];
  }

  ghost predicate PlainEndpoints(r: Registry) {
    forall id :: id in r.streams ==> '\0' !in r.streams[id].endpoint
  }

  lemma OneEach(r: Registry, i: Id, j: Id)
    requires PairExact(r.streams, r.perPair) && i in r.streams && j in r.streams
    requires PairKey(r.streams[i].endpoint, r.streams[i].actor) == PairKey(r.streams[j].endpoint, r.streams[j].actor)
    ensures i == j
  {
    var key := PairKey(r.streams[i].endpoint, r.streams[i].actor);
    var both := OnPair(r.streams, key);
    assert Count(r.perPair, key) == |both| <= 1;
    assert i in both && j in both;
    assert |both - {i}| == |both| - 1;
    assert both - {i} == {};
  }

  /** One actor never holds two streams on an endpoint, so no one of them can fill it alone. */
  lemma OneStreamPerActor(ops: seq<Op>, i: Id, j: Id)
    requires var r := Run(ops); i in r.streams && j in r.streams
    requires Run(ops).streams[i].endpoint == Run(ops).streams[j].endpoint && Run(ops).streams[i].actor == Run(ops).streams[j].actor
    ensures i == j
  {
    CountersExact(ops);
    OneEach(Run(ops), i, j);
  }

  function Actors(streams: map<Id, Stream>, ids: set<Id>): (actors: set<string>) {
    set id | id in ids && id in streams :: streams[id].actor
  }

  lemma {:induction false} DistinctActors(streams: map<Id, Stream>, ids: set<Id>)
    requires forall id :: id in ids ==> id in streams
    requires forall i, j :: i in ids && j in ids && streams[i].actor == streams[j].actor ==> i == j
    ensures |Actors(streams, ids)| == |ids|
  {
    if ids != {} {
      var id :| id in ids;
      DistinctActors(streams, ids - {id});
      assert Actors(streams, ids) == Actors(streams, ids - {id}) + {streams[id].actor};
    }
  }

  /** The endpoint's limit refuses an actor only while four others hold a stream each. */
  lemma RefusedOnlyByFourOthers(ops: seq<Op>, endpoint: string, actor: string)
    requires OpenRefusal(Run(ops), endpoint, actor) == Some(EndpointLimit)
    ensures var actors := Actors(Run(ops).streams, OnEndpoint(Run(ops).streams, endpoint)); |actors| == 4 && actor !in actors
  {
    var r := Run(ops);
    CountersExact(ops);
    var ids := OnEndpoint(r.streams, endpoint);
    assert Count(r.perEnd, endpoint) == |ids|;
    forall i, j | i in ids && j in ids && r.streams[i].actor == r.streams[j].actor ensures i == j {
      OneEach(r, i, j);
    }
    DistinctActors(r.streams, ids);
    var held := OnPair(r.streams, PairKey(endpoint, actor));
    assert Count(r.perPair, PairKey(endpoint, actor)) == |held|;
    assert held == {};
    assert forall id :: id in ids && r.streams[id].actor == actor ==> id in held;
  }

  /** The two limits refuse exactly when this actor holds one here, or, holding none, finds the endpoint serving four. */
  lemma RefusedExactly(ops: seq<Op>, endpoint: string, actor: string)
    requires PlainEndpoints(Run(ops)) && '\0' !in endpoint
    ensures var streams := Run(ops).streams;
            var held := exists id :: id in streams && streams[id].endpoint == endpoint && streams[id].actor == actor;
            && (OpenRefusal(Run(ops), endpoint, actor) == Some(OwnLimit) <==> held)
            && (OpenRefusal(Run(ops), endpoint, actor) == Some(EndpointLimit) <==> !held && |OnEndpoint(streams, endpoint)| == 4)
  {
    var r := Run(ops);
    CountersExact(ops);
    var key := PairKey(endpoint, actor);
    var held := OnPair(r.streams, key);
    assert Count(r.perPair, key) == |held| && Count(r.perEnd, endpoint) == |OnEndpoint(r.streams, endpoint)|;
    hide OnEndpoint;
    if held != {} {
      var id :| id in held;
      PairKeyInjective(r.streams[id].endpoint, r.streams[id].actor, endpoint, actor);
    }
    assert forall id :: id in r.streams && r.streams[id].endpoint == endpoint && r.streams[id].actor == actor ==> id in held;
  }
}
