/** Ranks that issue the same collectives in the same order do not deadlock, however their calls
    interleave with each other, with kernels on their streams and with the simulation. */
module LockStep {
  import opened Barriers
  import opened Collectives
  import opened EventGraph
  import opened EventSchedule
  import opened EventState
  import opened ExactDesk
  import opened ExactSteps
  import opened GpuSimulator
  import opened Options
  import opened Rendezvous
  import opened Requests
  import opened StreamOrder

  /*** Layers ***/

  type Layers = map<EventId, nat>

  /** Every event has a layer, and depends only on what is below it. */
  ghost predicate Layered(g: Graph, layer: Layers) {
    && (forall e: EventId :: e in layer <==> e < g.next)
    && forall e, d :: e in g.deps && d in g.deps[e] ==> Below(layer, d, e)
  }

  /** `layer'` keeps the layers of all events in `layer`. */
  ghost predicate Keeps(layer: Layers, layer': Layers) {
    forall e :: e in layer ==> e in layer' && layer'[e] == layer[e]
  }

  ghost predicate AtMost(layer: Layers, es: set<EventId>, l: nat) {
    forall e :: e in es ==> e in layer && layer[e] <= l
  }

  lemma KeepsTwice(layer: Layers, layer1: Layers, layer2: Layers)
    requires Keeps(layer, layer1) && Keeps(layer1, layer2)
    ensures Keeps(layer, layer2)
  {
  }

  lemma AtMostStays(layer: Layers, layer': Layers, es: set<EventId>, l: nat, l': nat)
    requires AtMost(layer, es, l) && Keeps(layer, layer') && l <= l'
    ensures AtMost(layer', es, l')
  {
  }

  /** A new event may be put into any layer that is not below its dependencies'. */
  lemma NodeLayered(g: Graph, layer: Layers, ds: set<EventId>, hold: bool, l: nat)
    requires Layered(g, layer) && Dense(g) && AtMost(layer, ds, l)
    ensures Layered(AddNode(g, ds, hold), layer[g.next := l]) && Keeps(layer, layer[g.next := l])
  {
  }

  /** A late dependency must come from a lower layer. */
  lemma EdgeLayered(g: Graph, layer: Layers, e: EventId, d: EventId)
    requires Layered(g, layer) && Dense(g) && e in g.deps && e in layer && d in layer && layer[d] < layer[e]
    ensures Layered(AddEdge(g, e, d), layer)
  {
  }

  lemma UnholdLayered(g: Graph, layer: Layers, e: EventId)
    requires Layered(g, layer)
    ensures Layered(Unhold(g, e), layer)
  {
  }

  lemma {:induction false} FlushedLayered(g: Graph, layer: Layers, events: seq<EventId>, n: nat, l: nat)
      returns (layer': Layers)
    requires Layered(g, layer) && Dense(g) && InOrder(g, events) && AtMost(layer, LastOf(events), l)
    ensures var (g', events') := Flushed(g, events, n);
            Layered(g', layer') && Keeps(layer, layer') && AtMost(layer', LastOf(events'), l)
    decreases n
  {
    if n == 0 {
      layer' := layer;
    } else {
      assert {} + LastOf(events) == LastOf(events);
      NodeLayered(g, layer, LastOf(events), false, l);
      OnTopInOrder(g, events, {});
      var layer1 := layer[g.next := l];
      assert AtMost(layer1, LastOf(events + [g.next]), l);
      layer' := FlushedLayered(OnTop(g, events, {}), layer1, events + [g.next], n - 1, l);
      KeepsTwice(layer, layer1, layer');
    }
  }

  /** Buffered kernels stay in the layer of the stream; the event on top of them goes into layer `hi`. */
  lemma AppendedLayered(g: Graph, layer: Layers, info: StreamInfo, ds: set<EventId>, lo: nat, hi: nat)
      returns (layer': Layers)
    requires Layered(g, layer) && Dense(g) && InOrder(g, info.events) && AtMost(layer, LastOf(info.events), lo)
             && lo <= hi
    requires AtMost(layer, ds, hi)
    ensures var (g', events') := Appended(g, info, ds);
            && Layered(g', layer') && Keeps(layer, layer') && Newest(events') in layer' && layer'[Newest(events')] == hi
  {
    hide Layered, Dense, InOrder, Keeps, Flushed, AtMost;
    var layer1 := FlushedLayered(g, layer, info.events, |info.buffered|, lo);
    FlushedInOrder(g, info.events, |info.buffered|);
    var (g1, events) := Flushed(g, info.events, |info.buffered|);
    AtMostStays(layer1, layer1, LastOf(events), lo, hi) by { SelfKeeps(layer1); }
    AtMostStays(layer, layer1, ds, hi, hi);
    AtMostBoth(layer1, ds, LastOf(events), hi);
    NodeLayered(g1, layer1, ds + LastOf(events), false, hi);
    layer' := layer1[g1.next := hi];
    KeepsTwice(layer, layer1, layer');
  }

  lemma SelfKeeps(layer: Layers)
    ensures Keeps(layer, layer)
  {
  }

  lemma AtMostBoth(layer: Layers, es: set<EventId>, es': set<EventId>, l: nat)
    requires AtMost(layer, es, l) && AtMost(layer, es', l)
    ensures AtMost(layer, es + es', l)
  {
  }

  lemma AtMostOne(layer: Layers, e: EventId, l: nat)
    requires e in layer && layer[e] <= l
    ensures AtMost(layer, {e}, l)
  {
  }

  /*** A collective in layers: its barrier and starts in `k`, the common start and flows in `k + 1`,
       the common end and the stream ends in `k + 2` ***/

  ghost predicate InLayers(layer: Layers, c: CCWaiting, k: nat) {
    && c.barrier in layer && layer[c.barrier] == k && c.commStart in layer && layer[c.commStart] == k + 1
    && c.commEnd in layer && layer[c.commEnd] == k + 2
  }

  lemma OpenedLayered(g: Graph, layer: Layers, info: StreamInfo, c: CCWaiting, k: nat) returns (layer': Layers)
    requires Layered(g, layer) && Dense(g) && InOrder(g, info.events) && AtMost(layer, LastOf(info.events), k)
    requires c.barrier == g.next && c.commStart == g.next + |info.buffered| + 2 && c.commEnd == c.commStart + 1
    ensures var (g', events') := Opened(g, info);
            && Layered(g', layer') && Keeps(layer, layer') && InLayers(layer', c, k)
            && events' != [] && Newest(events') in layer' && layer'[Newest(events')] == k + 2
  {
    hide Layered, Dense, InOrder, AtMost, Appended, Extends;
    var ga, layera := AddNode(g, {}, true), layer[g.next := k];
    NoneAtMost(layer, k);
    NodeLayered(g, layer, {}, true, k);
    NodeExtends(g, {}, true);
    ExtendsInOrder(g, ga, info.events);
    AtMostStays(layer, layera, LastOf(info.events), k, k);
    AtMostOne(layera, g.next, k);
    AppendedInOrder(ga, info, {g.next});
    var layer1 := AppendedLayered(ga, layera, info, {g.next}, k, k);
    var (g1, events) := Appended(ga, info, {g.next});
    AtMostOne(layer1, Newest(events), k + 1);
    NodeLayered(g1, layer1, {Newest(events)}, false, k + 1);
    NewestIsKnown(g1, events);
    NodeExtends(g1, {Newest(events)}, false);
    var gb, layerb := AddNode(g1, {Newest(events)}, false), layer1[g1.next := k + 1];
    AtMostOne(layerb, g1.next, k + 2);
    NodeLayered(gb, layerb, {g1.next}, false, k + 2);
    MetaNodes(g1, events);
    var g2, layer2 := AddNode(gb, {g1.next}, false), layerb[gb.next := k + 2];
    AtMostOne(layer2, g1.next + 1, k + 2);
    LastNewest(layer2, events, k);
    layer' := AppendedLayered(g2, layer2, StreamInfo(events, []), {g1.next + 1}, k, k + 2);
    AppendedInOrder(g2, StreamInfo(events, []), {g1.next + 1});
    KeepsTwice(layer, layera, layer1);
    KeepsTwice(layer, layer1, layer2);
    KeepsTwice(layer, layer2, layer');
    assert c.barrier in layera && c.commStart in layer2 && c.commEnd in layer2;
  }

  lemma NoneAtMost(layer: Layers, l: nat)
    ensures AtMost(layer, {}, l)
  {
  }

  lemma LastNewest(layer: Layers, events: seq<EventId>, l: nat)
    requires events != [] && Newest(events) in layer && layer[Newest(events)] <= l
    ensures AtMost(layer, LastOf(events), l)
  {
  }

  lemma JoinedLayered(g: Graph, layer: Layers, info: StreamInfo, c: CCWaiting, k: nat) returns (layer': Layers)
    requires Layered(g, layer) && Dense(g) && InOrder(g, info.events) && AtMost(layer, LastOf(info.events), k)
    requires Gated(g, c) && InLayers(layer, c, k)
    ensures var (g', events') := JoinedGraph(g, info, c);
            && Layered(g', layer') && Keeps(layer, layer') && InLayers(layer', c, k)
            && events' != [] && Newest(events') in layer' && layer'[Newest(events')] == k + 2
  {
    hide Layered, Dense, InOrder, AtMost, Appended, Extends, Gated;
    GatedIsKnown(g, c);
    AtMostOne(layer, c.barrier, k);
    AppendedInOrder(g, info, {c.barrier});
    var layer1 := AppendedLayered(g, layer, info, {c.barrier}, k, k);
    var (g1, events) := Appended(g, info, {c.barrier});
    NewestIsKnown(g1, events);
    assert c.commStart in g1.deps by { assert Extends(g, g1); ExtendsKnows(g, g1, c.commStart); }
    EdgeLayered(g1, layer1, c.commStart, Newest(events));
    EdgeExtends(g1, c.commStart, Newest(events));
    var g2 := AddEdge(g1, c.commStart, Newest(events));
    ExtendsInOrder(g1, g2, events);
    LastNewest(layer1, events, k);
    AtMostOne(layer1, c.commEnd, k + 2);
    layer' := AppendedLayered(g2, layer1, StreamInfo(events, []), {c.commEnd}, k, k + 2);
    AppendedInOrder(g2, StreamInfo(events, []), {c.commEnd});
    KeepsTwice(layer, layer1, layer');
  }

  lemma ExtendsKnows(g: Graph, g': Graph, e: EventId)
    requires Extends(g, g') && e in g.deps
    ensures e in g'.deps
  {
  }

  lemma {:induction false} FlowsLayered(g: Graph, layer: Layers, commStart: EventId, n: nat, l: nat)
      returns (layer': Layers)
    requires Layered(g, layer) && Dense(g) && commStart in layer && layer[commStart] == l
    ensures Layered(WithFlows(g, commStart, n), layer') && Keeps(layer, layer')
    ensures forall f: EventId :: g.next <= f < g.next + n ==> f in layer' && layer'[f] == l
    decreases n
  {
    if n == 0 {
      layer' := layer;
    } else {
      AtMostOne(layer, commStart, l);
      NodeLayered(g, layer, {commStart}, false, l);
      NodeExtends(g, {commStart}, false);
      layer' := FlowsLayered(AddNode(g, {commStart}, false), layer[g.next := l], commStart, n - 1, l);
      KeepsTwice(layer, layer[g.next := l], layer');
      assert g.next in layer[g.next := l];
    }
  }

  lemma {:induction false} FlowEndsLayered(g: Graph, layer: Layers, commEnd: EventId, first: EventId, n: nat)
    requires Layered(g, layer) && Dense(g) && commEnd in g.deps && commEnd in layer && first + n <= g.next
    requires forall f: EventId :: first <= f < first + n ==> f in layer && layer[f] < layer[commEnd]
    ensures Layered(WithFlowEnds(g, commEnd, first, n), layer)
    decreases n
  {
    if n > 0 {
      EdgeLayered(g, layer, commEnd, first);
      EdgeExtends(g, commEnd, first);
      FlowEndsLayered(AddEdge(g, commEnd, first), layer, commEnd, first + 1, n - 1);
    }
  }

  lemma CompletedLayered(g: Graph, layer: Layers, c: CCWaiting, k: nat) returns (layer': Layers)
    requires Layered(g, layer) && Dense(g) && Gated(g, c) && InLayers(layer, c, k)
    ensures Layered(Completed(g, c), layer') && Keeps(layer, layer')
  {
    hide Layered, Extends, Gated;
    GatedIsKnown(g, c);
    layer' := FlowsLayered(g, layer, c.commStart, c.flows, k + 1);
    WithFlowsIs(g, c.commStart, c.flows);
    var g1 := WithFlows(g, c.commStart, c.flows);
    FlowEndsLayered(g1, layer', c.commEnd, g.next, c.flows);
    UnholdLayered(WithFlowEnds(g1, c.commEnd, g.next, c.flows), layer', c.barrier);
  }

  /*** Ranks in lock step ***/

  /** `ranks` ranks, each with a stream of its own, that all issue the operations of `ops` in order. */
  datatype Plan = Plan(ranks: nat, ops: seq<OpKey>, streamOf: seq<Stream>)

  ghost predicate PlanOk(p: Plan) {
    p.ranks >= 2 && |p.streamOf| == p.ranks && forall i, j :: 0 <= i < j < p.ranks ==> p.streamOf[i] != p.streamOf[j]
  }

  /** How often `op` occurs. */
  ghost function Count(ops: seq<OpKey>, op: OpKey): nat {
    if ops == [] then 0 else Count(ops[..|ops| - 1], op) + if ops[|ops| - 1] == op then 1 else 0
  }

  lemma CountNext(ops: seq<OpKey>, k: nat, op: OpKey)
    requires k < |ops|
    ensures Count(ops[..k + 1], op) == Count(ops[..k], op) + if ops[k] == op then 1 else 0
  {
    assert ops[..k + 1][..k] == ops[..k];
  }

  lemma {:induction false} CountGrows(ops: seq<OpKey>, j: nat, k: nat, op: OpKey)
    requires j <= k <= |ops|
    ensures Count(ops[..j], op) <= Count(ops[..k], op)
    ensures j < k && ops[j] == op ==> Count(ops[..j], op) < Count(ops[..k], op)
    decreases k - j
  {
    if j < k {
      CountNext(ops, j, op);
      CountGrows(ops, j + 1, k, op);
    }
  }

  /** The same occurrence of an operation is at the same place. */
  lemma SameOccurrence(ops: seq<OpKey>, j: nat, k: nat, op: OpKey)
    requires j < |ops| && k < |ops| && ops[j] == op && ops[k] == op && Count(ops[..j], op) == Count(ops[..k], op)
    ensures j == k
  {
    if j < k { CountGrows(ops, j, k, op); }
    if k < j { CountGrows(ops, k, j, op); }
  }

  /** The waiting collective `c` is occurrence number `num` of its operation in the plan. */
  ghost predicate AtSlot(p: Plan, layer: Layers, op: OpKey, c: CCWaiting, num: nat) {
    exists k :: 0 <= k < |p.ops| && p.ops[k] == op && Count(p.ops[..k], op) == num && InLayers(layer, c, 3 * k)
  }

  ghost predicate GroupsFit(d: Desk, p: Plan) {
    && (forall i :: 0 <= i < |p.ops| ==> p.ops[i].comm in d.groups)
    && (forall comm :: comm in d.groups ==> d.groups[comm] == p.ranks)
    && d.sendWaiting == map[] && d.recvWaiting == map[]
  }

  ghost predicate MadeFits(d: Desk, p: Plan, at: seq<nat>) {
    && |at| == p.ranks && (forall r :: 0 <= r < p.ranks ==> at[r] <= |p.ops|)
    && forall op: OpKey, r :: 0 <= r < p.ranks ==> d.made(op)(r) == Count(p.ops[..at[r]], op)
  }

  ghost predicate StreamsFit(d: Desk, p: Plan, at: seq<nat>, layer: Layers) {
    && |at| == p.ranks && |p.streamOf| == p.ranks
    && forall r :: 0 <= r < p.ranks ==> AtMost(layer, LastOf(InfoAt(d.streams, p.streamOf[r]).events), 3 * at[r])
  }

  ghost predicate SlotsFit(d: Desk, p: Plan, layer: Layers) {
    forall op: OpKey, i :: 0 <= i < |DequeAt(d.waiting, op)| ==>
        AtSlot(p, layer, op, DequeAt(d.waiting, op)[i], d.done(op) + i)
  }

  /** Rank `r` has issued the first `at[r]` operations of the plan, and dependencies go down in layers. */
  ghost predicate InStep(d: Desk, p: Plan, at: seq<nat>, layer: Layers) {
    && |at| == p.ranks == |p.streamOf| && PlanOk(p) && GroupsFit(d, p)
    && Layered(d.graph, layer) && MadeFits(d, p, at) && StreamsFit(d, p, at, layer) && SlotsFit(d, p, layer)
  }

  lemma SlotStays(p: Plan, layer: Layers, layer': Layers, op: OpKey, c: CCWaiting, num: nat)
    requires AtSlot(p, layer, op, c, num) && Keeps(layer, layer')
    ensures AtSlot(p, layer', op, c, num)
  {
    var k :| 0 <= k < |p.ops| && p.ops[k] == op && Count(p.ops[..k], op) == num && InLayers(layer, c, 3 * k);
    assert InLayers(layer', c, 3 * k);
  }

  lemma MadeAfter(d: Desk, d': Desk, p: Plan, at: seq<nat>, r: nat)
    requires MadeFits(d, p, at) && r < p.ranks && at[r] < |p.ops| && d'.made == OneMoreCall(d.made, p.ops[at[r]], r)
    ensures MadeFits(d', p, at[r := at[r] + 1])
  {
    forall op: OpKey, r' | 0 <= r' < p.ranks ensures d'.made(op)(r') == Count(p.ops[..at[r := at[r] + 1][r']], op) {
      if r' == r { CountNext(p.ops, at[r], op); }
    }
  }

  lemma StreamsAfter(d: Desk, d': Desk, p: Plan, at: seq<nat>, layer: Layers, layer': Layers, r: nat, l: nat)
    requires PlanOk(p) && StreamsFit(d, p, at, layer) && Keeps(layer, layer') && r < p.ranks && at[r] <= l
    requires p.streamOf[r] in d'.streams && d'.streams == d.streams[p.streamOf[r] := d'.streams[p.streamOf[r]]]
    requires AtMost(layer', LastOf(d'.streams[p.streamOf[r]].events), 3 * l)
    ensures StreamsFit(d', p, at[r := l], layer')
  {
    hide AtMost, Keeps, LastOf;
    forall r' | 0 <= r' < p.ranks
        ensures AtMost(layer', LastOf(InfoAt(d'.streams, p.streamOf[r']).events), 3 * at[r := l][r']) {
      if r' != r {
        OtherStream(p, r, r');
        AtMostStays(layer, layer', LastOf(InfoAt(d.streams, p.streamOf[r']).events), 3 * at[r'], 3 * at[r']);
      }
    }
  }

  lemma OtherStream(p: Plan, r: nat, r': nat)
    requires PlanOk(p) && r < p.ranks && r' < p.ranks && r != r'
    ensures p.streamOf[r] != p.streamOf[r']
  {
  }

  /** What is waited for of an operation has changed; nothing else. */
  lemma SlotsAfter(d: Desk, d': Desk, p: Plan, layer: Layers, layer': Layers, op: OpKey)
    requires SlotsFit(d, p, layer) && Keeps(layer, layer')
    requires forall o: OpKey :: o != op ==> DequeAt(d'.waiting, o) == DequeAt(d.waiting, o) && d'.done(o) == d.done(o)
    requires forall i :: 0 <= i < |DequeAt(d'.waiting, op)| ==>
             AtSlot(p, layer', op, DequeAt(d'.waiting, op)[i], d'.done(op) + i)
    ensures SlotsFit(d', p, layer')
  {
    hide AtSlot, Keeps, DequeAt;
    forall o: OpKey, i | 0 <= i < |DequeAt(d'.waiting, o)|
        ensures AtSlot(p, layer', o, DequeAt(d'.waiting, o)[i], d'.done(o) + i) {
      if o != op { SlotStays(p, layer, layer', o, DequeAt(d.waiting, o)[i], d.done(o) + i); }
    }
  }

  lemma OtherDeques(waiting: map<OpKey, seq<CCWaiting>>, op: OpKey, w: seq<CCWaiting>)
    ensures DequeAt(waiting[op := w], op) == w && forall o: OpKey :: o != op ==>
            DequeAt(waiting[op := w], o) == DequeAt(waiting, o)
  {
  }

  /** The next call of rank `r` opens a new collective. */
  lemma OpeningInStep(d: Desk, p: Plan, at: seq<nat>, layer: Layers, r: nat, flows: nat, time: nat)
      returns (layer': Layers)
    requires DeskOk(d) && InStep(d, p, at, layer) && r < p.ranks && at[r] < |p.ops|
    requires FirstOpen(DequeAt(d.waiting, p.ops[at[r]]), r) == |DequeAt(d.waiting, p.ops[at[r]])|
    ensures InStep(Called(d, p.ops[at[r]], r, p.streamOf[r], flows, time), p, at[r := at[r] + 1], layer')
  {
    hide Put, NewMeeting, Attending, WithFlowsOf, LastTwo, HistoryOk, DeskBut, PlanOk, Layered, MadeFits, StreamsFit,
        SlotsFit, AtMost, Keeps, Opened, Dense, InOrder, DequeOk, AtSlot, DequeAt, InLayers;
    var op, stream, k := p.ops[at[r]], p.streamOf[r], at[r];
    var d', w, info := Called(d, op, r, stream, flows, time), DequeAt(d.waiting, op), InfoAt(d.streams, stream);
    var c := NewCollective(d, op, r, stream, flows);
    StepFacts(d, p, at, layer, r);
    layer' := OpenedLayered(d.graph, layer, info, c, 3 * k);
    var (g, events) := Opened(d.graph, info);
    OpenedIs(d.graph, info, c);
    MadeAfter(d, d', p, at, r);
    OtherDeques(d.waiting, op, w + [c]);
    var num := d.done(op) + |w|;
    assert AtSlot(p, layer', op, c, num) by { HereIsTheSlot(p, layer', op, c, k); }
    forall i | 0 <= i < |w + [c]| ensures AtSlot(p, layer', op, (w + [c])[i], d'.done(op) + i) {
      if i < |w| { SlotHere(d, p, layer, op, i); SlotStays(p, layer, layer', op, w[i], d.done(op) + i); }
    }
    SlotsAfter(d, d', p, layer, layer', op);
    EventsAtMost(layer', events, 3 * k);
    StreamsAfter(d, d', p, at, layer, layer', r, k + 1);
  }

  lemma EventsAtMost(layer: Layers, events: seq<EventId>, k: nat)
    requires events != [] && Newest(events) in layer && layer[Newest(events)] == k + 2
    ensures AtMost(layer, LastOf(events), k + 3)
  {
  }

  lemma HereIsTheSlot(p: Plan, layer: Layers, op: OpKey, c: CCWaiting, k: nat)
    requires k < |p.ops| && p.ops[k] == op && InLayers(layer, c, 3 * k)
    ensures AtSlot(p, layer, op, c, Count(p.ops[..k], op))
  {
  }

  lemma SlotHere(d: Desk, p: Plan, layer: Layers, op: OpKey, i: nat)
    requires SlotsFit(d, p, layer) && i < |DequeAt(d.waiting, op)|
    ensures AtSlot(p, layer, op, DequeAt(d.waiting, op)[i], d.done(op) + i)
  {
    hide AtSlot;
  }

  /** What the invariants say about the rank that calls next. */
  lemma StepFacts(d: Desk, p: Plan, at: seq<nat>, layer: Layers, r: nat)
    requires DeskOk(d) && InStep(d, p, at, layer) && r < p.ranks && at[r] < |p.ops|
    ensures var op, info := p.ops[at[r]], InfoAt(d.streams, p.streamOf[r]);
            && op.comm in d.groups && d.groups[op.comm] == p.ranks && Dense(d.graph) && InOrder(d.graph, info.events)
            && AtMost(layer, LastOf(info.events), 3 * at[r])
            && DequeOk(DequeAt(d.waiting, op), d.made(op), d.done(op), p.ranks)
            && d.done(op) + FirstOpen(DequeAt(d.waiting, op), r) == d.made(op)(r) == Count(p.ops[..at[r]], op)
  {
    hide DequeOk, Layered, InOrder, Dense, AtMost, SlotsFit, TransfersOk, DequeAt;
    var op := p.ops[at[r]];
    InfoInOrder(d, {}, p.streamOf[r]);
    DequeHere(d, op);
    CallJoinsItsOwn(DequeAt(d.waiting, op), d.made(op), d.done(op), p.ranks, r);
  }

  lemma JoiningLayers(p: Plan, layer: Layers, op: OpKey, c: CCWaiting, k: nat)
    requires k < |p.ops| && p.ops[k] == op && AtSlot(p, layer, op, c, Count(p.ops[..k], op))
    ensures InLayers(layer, c, 3 * k)
  {
    var j :| 0 <= j < |p.ops| && p.ops[j] == op && Count(p.ops[..j], op) == Count(p.ops[..k], op)
        && InLayers(layer, c, 3 * j);
    SameOccurrence(p.ops, j, k, op);
  }

  lemma JoinedSlot(p: Plan, layer: Layers, op: OpKey, c: CCWaiting, num: nat, rank: nat)
    requires AtSlot(p, layer, op, c, num)
    ensures AtSlot(p, layer, op, JoinedBy(c, rank), num)
  {
    var k :| 0 <= k < |p.ops| && p.ops[k] == op && Count(p.ops[..k], op) == num && InLayers(layer, c, 3 * k);
    assert InLayers(layer, JoinedBy(c, rank), 3 * k);
  }

  lemma OtherDone(done: OpKey -> nat, op: OpKey)
    ensures OneMoreDone(done, op)(op) == done(op) + 1 && forall o: OpKey :: o != op ==>
            OneMoreDone(done, op)(o) == done(o)
  {
  }

  lemma SlotsOfJoined(d: Desk, p: Plan, layer: Layers, layer': Layers, op: OpKey, i: nat, rank: nat)
    requires SlotsFit(d, p, layer) && Keeps(layer, layer') && i < |DequeAt(d.waiting, op)|
    ensures var w := DequeAt(d.waiting, op); var after := w[i := JoinedBy(w[i], rank)];
            forall j :: 0 <= j < |after| ==> AtSlot(p, layer', op, after[j], d.done(op) + j)
  {
    hide AtSlot, Keeps, DequeAt;
    var w := DequeAt(d.waiting, op);
    var after := w[i := JoinedBy(w[i], rank)];
    forall j | 0 <= j < |after| ensures AtSlot(p, layer', op, after[j], d.done(op) + j) {
      SlotStays(p, layer, layer', op, w[j], d.done(op) + j);
      JoinedSlot(p, layer', op, w[j], d.done(op) + j, rank);
    }
  }

  lemma SlotsOfRest(d: Desk, p: Plan, layer: Layers, layer': Layers, op: OpKey)
    requires SlotsFit(d, p, layer) && Keeps(layer, layer') && DequeAt(d.waiting, op) != []
    ensures var rest := DequeAt(d.waiting, op)[1..];
            forall j :: 0 <= j < |rest| ==> AtSlot(p, layer', op, rest[j], d.done(op) + 1 + j)
  {
    hide AtSlot, Keeps, DequeAt;
    var w := DequeAt(d.waiting, op);
    var rest := w[1..];
    forall j | 0 <= j < |rest| ensures AtSlot(p, layer', op, rest[j], d.done(op) + 1 + j) {
      SlotStays(p, layer, layer', op, w[j + 1], d.done(op) + (j + 1));
    }
  }

  /** The next call of rank `r` joins an open collective. */
  lemma JoiningInStep(d: Desk, p: Plan, at: seq<nat>, layer: Layers, r: nat, flows: nat, time: nat)
      returns (layer': Layers)
    requires DeskOk(d) && InStep(d, p, at, layer) && r < p.ranks && at[r] < |p.ops|
    requires FirstOpen(DequeAt(d.waiting, p.ops[at[r]]), r) < |DequeAt(d.waiting, p.ops[at[r]])|
    ensures InStep(Called(d, p.ops[at[r]], r, p.streamOf[r], flows, time), p, at[r := at[r] + 1], layer')
  {
    hide Put, NewMeeting, Attending, WithFlowsOf, LastTwo, HistoryOk, DeskBut, PlanOk, Layered, MadeFits, StreamsFit,
        SlotsFit, AtMost, Keeps, JoinedGraph, Completed, Dense, InOrder, DequeOk, AtSlot, DequeAt, InLayers, Gated;
    var op, stream, k := p.ops[at[r]], p.streamOf[r], at[r];
    var d', w := Called(d, op, r, stream, flows, time), DequeAt(d.waiting, op);
    var i := FirstOpen(w, r);
    var g, events, layer1 := JoiningFacts(d, p, at, layer, r);
    MadeAfter(d, d', p, at, r);
    OtherDone(d.done, op);
    if JoinedBy(w[i], r).waitingFor != {} {
      layer' := layer1;
      OtherDeques(d.waiting, op, w[i := JoinedBy(w[i], r)]);
      SlotsOfJoined(d, p, layer, layer', op, i, r);
    } else {
      FrontCompletes(d, p, at, layer, r);
      assert w[..i] + w[i + 1..] == w[1..];
      layer' := CompletedLayered(g, layer1, JoinedBy(w[i], r), 3 * k);
      KeepsTwice(layer, layer1, layer');
      AtMostStays(layer1, layer', LastOf(events), 3 * k + 3, 3 * k + 3);
      OtherDeques(d.waiting, op, w[1..]);
      SlotsOfRest(d, p, layer, layer', op);
    }
    SlotsAfter(d, d', p, layer, layer', op);
    StreamsAfter(d, d', p, at, layer, layer', r, k + 1);
  }

  lemma FrontCompletes(d: Desk, p: Plan, at: seq<nat>, layer: Layers, r: nat)
    requires DeskOk(d) && InStep(d, p, at, layer) && r < p.ranks && at[r] < |p.ops|
    requires var w := DequeAt(d.waiting, p.ops[at[r]]);
             FirstOpen(w, r) < |w| && JoinedBy(w[FirstOpen(w, r)], r).waitingFor == {}
    ensures FirstOpen(DequeAt(d.waiting, p.ops[at[r]]), r) == 0
  {
    hide DeskBut, PlanOk, Layered, MadeFits, StreamsFit, SlotsFit, DequeOk, DequeAt;
    var op := p.ops[at[r]];
    StepFacts(d, p, at, layer, r);
    OnlyTheFrontCompletes(DequeAt(d.waiting, op), d.made(op), d.done(op), p.ranks, r);
  }

  /** The graph after joining, in layers. */
  lemma JoiningFacts(d: Desk, p: Plan, at: seq<nat>, layer: Layers, r: nat)
      returns (g: Graph, events: seq<EventId>, layer1: Layers)
    requires DeskOk(d) && InStep(d, p, at, layer) && r < p.ranks && at[r] < |p.ops|
    requires FirstOpen(DequeAt(d.waiting, p.ops[at[r]]), r) < |DequeAt(d.waiting, p.ops[at[r]])|
    ensures var op := p.ops[at[r]]; var w := DequeAt(d.waiting, op); var c := w[FirstOpen(w, r)];
            && op.comm in d.groups && (g, events) == JoinedGraph(d.graph, InfoAt(d.streams, p.streamOf[r]), c)
            && Layered(g, layer1) && Keeps(layer, layer1) && Dense(g) && Gated(g, JoinedBy(c, r))
               && InLayers(layer1, JoinedBy(c, r), 3 * at[r])
            && AtMost(layer1, LastOf(events), 3 * at[r] + 3)
  {
    hide DeskBut, PlanOk, Layered, MadeFits, StreamsFit, SlotsFit, AtMost, Keeps, JoinedGraph, Dense, InOrder,
        DequeOk, AtSlot, DequeAt, InLayers, Gated;
    var op, stream, k := p.ops[at[r]], p.streamOf[r], at[r];
    var w, info := DequeAt(d.waiting, op), InfoAt(d.streams, stream);
    var i := FirstOpen(w, r);
    StepFacts(d, p, at, layer, r);
    SlotHere(d, p, layer, op, i);
    JoiningLayers(p, layer, op, w[i], k);
    DeskGated(d, op, i);
    layer1 := JoinedLayered(d.graph, layer, info, w[i], 3 * k);
    var pair := JoinedGraph(d.graph, info, w[i]);
    g, events := pair.0, pair.1;
    JoinedIs(d.graph, info, w[i]);
    EventsAtMost(layer1, events, 3 * k);
    GatedIsHeld(d.graph, w[i]);
    GatedStays(d.graph, g, w[i]);
    JoinedByGated(g, w[i], r);
    JoinedInLayers(layer1, w[i], r, 3 * k);
  }

  lemma JoinedInLayers(layer: Layers, c: CCWaiting, rank: nat, k: nat)
    requires InLayers(layer, c, k)
    ensures InLayers(layer, JoinedBy(c, rank), k)
  {
  }

  /** A rank's next call keeps all ranks in step. */
  lemma CallInStep(d: Desk, p: Plan, at: seq<nat>, layer: Layers, r: nat, flows: nat, time: nat)
      returns (layer': Layers)
    requires DeskOk(d) && InStep(d, p, at, layer) && r < p.ranks && at[r] < |p.ops|
    ensures p.ops[at[r]].comm in d.groups && r < d.groups[p.ops[at[r]].comm]
    ensures InStep(Called(d, p.ops[at[r]], r, p.streamOf[r], flows, time), p, at[r := at[r] + 1], layer')
  {
    hide DeskBut, Called, PlanOk, Layered, MadeFits, StreamsFit, SlotsFit;
    if FirstOpen(DequeAt(d.waiting, p.ops[at[r]]), r) == |DequeAt(d.waiting, p.ops[at[r]])| {
      layer' := OpeningInStep(d, p, at, layer, r, flows, time);
    } else {
      layer' := JoiningInStep(d, p, at, layer, r, flows, time);
    }
  }

  /** So does an event of its own on its stream. */
  lemma EventInStep(d: Desk, p: Plan, at: seq<nat>, layer: Layers, r: nat) returns (layer': Layers)
    requires DeskOk(d) && InStep(d, p, at, layer) && r < p.ranks
    ensures InStep(OnStream(d, p.streamOf[r], {}), p, at, layer')
  {
    hide DeskBut, PlanOk, Layered, MadeFits, StreamsFit, SlotsFit, AtMost, Keeps, Appended, Dense, InOrder, AtSlot;
    var d', info := OnStream(d, p.streamOf[r], {}), InfoAt(d.streams, p.streamOf[r]);
    InfoInOrder(d, {}, p.streamOf[r]);
    assert Dense(d.graph) by { DeskDense(d); }
    StreamFitsAt(d, p, at, layer, r);
    NoneAtMost(layer, 3 * at[r]);
    layer' := AppendedLayered(d.graph, layer, info, {}, 3 * at[r], 3 * at[r]);
    AppendedInOrder(d.graph, info, {});
    var (g, events) := Appended(d.graph, info, {});
    LastNewest(layer', events, 3 * at[r]);
    StreamsAfter(d, d', p, at, layer, layer', r, at[r]);
    assert at[r := at[r]] == at;
    AllSlotsStay(d, d', p, layer, layer');
    SameMade(d, d', p, at);
  }

  lemma SameMade(d: Desk, d': Desk, p: Plan, at: seq<nat>)
    requires MadeFits(d, p, at) && d'.made == d.made
    ensures MadeFits(d', p, at)
  {
  }

  lemma StreamFitsAt(d: Desk, p: Plan, at: seq<nat>, layer: Layers, r: nat)
    requires StreamsFit(d, p, at, layer) && r < p.ranks
    ensures AtMost(layer, LastOf(InfoAt(d.streams, p.streamOf[r]).events), 3 * at[r])
  {
    hide AtMost, LastOf;
  }

  lemma DeskDense(d: Desk)
    requires DeskOk(d)
    ensures Dense(d.graph)
  {
    hide Dense, StreamsOk, CollectivesOk, TransfersOk, HeldIn;
  }

  lemma AllSlotsStay(d: Desk, d': Desk, p: Plan, layer: Layers, layer': Layers)
    requires SlotsFit(d, p, layer) && Keeps(layer, layer') && d'.waiting == d.waiting && d'.done == d.done
    ensures SlotsFit(d', p, layer')
  {
    hide AtSlot, Keeps;
    forall o: OpKey, i | 0 <= i < |DequeAt(d.waiting, o)|
        ensures AtSlot(p, layer', o, DequeAt(d.waiting, o)[i], d.done(o) + i) {
      SlotStays(p, layer, layer', o, DequeAt(d.waiting, o)[i], d.done(o) + i);
    }
  }

  /** So does buffering a kernel. */
  lemma KernelInStep(d: Desk, d': Desk, p: Plan, at: seq<nat>, layer: Layers, r: nat, kernel: Kernel)
    requires InStep(d, p, at, layer) && r < p.ranks
    requires var info := InfoAt(d.streams, p.streamOf[r]);
             d' == d.(streams := d.streams[p.streamOf[r] := info.(buffered := info.buffered + [kernel])])
    ensures InStep(d', p, at, layer)
  {
    hide PlanOk, Layered, MadeFits, StreamsFit, SlotsFit, AtMost, Keeps, AtSlot;
    SelfKeeps(layer);
    StreamFitsAt(d, p, at, layer, r);
    StreamsAfter(d, d', p, at, layer, layer, r, at[r]);
    assert at[r := at[r]] == at;
    AllSlotsStay(d, d', p, layer, layer);
    SameMade(d, d', p, at);
  }

  /*** The end ***/

  ghost predicate AllIssued(p: Plan, at: seq<nat>) {
    |at| == p.ranks && forall r :: 0 <= r < p.ranks ==> at[r] == |p.ops|
  }

  /** Once all ranks have issued everything, no collective waits for anyone. */
  lemma NobodyWaits(d: Desk, p: Plan, at: seq<nat>, layer: Layers, op: OpKey)
    requires DeskOk(d) && InStep(d, p, at, layer) && AllIssued(p, at)
    ensures DequeAt(d.waiting, op) == []
  {
    hide Joined, NotJoined, TransfersOk, HeldIn, Dense, SlotsFit, StreamsFit, Layered, Gated, StreamsOk;
    var w := DequeAt(d.waiting, op);
    if w != [] {
      assert op.comm in d.groups;
      var done, made := d.done(op), d.made(op);
      assert w[0].joined == Joined(made, done + 0, p.ranks) && w[0].waitingFor == NotJoined(made, done + 0, p.ranks);
      var r :| r in w[0].joined;
      var r' :| r' in w[0].waitingFor;
      JoinedMeans(made, done, p.ranks, r, r');
      IssuedMade(d, p, at, r, op);
      IssuedMade(d, p, at, r', op);
      assert false;
    }
  }

  lemma IssuedMade(d: Desk, p: Plan, at: seq<nat>, r: nat, op: OpKey)
    requires MadeFits(d, p, at) && AllIssued(p, at) && r < p.ranks
    ensures d.made(op)(r) == Count(p.ops, op)
  {
    assert p.ops[..at[r]] == p.ops;
  }

  lemma JoinedMeans(made: Calls, k: nat, n: nat, r: nat, r': nat)
    requires r in Joined(made, k, n) && r' in NotJoined(made, k, n)
    ensures r < n && r' < n && made(r') <= k < made(r)
  {
  }

  lemma NothingHeld(d: Desk, p: Plan, at: seq<nat>, layer: Layers)
    requires DeskOk(d) && InStep(d, p, at, layer) && AllIssued(p, at)
    ensures d.graph.held == {}
  {
    hide DeskBut, InStep, AllIssued, DequeAt;
    HeldExactly(d);
    forall b: EventId | b in d.graph.held ensures false {
      if op, i :| op in d.waiting && 0 <= i < |d.waiting[op]| && d.waiting[op][i].barrier == b {
        NobodyWaits(d, p, at, layer, op);
        assert d.waiting[op] == [] by { assert DequeAt(d.waiting, op) == []; DequeIs(d.waiting, op); }
        assert false;
      } else {
        assert d.sendWaiting == map[] && d.recvWaiting == map[] by { NoTransfers(d, p, at, layer); }
        assert false;
      }
    }
  }

  lemma DequeIs(waiting: map<OpKey, seq<CCWaiting>>, op: OpKey)
    requires op in waiting
    ensures DequeAt(waiting, op) == waiting[op]
  {
  }

  lemma NoTransfers(d: Desk, p: Plan, at: seq<nat>, layer: Layers)
    requires InStep(d, p, at, layer)
    ensures d.sendWaiting == map[] && d.recvWaiting == map[]
  {
    hide Layered, MadeFits, StreamsFit, SlotsFit;
  }

  /** Once all ranks have issued everything, and the queue has run dry with no communication left
      running, every event has ended. */
  lemma NoDeadlock(q: Queue, d: Desk, p: Plan, at: seq<nat>, layer: Layers)
    requires Ok(q) && DeskOk(d) && d.graph == GraphOf(q) && InStep(d, p, at, layer) && AllIssued(p, at)
    requires q.heap == map[] && q.started == map[]
    ensures q.pending == map[] && forall e: EventId :: e < q.counter ==> e in q.ended
  {
    hide Ok, DeskBut, MadeFits, StreamsFit, SlotsFit, AllIssued, Below;
    NothingHeld(d, p, at, layer);
    DryIsFinished(q, layer);
  }

  /*** Any run ***/

  /** A rank issues its next operation, buffers a kernel, or records an event; or the simulation takes a step. */
  datatype Move = Issue(rank: nat, flows: nat, time: nat) | Buffer(rank: nat, kernel: Kernel) | Record(rank: nat,
      time: nat) | Simulate

  /** The moves that count: a rank that has issued everything issues nothing more. */
  predicate Possible(p: Plan, at: seq<nat>, move: Move)
    requires |at| == p.ranks
  {
    match move
    case Issue(rank, _, _) => rank < p.ranks && at[rank] < |p.ops|
    case Buffer(rank, _) => rank < p.ranks
    case Record(rank, _) => rank < p.ranks
    case Simulate => true
  }

  /** The ranks' communicators, all made of the same ranks. */
  method SetUp(p: Plan) returns (sim: Simulator)
    requires PlanOk(p)
    ensures fresh(sim) && fresh(sim.queue) && sim.Valid() && InStep(sim.TheDesk(), p, Progress(p, []), map[])
    ensures Untouched(sim.TheDesk(), p)
  {
    hide Ok, DeskOk, SyncOk, LeftAlone, ExactBut, RecordedOk, AskedOk, InStep, PlanOk, Progress;
    sim := new Simulator();
    for i := 0 to |p.ops|
      invariant fresh(sim) && fresh(sim.queue) && sim.Valid()
      invariant Untouched(sim.TheDesk(), p) && forall j :: 0 <= j < i ==> p.ops[j].comm in sim.commGroups
    {
      if p.ops[i].comm !in sim.commGroups {
        sim.AddGroup(p.ops[i].comm, p.ranks);
      }
    }
    NothingYet(sim.TheDesk(), p);
  }

  /** Nothing has happened yet but the creation of communicators. */
  ghost predicate Untouched(d: Desk, p: Plan) {
    && d.graph == Graph(0, map[], {}) && d.streams == map[] && d.waiting == map[] && d.sendWaiting == map[]
       && d.recvWaiting == map[]
    && (forall comm :: comm in d.groups ==> d.groups[comm] == p.ranks)
    && forall op: OpKey, r: nat :: d.made(op)(r) == 0
  }

  lemma NothingYet(d: Desk, p: Plan)
    requires PlanOk(p) && Untouched(d, p) && forall j :: 0 <= j < |p.ops| ==> p.ops[j].comm in d.groups
    ensures InStep(d, p, Progress(p, []), map[])
  {
    var at := Progress(p, []);
    forall op: OpKey, r | 0 <= r < p.ranks ensures d.made(op)(r) == Count(p.ops[..at[r]], op) {
      assert p.ops[..at[r]] == [];
    }
  }

  /** The desk after a move. */
  ghost function Moved(d: Desk, p: Plan, at: seq<nat>, move: Move): Desk
    requires |at| == p.ranks == |p.streamOf|
  {
    if !Possible(p, at, move) then d
    else
      match move
      case Issue(rank, flows, time) =>
        if p.ops[at[rank]].comm in d.groups then Called(d, p.ops[at[rank]], rank, p.streamOf[rank], flows, time)
        else d
      case Buffer(rank, kernel) =>
        var info := InfoAt(d.streams, p.streamOf[rank]);
        d.(streams := d.streams[p.streamOf[rank] := info.(buffered := info.buffered + [kernel])])
      case Record(rank, _) => OnStream(d, p.streamOf[rank], {})
      case Simulate => d
  }

  /** How far a move takes the ranks. */
  function Further(p: Plan, at: seq<nat>, move: Move): (at': seq<nat>)
    requires |at| == p.ranks
    ensures |at'| == p.ranks
  {
    if move.Issue? && Possible(p, at, move) then at[move.rank := at[move.rank] + 1] else at
  }

  /** How many operations each rank has issued after some moves. */
  function Progress(p: Plan, moves: seq<Move>): (at: seq<nat>)
    ensures |at| == p.ranks
  {
    if moves == [] then seq(p.ranks, _ => 0) else Further(p, Progress(p, moves[..|moves| - 1]), moves[|moves| - 1])
  }

  /** The desk after some moves. */
  ghost function Played(first: Desk, p: Plan, moves: seq<Move>): Desk
    requires p.ranks == |p.streamOf|
  {
    if moves == [] then first
    else
      var before := moves[..|moves| - 1];
      Moved(Played(first, p, before), p, Progress(p, before), moves[|moves| - 1])
  }

  /** How often a rank is to issue its next operation. */
  function Issues(moves: seq<Move>, r: nat): nat {
    if moves == [] then 0
    else Issues(moves[..|moves| - 1], r) + if moves[|moves| - 1].Issue? && moves[|moves| - 1].rank == r then 1 else 0
  }

  /** Each rank has issued as many operations as it was to, up to the end of the plan. */
  lemma {:induction false} ProgressIs(p: Plan, moves: seq<Move>, r: nat)
    requires r < p.ranks
    ensures Progress(p, moves)[r] == if Issues(moves, r) <= |p.ops| then Issues(moves, r) else |p.ops|
  {
    if moves != [] { ProgressIs(p, moves[..|moves| - 1], r); }
  }

  /** One move. */
  method Play(sim: Simulator, p: Plan, at: seq<nat>, ghost layer: Layers, move: Move)
      returns (at': seq<nat>, ghost layer': Layers)
    requires sim.Valid() && InStep(sim.TheDesk(), p, at, layer) && |at| == p.ranks == |p.streamOf|
    modifies sim, sim.queue
    ensures sim.Valid() && InStep(sim.TheDesk(), p, at', layer')
    ensures at' == Further(p, at, move) && sim.TheDesk() == Moved(old(sim.TheDesk()), p, at, move)
  {
    hide Ok, DeskOk, SyncOk, LeftAlone, ExactBut, RecordedOk, AskedOk, Kept, InStep, Called, OnStream;
    at', layer' := at, layer;
    if !Possible(p, at, move) {
      return;
    }
    match move {
      case Issue(rank, flows, time) =>
        layer' := CallInStep(sim.TheDesk(), p, at, layer, rank, flows, time);
        sim.NcclCall(p.ops[at[rank]], rank, p.streamOf[rank], flows, time);
        at' := at[rank := at[rank] + 1];
      case Buffer(rank, kernel) =>
        ghost var d := sim.TheDesk();
        sim.Launch(p.streamOf[rank], kernel);
        KernelInStep(d, sim.TheDesk(), p, at, layer, rank, kernel);
      case Record(rank, time) =>
        layer' := EventInStep(sim.TheDesk(), p, at, layer, rank);
        NoIds();
        var _ := sim.Enqueue(p.streamOf[rank], [], None, time);
      case Simulate =>
        var _ := sim.Step();
    }
  }

  lemma NoIds()
    ensures SetOf([]) == {}
  {
  }

  /** Once all ranks have issued everything, every operation has been completed as often as it occurs. */
  lemma AllCompleted(d: Desk, p: Plan, at: seq<nat>, layer: Layers, op: OpKey)
    requires DeskOk(d) && InStep(d, p, at, layer) && AllIssued(p, at) && op.comm in d.groups
    ensures DequeAt(d.waiting, op) == [] && d.done(op) == Count(p.ops, op)
  {
    hide Joined, NotJoined, TransfersOk, HeldIn, Dense, SlotsFit, StreamsFit, Layered, Gated, StreamsOk, HistoryOk;
    NobodyWaits(d, p, at, layer, op);
    IssuedMade(d, p, at, 0, op);
    assert DequeOk(DequeAt(d.waiting, op), d.made(op), d.done(op), p.ranks);
  }

  /** Any moves in any order, from an empty simulator on, and then the simulation until nothing is left to
      run: if every rank has issued all its operations and the network has ended every flow, every
      collective is complete and every event has ended. */
  method Run(p: Plan, moves: seq<Move>) returns (sim: Simulator, at: seq<nat>, ghost first: Desk)
    requires PlanOk(p)
    ensures sim.Valid() && at == Progress(p, moves) && sim.queue.eventQueue == map[]
    ensures Untouched(first, p) && sim.TheDesk() == Played(first, p, moves)
    ensures AllIssued(p, at) ==>
              forall op :: op in p.ops ==> DequeAt(sim.waiting, op) == [] && sim.done(op) == Count(p.ops, op)
    ensures AllIssued(p, at) && sim.queue.started == map[] ==>
              sim.queue.pending == map[] && forall e: EventId :: e < sim.queue.eventCounter ==> e in sim.queue.ended
  {
    hide Ok, DeskOk, SyncOk, LeftAlone, ExactBut, RecordedOk, AskedOk, Kept, InStep, AllIssued, Moved, Further,
        Possible;
    ghost var layer: Layers;
    sim := SetUp(p);
    first := sim.TheDesk();
    at, layer := Progress(p, []), map[];
    for i := 0 to |moves|
      invariant fresh(sim) && fresh(sim.queue) && sim.Valid() && InStep(sim.TheDesk(), p, at, layer)
      invariant at == Progress(p, moves[..i]) && sim.TheDesk() == Played(first, p, moves[..i])
    {
      assert moves[..i + 1][..i] == moves[..i];
      at, layer := Play(sim, p, at, layer, moves[i]);
    }
    assert moves[..|moves|] == moves;
    Drain(sim);
    if AllIssued(p, at) {
      forall op | op in p.ops ensures DequeAt(sim.waiting, op) == [] && sim.done(op) == Count(p.ops, op) {
        assert op.comm in sim.commGroups by { GroupsThere(sim.TheDesk(), p, at, layer, op); }
        AllCompleted(sim.TheDesk(), p, at, layer, op);
      }
      if sim.queue.started == map[] {
        NoDeadlock(sim.queue.View(), sim.TheDesk(), p, at, layer);
      }
    }
  }

  lemma GroupsThere(d: Desk, p: Plan, at: seq<nat>, layer: Layers, op: OpKey)
    requires InStep(d, p, at, layer) && op in p.ops
    ensures op.comm in d.groups
  {
    hide Layered, MadeFits, StreamsFit, SlotsFit;
    var i :| 0 <= i < |p.ops| && p.ops[i] == op;
  }

  /** The simulation runs until nothing is left to run. */
  method Drain(sim: Simulator)
    requires sim.Valid()
    modifies sim, sim.queue
    ensures sim.Valid() && sim.TheDesk() == old(sim.TheDesk()) && sim.queue.eventQueue == map[]
  {
    hide Ok, DeskOk, SyncOk, LeftAlone, ExactBut, RecordedOk, AskedOk;
    while true
      invariant sim.Valid() && sim.TheDesk() == old(sim.TheDesk())
      decreases sim.queue.eventCounter - |sim.queue.ended|, |sim.queue.inQueueNotStarted|
    {
      ghost var q, syncing := sim.queue.View(), sim.syncing;
      EndedCount(q);
      var step := sim.Step();
      StepCounts(step, q, sim.queue.View(), syncing, sim.syncing);
      if step.EmptyQueue? {
        return;
      }
    }
  }
}
