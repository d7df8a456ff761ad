/** The state of the optimistic network simulator as a value, its invariant, and what
    the simulator's steps do to it.  The class in NetSim.dfy changes the state in place;
    its methods are proved against the definitions here. */
module NetState {
  import opened Sequences
  import opened FairShare
  import opened NetReference
  import opened SpeedHistory
  import NetTracking

  datatype FlowState = FlowState(spec: FlowSpec, speed: nat, bound: nat, converged: bool, sent: nat, history: seq<Span>)

  type Flows = map<FlowId, FlowState>
  type LinkFlows = map<LinkIx, seq<FlowId>>

  function NewFlow(spec: FlowSpec): FlowState {
    FlowState(spec, 0, 0, false, 0, [])
  }

  ghost function LoadOf(flows: Flows): (load: Load)
    ensures load.Keys == flows.Keys
  {
    map f | f in flows :: flows[f].spec
  }

  ghost function Histories(flows: Flows, s: set<FlowId>): (h: map<FlowId, seq<Span>>)
    requires s <= flows.Keys
    ensures h.Keys == s
  {
    map f | f in s :: flows[f].history
  }

  /*** The invariant ***/

  /** Buffered, running and retired flows are disjoint and together are all flows. */
  ghost predicate Placed(flows: Flows, buffered: set<FlowId>, running: seq<FlowId>, retired: seq<FlowId>) {
    && Distinct(running) && Distinct(retired)
    && Elems(running) !! Elems(retired) && buffered !! Elems(running) && buffered !! Elems(retired)
    && flows.Keys == buffered + Elems(running) + Elems(retired)
  }

  /** The link index is exactly the inverse of the running flows' routes, without empty entries. */
  ghost predicate Inverse(links: LinkFlows, flows: Flows, running: set<FlowId>) {
    && running <= flows.Keys
    && (forall l :: l in links ==> links[l] != [] && Distinct(links[l]))
    && (forall l, f :: l in links && f in links[l] ==> f in running && l in flows[f].spec.route)
    && (forall l, f :: f in running && l in flows[f].spec.route ==> l in links && f in links[l])
  }

  /** A buffered flow lies ahead of the clock and has sent nothing. */
  ghost predicate BufferedOk(fs: FlowState, due: nat, ts: nat) {
    due == fs.spec.start && ts < due && fs.history == [] && fs.sent == 0
  }

  /** What a running flow has sent is the integral of its history up to the clock. */
  ghost predicate RunningOk(fs: FlowState, ts: nat) {
    fs.spec.start <= ts && Ordered(fs.history, fs.spec.start, ts) && fs.sent == SentBy(fs.history, ts)
  }

  /** A retired flow's history ends with `(end, 0)` and integrates to its whole size. */
  ghost predicate RetiredOk(fs: FlowState, ts: nat) {
    && Terminated(fs.history) && Ordered(fs.history, fs.spec.start, EndOf(fs.history))
    && fs.sent == SentBy(fs.history, EndOf(fs.history)) && fs.spec.size <= fs.sent
    && EndOf(fs.history) / 1000 * 1000 <= ts
  }

  /** Completion microseconds never decrease along the retired list. */
  ghost predicate RetiredInOrder(flows: Flows, retired: seq<FlowId>)
    requires forall f :: f in retired ==> f in flows && Terminated(flows[f].history)
  {
    forall i, j :: 0 <= i < j < |retired| ==>
                     EndOf(flows[retired[i]].history) / 1000 <= EndOf(flows[retired[j]].history) / 1000
  }

  /** When the last entry of a history starts; for a completed flow, its completion time. */
  ghost function LastStart(h: seq<Span>): nat {
    if h == [] then 0 else h[|h| - 1].start
  }

  /** Completion times never decrease along the retired list, not even within a microsecond. */
  ghost predicate ByNanosecond(flows: Flows, retired: seq<FlowId>) {
    forall i, j :: 0 <= i < j < |retired| && retired[i] in flows && retired[j] in flows ==>
                     LastStart(flows[retired[i]].history) <= LastStart(flows[retired[j]].history)
  }

  ghost predicate AllBuffered(flows: Flows, bufs: map<FlowId, nat>, ts: nat) {
    forall f :: f in bufs ==> f in flows && BufferedOk(flows[f], bufs[f], ts)
  }

  ghost predicate AllRunning(flows: Flows, running: set<FlowId>, ts: nat) {
    forall f :: f in running ==> f in flows && RunningOk(flows[f], ts)
  }

  ghost predicate AllRetired(flows: Flows, retired: seq<FlowId>, ts: nat) {
    && (forall f :: f in retired ==> f in flows && RetiredOk(flows[f], ts))
    && RetiredInOrder(flows, retired)
  }

  /** Routes visit no link twice. */
  ghost predicate RoutesDistinct(flows: Flows) {
    forall f :: f in flows ==> Distinct(flows[f].spec.route)
  }

  ghost predicate Ok(net: Fabric, ts: nat, flows: Flows, bufs: map<FlowId, nat>, running: seq<FlowId>,
                     links: LinkFlows, retired: seq<FlowId>)
  {
    && LoadOk(net, LoadOf(flows)) && RoutesDistinct(flows)
    && Placed(flows, bufs.Keys, running, retired)
    && Inverse(links, flows, Elems(running))
    && AllBuffered(flows, bufs, ts) && AllRunning(flows, Elems(running), ts) && AllRetired(flows, retired, ts)
  }

  /** Every history tracks the in-order reference of the current load. */
  ghost predicate InStep(net: Fabric, ts: nat, flows: Flows, running: set<FlowId>, retired: set<FlowId>) {
    && LoadOk(net, LoadOf(flows)) && running <= flows.Keys && retired <= flows.Keys
    && NetTracking.InStep(net, LoadOf(flows), ts, Histories(flows, running), Histories(flows, retired))
  }

  /** The simulator's account of the network equals the in-order reference's. */
  ghost predicate Synced(net: Fabric, ts: nat, flows: Flows, running: set<FlowId>, retired: set<FlowId>) {
    && LoadOk(net, LoadOf(flows)) && running <= flows.Keys && retired <= flows.Keys
    && (forall f :: f in retired ==> Terminated(flows[f].history))
    && NetTracking.Synced(net, LoadOf(flows), ts, Histories(flows, running), Histories(flows, retired))
  }

  lemma InStepIntro(net: Fabric, ts: nat, flows: Flows, running: set<FlowId>, retired: set<FlowId>)
    requires LoadOk(net, LoadOf(flows)) && running <= flows.Keys && retired <= flows.Keys && running !! retired
    requires forall f :: f in flows && f !in running && f !in retired ==> ts < flows[f].spec.start
    requires forall f :: f in running ==> NetTracking.Tracks(net, LoadOf(flows), f, flows[f].history, ts)
    requires forall f :: f in retired ==> NetTracking.CompletedInStep(net, LoadOf(flows), f, flows[f].history, ts)
    ensures InStep(net, ts, flows, running, retired)
  {
    hide LoadOk, NetTracking.Tracks, NetTracking.CompletedInStep;
  }

  lemma InStepElim(net: Fabric, ts: nat, flows: Flows, running: set<FlowId>, retired: set<FlowId>, f: FlowId)
    requires InStep(net, ts, flows, running, retired) && f in flows
    ensures f in running ==> f !in retired && NetTracking.Tracks(net, LoadOf(flows), f, flows[f].history, ts)
    ensures f in retired ==> NetTracking.CompletedInStep(net, LoadOf(flows), f, flows[f].history, ts)
    ensures f !in running && f !in retired ==> ts < flows[f].spec.start
  {
    hide LoadOk, NetTracking.Tracks, NetTracking.CompletedInStep;
    if f in running {
      assert Histories(flows, running)[f] == flows[f].history;
    } else if f in retired {
      assert Histories(flows, retired)[f] == flows[f].history;
    }
  }

  lemma InStepSynced(net: Fabric, ts: nat, flows: Flows, running: set<FlowId>, retired: set<FlowId>)
    requires InStep(net, ts, flows, running, retired)
    ensures Synced(net, ts, flows, running, retired)
  {
    NetTracking.InStepSynced(net, LoadOf(flows), ts, Histories(flows, running), Histories(flows, retired));
    forall f | f in retired ensures Terminated(flows[f].history) {
      assert NetTracking.CompletedInStep(net, LoadOf(flows), f, Histories(flows, retired)[f], ts);
    }
  }

  /*** Time to completion ***/

  function CeilDiv(a: nat, v: nat): nat
    requires 0 < v
  {
    (a + v - 1) / v
  }

  lemma CeilDivBounds(a: nat, v: nat)
    requires 0 < v
    ensures a <= v * CeilDiv(a, v)
    ensures 0 < a ==> 0 < CeilDiv(a, v) && v * (CeilDiv(a, v) - 1) < a
    ensures a == 0 ==> CeilDiv(a, v) == 0
  {
    var q := CeilDiv(a, v);
    QuotientIsDivision(a + v - 1, v);
    QuotientBounds(a + v - 1, v);
    if 0 < a {
      assert q != 0;
      assert v * (q - 1) == v * q - v;
    }
  }

  function TimeToComplete(fs: FlowState): nat
    requires 0 < fs.speed
  {
    CeilDiv(if fs.sent <= fs.spec.size then fs.spec.size - fs.sent else 0, fs.speed)
  }

  predicate Completed(fs: FlowState)
    requires 0 < fs.speed
  {
    fs.sent >= fs.spec.size || TimeToComplete(fs) == 0
  }

  lemma CompletedMeansAllSent(fs: FlowState)
    requires 0 < fs.speed
    ensures Completed(fs) <==> fs.spec.size <= fs.sent
  {
    CeilDivBounds(if fs.sent <= fs.spec.size then fs.spec.size - fs.sent else 0, fs.speed);
  }

  /** Before its completion time a flow is incomplete; at it, it is complete. */
  lemma CompletesInTime(fs: FlowState, d: nat)
    requires 0 < fs.speed && fs.sent < fs.spec.size && d <= TimeToComplete(fs)
    ensures 0 < TimeToComplete(fs)
    ensures 0 < d ==> fs.sent + fs.speed * (d - 1) < fs.spec.size
    ensures d == TimeToComplete(fs) ==> fs.spec.size <= fs.sent + fs.speed * d
  {
    var left := fs.spec.size - fs.sent;
    CeilDivBounds(left, fs.speed);
    if 0 < d {
      assert fs.speed * (d - 1) <= fs.speed * (CeilDiv(left, fs.speed) - 1);
    }
  }
}
