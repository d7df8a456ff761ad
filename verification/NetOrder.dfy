/** The order of the retired list, which a comment in the program calls increasing: by microsecond it always
    is, by nanosecond only as long as no completion comes earlier than that of a flow still retired. */
module NetOrder {
  import opened FairShare
  import opened NetArrivals
  import opened NetBatches
  import opened NetReference
  import opened NetSim
  import opened NetState
  import opened NetSteps
  import opened NetSupport
  import opened Options
  import opened Sequences
  import opened SpeedHistory
  import NetTracking

  /** An arrival, with or without a rollback, never spoils the order. */
  lemma ArrivalKeepsOrder(flows: Flows, flows': Flows, retired: seq<FlowId>, retired': seq<FlowId>)
    requires ByNanosecond(flows, retired) && retired' <= retired && SameRecords(flows, flows', Elems(retired'))
    ensures ByNanosecond(flows', retired')
  {
    forall i, j | 0 <= i < j < |retired'| && retired'[i] in flows' && retired'[j] in flows'
      ensures LastStart(flows'[retired'[i]].history) <= LastStart(flows'[retired'[j]].history)
    {
      assert retired'[i] in Elems(retired') && retired'[j] in Elems(retired');
      assert retired[i] == retired'[i] && retired[j] == retired'[j];
    }
  }

  /** In a state that agrees with the in-order simulation, no retired flow completes after the clock: so no
      completion from there on spoils the order. */
  lemma NoneAhead(net: Fabric, ts: nat, flows: Flows, running: set<FlowId>, retired: set<FlowId>)
    requires InStep(net, ts, flows, running, retired)
    ensures forall f :: f in retired ==> f in flows && LastStart(flows[f].history) <= ts
  {
    hide LoadOk, NetTracking.InStep, NetTracking.Tracks;
    forall f | f in retired ensures f in flows && LastStart(flows[f].history) <= ts {
      InStepElim(net, ts, flows, running, retired, f);
    }
  }

  /*** A run that spoils it ***/

  const First: FlowSpec := FlowSpec(1500, 0, [])
  const Second: FlowSpec := FlowSpec(2500, 0, [])
  const Late: FlowSpec := FlowSpec(1200, 0, [])

  /** Flows without a route make an acceptable load. */
  lemma RoutelessOk(net: Fabric, load: Load)
    requires FabricOk(net) && net.capacity == map[] && forall f :: f in load ==> load[f].route == []
    ensures LoadOk(net, load) && Provisioned(net, RoutesOf(load, load.Keys))
  {
  }

  /** A flow of no bytes is done as soon as it starts. */
  lemma DoneAtOnce(net: Fabric, load: Load, t: nat, f: FlowId)
    requires LoadOk(net, load) && f in load && load[f].size == 0
    ensures f in SettledAt(net, load, t).done <==> load[f].start <= t
  {
    hide LoadOk, WorldAt, Settle;
    WorldShape(net, load, t, f);
    NetTracking.SettleOne(load, WorldAt(net, load, t), t, f);
  }

  /** So the next completion is that of the flow that starts first. */
  lemma NextIs(net: Fabric, load: Load, seen: set<FlowId>, t0: nat, t1: nat, batch: set<FlowId>, f: FlowId)
    requires LoadOk(net, load) && f in load && f !in seen && t0 < load[f].start && forall g :: g in load ==>
             load[g].size == 0
    requires forall g :: g in load && g !in seen && g != f ==> load[f].start < load[g].start
    ensures NextBatch(net, load, seen, t0, t1, batch) ==> t1 == load[f].start && batch == {f}
    ensures NoBatch(net, load, seen, t0, t1) ==> t1 <= load[f].start
  {
    hide LoadOk, SettledAt;
    var start := load[f].start;
    forall t: nat
      ensures t < start ==> CompletedBy(net, load, seen, t) == {}
      ensures CompletedBy(net, load, seen, start) == {f} && CompletedRunning(net, load, seen, start) == {}
      ensures start <= t ==> f in CompletedBy(net, load, seen, t)
    {
      forall g | g in load
        ensures g in SettledAt(net, load, t).done <==> load[g].start <= t
        ensures g in SettledAt(net, load, start).done <==> load[g].start <= start
      {
        DoneAtOnce(net, load, t, g);
        DoneAtOnce(net, load, start, g);
      }
    }
    if start < t1 { assert f in CompletedBy(net, load, seen, t1 - 1); }
    if t1 < start { assert CompletedRunning(net, load, seen, t1) <= CompletedBy(net, load, seen, t1); }
  }

  lemma JustOne(s: seq<FlowId>, f: FlowId)
    requires Distinct(s) && Elems(s) == {f}
    ensures s == [f]
  {
    DistinctSize(s);
    assert s[0] in Elems(s);
  }

  /** The flow that starts next, of no bytes like all others, completes as it starts. */
  method CompleteNext(sim: Simulator, f: FlowId)
    requires sim.Valid() && sim.Fed() && sim.Exact() && f in sim.flows && f !in Elems(sim.retired)
             && forall g :: g in sim.flows ==> sim.flows[g].spec.size == 0
    requires sim.ts < sim.flows[f].spec.start < MAX_TS
    requires forall g :: g in sim.flows && g !in Elems(sim.retired) && g != f ==>
             sim.flows[f].spec.start < sim.flows[g].spec.start
    modifies sim
    ensures sim.Valid() && sim.Fed() && sim.Exact() && LoadOf(sim.flows) == LoadOf(old(sim.flows))
    ensures sim.ts == old(sim.flows)[f].spec.start && sim.retired == old(sim.retired) + [f]
    ensures SameRecords(old(sim.flows), sim.flows, Elems(old(sim.retired))) && CompletedAt(sim.flows, [f], sim.ts)
  {
    hide Ok, InStep, LoadOk, NextBatch, NoBatch, ByNanosecond, NoneFinished, SameRecords, Fed;
    ghost var load, retired, t0 := LoadOf(sim.flows), sim.retired, sim.ts;
    OkParts(sim.net, sim.ts, sim.flows, sim.bufs, sim.running, sim.links, sim.retired);
    var comp := sim.MaxMinFairness(None);
    NextIs(sim.net, load, Elems(retired), t0, sim.ts, Elems(FlowIds(comp)), f);
    OkParts(sim.net, sim.ts, sim.flows, sim.bufs, sim.running, sim.links, sim.retired);
    HasElems(FlowIds(comp));
    Somewhere(sim, f);
    SplitElems(sim.retired, |retired|);
    assert sim.retired[|retired|..] == FlowIds(comp);
    JustOne(FlowIds(comp), f);
  }

  /** The two flows that are known from the start. */
  method TwoCompletions(sim: Simulator)
    requires sim.Valid() && sim.Exact() && sim.net == Fabric(map[], 1) && sim.ts == 0 && sim.flows == map[]
    modifies sim
    ensures sim.Valid() && sim.ts == 2500 && sim.retired == [0, 1] && LoadOf(sim.flows) == map[0 := First, 1 := Second]
    ensures CompletedAt(sim.flows, [0], 1500) && CompletedAt(sim.flows, [1], 2500)
  {
    hide Ok, InStep, LoadOk, NewFlows, IsFirstStart, LoadOf, Added, Synced, SameRecords, CompletedAt, Fed, Provided,
        Provisioned;
    var recs := [Arrival(0, First), Arrival(1, Second)];
    NothingRetired(sim);
    TwoAdded(sim.flows, recs);
    RoutelessOk(sim.net, map[0 := First, 1 := Second]);
    var _, first := sim.FlowArrive(recs);
    assert first == 1500 by { FirstOfTwo(recs, first); }
    TwoSpecs(sim.flows);
    ProvisionedIsFed(sim.net, sim.ts, sim.flows, sim.bufs, sim.running, sim.links, sim.retired);
    HasElems(sim.retired);
    CompleteNext(sim, 0);
    assert sim.retired == [0];
    ghost var flows := sim.flows;
    TwoSpecs(flows);
    CompleteNext(sim, 1);
    StillCompleted(flows, sim.flows);
  }

  lemma HasElems(s: seq<FlowId>)
    ensures s == [] <==> Elems(s) == {}
  {
    if s != [] { assert s[0] in Elems(s); }
  }

  lemma Somewhere(sim: Simulator, f: FlowId)
    requires sim.Valid() && f in sim.flows
    ensures f in Elems(sim.retired) || sim.running != [] || sim.bufs != map[]
  {
    hide Ok;
    OkBuffered(sim.net, sim.ts, sim.flows, sim.bufs, sim.running, sim.links, sim.retired);
    HasElems(sim.running);
  }

  lemma NothingRetired(sim: Simulator)
    requires sim.Valid() && sim.flows == map[]
    ensures sim.retired == []
  {
    hide Ok;
    OkParts(sim.net, sim.ts, sim.flows, sim.bufs, sim.running, sim.links, sim.retired);
    HasElems(sim.retired);
  }

  lemma TwoSpecs(flows: Flows)
    requires LoadOf(flows) == map[0 := First, 1 := Second]
    ensures flows.Keys == {0, 1} && flows[0].spec == First && flows[1].spec == Second
  {
    assert LoadOf(flows).Keys == {0, 1};
    assert LoadOf(flows)[0] == First && LoadOf(flows)[1] == Second;
  }

  lemma StillCompleted(flows: Flows, flows': Flows)
    requires CompletedAt(flows, [0], 1500) && SameRecords(flows, flows', Elems([0]))
    ensures CompletedAt(flows', [0], 1500)
  {
    assert 0 in [0] && 0 in Elems([0]);
  }

  lemma TwoAdded(flows: Flows, recs: seq<Arrival>)
    requires flows == map[] && recs == [Arrival(0, First), Arrival(1, Second)]
    ensures NewFlows(flows, recs) && LoadOf(Added(flows, recs)) == map[0 := First, 1 := Second]
  {
    assert recs[..1] == [Arrival(0, First)] && recs[..1][..0] == [];
    assert Added(flows, recs[..1]) == map[0 := NewFlow(First)];
    assert Added(flows, recs) == map[0 := NewFlow(First), 1 := NewFlow(Second)];
  }

  lemma FirstOfTwo(recs: seq<Arrival>, first: nat)
    requires recs == [Arrival(0, First), Arrival(1, Second)] && IsFirstStart(recs, first)
    ensures first == 1500
  {
    assert recs[0].spec.start == 1500 && recs[1].spec.start == 2500;
  }

  /** Two flows complete at 1500 and at 2500 nanoseconds; then one turns up that starts at 1200.  The
      rollback keeps the first of the two, which completed in the same microsecond, and the late flow
      completes before it: the list ends up in order by microsecond, but not by nanosecond. */
  method UnorderedRun() returns (sim: Simulator)
    ensures fresh(sim) && sim.Valid() && !ByNanosecond(sim.flows, sim.retired)
  {
    hide Ok, InStep, LoadOk, NextBatch, NoBatch, NewFlows, IsFirstStart, Dropped, Fed, Provided, Provisioned;
    sim := new Simulator(Fabric(map[], 1));
    TwoCompletions(sim);
    var recs := [Arrival(2, Late)];
    OneAdded(sim.flows, recs);
    RoutelessOk(sim.net, map[0 := First, 1 := Second, 2 := Late]);
    ghost var flows := sim.flows;
    var affected, first := sim.FlowArrive(recs);
    assert first == 1200 by { FirstOfOne(recs, first); }
    OnlyFirstKept(flows, sim.retired, affected);
    LateRuns(sim);
    ProvisionedIsFed(sim.net, sim.ts, sim.flows, sim.bufs, sim.running, sim.links, sim.retired);
    ghost var arrived := sim.flows;
    var comp := sim.MaxMinFairness(Some(1300));
    NeverUnfinished(sim.flows);
    SpoilsIt(flows, arrived, sim.flows, comp, sim.ts);
    assert sim.retired == [0] + FlowIds(comp);
  }

  lemma OneAdded(flows: Flows, recs: seq<Arrival>)
    requires LoadOf(flows) == map[0 := First, 1 := Second] && recs == [Arrival(2, Late)]
    ensures NewFlows(flows, recs) && LoadOf(Added(flows, recs)) == map[0 := First, 1 := Second, 2 := Late]
  {
    assert flows.Keys == {0, 1};
    assert recs[..0] == [];
    assert Added(flows, recs) == flows[2 := NewFlow(Late)];
    forall f | f in flows ensures Added(flows, recs)[f].spec == LoadOf(flows)[f] {}
  }

  lemma FirstOfOne(recs: seq<Arrival>, first: nat)
    requires recs == [Arrival(2, Late)] && IsFirstStart(recs, first)
    ensures first == 1200
  {
  }

  lemma OnlyFirstKept(flows: Flows, retired: seq<FlowId>, affected: Option<seq<FlowId>>)
    requires CompletedAt(flows, [0], 1500) && CompletedAt(flows, [1], 2500) && affected.Some?
    requires (forall f :: f in [0, 1] ==> f in flows && Terminated(flows[f].history))
    requires Elems(affected.value) == ToRevive(flows, [0, 1], 1200)
    requires retired <= [0, 1] && Elems(retired) == Elems([0, 1]) - Elems(affected.value)
    ensures retired == [0]
  {
    assert 0 in [0] && 1 in [1];
    assert 0 in [0, 1] && 1 in [0, 1];
    assert 1 in ToRevive(flows, [0, 1], 1200) && 0 !in ToRevive(flows, [0, 1], 1200);
    assert Elems(retired) == {0};
    JustOne(retired, 0);
  }

  lemma LateRuns(sim: Simulator)
    requires sim.Valid() && LoadOf(sim.flows) == map[0 := First, 1 := Second, 2 := Late] && sim.ts == 1200
             && sim.retired == [0]
    ensures 2 in Elems(sim.running)
  {
    hide Ok;
    OkBuffered(sim.net, sim.ts, sim.flows, sim.bufs, sim.running, sim.links, sim.retired);
    assert 2 in LoadOf(sim.flows) && LoadOf(sim.flows)[2] == Late;
  }

  lemma NeverUnfinished(flows: Flows)
    requires LoadOf(flows) == map[0 := First, 1 := Second, 2 := Late]
    ensures 2 in flows && Finished(flows[2])
  {
    assert 2 in LoadOf(flows) && LoadOf(flows)[2] == Late;
  }

  lemma SpoilsIt(flows: Flows, arrived: Flows, flows': Flows, comp: seq<Completion>, ts: nat)
    requires CompletedAt(flows, [0], 1500) && SameRecords(flows, arrived, Elems([0]))
             && SameRecords(arrived, flows', Elems([0]))
    requires comp != [] && CompletedAt(flows', FlowIds(comp), ts) && ts <= 1300
    ensures !ByNanosecond(flows', [0] + FlowIds(comp))
  {
    var all := [0] + FlowIds(comp);
    assert 0 in Elems([0]) && 0 in [0];
    assert all[1] == FlowIds(comp)[0] && all[1] in FlowIds(comp);
    assert LastStart(flows'[all[0]].history) == 1500 && LastStart(flows'[all[1]].history) == ts;
  }
}
