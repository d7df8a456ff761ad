/** A flow delivered late, after the clock has passed its start, and the same flow known from the
    start: the two simulators go on alike. */
module NetReplay {
  import opened FairShare
  import opened NetArrivals
  import opened NetBatches
  import opened NetReference
  import opened NetSim
  import opened NetState
  import opened NetSteps
  import opened NetSupport
  import opened Options
  import opened Sequences
  import opened SpeedHistory

  /** The completions that `late` has reported and not taken back after the arrival of flows of
      which the first starts at `first`. */
  ghost function StillReported(ts: nat, first: nat, flows: Flows, retired: seq<FlowId>): set<FlowId>
    requires forall f :: f in Elems(retired) ==> f in flows && Terminated(flows[f].history)
  {
    if first < Microsecond(ts) then Elems(retired) - ToRevive(flows, retired, first) else Elems(retired)
  }

  /** `late` hears of the flows `recs` only now; `early` has known them, stands at the clock to which
      `late` goes back, and has reported what `late` still has reported.  If the microsecond shortcuts
      drop nothing, both agree on the network, and what they report next is the same at the same time. */
  method LateVersusEarly(late: Simulator, early: Simulator, recs: seq<Arrival>, ghost first: nat)
    returns (compLate: seq<Completion>, compEarly: seq<Completion>)
    requires late != early && late.net == early.net && late.Valid() && early.Valid() && late.Exact() && early.Exact()
    requires recs != [] && NewFlows(late.flows, recs) && IsFirstStart(recs, first)
             && LoadOk(late.net, LoadOf(Added(late.flows, recs)))
    requires forall f :: f in Elems(late.retired) ==> f in late.flows && Terminated(late.flows[f].history)
    requires !Dropped(late.ts, first, late.flows, Elems(late.retired))
    requires LoadOf(early.flows) == LoadOf(Added(late.flows, recs)) && early.ts == ClockAfter(late.ts, first)
    requires Elems(early.retired) == StillReported(late.ts, first, late.flows, late.retired)
    requires Provided(early.net, LoadOf(early.flows), early.ts)
    modifies late, early
    ensures late.Valid() && early.Valid() && late.Exact() && early.Exact() && LoadOf(late.flows) == LoadOf(early.flows)
    ensures compLate != [] && compEarly != [] ==>
            late.ts == early.ts && Elems(FlowIds(compLate)) == Elems(FlowIds(compEarly))
    ensures late.ts < MAX_TS || early.ts < MAX_TS ==> (compLate == [] <==> compEarly == [])
  {
    hide Ok, InStep, LoadOk, Dropped, NewFlows, Provided;
    var _, starts := late.FlowArrive(recs);
    SameFirst(recs, first, starts);
    compLate, compEarly := RunAlike(late, early);
  }

  /** Two simulators of the same flows at the same clock, with the same completions reported, report next
      the same at the same time. */
  method RunAlike(a: Simulator, b: Simulator) returns (compA: seq<Completion>, compB: seq<Completion>)
    requires a != b && a.net == b.net && a.Valid() && b.Valid() && a.Exact() && b.Exact()
    requires LoadOf(a.flows) == LoadOf(b.flows) && a.ts == b.ts && Elems(a.retired) == Elems(b.retired)
    requires Provided(a.net, LoadOf(a.flows), a.ts)
    modifies a, b
    ensures a.Valid() && b.Valid() && a.Exact() && b.Exact()
    ensures LoadOf(a.flows) == LoadOf(b.flows) == LoadOf(old(a.flows))
    ensures compA != [] && compB != [] ==> a.ts == b.ts && Elems(FlowIds(compA)) == Elems(FlowIds(compB))
    ensures a.ts < MAX_TS || b.ts < MAX_TS ==> (compA == [] <==> compB == [])
  {
    hide Ok, InStep, LoadOk, NextBatch, NoBatch, LoadOf, SameRecords, CompletedAt, NoneFinished,
        ByNanosecond, Fed, Provided;
    ExactIsFed(a.net, a.ts, a.flows, a.bufs, a.running, a.links, a.retired);
    ExactIsFed(b.net, b.ts, b.flows, b.bufs, b.running, b.links, b.retired);
    ghost var seen, t0, load := Elems(a.retired), a.ts, LoadOf(a.flows);
    compA := a.MaxMinFairness(None);
    compB := b.MaxMinFairness(None);
    if compA != [] { NotEmpty(compA); } else { NothingReported(compA); }
    if compB != [] { NotEmpty(compB); } else { NothingReported(compB); }
    if compA != [] && compB != [] {
      NextBatchUnique(a.net, load, seen, t0, a.ts, Elems(FlowIds(compA)), b.ts, Elems(FlowIds(compB)));
    } else if compA != [] {
      NobodyMissesIt(a, b, load, seen, t0, Elems(FlowIds(compA)));
    } else if compB != [] {
      NobodyMissesIt(b, a, load, seen, t0, Elems(FlowIds(compB)));
    }
  }

  lemma NothingReported(comp: seq<Completion>)
    requires comp == []
    ensures FlowIds(comp) == [] && Elems(FlowIds(comp)) == {}
  {
  }

  /** If one reports a batch and the other has nothing, the other has given up at the end of time, and
      the batch is not before that. */
  lemma NobodyMissesIt(sim: Simulator, other: Simulator, load: Load, seen: set<FlowId>, t0: nat, batch: set<FlowId>)
    requires sim.net == other.net && other.Valid() && LoadOf(other.flows) == load && LoadOk(sim.net, load)
             && batch != {}
    requires NextBatch(sim.net, load, seen, t0, sim.ts, batch) && NoBatch(sim.net, load, seen, t0, other.ts)
    requires Elems(other.retired) == seen && (other.ts >= MAX_TS || (other.running == [] && other.bufs == map[]))
    ensures MAX_TS <= other.ts && MAX_TS <= sim.ts
  {
    hide LoadOk, SettledAt, Ok, NoBatch;
    BatchIsNew(sim.net, load, seen, t0, sim.ts, batch);
    OkBuffered(other.net, other.ts, other.flows, other.bufs, other.running, other.links, other.retired);
    var f :| f in batch;
    assert f in other.bufs.Keys || f in Elems(other.running);
    if other.running == [] && other.bufs == map[] {
      assert false;
    }
    BatchNotBefore(sim.net, load, seen, t0, other.ts, sim.ts, batch);
  }

  lemma BatchIsNew(net: Fabric, load: Load, seen: set<FlowId>, t0: nat, t1: nat, batch: set<FlowId>)
    requires LoadOk(net, load) && NextBatch(net, load, seen, t0, t1, batch)
    ensures batch <= load.Keys && batch !! seen
  {
    hide LoadOk, SettledAt;
  }

  /** A run with any stops, each of them given as the caller gives it: what it reports, in order. */
  method RunInSteps(sim: Simulator, untils: seq<Option<nat>>) returns (bs: seq<Batch>)
    requires sim.Valid() && sim.Exact() && Provided(sim.net, LoadOf(sim.flows), sim.ts)
    modifies sim
    ensures sim.Valid() && sim.Exact() && LoadOf(sim.flows) == LoadOf(old(sim.flows))
    ensures Elems(sim.retired) == SeenAfter(Elems(old(sim.retired)), bs)
    ensures Ran(sim.net, LoadOf(sim.flows), Elems(old(sim.retired)), old(sim.ts), bs, sim.ts)
  {
    hide Ok, InStep, NextBatch, NoBatch, Ran, LoadOk, Fed, Provided;
    bs := [];
    ghost var net, load, seen, t0 := sim.net, LoadOf(sim.flows), Elems(sim.retired), sim.ts;
    assert LoadOk(net, load) by { OkParts(net, t0, sim.flows, sim.bufs, sim.running, sim.links, sim.retired); }
    NotYetRun(net, load, seen, t0);
    ExactIsFed(net, t0, sim.flows, sim.bufs, sim.running, sim.links, sim.retired);
    for i := 0 to |untils|
      invariant sim.Valid() && sim.Fed() && sim.Exact()
      invariant LoadOf(sim.flows) == load && Elems(sim.retired) == SeenAfter(seen, bs)
      invariant Ran(net, load, seen, t0, bs, sim.ts)
    {
      ghost var retired, t1 := sim.retired, sim.ts;
      var comp := sim.MaxMinFairness(untils[i]);
      ElemsOfBoth(retired, FlowIds(comp));
      if comp == [] {
        assert FlowIds(comp) == [] && Elems(FlowIds(comp)) == {};
        RanQuietly(net, load, seen, t0, bs, t1, sim.ts);
      } else {
        NotEmpty(comp);
        var b := Batch(sim.ts, set c | c in comp :: c.flow);
        FlowsOf(comp);
        RanOn(net, load, seen, t0, bs, t1, b);
        bs := bs + [b];
      }
    }
  }

  lemma NotYetRun(net: Fabric, load: Load, seen: set<FlowId>, t0: nat)
    requires LoadOk(net, load)
    ensures Ran(net, load, seen, t0, [], t0) && SeenAfter(seen, []) == seen
  {
  }

  lemma ElemsOfBoth(s: seq<FlowId>, s': seq<FlowId>)
    ensures Elems(s + s') == Elems(s) + Elems(s')
  {
  }

  lemma FlowsOf(comp: seq<Completion>)
    ensures (set c | c in comp :: c.flow) == Elems(FlowIds(comp))
  {
    forall c | c in comp ensures c.flow in Elems(FlowIds(comp)) {
      var i :| 0 <= i < |comp| && comp[i] == c;
      assert FlowIds(comp)[i] == c.flow;
    }
  }

  /** Nor does the future differ: stopped and resumed in whatever way, each on its own, the two report the
      same batches at the same times, as far as both go; and what one has not reported is not before its
      clock. */
  method LateVersusEarlyOnwards(late: Simulator, early: Simulator, recs: seq<Arrival>, ghost first: nat,
                                untilsLate: seq<Option<nat>>, untilsEarly: seq<Option<nat>>)
    returns (bsLate: seq<Batch>, bsEarly: seq<Batch>)
    requires late != early && late.net == early.net && late.Valid() && early.Valid() && late.Exact() && early.Exact()
    requires recs != [] && NewFlows(late.flows, recs) && IsFirstStart(recs, first)
             && LoadOk(late.net, LoadOf(Added(late.flows, recs)))
    requires forall f :: f in Elems(late.retired) ==> f in late.flows && Terminated(late.flows[f].history)
    requires !Dropped(late.ts, first, late.flows, Elems(late.retired))
    requires LoadOf(early.flows) == LoadOf(Added(late.flows, recs)) && early.ts == ClockAfter(late.ts, first)
    requires Elems(early.retired) == StillReported(late.ts, first, late.flows, late.retired)
    requires Provided(early.net, LoadOf(early.flows), early.ts)
    modifies late, early
    ensures late.Valid() && early.Valid() && late.Exact() && early.Exact() && LoadOf(late.flows) == LoadOf(early.flows)
    ensures |bsLate| <= |bsEarly| ==> bsLate == bsEarly[..|bsLate|] && forall i :: |bsLate| <= i < |bsEarly| ==>
            late.ts <= bsEarly[i].at
    ensures |bsEarly| <= |bsLate| ==> bsEarly == bsLate[..|bsEarly|] && forall i :: |bsEarly| <= i < |bsLate| ==>
            early.ts <= bsLate[i].at
  {
    hide Ok, InStep, LoadOk, Ran, Dropped, NewFlows, Provided;
    var _, starts := late.FlowArrive(recs);
    SameFirst(recs, first, starts);
    ghost var seen, t0, load := Elems(late.retired), late.ts, LoadOf(late.flows);
    bsLate := RunInSteps(late, untilsLate);
    bsEarly := RunInSteps(early, untilsEarly);
    if |bsLate| <= |bsEarly| {
      SplittingIsInvisible(late.net, load, seen, t0, bsLate, late.ts, bsEarly, early.ts);
    }
    if |bsEarly| <= |bsLate| {
      SplittingIsInvisible(late.net, load, seen, t0, bsEarly, early.ts, bsLate, late.ts);
    }
  }

  lemma SameFirst(recs: seq<Arrival>, a: nat, b: nat)
    requires IsFirstStart(recs, a) && IsFirstStart(recs, b)
    ensures a == b
  {
  }

  lemma NotEmpty(comp: seq<Completion>)
    requires comp != []
    ensures Elems(FlowIds(comp)) != {}
  {
    assert FlowIds(comp)[0] in Elems(FlowIds(comp));
  }
}
