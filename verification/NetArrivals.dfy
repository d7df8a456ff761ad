/** Late arrivals: when delivering a flow after its start gives the state of the
    in-order simulation, and when one of the two sub-microsecond shortcuts spoils it. */
module NetArrivals {
  import opened Sequences
  import opened FairShare
  import opened NetReference
  import opened SpeedHistory
  import opened NetState
  import opened NetSteps
  import NetTracking

  /** The start of the microsecond of `t`. */
  function Microsecond(t: nat): nat { t / 1000 * 1000 }

  /** Something is dropped by the shortcuts when flows arrive of which the first starts at
      `first`: either they start earlier within the clock's own microsecond and are not
      rolled back to, or a flow that completed later within the microsecond of `first`
      is left retired. */
  ghost predicate Dropped(ts: nat, first: nat, flows: Flows, retired: set<FlowId>)
    requires retired <= flows.Keys && forall f :: f in retired ==> Terminated(flows[f].history)
  {
    if ts <= first then false
    else if Microsecond(ts) <= first then true
    else exists f :: f in retired && Microsecond(EndOf(flows[f].history)) <= first < EndOf(flows[f].history)
  }

  /** The clock after the arrival. */
  function ClockAfter(ts: nat, first: nat): nat {
    if first < Microsecond(ts) then first else ts
  }

  /** Flows that arrive on time. */
  lemma OnTime(net: Fabric, ts: nat, flows: Flows, running: set<FlowId>, retired: set<FlowId>,
               recs: seq<Arrival>, first: nat, running': set<FlowId>)
    requires InStep(net, ts, flows, running, retired)
    requires NewFlows(flows, recs) && IsFirstStart(recs, first) && ts <= first
             && LoadOk(net, LoadOf(Added(flows, recs)))
    requires running' == running + StartedIn(Added(flows, recs), NewIds(recs), ts)
    ensures InStep(net, ts, Added(flows, recs), running', retired)
  {
    hide LoadOk, InStep, Added, NewIds, NewFlows, IsFirstStart;
    var flows' := Added(flows, recs);
    AddedArrived(flows, recs, first);
    AddedRecords(flows, recs);
    assert StartedIn(flows', NewIds(recs), ts) == set f | f in flows' && f !in flows && flows'[f].spec.start == ts;
    ArrivalInStep(net, ts, flows, running, retired, flows', running');
  }

  /** Flows that start earlier in the clock's own microsecond are emitted late, when they could have sent. */
  lemma TooLate(net: Fabric, ts: nat, flows: Flows, running: set<FlowId>, retired: set<FlowId>,
                recs: seq<Arrival>, first: nat, running': set<FlowId>)
    requires running <= flows.Keys && retired <= flows.Keys && running !! retired
    requires NewFlows(flows, recs) && IsFirstStart(recs, first) && first < ts && LoadOk(net, LoadOf(Added(flows, recs)))
    requires Provided(net, LoadOf(Added(flows, recs)), first)
    requires running' == running + StartedIn(Added(flows, recs), NewIds(recs), ts)
    ensures !Synced(net, ts, Added(flows, recs), running', retired)
  {
    hide LoadOk, Synced, Added, NewIds, NewFlows, IsFirstStart, Provided;
    var flows' := Added(flows, recs);
    AddedArrived(flows, recs, first);
    AddedRecords(flows, recs);
    var f :| f in NewIds(recs) && flows'[f].spec.start == first;
    LateEmissionDiffers(net, ts, flows', running', retired, f);
  }

  /** After a rollback that drops nothing, the state is that of the in-order simulation of
      all flows, the late ones included. */
  lemma RolledBack(net: Fabric, ts: nat, flows: Flows, running: set<FlowId>, retired: set<FlowId>, flows': Flows,
      past: nat,
                   kept: set<FlowId>, revived: set<FlowId>, bufs1: map<FlowId, nat>, running1: set<FlowId>)
    requires InStep(net, ts, flows, running, retired) && past <= ts
    requires LoadOk(net, LoadOf(flows')) && Arrived(flows, flows', past)
    requires forall f :: f in retired ==> f in flows && RetiredOk(flows[f], ts)
    requires kept + revived == retired && kept !! revived
    requires forall f :: f in revived ==> CompletesLater(flows[f], past)
    requires forall f :: f in kept ==> EndOf(flows[f].history) <= past
    requires AllRunning(flows', running1, ts) && AllBuffered(flows', bufs1, ts)
    requires flows'.Keys == bufs1.Keys + running1 + retired && running <= running1
    requires bufs1.Keys !! running1 && bufs1.Keys !! retired && running1 !! retired
    ensures InStep(net, past, UndoAll(flows', running1 + revived, past), StartedIn(flows', running1 + revived, past),
            kept)
  {
    hide LoadOk, InStep, RunningOk, Undone, SentBy, Ordered;
    var rolled, running' := running1 + revived, StartedIn(flows', running1 + revived, past);
    InStepDisjoint(net, ts, flows, running, retired);
    forall f | f in flows' && f !in kept
      ensures past <= flows'[f].spec.start ==> UndoAll(flows', rolled, past)[f].history == []
      ensures flows'[f].spec.start <= past ==> f in rolled
    {
      if f in rolled {
        assert f in revived ==> flows'[f] == flows[f];
        RolledOk(flows'[f], ts, past);
      } else {
        assert BufferedOk(flows'[f], bufs1[f], ts);
      }
    }
    assert running' == set f | f in flows' && f !in kept && flows'[f].spec.start <= past;
    forall f | f in retired && f !in kept ensures past <= EndOf(flows[f].history) {
      assert CompletesLater(flows[f], past);
    }
    RollbackInStep(net, ts, past, flows, running, retired, flows', kept, rolled, running');
  }

  lemma InStepDisjoint(net: Fabric, ts: nat, flows: Flows, running: set<FlowId>, retired: set<FlowId>)
    requires InStep(net, ts, flows, running, retired)
    ensures running <= flows.Keys && retired <= flows.Keys && running !! retired
  {
  }

  /** Late equals early: two simulators that have been given the same flows, however they
      were delivered, agree on the whole network state at the same clock. */
  lemma LateEqualsEarly(net: Fabric, ts: nat,
                        early: Flows, runningE: set<FlowId>, retiredE: set<FlowId>,
                        late: Flows, runningL: set<FlowId>, retiredL: set<FlowId>)
    requires InStep(net, ts, early, runningE, retiredE) && InStep(net, ts, late, runningL, retiredL)
    requires LoadOf(early) == LoadOf(late)
    ensures Synced(net, ts, early, runningE, retiredE) && Synced(net, ts, late, runningL, retiredL)
    ensures Settle(LoadOf(early), NetTracking.Seen(Histories(early, runningE), Histories(early, retiredE), ts), ts)
         == Settle(LoadOf(late), NetTracking.Seen(Histories(late, runningL), Histories(late, retiredL), ts), ts)
  {
    hide LoadOk, InStep, Settle;
    InStepSynced(net, ts, early, runningE, retiredE);
    InStepSynced(net, ts, late, runningL, retiredL);
  }
}
