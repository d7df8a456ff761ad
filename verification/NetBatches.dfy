/** When the simulator reports completions, and why it does not matter at which
    moments it is stopped and resumed in between. */
module NetBatches {
  import opened Sequences
  import opened FairShare
  import opened NetReference
  import opened SpeedHistory
  import opened NetState
  import opened NetSteps
  import NetTracking

  /** The flows outside `seen` that the in-order simulation has completed by `t`. */
  ghost function CompletedBy(net: Fabric, load: Load, seen: set<FlowId>, t: nat): set<FlowId>
    requires LoadOk(net, load)
  {
    set f | f in load && f !in seen && f in SettledAt(net, load, t).done
  }

  /** Those of them that had started before `t`. */
  ghost function CompletedRunning(net: Fabric, load: Load, seen: set<FlowId>, t: nat): set<FlowId>
    requires LoadOk(net, load)
  {
    set f | f in CompletedBy(net, load, seen, t) && load[f].start < t
  }

  /** From `t0` on, the next completions outside `seen` are `batch`, at `t1`. */
  ghost predicate NextBatch(net: Fabric, load: Load, seen: set<FlowId>, t0: nat, t1: nat, batch: set<FlowId>)
    requires LoadOk(net, load)
  {
    && batch != {} && t0 <= t1
    && if t0 == t1 then batch == CompletedBy(net, load, seen, t1)
       else CompletedBy(net, load, seen, t1 - 1) == {}
            && batch == if CompletedRunning(net, load, seen, t1) != {} then CompletedRunning(net, load, seen, t1)
                        else CompletedBy(net, load, seen, t1)
  }

  /** Moving from `t0` to `t1` passes no completion outside `seen`. */
  ghost predicate NoBatch(net: Fabric, load: Load, seen: set<FlowId>, t0: nat, t1: nat)
    requires LoadOk(net, load)
  {
    t0 == t1 || (t0 < t1 && CompletedBy(net, load, seen, t1 - 1) == {} && CompletedRunning(net, load, seen, t1) == {})
  }

  /** Completions are never taken back. */
  lemma CompletedGrows(net: Fabric, load: Load, seen: set<FlowId>, t: nat, u: nat)
    requires LoadOk(net, load) && t <= u
    ensures CompletedBy(net, load, seen, t) <= CompletedBy(net, load, seen, u)
  {
    hide LoadOk, WorldAt, Settle;
    forall f | f in CompletedBy(net, load, seen, t) ensures f in CompletedBy(net, load, seen, u) {
      NetTracking.SettleOne(load, WorldAt(net, load, t), t, f);
      NetTracking.SettleOne(load, WorldAt(net, load, u), u, f);
      if f in WorldAt(net, load, t).done {
        DoneStays(net, load, t, u, f);
      } else if t < u {
        CompletesAt(net, load, t, u, f);
      }
    }
  }

  /** The next batch and its time are determined by the load and what was seen before. */
  lemma NextBatchUnique(net: Fabric, load: Load, seen: set<FlowId>, t0: nat,
                        t1: nat, batch1: set<FlowId>, t2: nat, batch2: set<FlowId>)
    requires LoadOk(net, load)
    requires NextBatch(net, load, seen, t0, t1, batch1) && NextBatch(net, load, seen, t0, t2, batch2)
    ensures t1 == t2 && batch1 == batch2
  {
    hide LoadOk, SettledAt;
    if t1 < t2 {
      CompletedGrows(net, load, seen, t1, t2 - 1);
      assert false;
    } else if t2 < t1 {
      CompletedGrows(net, load, seen, t2, t1 - 1);
      assert false;
    }
  }

  lemma BatchAfterQuiet(net: Fabric, load: Load, seen: set<FlowId>, t0: nat, stop: nat, t1: nat, batch: set<FlowId>)
    requires LoadOk(net, load)
    requires NoBatch(net, load, seen, t0, stop) && NextBatch(net, load, seen, stop, t1, batch)
    ensures NextBatch(net, load, seen, t0, t1, batch)
  {
    hide LoadOk, SettledAt;
    if t0 < stop < t1 {
      CompletedGrows(net, load, seen, stop - 1, t1 - 1);
    }
  }

  lemma QuietAfterQuiet(net: Fabric, load: Load, seen: set<FlowId>, t0: nat, t1: nat, t2: nat)
    requires LoadOk(net, load) && NoBatch(net, load, seen, t0, t1) && NoBatch(net, load, seen, t1, t2)
    ensures NoBatch(net, load, seen, t0, t2)
  {
    hide LoadOk, SettledAt;
  }

  /*** Any number of stops ***/

  /** What a run reports at one moment. */
  datatype Batch = Batch(at: nat, flows: set<FlowId>)

  ghost function SeenAfter(seen: set<FlowId>, bs: seq<Batch>): set<FlowId> {
    if bs == [] then seen else SeenAfter(seen, bs[..|bs| - 1]) + bs[|bs| - 1].flows
  }

  ghost function LastTime(t0: nat, bs: seq<Batch>): nat {
    if bs == [] then t0 else bs[|bs| - 1].at
  }

  /** From `t0` on, the next batches are `bs`. */
  ghost predicate Batches(net: Fabric, load: Load, seen: set<FlowId>, t0: nat, bs: seq<Batch>)
    requires LoadOk(net, load)
  {
    bs == [] ||
    var n := |bs| - 1;
    && Batches(net, load, seen, t0, bs[..n])
    && NextBatch(net, load, SeenAfter(seen, bs[..n]), LastTime(t0, bs[..n]), bs[n].at, bs[n].flows)
  }

  /** Going from `t0` to `t1` passes exactly the batches `bs`. */
  ghost predicate Ran(net: Fabric, load: Load, seen: set<FlowId>, t0: nat, bs: seq<Batch>, t1: nat) {
    LoadOk(net, load) && Batches(net, load, seen, t0, bs)
        && NoBatch(net, load, SeenAfter(seen, bs), LastTime(t0, bs), t1)
  }

  lemma {:induction false} BatchAt(net: Fabric, load: Load, seen: set<FlowId>, t0: nat, bs: seq<Batch>, i: nat)
    requires LoadOk(net, load) && Batches(net, load, seen, t0, bs) && i < |bs|
    ensures Batches(net, load, seen, t0, bs[..i])
    ensures NextBatch(net, load, SeenAfter(seen, bs[..i]), LastTime(t0, bs[..i]), bs[i].at, bs[i].flows)
    decreases |bs|
  {
    hide LoadOk, NextBatch;
    var n := |bs| - 1;
    if i < n {
      BatchAt(net, load, seen, t0, bs[..n], i);
      assert bs[..n][..i] == bs[..i];
    }
  }

  /** Two runs report the same as far as both go. */
  lemma {:induction false} BatchesAgree(net: Fabric, load: Load, seen: set<FlowId>, t0: nat, bs: seq<Batch>,
      bs': seq<Batch>)
    requires LoadOk(net, load) && Batches(net, load, seen, t0, bs) && Batches(net, load, seen, t0, bs') && |bs| <= |bs'|
    ensures bs == bs'[..|bs|]
    decreases |bs|
  {
    hide LoadOk, NextBatch;
    if bs != [] {
      var n := |bs| - 1;
      BatchesAgree(net, load, seen, t0, bs[..n], bs');
      BatchAt(net, load, seen, t0, bs', n);
      NextBatchUnique(net, load, SeenAfter(seen, bs[..n]), LastTime(t0, bs[..n]), bs[n].at, bs[n].flows, bs'[n].at,
          bs'[n].flows);
      assert bs == bs[..n] + [bs[n]] && bs'[..n + 1] == bs'[..n] + [bs'[n]];
    }
  }

  /** No batch lies inside a stretch without one. */
  lemma BatchNotBefore(net: Fabric, load: Load, seen: set<FlowId>, t0: nat, t: nat, t1: nat, batch: set<FlowId>)
    requires LoadOk(net, load) && NoBatch(net, load, seen, t0, t) && NextBatch(net, load, seen, t0, t1, batch)
    ensures t <= t1
  {
    hide LoadOk, SettledAt;
    if t1 < t { CompletedGrows(net, load, seen, t1, t - 1); }
  }

  lemma {:induction false} LaterBatches(net: Fabric, load: Load, seen: set<FlowId>, t0: nat, bs: seq<Batch>, i: nat,
      j: nat)
    requires LoadOk(net, load) && Batches(net, load, seen, t0, bs) && i <= j < |bs|
    ensures bs[i].at <= bs[j].at
    decreases j - i
  {
    hide LoadOk, SettledAt;
    if i < j {
      LaterBatches(net, load, seen, t0, bs, i, j - 1);
      BatchAt(net, load, seen, t0, bs, j);
    }
  }

  /** However two runs of the same network are stopped and resumed, they report the same batches at the
      same times, as far as both go; and what one has not reported yet is not before its clock. */
  lemma SplittingIsInvisible(net: Fabric, load: Load, seen: set<FlowId>, t0: nat, bs: seq<Batch>, t1: nat,
      bs': seq<Batch>, t1': nat)
    requires Ran(net, load, seen, t0, bs, t1) && Ran(net, load, seen, t0, bs', t1') && |bs| <= |bs'|
    ensures bs == bs'[..|bs|] && forall i :: |bs| <= i < |bs'| ==> t1 <= bs'[i].at
  {
    hide LoadOk, NoBatch, NextBatch;
    BatchesAgree(net, load, seen, t0, bs, bs');
    forall i | |bs| <= i < |bs'| ensures t1 <= bs'[i].at {
      BatchAt(net, load, seen, t0, bs', |bs|);
      BatchNotBefore(net, load, SeenAfter(seen, bs), LastTime(t0, bs), t1, bs'[|bs|].at, bs'[|bs|].flows);
      LaterBatches(net, load, seen, t0, bs', |bs|, i);
    }
  }

  /** A run goes on without anything to report, */
  lemma RanQuietly(net: Fabric, load: Load, seen: set<FlowId>, t0: nat, bs: seq<Batch>, t1: nat, t2: nat)
    requires Ran(net, load, seen, t0, bs, t1) && NoBatch(net, load, SeenAfter(seen, bs), t1, t2)
    ensures Ran(net, load, seen, t0, bs, t2)
  {
    hide LoadOk, NoBatch, Batches;
    QuietAfterQuiet(net, load, SeenAfter(seen, bs), LastTime(t0, bs), t1, t2);
  }

  /** or with one more batch. */
  lemma RanOn(net: Fabric, load: Load, seen: set<FlowId>, t0: nat, bs: seq<Batch>, t1: nat, b: Batch)
    requires Ran(net, load, seen, t0, bs, t1) && NextBatch(net, load, SeenAfter(seen, bs), t1, b.at, b.flows)
    ensures Ran(net, load, seen, t0, bs + [b], b.at) && SeenAfter(seen, bs + [b]) == SeenAfter(seen, bs) + b.flows
  {
    hide LoadOk, NextBatch, CompletedBy;
    assert (bs + [b])[..|bs|] == bs;
    BatchAfterQuiet(net, load, SeenAfter(seen, bs), LastTime(t0, bs), t1, b.at, b.flows);
  }

  /*** The forward step reports exactly the next batch ***/

  /** In a state in step with the reference, the flows done by now are the retired ones
      and the running ones that have sent everything. */
  lemma DoneNow(net: Fabric, ts: nat, flows: Flows, running: set<FlowId>, retired: set<FlowId>, f: FlowId)
    requires InStep(net, ts, flows, running, retired) && f in flows
    ensures f in SettledAt(net, LoadOf(flows), ts).done <==>
            f in retired || (f in running && flows[f].spec.size <= SentBy(flows[f].history, ts))
  {
    hide LoadOk, WorldAt, Settle, SentBy, NetTracking.Tracks;
    var load := LoadOf(flows);
    assert NetTracking.SameProgress(Settle(load, NetTracking.Seen(Histories(flows, running),
        Histories(flows, retired), ts), ts),
                                    SettledAt(net, load, ts), f) by {
      NetTracking.SyncedOne(net, load, ts, Histories(flows, running), Histories(flows, retired), f);
    }
    NetTracking.SettleOne(load, NetTracking.Seen(Histories(flows, running), Histories(flows, retired), ts), ts, f);
  }

  /** A flow that is still running, or has just completed, was not done a moment ago. */
  lemma NotDoneBefore(net: Fabric, ts: nat, flows: Flows, running: set<FlowId>, retired: set<FlowId>, f: FlowId)
    requires InStep(net, ts, flows, running, retired) && f in flows && 0 < ts
    requires f in retired ==> Terminated(flows[f].history) && EndOf(flows[f].history) == ts
    ensures f !in SettledAt(net, LoadOf(flows), ts - 1).done
  {
    hide LoadOk, WorldAt, Settle, SentBy;
    var load := LoadOf(flows);
    InStepElim(net, ts, flows, running, retired, f);
    WorldShape(net, load, ts - 1, f);
    NetTracking.SettleOne(load, WorldAt(net, load, ts - 1), ts - 1, f);
    if load[f].start <= ts - 1 {
      NetTracking.TracksAtEnd(net, load, f, flows[f].history, ts);
      UnfinishedBefore(net, load, ts - 1, ts, f);
    }
  }

  /** What a forward step of `d` nanoseconds reports. */
  lemma StepReports(net: Fabric, ts: nat, d: nat, flows: Flows, running: set<FlowId>, retired: set<FlowId>,
                    flows': Flows, running': set<FlowId>, finished: set<FlowId>)
    requires InStep(net, ts, flows, running, retired) && InStep(net, ts + d, flows', running', retired + finished)
    requires AllRunning(flows, running, ts) && running !! retired
    requires flows' == AdvanceAll(flows, running, ts, d) && finished == FinishedIn(flows', running)
    requires running' == (running - finished) + set f | f in flows && f !in running && f !in retired
             && flows[f].spec.start == ts + d
    ensures finished == {} ==> NoBatch(net, LoadOf(flows), retired, ts, ts + d)
    ensures finished != {} ==> NextBatch(net, LoadOf(flows), retired, ts, ts + d, finished)
  {
    hide LoadOk, SentBy, SettledAt, InStep, Ordered;
    var load := LoadOf(flows);
    assert LoadOf(flows') == load;
    assert LoadOk(net, load) by { InStepLoad(net, ts, flows, running, retired); }
    if d == 0 {
      forall f | f in flows ensures f in CompletedBy(net, load, retired, ts) <==> f in finished {
        DoneNow(net, ts, flows, running, retired, f);
        if f in running {
          assert RunningOk(flows[f], ts);
          assert flows[f].speed * 0 == 0;
        }
      }
      assert CompletedBy(net, load, retired, ts) == finished;
    } else {
      forall f | f in flows && f !in retired ensures f !in SettledAt(net, load, ts + d - 1).done {
        if f in finished {
          AdvanceOk(flows[f], ts, d);
        }
        NotDoneBefore(net, ts + d, flows', running', retired + finished, f);
      }
      assert CompletedBy(net, load, retired, ts + d - 1) == {};
      forall f | f in flows ensures f in CompletedRunning(net, load, retired, ts + d) <==> f in finished {
        StepCompletes(net, ts, d, flows, running, retired, flows', running', finished, f);
      }
      assert CompletedRunning(net, load, retired, ts + d) == finished;
    }
  }

  lemma InStepLoad(net: Fabric, ts: nat, flows: Flows, running: set<FlowId>, retired: set<FlowId>)
    requires InStep(net, ts, flows, running, retired)
    ensures LoadOk(net, LoadOf(flows)) && running <= flows.Keys && retired <= flows.Keys
  {
  }

  lemma StepCompletes(net: Fabric, ts: nat, d: nat, flows: Flows, running: set<FlowId>, retired: set<FlowId>,
                      flows': Flows, running': set<FlowId>, finished: set<FlowId>, f: FlowId)
    requires InStep(net, ts, flows, running, retired) && InStep(net, ts + d, flows', running', retired + finished)
    requires AllRunning(flows, running, ts) && running !! retired && 0 < d && f in flows
    requires flows' == AdvanceAll(flows, running, ts, d) && finished == FinishedIn(flows', running)
    requires running' == (running - finished) + set f | f in flows && f !in running && f !in retired
             && flows[f].spec.start == ts + d
    ensures f in CompletedRunning(net, LoadOf(flows), retired, ts + d) <==> f in finished
  {
    hide SentBy, SettledAt, Ordered, LoadOk, NetTracking.InStep;
    DoneNow(net, ts + d, flows', running', retired + finished, f);
    assert LoadOf(flows') == LoadOf(flows);
    if f in running {
      AdvanceOk(flows[f], ts, d);
    }
  }

  /** The step in terms of the simulator's state. */
  lemma StepReportsBatch(net: Fabric, ts: nat, d: nat,
                         flows: Flows, bufs: map<FlowId, nat>, running: seq<FlowId>, links: LinkFlows,
                             retired: seq<FlowId>,
                         flows': Flows, running': seq<FlowId>, retired': seq<FlowId>, finished: set<FlowId>)
    requires Ok(net, ts, flows, bufs, running, links, retired)
    requires InStep(net, ts, flows, Elems(running), Elems(retired))
    requires InStep(net, ts + d, flows', Elems(running'), Elems(retired'))
    requires flows' == AdvanceAll(flows, Elems(running), ts, d) && finished == FinishedIn(flows', Elems(running))
    requires Elems(running') == (Elems(running) - finished) + set f | f in bufs && bufs[f] == ts + d
    requires Elems(retired') == Elems(retired) + finished
    ensures LoadOk(net, LoadOf(flows))
    ensures finished == {} ==> NoBatch(net, LoadOf(flows), Elems(retired), ts, ts + d)
    ensures finished != {} ==> NextBatch(net, LoadOf(flows), Elems(retired), ts, ts + d, finished)
  {
    hide LoadOk, Inverse, SentBy, InStep, Advance, Ok, NoBatch, NextBatch;
    OkParts(net, ts, flows, bufs, running, links, retired);
    assert AllRunning(flows, Elems(running), ts) by { OkRunning(net, ts, flows, bufs, running, links, retired); }
    assert (set f | f in bufs && bufs[f] == ts + d)
        == set f | f in flows && f !in Elems(running) && f !in Elems(retired) && flows[f].spec.start == ts + d;
    StepReports(net, ts, d, flows, Elems(running), Elems(retired), flows', Elems(running'), finished);
  }
}
