/** What one forward step, one arrival and one rollback do to the simulator's state,
    and that each keeps it equal to the in-order reference. */
module NetSteps {
  import opened Sequences
  import opened FairShare
  import opened NetReference
  import opened SpeedHistory
  import opened NetState
  import NetTracking

  /*** Forward steps ***/

  /** A running flow after `d` more nanoseconds at its current speed. */
  ghost function Advance(fs: FlowState, ts: nat, d: nat): (fs': FlowState)
    ensures fs'.spec == fs.spec
  {
    var sent := fs.sent + fs.speed * d;
    var h := fs.history + [Span(ts, fs.speed)];
    fs.(sent := sent, history := if fs.spec.size <= sent then h + [Span(ts + d, 0)] else h)
  }

  ghost predicate Finished(fs: FlowState) { fs.spec.size <= fs.sent }

  lemma OrderedPush(h: seq<Span>, lo: nat, hi: nat, e: Span, hi': nat)
    requires Ordered(h, lo, hi) && lo <= hi <= e.start <= hi'
    ensures Ordered(h + [e], lo, hi')
  {
  }

  lemma AdvanceOk(fs: FlowState, ts: nat, d: nat)
    requires RunningOk(fs, ts)
    ensures var fs' := Advance(fs, ts, d);
            && (!Finished(fs') ==> RunningOk(fs', ts + d))
            && (Finished(fs') ==> RetiredOk(fs', ts + d) && EndOf(fs'.history) == ts + d)
  {
    hide SentBy, Ordered;
    var h := fs.history + [Span(ts, fs.speed)];
    OrderedPush(fs.history, fs.spec.start, ts, Span(ts, fs.speed), ts + d);
    OrderedPush(h, fs.spec.start, ts + d, Span(ts + d, 0), ts + d);
    SentByPush(fs.history, Span(ts, fs.speed), ts + d);
    assert fs.speed * d == d * fs.speed;
    if d == 0 {
      assert d * fs.speed == 0;
    }
    SentByPush(h, Span(ts + d, 0), ts + d);
    assert (ts + d) / 1000 * 1000 <= ts + d;
  }

  ghost function AdvanceAll(flows: Flows, running: set<FlowId>, ts: nat, d: nat): (flows': Flows)
    ensures flows'.Keys == flows.Keys
    ensures LoadOf(flows') == LoadOf(flows)
  {
    map f | f in flows :: if f in running then Advance(flows[f], ts, d) else flows[f]
  }

  /** The step size is one the event loop may choose: no running flow would complete and
      no buffered flow would start strictly inside it. */
  ghost predicate StepFits(net: Fabric, ts: nat, d: nat, flows: Flows, running: set<FlowId>, retired: set<FlowId>)
    requires LoadOk(net, LoadOf(flows)) && running <= flows.Keys
  {
    && (forall f :: f in running ==> flows[f].speed == Rates(net, LoadOf(flows), running)[f]
                                     && 0 < flows[f].speed && d <= TimeToComplete(flows[f]))
    && forall f :: f in flows && f !in running && f !in retired ==> ts + d <= flows[f].spec.start
  }

  lemma NotYetSent(fs: FlowState, d: nat)
    requires 0 < fs.speed && 0 < d <= TimeToComplete(fs)
    ensures fs.sent < fs.spec.size && fs.sent + fs.speed * (d - 1) < fs.spec.size
  {
    CompletedMeansAllSent(fs);
    CompletesInTime(fs, d);
  }

  /** With a positive step, no running flow is complete and the step is quiet for the reference. */
  lemma StepIsQuiet(net: Fabric, ts: nat, d: nat, flows: Flows, running: set<FlowId>, retired: set<FlowId>)
    requires InStep(net, ts, flows, running, retired) && AllRunning(flows, running, ts)
    requires StepFits(net, ts, d, flows, running, retired) && 0 < d
    requires forall f :: f in retired ==> flows[f].spec.start <= ts
    ensures var s := SettledAt(net, LoadOf(flows), ts);
            && s.sent.Keys == running && (forall f :: f in running ==> s.sent[f] == flows[f].sent)
            && Quiet(LoadOf(flows), s.sent, Rates(net, LoadOf(flows), running), ts, d)
  {
    hide LoadOk, SettledAt, Rates, SentBy, TimeToComplete, NetTracking.InStep, Ordered;
    var load := LoadOf(flows);
    forall f | f in running
      ensures flows[f].sent < flows[f].spec.size
              && flows[f].sent + Rates(net, load, running)[f] * (d - 1) < flows[f].spec.size
    {
      NotYetSent(flows[f], d);
    }
    NetTracking.RunningIsSettled(net, load, ts, Histories(flows, running), Histories(flows, retired));
  }

  lemma AdvancedTracks(net: Fabric, ts: nat, d: nat, flows: Flows, running: set<FlowId>, retired: set<FlowId>,
      f: FlowId)
    requires InStep(net, ts, flows, running, retired) && AllRunning(flows, running, ts)
    requires StepFits(net, ts, d, flows, running, retired)
    requires forall f :: f in retired ==> flows[f].spec.start <= ts
    requires f in running
    ensures NetTracking.Tracks(net, LoadOf(flows), f, Advance(flows[f], ts, d).history, ts + d)
  {
    hide LoadOk, SettledAt, Rates, SentBy, Quiet, NetTracking.Tracks;
    var load := LoadOf(flows);
    var h := flows[f].history;
    var h1 := h + [Span(ts, flows[f].speed)];
    assert NetTracking.Tracks(net, load, f, h, ts) by {
      assert Histories(flows, running)[f] == h;
    }
    if d == 0 {
      NetTracking.TracksPush(net, load, f, h, ts, Span(ts, flows[f].speed));
    } else {
      StepIsQuiet(net, ts, d, flows, running, retired);
      NetTracking.TracksForward(net, load, f, h, ts, d, SettledAt(net, load, ts), Rates(net, load, running));
    }
    assert NetTracking.Tracks(net, load, f, h1, ts + d);
    NetTracking.TracksPush(net, load, f, h1, ts + d, Span(ts + d, 0));
  }

  lemma FinishedInStep(net: Fabric, ts: nat, d: nat, flows: Flows, running: set<FlowId>, retired: set<FlowId>,
      f: FlowId)
    requires InStep(net, ts, flows, running, retired) && AllRunning(flows, running, ts)
    requires StepFits(net, ts, d, flows, running, retired)
    requires forall f :: f in retired ==> flows[f].spec.start <= ts
    requires f in running && Finished(Advance(flows[f], ts, d))
    ensures NetTracking.CompletedInStep(net, LoadOf(flows), f, Advance(flows[f], ts, d).history, ts + d)
  {
    hide LoadOk, Rates, SentBy, NetTracking.Tracks, Ordered, InStep, StepFits;
    AdvancedTracks(net, ts, d, flows, running, retired, f);
    AdvanceOk(flows[f], ts, d);
  }

  lemma StillCompleted(net: Fabric, load: Load, f: FlowId, h: seq<Span>, ts: nat, d: nat)
    requires LoadOk(net, load) && f in load && NetTracking.CompletedInStep(net, load, f, h, ts)
    ensures NetTracking.CompletedInStep(net, load, f, h, ts + d)
  {
  }

  /** A forward step keeps every history in step with the reference. */
  lemma StepInStep(net: Fabric, ts: nat, d: nat, flows: Flows, running: set<FlowId>, retired: set<FlowId>,
                   flows': Flows, finished: set<FlowId>, due: set<FlowId>)
    requires InStep(net, ts, flows, running, retired) && AllRunning(flows, running, ts)
    requires StepFits(net, ts, d, flows, running, retired)
    requires flows' == AdvanceAll(flows, running, ts, d)
    requires finished == set f | f in running && Finished(flows'[f])
    requires due == set f | f in flows && f !in running && f !in retired && flows[f].spec.start == ts + d
    requires forall f :: f in due ==> flows[f].history == []
    requires forall f :: f in retired ==> flows[f].spec.start <= ts
    ensures InStep(net, ts + d, flows', (running - finished) + due, retired + finished)
  {
    hide LoadOk, Rates, SentBy, NetTracking.Tracks, NetTracking.CompletedInStep, NetTracking.InStep, Advance,
        TimeToComplete, RunningOk;
    var load := LoadOf(flows);
    assert LoadOf(flows') == load;
    var running', retired' := (running - finished) + due, retired + finished;
    forall f | f in retired'
      ensures NetTracking.CompletedInStep(net, load, f, flows'[f].history, ts + d)
    {
      InStepElim(net, ts, flows, running, retired, f);
      if f in running {
        FinishedInStep(net, ts, d, flows, running, retired, f);
      } else {
        StillCompleted(net, load, f, flows[f].history, ts, d);
      }
    }
    forall f | f in running'
      ensures f !in retired' && NetTracking.Tracks(net, load, f, flows'[f].history, ts + d)
    {
      InStepElim(net, ts, flows, running, retired, f);
      if f in due {
        NetTracking.TracksStart(net, load, f);
      } else {
        AdvancedTracks(net, ts, d, flows, running, retired, f);
      }
    }
    InStepIntro(net, ts + d, flows', running', retired');
  }

  /*** The invariant after a forward step ***/

  ghost function FinishedIn(flows: Flows, s: set<FlowId>): (finished: set<FlowId>)
    ensures finished <= s
  {
    set f | f in s && f in flows && Finished(flows[f])
  }

  lemma KeptFinished(running: seq<FlowId>, finished: set<FlowId>)
    requires Distinct(running) && finished <= Elems(running)
    ensures Distinct(Keep(running, finished)) && Elems(Keep(running, finished)) == finished
    ensures Distinct(Keep(running, Elems(running) - finished))
    ensures Elems(Keep(running, Elems(running) - finished)) == Elems(running) - finished
  {
    KeepElems(running, finished);
    KeepElems(running, Elems(running) - finished);
  }

  lemma DistinctConcat<T>(a: seq<T>, b: seq<T>)
    requires Distinct(a) && Distinct(b) && Elems(a) !! Elems(b)
    ensures Distinct(a + b) && Elems(a + b) == Elems(a) + Elems(b)
  {
    forall i, j | 0 <= i < j < |a + b| ensures (a + b)[i] != (a + b)[j] {
      if i < |a| <= j {
        assert (a + b)[i] in Elems(a) && (a + b)[j] in Elems(b);
      }
    }
  }

  /** The retired list stays in order of completion microsecond, because a completion at
      the new clock is no earlier than those already there. */
  lemma RetiredAfterStep(ts: nat, d: nat, flows: Flows, running: seq<FlowId>, retired: seq<FlowId>, flows': Flows,
      finished: set<FlowId>)
    requires AllRetired(flows, retired, ts) && AllRunning(flows, Elems(running), ts) && Elems(running) !! Elems(retired)
    requires Distinct(running)
    requires flows' == AdvanceAll(flows, Elems(running), ts, d) && finished == FinishedIn(flows', Elems(running))
    ensures AllRetired(flows', retired + Keep(running, finished), ts + d)
  {
    hide SentBy, Ordered, Advance, Keep;
    KeptFinished(running, finished);
    var latest := Keep(running, finished);
    var retired' := retired + latest;
    forall f | f in retired'
      ensures f in flows' && RetiredOk(flows'[f], ts + d)
      ensures f in latest ==> EndOf(flows'[f].history) == ts + d
      ensures f in retired ==> flows'[f] == flows[f]
    {
      if f in latest {
        assert f in Elems(latest);
        AdvanceOk(flows[f], ts, d);
      } else {
        assert f in retired && f !in Elems(running);
      }
    }
    forall i, j | 0 <= i < j < |retired'|
      ensures EndOf(flows'[retired'[i]].history) / 1000 <= EndOf(flows'[retired'[j]].history) / 1000
    {
      var a := flows'[retired'[i]];
      if |retired| <= j {
        assert retired'[j] in latest;
        MicrosecondOrder(EndOf(a.history), ts + d);
      }
    }
  }

  lemma MicrosecondOrder(end: nat, ts: nat)
    requires end / 1000 * 1000 <= ts
    ensures end / 1000 <= ts / 1000
  {
  }

  lemma PlacedAfterStep(flows: Flows, bufs: map<FlowId, nat>, running: seq<FlowId>, retired: seq<FlowId>,
                        flows': Flows, bufs': map<FlowId, nat>, running': seq<FlowId>, finished: set<FlowId>, t: nat)
    requires Placed(flows, bufs.Keys, running, retired) && flows'.Keys == flows.Keys && finished <= Elems(running)
    requires forall f :: f in bufs ==> t <= bufs[f]
    requires Distinct(running') && Elems(running') == (Elems(running) - finished) + set f | f in bufs && bufs[f] == t
    requires bufs' == map f | f in bufs && t < bufs[f] :: bufs[f]
    ensures Placed(flows', bufs'.Keys, running', retired + Keep(running, finished))
  {
    hide Keep;
    KeptFinished(running, finished);
    DistinctConcat(retired, Keep(running, finished));
    assert bufs.Keys == bufs'.Keys + set f | f in bufs && bufs[f] == t;
  }

  lemma RunningAfterStep(ts: nat, d: nat, flows: Flows, bufs: map<FlowId, nat>, running: set<FlowId>,
                         flows': Flows, running': set<FlowId>)
    requires AllRunning(flows, running, ts) && AllBuffered(flows, bufs, ts) && bufs.Keys !! running
    requires flows' == AdvanceAll(flows, running, ts, d)
    requires running' == (running - FinishedIn(flows', running)) + set f | f in bufs && bufs[f] == ts + d
    ensures AllRunning(flows', running', ts + d)
  {
    hide Ordered, Advance, SentBy;
    forall f | f in running'
      ensures f in flows' && RunningOk(flows'[f], ts + d)
    {
      if f in running {
        AdvanceOk(flows[f], ts, d);
      } else {
        assert BufferedOk(flows[f], bufs[f], ts);
        EmbryoRuns(flows[f]);
      }
    }
  }

  /** A forward step keeps the simulator's invariant. */
  lemma StepOk(net: Fabric, ts: nat, d: nat,
               flows: Flows, bufs: map<FlowId, nat>, running: seq<FlowId>, links: LinkFlows, retired: seq<FlowId>,
               flows': Flows, bufs': map<FlowId, nat>, running': seq<FlowId>, links': LinkFlows, finished: set<FlowId>)
    requires Ok(net, ts, flows, bufs, running, links, retired)
    requires forall f :: f in bufs ==> ts + d <= bufs[f]
    requires flows' == AdvanceAll(flows, Elems(running), ts, d) && finished == FinishedIn(flows', Elems(running))
    requires Distinct(running') && Elems(running') == (Elems(running) - finished) + set f | f in bufs
             && bufs[f] == ts + d
    requires bufs' == map f | f in bufs && ts + d < bufs[f] :: bufs[f]
    requires Inverse(links', flows', Elems(running'))
    ensures Ok(net, ts + d, flows', bufs', running', links', retired + Keep(running, finished))
  {
    hide LoadOk, Advance, Keep, Inverse, AllRetired, AllRunning, RunningOk, FinishedIn, Distinct;
    assert Placed(flows, bufs.Keys, running, retired);
    PlacedAfterStep(flows, bufs, running, retired, flows', bufs', running', finished, ts + d);
    RetiredAfterStep(ts, d, flows, running, retired, flows', finished);
    RunningAfterStep(ts, d, flows, bufs, Elems(running), flows', Elems(running'));
  }

  lemma LoadFabric(net: Fabric, load: Load)
    requires LoadOk(net, load)
    ensures FabricOk(net)
  {
  }

  /** What the invariant gives the methods that carry out a step. */
  lemma OkParts(net: Fabric, ts: nat, flows: Flows, bufs: map<FlowId, nat>, running: seq<FlowId>, links: LinkFlows,
      retired: seq<FlowId>)
    requires Ok(net, ts, flows, bufs, running, links, retired)
    ensures LoadOk(net, LoadOf(flows)) && FabricOk(net) && RoutesDistinct(flows)
    ensures Distinct(running) && Distinct(retired) && Elems(running) <= flows.Keys && Elems(retired) <= flows.Keys
    ensures Inverse(links, flows, Elems(running)) && bufs.Keys <= flows.Keys
    ensures bufs.Keys !! Elems(running) && bufs.Keys !! Elems(retired) && Elems(running) !! Elems(retired)
    ensures forall f :: f in running ==> flows[f].spec.start <= ts
    ensures forall f :: f in retired ==> Terminated(flows[f].history)
    ensures forall f :: f in bufs ==> bufs[f] == flows[f].spec.start && ts < bufs[f] && flows[f].history == []
    ensures forall f :: f in flows && f !in running && f !in retired ==> f in bufs
  {
    hide LoadOk, Inverse, SentBy;
    LoadFabric(net, LoadOf(flows));
    forall f | f in running ensures flows[f].spec.start <= ts {
      assert f in Elems(running);
    }
  }

  lemma RetiredStarted(net: Fabric, ts: nat, flows: Flows, running: set<FlowId>, retired: set<FlowId>)
    requires InStep(net, ts, flows, running, retired)
    ensures forall f :: f in retired ==> flows[f].spec.start <= ts
  {
    hide LoadOk, SentBy, NetTracking.InStep;
    forall f | f in retired ensures flows[f].spec.start <= ts {
      InStepElim(net, ts, flows, running, retired, f);
    }
  }

  /** The forward step, put together: the histories stay in step. */
  lemma StepKeepsInStep(net: Fabric, ts: nat, d: nat,
                        flows: Flows, bufs: map<FlowId, nat>, running: seq<FlowId>, links: LinkFlows,
                            retired: seq<FlowId>,
                        flows': Flows, running': seq<FlowId>, finished: set<FlowId>)
    requires Ok(net, ts, flows, bufs, running, links, retired)
    requires InStep(net, ts, flows, Elems(running), Elems(retired))
    requires StepFits(net, ts, d, flows, Elems(running), Elems(retired))
    requires flows' == AdvanceAll(flows, Elems(running), ts, d) && finished == FinishedIn(flows', Elems(running))
    requires Elems(running') == (Elems(running) - finished) + set f | f in bufs && bufs[f] == ts + d
    ensures InStep(net, ts + d, flows', Elems(running'), Elems(retired + Keep(running, finished)))
  {
    hide LoadOk, Inverse, SentBy, InStep, StepFits, Advance, Keep, Ok;
    var due := set f | f in bufs && bufs[f] == ts + d;
    RetiredStarted(net, ts, flows, Elems(running), Elems(retired));
    OkParts(net, ts, flows, bufs, running, links, retired);
    assert AllRunning(flows, Elems(running), ts) by { OkRunning(net, ts, flows, bufs, running, links, retired); }
    KeptFinished(running, finished);
    DistinctConcat(retired, Keep(running, finished));
    assert due == set f | f in flows && f !in Elems(running) && f !in Elems(retired) && flows[f].spec.start == ts + d;
    StepInStep(net, ts, d, flows, Elems(running), Elems(retired), flows', finished, due);
  }

  lemma OkRunning(net: Fabric, ts: nat, flows: Flows, bufs: map<FlowId, nat>, running: seq<FlowId>, links: LinkFlows,
      retired: seq<FlowId>)
    requires Ok(net, ts, flows, bufs, running, links, retired)
    ensures AllRunning(flows, Elems(running), ts)
  {
  }

  /** A flow that has just started: nothing sent, nothing recorded. */
  lemma EmbryoRuns(fs: FlowState)
    requires fs.history == [] && fs.sent == 0
    ensures forall ts: nat :: fs.spec.start <= ts ==> RunningOk(fs, ts)
  {
  }

  /*** Arrivals and rollback ***/

  /** One flow's state rolled back to `past`. */
  ghost function Undone(fs: FlowState, past: nat): (fs': FlowState)
    ensures fs'.spec == fs.spec
  {
    fs.(sent := SentBy(fs.history, past), history := Before(fs.history, past))
  }

  lemma UndoneOk(fs: FlowState, past: nat, hi: nat)
    requires Ordered(fs.history, fs.spec.start, hi)
    ensures fs.spec.start < past ==> RunningOk(Undone(fs, past), past)
    ensures past <= fs.spec.start ==> Undone(fs, past).history == [] && Undone(fs, past).sent == 0
  {
    hide SentBy, Before, Ordered;
    BeforeOrdered(fs.history, fs.spec.start, hi, past);
    BeforeKeepsThePast(fs.history, past, past);
    if past <= fs.spec.start {
      NothingBefore(fs.history, fs.spec.start, hi, past);
    }
  }

  ghost function UndoAll(flows: Flows, rolled: set<FlowId>, past: nat): (flows': Flows)
    ensures flows'.Keys == flows.Keys
    ensures LoadOf(flows') == LoadOf(flows)
  {
    map f | f in flows :: if f in rolled then Undone(flows[f], past) else flows[f]
  }

  /** `flows` is `prior` and new flows, none of which starts before `past`. */
  ghost predicate Arrived(prior: Flows, flows: Flows, past: nat) {
    && (forall f :: f in prior ==> f in flows && flows[f] == prior[f])
    && forall f :: f in flows && f !in prior ==> past <= flows[f].spec.start && flows[f].history == []
  }

  lemma ArrivedExtends(prior: Flows, flows: Flows, past: nat)
    requires Arrived(prior, flows, past)
    ensures Extends(LoadOf(prior), LoadOf(flows), past)
  {
  }

  /** A flow that had started before `past` and was not complete by then is tracked
      after the rollback, in the enlarged load. */
  lemma RolledBackTracks(net: Fabric, ts: nat, past: nat, prior: Flows, running: set<FlowId>, retired: set<FlowId>,
                         flows: Flows, f: FlowId)
    requires InStep(net, ts, prior, running, retired) && past <= ts
    requires LoadOk(net, LoadOf(flows)) && Arrived(prior, flows, past)
    requires f in prior && prior[f].spec.start < past
    requires f in running || (f in retired && past <= EndOf(prior[f].history))
    ensures NetTracking.Tracks(net, LoadOf(flows), f, Undone(flows[f], past).history, past)
  {
    hide LoadOk, SentBy, Before, NetTracking.Tracks, NetTracking.InStep, Extends;
    InStepElim(net, ts, prior, running, retired, f);
    var h := prior[f].history;
    NetTracking.TracksBack(net, LoadOf(prior), f, h, if f in running then ts else EndOf(h), past);
    ArrivedExtends(prior, flows, past);
    NetTracking.TracksMore(net, LoadOf(prior), LoadOf(flows), past, f, Before(h, past), past);
  }

  /** Nothing is lost by a rollback to `past`: no flow that stays retired completed after it. */
  ghost predicate NothingKeptTooLong(prior: Flows, kept: set<FlowId>, past: nat)
    requires kept <= prior.Keys && forall f :: f in kept ==> Terminated(prior[f].history)
  {
    forall f :: f in kept ==> EndOf(prior[f].history) <= past
  }

  /** Rolling back to `past`, with the late flows added, gives the state an in-order
      simulation of all flows has at `past`. */
  lemma RollbackInStep(net: Fabric, ts: nat, past: nat, prior: Flows, running: set<FlowId>, retired: set<FlowId>,
                       flows: Flows, kept: set<FlowId>, rolled: set<FlowId>, running': set<FlowId>)
    requires InStep(net, ts, prior, running, retired) && past <= ts
    requires LoadOk(net, LoadOf(flows)) && Arrived(prior, flows, past)
    requires kept <= retired && (forall f :: f in kept ==> Terminated(prior[f].history))
    requires NothingKeptTooLong(prior, kept, past)
    requires forall f :: f in retired && f !in kept ==> past <= EndOf(prior[f].history)
    requires running + (retired - kept) <= rolled && rolled !! kept && rolled <= flows.Keys
    requires running' == set f | f in flows && f !in kept && flows[f].spec.start <= past
    requires forall f :: f in flows && f !in kept && past <= flows[f].spec.start ==>
             UndoAll(flows, rolled, past)[f].history == []
    ensures InStep(net, past, UndoAll(flows, rolled, past), running', kept)
  {
    hide LoadOk, SentBy, Before, NetTracking.Tracks, NetTracking.InStep, Extends, Ordered;
    var flows' := UndoAll(flows, rolled, past);
    assert LoadOf(flows') == LoadOf(flows);
    forall f | f in kept
      ensures NetTracking.CompletedInStep(net, LoadOf(flows'), f, flows'[f].history, past)
    {
      InStepElim(net, ts, prior, running, retired, f);
      ArrivedExtends(prior, flows, past);
      NetTracking.TracksMore(net, LoadOf(prior), LoadOf(flows), past, f, prior[f].history, EndOf(prior[f].history));
    }
    forall f | f in running'
      ensures NetTracking.Tracks(net, LoadOf(flows'), f, flows'[f].history, past)
    {
      if flows[f].spec.start == past {
        NetTracking.TracksStart(net, LoadOf(flows), f);
      } else {
        InStepElim(net, ts, prior, running, retired, f);
        RolledBackTracks(net, ts, past, prior, running, retired, flows, f);
      }
    }
    InStepIntro(net, past, flows', running', kept);
  }

  /** Flows that arrive before their start, or just at it, change nothing of the past. */
  lemma ArrivalInStep(net: Fabric, ts: nat, prior: Flows, running: set<FlowId>, retired: set<FlowId>,
                      flows: Flows, running': set<FlowId>)
    requires InStep(net, ts, prior, running, retired)
    requires LoadOk(net, LoadOf(flows)) && Arrived(prior, flows, ts)
    requires running' == running + set f | f in flows && f !in prior && flows[f].spec.start == ts
    ensures InStep(net, ts, flows, running', retired)
  {
    hide LoadOk, SentBy, NetTracking.Tracks, NetTracking.InStep, Extends, Ordered;
    ArrivedExtends(prior, flows, ts);
    forall f | f in retired
      ensures NetTracking.CompletedInStep(net, LoadOf(flows), f, flows[f].history, ts)
    {
      InStepElim(net, ts, prior, running, retired, f);
      NetTracking.TracksMore(net, LoadOf(prior), LoadOf(flows), ts, f, prior[f].history, EndOf(prior[f].history));
    }
    forall f | f in running'
      ensures f !in retired && NetTracking.Tracks(net, LoadOf(flows), f, flows[f].history, ts)
    {
      if f in prior {
        InStepElim(net, ts, prior, running, retired, f);
        NetTracking.TracksMore(net, LoadOf(prior), LoadOf(flows), ts, f, prior[f].history, ts);
      } else {
        NetTracking.TracksStart(net, LoadOf(flows), f);
      }
    }
    forall f | f in flows && f !in running' && f !in retired ensures ts < flows[f].spec.start {
      if f in prior {
        InStepElim(net, ts, prior, running, retired, f);
      }
    }
    InStepIntro(net, ts, flows, running', retired);
  }

  /*** The invariant across a rollback ***/

  /** The retired flows that a rollback to `past` must revive, at microsecond resolution. */
  ghost predicate CompletesLater(fs: FlowState, past: nat)
    requires Terminated(fs.history)
  {
    past < EndOf(fs.history) / 1000 * 1000
  }

  ghost function ToRevive(flows: Flows, retired: seq<FlowId>, past: nat): set<FlowId>
    requires forall f :: f in retired ==> f in flows && Terminated(flows[f].history)
  {
    set f | f in retired && CompletesLater(flows[f], past)
  }

  /** Because the retired list is in order of completion microsecond, stopping at the
      first flow that need not be revived misses none. */
  lemma EarlyExitMissesNone(flows: Flows, retired: seq<FlowId>, ts: nat, k: nat, past: nat)
    requires AllRetired(flows, retired, ts) && Distinct(retired) && k <= |retired|
    requires 0 < k ==> !CompletesLater(flows[retired[k - 1]], past)
    requires forall i :: k <= i < |retired| ==> CompletesLater(flows[retired[i]], past)
    ensures Elems(retired[k..]) == ToRevive(flows, retired, past)
    ensures Elems(retired[..k]) == Elems(retired) - ToRevive(flows, retired, past)
    ensures forall i :: 0 <= i < k ==> EndOf(flows[retired[i]].history) / 1000 * 1000 <= past
  {
    hide SentBy, Ordered;
    forall i | 0 <= i < k ensures EndOf(flows[retired[i]].history) / 1000 * 1000 <= past {
      var a, b := EndOf(flows[retired[i]].history), EndOf(flows[retired[k - 1]].history);
      assert a / 1000 <= b / 1000;
    }
    SplitElems(retired, k);
  }

  /** The flows of `s` that have started at `past`, and the start times of the others. */
  ghost function StartedIn(flows: Flows, s: set<FlowId>, past: nat): set<FlowId> {
    set f | f in s && f in flows && flows[f].spec.start <= past
  }

  ghost function AheadIn(flows: Flows, s: set<FlowId>, past: nat): map<FlowId, nat> {
    map f | f in s && f in flows && past < flows[f].spec.start :: flows[f].spec.start
  }

  lemma RolledIntegrated(fs: FlowState, ts: nat, past: nat)
    requires past <= ts
    requires RunningOk(fs, ts) || (RetiredOk(fs, ts) && CompletesLater(fs, past))
    ensures Integrated(fs.history, fs.sent, ts, past)
    ensures exists hi :: Ordered(fs.history, fs.spec.start, hi)
  {
    if !RunningOk(fs, ts) {
      assert Ordered(fs.history, fs.spec.start, EndOf(fs.history));
      assert EndOf(fs.history) / 1000 * 1000 <= EndOf(fs.history);
    }
  }

  /** A rolled-back flow either is running at `past` or becomes an embryo again. */
  lemma RolledOk(fs: FlowState, ts: nat, past: nat)
    requires past <= ts
    requires RunningOk(fs, ts) || (RetiredOk(fs, ts) && CompletesLater(fs, past))
    ensures fs.spec.start < past ==> RunningOk(Undone(fs, past), past)
    ensures past <= fs.spec.start ==> Undone(fs, past).history == [] && Undone(fs, past).sent == 0
  {
    hide RunningOk, RetiredOk, Integrated;
    RolledIntegrated(fs, ts, past);
    var hi :| Ordered(fs.history, fs.spec.start, hi);
    UndoneOk(fs, past, hi);
  }

  /** Rolling back keeps the simulator's invariant. */
  lemma RollbackOk(net: Fabric, ts: nat, past: nat,
                   flows: Flows, bufs: map<FlowId, nat>, running: seq<FlowId>, links: LinkFlows, retired: seq<FlowId>,
                   k: nat, bufs': map<FlowId, nat>, running': seq<FlowId>, links': LinkFlows)
    requires Ok(net, ts, flows, bufs, running, links, retired) && past <= ts && k <= |retired|
    requires 0 < k ==> !CompletesLater(flows[retired[k - 1]], past)
    requires forall i :: k <= i < |retired| ==> CompletesLater(flows[retired[i]], past)
    requires var rolled := Elems(running) + Elems(retired[k..]);
             && Distinct(running') && Elems(running') == StartedIn(flows, rolled, past)
                && bufs' == bufs + AheadIn(flows, rolled, past)
             && Inverse(links', UndoAll(flows, rolled, past), Elems(running'))
    ensures Ok(net, past, UndoAll(flows, Elems(running) + Elems(retired[k..]), past), bufs', running', links',
            retired[..k])
  {
    hide LoadOk, Inverse, RunningOk, RetiredOk, Undone, CompletesLater;
    var rolled := Elems(running) + Elems(retired[k..]);
    var flows' := UndoAll(flows, rolled, past);
    RollbackPlaced(flows, bufs, running, retired, k, bufs', running', past);
    RollbackRetired(ts, past, flows, running, retired, k);
    RollbackActive(ts, past, flows, bufs, running, retired, k, bufs', Elems(running'));
  }

  lemma RollbackPlaced(flows: Flows, bufs: map<FlowId, nat>, running: seq<FlowId>, retired: seq<FlowId>, k: nat,
                       bufs': map<FlowId, nat>, running': seq<FlowId>, past: nat)
    requires Placed(flows, bufs.Keys, running, retired) && k <= |retired|
    requires var rolled := Elems(running) + Elems(retired[k..]);
             && Distinct(running') && Elems(running') == StartedIn(flows, rolled, past)
                && bufs' == bufs + AheadIn(flows, rolled, past)
    ensures Placed(UndoAll(flows, Elems(running) + Elems(retired[k..]), past), bufs'.Keys, running', retired[..k])
  {
    hide Undone, Distinct, Elems;
    SplitElems(retired, k);
    var rolled := Elems(running) + Elems(retired[k..]);
    assert bufs'.Keys == bufs.Keys + AheadIn(flows, rolled, past).Keys;
    assert rolled == StartedIn(flows, rolled, past) + AheadIn(flows, rolled, past).Keys;
  }

  lemma RollbackRetired(ts: nat, past: nat, flows: Flows, running: seq<FlowId>, retired: seq<FlowId>, k: nat)
    requires AllRetired(flows, retired, ts) && Distinct(retired) && k <= |retired| && Elems(running) !! Elems(retired)
    requires 0 < k ==> !CompletesLater(flows[retired[k - 1]], past)
    requires forall i :: k <= i < |retired| ==> CompletesLater(flows[retired[i]], past)
    ensures AllRetired(UndoAll(flows, Elems(running) + Elems(retired[k..]), past), retired[..k], past)
  {
    hide SentBy, Ordered, Undone;
    EarlyExitMissesNone(flows, retired, ts, k, past);
    var flows' := UndoAll(flows, Elems(running) + Elems(retired[k..]), past);
    forall i | 0 <= i < k
      ensures flows'[retired[i]] == flows[retired[i]] && RetiredOk(flows[retired[i]], past)
    {
      assert retired[i] in Elems(retired);
      assert retired[i] !in retired[k..];
    }
  }

  lemma RollbackActive(ts: nat, past: nat, flows: Flows, bufs: map<FlowId, nat>, running: seq<FlowId>,
      retired: seq<FlowId>, k: nat,
                       bufs': map<FlowId, nat>, running': set<FlowId>)
    requires AllRetired(flows, retired, ts) && AllRunning(flows, Elems(running), ts) && AllBuffered(flows, bufs, ts)
    requires k <= |retired| && past <= ts && bufs.Keys !! Elems(running) && bufs.Keys !! Elems(retired)
    requires forall i :: k <= i < |retired| ==> CompletesLater(flows[retired[i]], past)
    requires var rolled := Elems(running) + Elems(retired[k..]);
             && running' == StartedIn(flows, rolled, past) && bufs' == bufs + AheadIn(flows, rolled, past)
    ensures var flows' := UndoAll(flows, Elems(running) + Elems(retired[k..]), past);
            AllRunning(flows', running', past) && AllBuffered(flows', bufs', past)
  {
    hide SentBy, Ordered, Undone, RunningOk, RetiredOk, CompletesLater;
    var rolled := Elems(running) + Elems(retired[k..]);
    var flows' := UndoAll(flows, rolled, past);
    forall f | f in rolled
      ensures f in flows
      ensures flows[f].spec.start < past ==> RunningOk(flows'[f], past)
      ensures past <= flows[f].spec.start ==> flows'[f].history == [] && flows'[f].sent == 0
    {
      RolledOk(flows[f], ts, past);
    }
    forall f | f in running' ensures f in flows' && RunningOk(flows'[f], past) {
      if flows[f].spec.start == past {
        EmbryoRuns(flows'[f]);
      }
    }
    forall f | f in bufs' ensures f in flows' && BufferedOk(flows'[f], bufs'[f], past) {
      if f in bufs {
        assert BufferedOk(flows[f], bufs[f], ts);
        assert f !in rolled;
      }
    }
  }

  /*** The two shortcuts, when they drop something, break the agreement ***/

  lemma {:induction false} SendsFromTheStart(net: Fabric, load: Load, t: nat, f: FlowId)
    requires LoadOk(net, load) && f in load && load[f].start < t && f in WorldAt(net, load, t).sent
    requires Provided(net, load, load[f].start)
    ensures 0 < WorldAt(net, load, t).sent[f]
  {
    hide LoadOk, Rates, Tick, Settle, Provisioned;
    var w := WorldAt(net, load, t - 1);
    WorldShape(net, load, t - 1, f);
    TickOne(net, load, w, t - 1, f);
    SettledRuns(load, w, t - 1);
    RatesArePositive(net, load, Settle(load, w, t - 1).sent.Keys, w.sent.Keys);
  }

  lemma SettledRuns(load: Load, w: World, t: nat)
    requires Within(w, load)
    ensures Settle(load, w, t).sent.Keys <= w.sent.Keys
  {
  }

  /** A flow emitted after its start without a rollback is behind the reference. */
  lemma LateEmissionDiffers(net: Fabric, ts: nat, flows: Flows, running: set<FlowId>, retired: set<FlowId>, f: FlowId)
    requires LoadOk(net, LoadOf(flows)) && running <= flows.Keys && retired <= flows.Keys && running !! retired
    requires f in running && flows[f].spec.start < ts && flows[f].history == []
    requires Provided(net, LoadOf(flows), flows[f].spec.start)
    ensures !Synced(net, ts, flows, running, retired)
  {
    hide LoadOk, WorldAt, Settle, Provided;
    if Synced(net, ts, flows, running, retired) {
      var load := LoadOf(flows);
      var seen := NetTracking.Seen(Histories(flows, running), Histories(flows, retired), ts);
      var w := WorldAt(net, load, ts);
      NetTracking.SettleOne(load, seen, ts, f);
      NetTracking.SettleOne(load, w, ts, f);
      WorldShape(net, load, ts, f);
      if f in w.sent {
        SendsFromTheStart(net, load, ts, f);
      }
      WorldShape(net, load, load[f].start, f);
      if load[f].size == 0 {
        CompletesAt(net, load, load[f].start, ts, f);
      }
      assert false;
    }
  }

  /** A flow left retired although it completes after the clock is ahead of the reference. */
  lemma KeptTooLongDiffers(net: Fabric, ts: nat, flows: Flows, running: set<FlowId>, retired: set<FlowId>, f: FlowId)
    requires LoadOk(net, LoadOf(flows)) && running <= flows.Keys && retired <= flows.Keys && running !! retired
    requires f in retired && Terminated(flows[f].history) && ts < EndOf(flows[f].history)
    ensures !Synced(net, ts, flows, running, retired)
  {
    hide LoadOk, WorldAt, Settle;
    if Synced(net, ts, flows, running, retired) {
      var load := LoadOf(flows);
      var seen := NetTracking.Seen(Histories(flows, running), Histories(flows, retired), ts);
      NetTracking.SettleOne(load, seen, ts, f);
      NetTracking.SettleOne(load, WorldAt(net, load, ts), ts, f);
      WorldShape(net, load, ts, f);
      assert false;
    }
  }

  /*** Arrivals, put together ***/

  /** A flow announced to the simulator. */
  datatype Arrival = Arrival(flow: FlowId, spec: FlowSpec)

  ghost function NewIds(recs: seq<Arrival>): set<FlowId> {
    set i | 0 <= i < |recs| :: recs[i].flow
  }

  /** The flow records after `add_flow` for each arrival. */
  ghost function Added(flows: Flows, recs: seq<Arrival>): (flows': Flows)
    ensures flows'.Keys == flows.Keys + NewIds(recs)
  {
    if recs == [] then flows else
      var n := |recs| - 1;
      assert NewIds(recs) == NewIds(recs[..n]) + {recs[n].flow};
      Added(flows, recs[..n])[recs[n].flow := NewFlow(recs[n].spec)]
  }

  /** The arrivals are flows not seen before, with distinct ids and routes without repetitions. */
  ghost predicate NewFlows(flows: Flows, recs: seq<Arrival>) {
    && (forall i :: 0 <= i < |recs| ==> recs[i].flow !in flows && Distinct(recs[i].spec.route))
    && forall i, j :: 0 <= i < j < |recs| ==> recs[i].flow != recs[j].flow
  }

  ghost predicate IsFirstStart(recs: seq<Arrival>, t: nat) {
    (exists i :: 0 <= i < |recs| && recs[i].spec.start == t) && forall i :: 0 <= i < |recs| ==> t <= recs[i].spec.start
  }

  lemma {:induction false} AddedRecords(flows: Flows, recs: seq<Arrival>)
    requires NewFlows(flows, recs)
    ensures forall f :: f in flows ==> Added(flows, recs)[f] == flows[f]
    ensures forall i :: 0 <= i < |recs| ==> Added(flows, recs)[recs[i].flow] == NewFlow(recs[i].spec)
    ensures NewIds(recs) !! flows.Keys
  {
    hide Distinct, NewFlow;
    if recs != [] {
      var n := |recs| - 1;
      AddedRecords(flows, recs[..n]);
      var before := Added(flows, recs[..n]);
      assert Added(flows, recs) == before[recs[n].flow := NewFlow(recs[n].spec)];
      forall i | 0 <= i < |recs| ensures Added(flows, recs)[recs[i].flow] == NewFlow(recs[i].spec) {
        if i < n {
          assert recs[..n][i] == recs[i];
        }
      }
    }
  }

  lemma AddedArrived(flows: Flows, recs: seq<Arrival>, first: nat)
    requires NewFlows(flows, recs) && IsFirstStart(recs, first)
    ensures Arrived(flows, Added(flows, recs), first)
    ensures forall f :: f in NewIds(recs) ==> Added(flows, recs)[f].sent == 0 && Added(flows, recs)[f].history == []
    ensures exists f :: f in NewIds(recs) && Added(flows, recs)[f].spec.start == first
    ensures RoutesDistinct(flows) ==> RoutesDistinct(Added(flows, recs))
  {
    AddedRecords(flows, recs);
    var flows' := Added(flows, recs);
    forall f | f in flows' && f !in flows
      ensures first <= flows'[f].spec.start && flows'[f].sent == 0 && flows'[f].history == []
              && Distinct(flows'[f].spec.route)
    {
      var i :| 0 <= i < |recs| && recs[i].flow == f;
    }
    var i :| 0 <= i < |recs| && recs[i].spec.start == first;
    assert recs[i].flow in NewIds(recs);
  }

  /** Adding flows keeps the invariant, whether they are buffered or emitted at once. */
  lemma ArrivedOk(net: Fabric, ts: nat, flows: Flows, bufs: map<FlowId, nat>, running: seq<FlowId>, links: LinkFlows,
      retired: seq<FlowId>,
                  recs: seq<Arrival>, bufs': map<FlowId, nat>, running': seq<FlowId>, links': LinkFlows, first: nat)
    requires Ok(net, ts, flows, bufs, running, links, retired)
    requires NewFlows(flows, recs) && IsFirstStart(recs, first) && LoadOk(net, LoadOf(Added(flows, recs)))
    requires Distinct(running') && Elems(running') == Elems(running) + StartedIn(Added(flows, recs), NewIds(recs), ts)
    requires bufs' == bufs + AheadIn(Added(flows, recs), NewIds(recs), ts)
    requires Inverse(links', Added(flows, recs), Elems(running'))
    ensures Ok(net, ts, Added(flows, recs), bufs', running', links', retired)
  {
    hide LoadOk, Inverse, Added, NewIds, NewFlows, Placed, AllBuffered, AllRunning, AllRetired, StartedIn, AheadIn,
        IsFirstStart, Arrived;
    var flows', ids := Added(flows, recs), NewIds(recs);
    AddedArrived(flows, recs, first);
    AddedRecords(flows, recs);
    PlacedAfterArrival(ts, flows, bufs, running, retired, flows', ids, bufs', running');
    ActiveAfterArrival(ts, flows, bufs, running, retired, flows', ids, bufs', running');
  }

  lemma PlacedAfterArrival(ts: nat, flows: Flows, bufs: map<FlowId, nat>, running: seq<FlowId>, retired: seq<FlowId>,
                           flows': Flows, ids: set<FlowId>, bufs': map<FlowId, nat>, running': seq<FlowId>)
    requires Placed(flows, bufs.Keys, running, retired) && flows'.Keys == flows.Keys + ids && ids !! flows.Keys
    requires Distinct(running') && Elems(running') == Elems(running) + StartedIn(flows', ids, ts)
    requires bufs' == bufs + AheadIn(flows', ids, ts)
    ensures Placed(flows', bufs'.Keys, running', retired)
  {
    hide Distinct, Elems;
    assert ids == StartedIn(flows', ids, ts) + AheadIn(flows', ids, ts).Keys;
    assert bufs'.Keys == bufs.Keys + AheadIn(flows', ids, ts).Keys;
  }

  lemma ActiveAfterArrival(ts: nat, flows: Flows, bufs: map<FlowId, nat>, running: seq<FlowId>, retired: seq<FlowId>,
                           flows': Flows, ids: set<FlowId>, bufs': map<FlowId, nat>, running': seq<FlowId>)
    requires AllBuffered(flows, bufs, ts) && AllRunning(flows, Elems(running), ts) && AllRetired(flows, retired, ts)
    requires forall f :: f in flows ==> f in flows' && flows'[f] == flows[f]
    requires ids <= flows'.Keys && ids !! flows.Keys
    requires forall f :: f in ids ==> flows'[f].sent == 0 && flows'[f].history == []
    requires Elems(running') == Elems(running) + StartedIn(flows', ids, ts) && bufs' == bufs + AheadIn(flows', ids, ts)
    ensures AllBuffered(flows', bufs', ts) && AllRunning(flows', Elems(running'), ts) && AllRetired(flows', retired, ts)
  {
    hide RunningOk, RetiredOk;
    forall f | f in Elems(running') ensures f in flows' && RunningOk(flows'[f], ts) {
      if f in ids {
        EmbryoRuns(flows'[f]);
      }
    }
    forall f | f in bufs' ensures f in flows' && BufferedOk(flows'[f], bufs'[f], ts) {
      if f in bufs {
        assert BufferedOk(flows[f], bufs[f], ts);
      }
    }
  }
}
