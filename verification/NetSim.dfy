/** The flow-level network simulator: `Simulator` with its `NetState`. */
module NetSim {
  import opened Options
  import opened Sequences
  import opened FairShare
  import opened NetReference
  import opened SpeedHistory
  import opened NetState
  import opened NetSteps
  import opened NetFilling
  import opened NetBatches
  import opened NetArrivals
  import opened NetSupport

  class Simulator {
    const net: Fabric

    var ts: nat
    var flows: Flows                     // every flow ever added, by id
    var bufs: map<FlowId, nat>           // flow_bufs: start time of each flow still ahead
    var running: seq<FlowId>             // running_flows
    var links: LinkFlows                 // link_flows: the flows on each link
    var retired: seq<FlowId>             // retired_flows, kept for rolling back

    ghost predicate Valid()
      reads this
    {
      Ok(net, ts, flows, bufs, running, links, retired)
    }

    /** All histories agree with the in-order simulation of all flows added so far. */
    ghost predicate Exact()
      reads this
    {
      InStep(net, ts, flows, Elems(running), Elems(retired))
    }

    /** No flow will be left without a speed: at every moment to come every link has one bit per second for each of
        the flows under way on it. */
    ghost predicate Fed()
      reads this
    {
      NetSupport.Fed(net, ts, flows, bufs.Keys, Elems(running), Elems(retired))
    }

    /** The whole network state equals that of the in-order simulation at the clock. */
    ghost predicate AsInOrder()
      reads this
    {
      Synced(net, ts, flows, Elems(running), Elems(retired))
    }

    constructor (net: Fabric)
      requires FabricOk(net)
      ensures Valid() && Exact() && this.net == net && ts == 0 && flows == map[]
    {
      this.net := net;
      ts, flows, bufs, running, links, retired := 0, map[], map[], [], map[], [];
      new;
      hide Ok, InStep;
      NothingYet(net);
    }

    /*** Starting flows ***/

    /** `emit_flow`: a flow starts running and is entered under each link of its route. */
    method EmitFlow(f: FlowId)
      requires f in flows && f !in running && Distinct(flows[f].spec.route)
      requires Inverse(links, flows, Elems(running))
      modifies this`running, this`links
      ensures running == old(running) + [f]
      ensures Inverse(links, flows, Elems(running))
    {
      hide Entered, Inverse;
      var route := flows[f].spec.route;
      ghost var before := Elems(running);
      running := running + [f];
      EnteredStart(links, flows, before, f);
      assert route[..0] == [];
      for i := 0 to |route|
        invariant running == old(running) + [f]
        invariant Entered(links, flows, before, f, route[..i])
      {
        EnterNext(links, flows, before, f, route, i);
        var l := route[i];
        links := links[l := (if l in links then links[l] else []) + [f]];
      }
      assert route[..|route|] == route;
      EnteredInverse(links, flows, before, f);
      ElemsPush(old(running), f);
    }

    /** `push_flow`: a flow whose start lies ahead is buffered, any other is emitted. */
    method PushFlow(f: FlowId, simTs: nat)
      requires f in flows && f !in running && f !in bufs && Distinct(flows[f].spec.route)
      requires Inverse(links, flows, Elems(running))
      modifies this`running, this`links, this`bufs
      ensures Inverse(links, flows, Elems(running))
      ensures simTs < flows[f].spec.start ==> running == old(running) && bufs == old(bufs)[f := flows[f].spec.start]
      ensures flows[f].spec.start <= simTs ==> running == old(running) + [f] && bufs == old(bufs)
    {
      var start := flows[f].spec.start;
      if start > simTs {
        bufs := bufs[f := start];
      } else {
        EmitFlow(f);
      }
    }

    /** Drop from the link index all flows outside `keep`, and then all empty entries. */
    method RetainLinks(keep: set<FlowId>, ghost all: set<FlowId>)
      requires Inverse(links, flows, all)
      modifies this`links
      ensures Inverse(links, flows, all * keep)
    {
      RetainInverse(links, flows, all, keep);
      links := RetainedLinks(links, keep);
    }

    /** A buffered flow that starts first. */
    method PeekBuffer() returns (f: FlowId)
      requires bufs != map[]
      ensures f in bufs && forall g :: g in bufs ==> bufs[f] <= bufs[g]
    {
      var todo := bufs.Keys;
      f :| f in todo;
      todo := todo - {f};
      while todo != {}
        invariant f in bufs && todo <= bufs.Keys
        invariant forall g :: g in bufs && g !in todo ==> bufs[f] <= bufs[g]
      {
        var g :| g in todo;
        if bufs[g] < bufs[f] {
          f := g;
        }
        todo := todo - {g};
      }
    }

    /** `emit_ready_flows`: start the flows whose time has come. */
    method EmitReadyFlows(simTs: nat)
      requires Inverse(links, flows, Elems(running)) && RoutesDistinct(flows)
      requires bufs.Keys <= flows.Keys && bufs.Keys !! Elems(running) && Distinct(running)
      requires forall f :: f in bufs ==> bufs[f] == flows[f].spec.start && simTs <= bufs[f]
      modifies this`running, this`links, this`bufs
      ensures Inverse(links, flows, Elems(running)) && Distinct(running)
      ensures Elems(running) == old(Elems(running)) + set f | f in old(bufs) && old(bufs)[f] == simTs
      ensures bufs == map f | f in old(bufs) && simTs < old(bufs)[f] :: old(bufs)[f]
    {
      hide Inverse, Distinct;
      while bufs != map[]
        invariant Inverse(links, flows, Elems(running)) && Distinct(running)
        invariant bufs.Keys <= old(bufs).Keys && forall f :: f in bufs ==> bufs[f] == old(bufs)[f]
        invariant bufs.Keys !! Elems(running)
        invariant Elems(running) == old(Elems(running)) + (old(bufs).Keys - bufs.Keys)
        invariant forall f :: f in old(bufs) && f !in bufs ==> old(bufs)[f] == simTs
        decreases bufs.Keys
      {
        var f := PeekBuffer();
        if simTs < flows[f].spec.start {
          break;
        }
        ElemsPush(running, f);
        bufs := bufs - {f};
        EmitFlow(f);
      }
      ReadyGone(old(bufs), bufs, simTs);
    }

    /*** Moving time forward ***/

    /** One running flow sends for `d` nanoseconds and records its speed; if it has then
        sent everything, its history is terminated. */
    method AdvanceOne(fs: FlowState, d: nat) returns (fs': FlowState, completed: bool)
      requires 0 < fs.speed
      ensures fs' == Advance(fs, ts, d) && (completed <==> Finished(fs'))
    {
      hide CeilDiv, TimeToComplete;
      fs' := fs.(history := fs.history + [Span(ts, fs.speed)], sent := fs.sent + fs.speed * d);
      CompletedMeansAllSent(fs');
      completed := Completed(fs');
      if completed {
        fs' := fs'.(history := fs'.history + [Span(ts + d, 0)]);
      }
    }

    /** The first half of `complete_flows`: every running flow sends for `d` nanoseconds
        and records its speed; the ones that have sent everything retire. */
    method AdvanceRunning(d: nat) returns (comp: seq<Completion>)
      requires Distinct(running) && Elems(running) <= flows.Keys
      requires forall f :: f in running ==> 0 < flows[f].speed && flows[f].spec.start <= ts
      modifies this`flows, this`retired
      ensures flows == AdvanceAll(old(flows), Elems(running), ts, d)
      ensures var finished := FinishedIn(flows, Elems(running));
              retired == old(retired) + Keep(running, finished) && FlowIds(comp) == Keep(running, finished)
      ensures forall c :: c in comp ==> c.flow in flows && c.duration == ts + d - flows[c.flow].spec.start
    {
      hide Keep, AdvanceAll, Distinct, FlowIds, Elems, FinishedIn, Advance;
      comp := [];
      ghost var all := Elems(running);
      ghost var finished := FinishedIn(AdvanceAll(flows, all, ts, d), all);
      AdvanceStart(flows, running, finished, ts, d);
      for i := 0 to |running|
        invariant flows == AdvanceAll(old(flows), Elems(running[..i]), ts, d)
        invariant retired == old(retired) + Keep(running[..i], finished)
        invariant FlowIds(comp) == Keep(running[..i], finished)
        invariant forall c :: c in comp ==> c.flow in old(flows) && c.duration == ts + d - old(flows)[c.flow].spec.start
      {
        var f := running[i];
        AdvanceNext(old(flows), running, i, all, ts, d);
        KeepPrefix(running, i, finished);
        var fs, completed := AdvanceOne(flows[f], d);
        if completed {
          FlowIdsPush(comp, Completion(f, ts + d - fs.spec.start));
          comp := comp + [Completion(f, ts + d - fs.spec.start)];
          retired := retired + [f];
        }
        flows := flows[f := fs];
      }
      assert running[..|running|] == running;
      AdvanceKeepsSpec(old(flows), all, ts, d);
    }

    /** `complete_flows`: advance the running flows, then drop the completed ones from the
        running list and from the link index. */
    method CompleteFlows(d: nat) returns (comp: seq<Completion>)
      requires Distinct(running) && Elems(running) <= flows.Keys
      requires Inverse(links, flows, Elems(running))
      requires forall f :: f in running ==> 0 < flows[f].speed && flows[f].spec.start <= ts
      modifies this`flows, this`running, this`links, this`retired
      ensures flows == AdvanceAll(old(flows), old(Elems(running)), ts, d)
      ensures var finished := FinishedIn(flows, old(Elems(running)));
              && running == Keep(old(running), old(Elems(running)) - finished)
              && retired == old(retired) + Keep(old(running), finished)
              && FlowIds(comp) == Keep(old(running), finished)
              && Inverse(links, flows, old(Elems(running)) - finished)
      ensures forall c :: c in comp ==> c.flow in flows && c.duration == ts + d - flows[c.flow].spec.start
    {
      hide Inverse, Keep, CeilDiv, TimeToComplete, AdvanceAll;
      ghost var all := Elems(running);
      AdvanceKeepsSpec(flows, all, ts, d);
      comp := AdvanceRunning(d);
      InverseFrame(links, old(flows), flows, all);
      ghost var finished := FinishedIn(flows, all);
      var keep := set f | f in running && !Completed(flows[f]);
      assert keep == all - finished by {
        forall f | f in running ensures f in keep <==> f !in finished { CompletedMeansAllSent(flows[f]); }
      }
      running := Keep(running, keep);
      RetainLinks(keep, all);
      assert all * keep == all - finished;
    }

    /** `proceed`: complete flows, move the clock, start flows. */
    method Proceed(d: nat) returns (comp: seq<Completion>)
      requires Valid()
      requires StepFits(net, ts, d, flows, Elems(running), Elems(retired))
      modifies this`ts, this`flows, this`running, this`links, this`retired, this`bufs
      ensures Valid() && ts == old(ts) + d && (old(Exact()) ==> Exact())
      ensures LoadOf(flows) == LoadOf(old(flows))
      ensures retired == old(retired) + FlowIds(comp)
      ensures forall c :: c in comp ==> c.flow in flows && c.duration == ts - flows[c.flow].spec.start
      ensures Elems(FlowIds(comp)) == FinishedIn(AdvanceAll(old(flows), old(Elems(running)), old(ts), d),
              old(Elems(running)))
      ensures bufs == map f | f in old(bufs) && ts < old(bufs)[f] :: old(bufs)[f]
      ensures SameRecords(old(flows), flows, Elems(old(retired))) && CompletedAt(flows, FlowIds(comp), ts)
      ensures comp == [] ==> NoneFinished(flows, old(Elems(running))) && old(Elems(running)) <= Elems(running)
      ensures Elems(running) + bufs.Keys <= old(Elems(running) + bufs.Keys)
      ensures old(Exact()) ==> Reports(net, LoadOf(flows), Elems(old(retired)), old(ts), ts, Elems(FlowIds(comp)))
    {
      hide NoBatch, NextBatch, LoadOk, Inverse, Advance, Rates, TimeToComplete, Keep, Ok, InStep, RoutesDistinct;
      ghost var all := Elems(running);
      ghost var finished := FinishedIn(AdvanceAll(flows, all, ts, d), all);
      OkParts(net, ts, flows, bufs, running, links, retired);
      AdvanceKeepsSpec(flows, all, ts, d);
      KeptFinished(running, finished);
      comp := CompleteFlows(d);
      ts := ts + d;
      SameRoutes(old(flows), flows);
      EmitReadyFlows(ts);
      StepOk(net, old(ts), d, old(flows), old(bufs), old(running), old(links), old(retired),
             flows, bufs, running, links, finished);
      StepRecords(net, old(ts), d, old(flows), old(bufs), old(running), old(links), old(retired), flows, FlowIds(comp));
      if old(Exact()) {
        StepKeepsInStep(net, old(ts), d, old(flows), old(bufs), old(running), old(links), old(retired),
                        flows, running, finished);
        DistinctConcat(old(retired), Keep(old(running), finished));
        StepReportsBatch(net, old(ts), d, old(flows), old(bufs), old(running), old(links), old(retired),
                         flows, running, retired, finished);
      }
    }

    /*** Sharing the bandwidth ***/

    /** The start of the convergence loop: loopback flows converge at once, the others
        start from zero. */
    method ResetSpeeds() returns (converged: nat)
      requires Distinct(running) && Elems(running) <= flows.Keys
      modifies this`flows
      ensures flows == ResetAll(net, old(flows), Elems(running))
      ensures converged + |Unconverged(flows, Elems(running))| == |running|
    {
      hide ResetAll;
      converged := 0;
      ghost var all := Elems(running);
      ghost var left := {};
      assert Elems(running[..0]) == {};
      ResetNone(net, flows);
      for i := 0 to |running|
        invariant flows == ResetAll(net, old(flows), Elems(running[..i]))
        invariant left == set f | f in Elems(running[..i]) && f in old(flows) && old(flows)[f].spec.route != []
        invariant converged + |left| == i
      {
        var f := running[i];
        ElemsPrefix(running, i);
        ResetNext(net, old(flows), running, i);
        if flows[f].spec.route == [] {
          flows := flows[f := flows[f].(bound := net.loopback, converged := true, speed := net.loopback)];
          converged := converged + 1;
        } else {
          flows := flows[f := flows[f].(bound := MAX_RATE, converged := false, speed := 0)];
          left := left + {f};
        }
      }
      assert running[..|running|] == running;
      ResetUnconverged(net, old(flows), all);
    }

    /** The fold of `calc_delta_per_flow`: what a link can give to each of its unconverged flows. */
    method LinkShare(totalBw: nat, fs: seq<FlowId>, ghost routes: Routes, ghost w: Filling, ghost l: LinkIx)
      returns (bwInc: nat)
      requires FabricOk(net) && Leveled(net, routes, w) && Shows(flows, routes.Keys, w)
      requires l in OpenLinks(net, routes, w.open) && totalBw == net.capacity[l]
      requires Distinct(fs) && Elems(fs) == On(routes, l)
      ensures bwInc == LinkIncrement(net, routes, w, l)
    {
      hide Leveled, FabricOk, OpenLinks, Total, LinkIncrement, Elems, On, Shows, Distinct;
      var numActive, consumed: nat, minInc: nat := 0, 0, MAX_RATE;
      FoldStart(net, routes, w, l, fs);
      for i := 0 to |fs|
        invariant Elems(fs[..i]) <= w.speed.Keys
        invariant numActive == |Elems(fs[..i]) * w.open| && consumed == Total(Elems(fs[..i]), w.speed)
        invariant MAX_RATE <= minInc + consumed
      {
        FoldFlow(net, routes, w, l, flows, fs, i);
        var f := flows[fs[i]];
        assert f.speed <= MAX_RATE;
        if f.converged {
          minInc := if minInc <= MAX_RATE - f.speed then minInc else MAX_RATE - f.speed;
        } else {
          numActive := numActive + 1;
        }
        consumed := consumed + f.speed;
      }
      assert fs[..|fs|] == fs;
      ShareValue(net, routes, w, l, minInc);
      bwInc := if totalBw < consumed then 0 else (totalBw - consumed) / numActive;
      bwInc := if bwInc <= minInc then bwInc else minInc;
    }

    /** `calc_delta_per_flow`: the link's share, which also bounds the flows on the link. */
    method CalcDeltaPerFlow(totalBw: nat, fs: seq<FlowId>, ghost routes: Routes, ghost w: Filling, ghost l: LinkIx)
      returns (bwInc: nat)
      requires FabricOk(net) && Leveled(net, routes, w) && Shows(flows, routes.Keys, w)
      requires l in OpenLinks(net, routes, w.open) && totalBw == net.capacity[l]
      requires Distinct(fs) && Elems(fs) == On(routes, l)
      modifies this`flows
      ensures bwInc == LinkIncrement(net, routes, w, l)
      ensures flows == Lowered(old(flows), Elems(fs), bwInc)
    {
      hide Lowered, Leveled, OpenLinks;
      bwInc := LinkShare(totalBw, fs, routes, w, l);
      LoweredNone(flows, bwInc);
      assert Elems(fs[..0]) == {};
      assert Elems(fs) <= flows.Keys;
      for i := 0 to |fs|
        invariant flows == Lowered(old(flows), Elems(fs[..i]), bwInc)
      {
        assert fs[i] in Elems(fs);
        LoweredNext(old(flows), fs, i, bwInc);
        var f := fs[i];
        var cap := flows[f].speed + bwInc;
        flows := flows[f := flows[f].(bound := if flows[f].bound <= cap then flows[f].bound else cap)];
      }
      assert fs[..|fs|] == fs;
    }

    /** One link of the bottleneck search; links without unconverged flows are filtered out. */
    method VisitLink(l: LinkIx, best: Option<nat>, ghost routes: Routes, ghost w: Filling, ghost seen: set<LinkIx>)
      returns (best': Option<nat>, ghost seen': set<LinkIx>)
      requires FabricOk(net) && Leveled(net, routes, w) && l in links
      requires w.speed.Keys == routes.Keys && w.open <= routes.Keys
      requires Shows(flows, routes.Keys, w) && seen <= OpenLinks(net, routes, w.open)
      requires Inverse(links, flows, routes.Keys) && routes == Running(flows, routes.Keys)
      requires forall f :: f in w.open ==> BoundedBy(net, routes, w, seen, f, flows[f].bound)
      requires if best.None? then seen == {} else LeastOver(net, routes, w, seen, best.value)
      modifies this`flows
      ensures OnlyRatesDiffer(old(flows), flows, routes.Keys) && Shows(flows, routes.Keys, w)
      ensures seen' == if l in OpenLinks(net, routes, w.open) then seen + {l} else seen
      ensures seen' <= OpenLinks(net, routes, w.open)
      ensures forall f :: f in w.open ==> BoundedBy(net, routes, w, seen', f, flows[f].bound)
      ensures if best'.None? then seen' == {} else LeastOver(net, routes, w, seen', best'.value)
    {
      hide Leveled, FabricOk, Lowered, LinkIncrement, Inverse, BoundedBy, LeastOver;
      best', seen' := best, seen;
      ListedFlows(links, flows, routes.Keys, l);
      LinkListed(net, links, flows, routes.Keys, l);
      if exists f :: f in links[l] && f in flows && !flows[f].converged {
        ghost var g :| g in links[l] && g in flows && !flows[g].converged;
        assert g in Elems(links[l]);
        RoomOnLink(net, routes, w, g, l);
        ghost var was := flows;
        var delta := CalcDeltaPerFlow(net.capacity[l], links[l], routes, w, l);
        LoweredKeeps(net, routes, w, was, l, delta, seen);
        LeastNext(net, routes, w, seen, l, best);
        best' := Least(best, delta);
        seen' := seen + {l};
      } else {
        assert forall f :: f in On(routes, l) ==> f in links[l];
      }
    }

    /** The bottleneck search: the least increment over the links with an unconverged
        flow, visited in any order.  There is always such a link. */
    method FindIncrement(ghost routes: Routes, ghost w: Filling) returns (inc: nat)
      requires FabricOk(net) && Leveled(net, routes, w) && w.open != {}
      requires Shows(flows, routes.Keys, w) && Unbounded(flows, w.open)
      requires Inverse(links, flows, routes.Keys) && routes == Running(flows, routes.Keys)
      modifies this`flows
      ensures inc == Increment(net, routes, w)
      ensures OnlyRatesDiffer(old(flows), flows, routes.Keys) && Shows(flows, routes.Keys, w)
      ensures forall f :: f in w.open ==> BoundedBy(net, routes, w, OpenLinks(net, routes, w.open), f, flows[f].bound)
    {
      hide Leveled, FabricOk, LinkIncrement, Inverse, LeastOver, Shows, OnlyRatesDiffer, OpenLinks;
      var best: Option<nat> := None;
      var todo := links.Keys;
      ghost var seen := {};
      LeveledKeys(net, routes, w);
      OpenLinksListed(net, links, flows, routes.Keys, w.open);
      OnlyRatesReflexive(flows, routes.Keys);
      NoBoundYet(net, routes, w, flows);
      while todo != {}
        invariant todo <= links.Keys && seen == OpenLinks(net, routes, w.open) - todo
        invariant OnlyRatesDiffer(old(flows), flows, routes.Keys) && Shows(flows, routes.Keys, w)
        invariant forall f :: f in w.open ==> f in flows && BoundedBy(net, routes, w, seen, f, flows[f].bound)
        invariant if best.None? then seen == {} else LeastOver(net, routes, w, seen, best.value)
      {
        var l :| l in todo;
        todo := todo - {l};
        OnlyRatesFrame(net, links, old(flows), flows, routes.Keys);
        ghost var was := flows;
        best, seen := VisitLink(l, best, routes, w, seen);
        OnlyRatesTrans(old(flows), was, flows, routes.Keys);
        ShowsKeys(flows, routes.Keys, w);
      }
      assert seen == OpenLinks(net, routes, w.open);
      OpenHasLink(net, routes, w);
      LeastIsIncrement(net, routes, w, best.value);
      inc := best.value;
    }

    /** Raise every unconverged flow; the ones that reach their bound converge. */
    method RaiseSpeeds(inc: nat, converged: nat) returns (converged': nat)
      requires Distinct(running) && Elems(running) <= flows.Keys
      requires converged + |Unconverged(flows, Elems(running))| == |running|
      modifies this`flows
      ensures flows == RaiseAll(old(flows), Elems(running), inc)
      ensures converged' + |Unconverged(flows, Elems(running))| == |running|
    {
      hide RaiseAll;
      converged' := converged;
      ghost var all := Elems(running);
      assert Elems(running[..0]) == {};
      RaiseNone(flows, inc);
      for i := 0 to |running|
        invariant flows == RaiseAll(old(flows), Elems(running[..i]), inc)
        invariant converged' + |Unconverged(flows, all)| == |running|
      {
        var f := running[i];
        RaiseNext(old(flows), running, i, inc);
        ghost var before := Unconverged(flows, all);
        if !flows[f].converged {
          var speed := flows[f].speed + inc;
          if speed >= flows[f].bound {
            flows := flows[f := flows[f].(speed := speed, converged := true)];
            converged' := converged' + 1;
            assert f in before && Unconverged(flows, all) == before - {f};
          } else {
            flows := flows[f := flows[f].(speed := speed, bound := MAX_RATE)];
            assert Unconverged(flows, all) == before;
          }
        }
      }
      assert running[..|running|] == running;
    }

    /** `max_min_fairness_converge`: the speeds of the running flows become their max-min
        fair shares.  Terminates because every round lets at least one flow converge. */
    method Converge()
      requires FabricOk(net) && Distinct(running) && Elems(running) <= flows.Keys
      requires Inverse(links, flows, Elems(running)) && Routed(net, Running(flows, Elems(running)))
      modifies this`flows
      ensures OnlyRatesDiffer(old(flows), flows, Elems(running))
      ensures flows.Keys == old(flows).Keys
      ensures forall f :: f in running ==> flows[f].speed == Shares(net, Running(old(flows), Elems(running)))[f]
    {
      hide Leveled, FabricOk, Inverse, Shows, OnlyRatesDiffer, ResetAll, RaiseAll, Unbounded, Routed, Empty, Distinct,
          Round, Shares, BoundedBy, OpenLinks;
      ghost var all := Elems(running);
      ghost var routes := Running(flows, all);
      ghost var w := Empty(net, routes);
      EmptyLeveled(net, routes);
      ResetShows(net, flows, all);
      var converged := ResetSpeeds();
      DistinctSize(running);
      OnlyRatesFrame(net, links, old(flows), flows, all);
      ShowsUnconverged(flows, all, w);
      while converged < |running|
        invariant OnlyRatesDiffer(old(flows), flows, all) && Shows(flows, all, w) && Unbounded(flows, w.open)
        invariant Leveled(net, routes, w) && Fill(net, routes, w) == Fill(net, routes, Empty(net, routes))
        invariant converged + |w.open| == |running| && all <= flows.Keys
        decreases |w.open|
      {
        OnlyRatesFrame(net, links, old(flows), flows, all);
        ghost var was := flows;
        ShowsUnconverged(flows, all, w);
        var inc := FindIncrement(routes, w);
        ShowsUnconverged(flows, all, w);
        ghost var bounded := flows;
        converged := RaiseSpeeds(inc, converged);
        RaisedShows(net, routes, w, bounded);
        OnlyRatesTrans(old(flows), was, bounded, all);
        OnlyRatesTrans(old(flows), bounded, flows, all);
        RoundLeveled(net, routes, w);
        RoundShrinks(net, routes, w);
        ProperSubsetSize(Round(net, routes, w).open, w.open);
        w := Round(net, routes, w);
        ShowsUnconverged(flows, all, w);
      }
      OnlyRatesFrame(net, links, old(flows), flows, all);
      ShowsShares(net, routes, flows, all, w);
    }

    /*** The event loop ***/

    /** The earliest completion time of the running flows. */
    method FirstCompleteTime() returns (first: Option<nat>)
      requires forall f :: f in running ==> f in flows && 0 < flows[f].speed
      ensures running == [] ==> first.None?
      ensures running != [] ==> first.Some? && forall f :: f in running ==> first.value <= TimeToComplete(flows[f]) + ts
      ensures running != [] ==> exists f :: f in running && first.value == TimeToComplete(flows[f]) + ts
    {
      hide TimeToComplete;
      first := None;
      for i := 0 to |running|
        invariant i == 0 ==> first.None?
        invariant i != 0 ==> first.Some? && forall f :: f in running[..i] ==>
                  first.value <= TimeToComplete(flows[f]) + ts
        invariant i != 0 ==> exists f :: f in running[..i] && first.value == TimeToComplete(flows[f]) + ts
      {
        assert running[..i + 1] == running[..i] + [running[i]];
        assert running[i] in running[..i + 1];
        ghost var was := first;
        first := Least(first, TimeToComplete(flows[running[i]]) + ts);
        if i != 0 && first == was {
          ghost var f :| f in running[..i] && was.value == TimeToComplete(flows[f]) + ts;
          assert f in running[..i + 1];
        }
      }
      assert running[..|running|] == running;
    }

    /** The step of the event loop: to the first completion, the first start or `until`. */
    method NextStep(until: Option<nat>) returns (tsInc: nat)
      requires forall f :: f in running ==> f in flows && 0 < flows[f].speed
      requires forall f :: f in bufs ==> ts < bufs[f]
      requires until.Some? ==> ts < until.value
      requires running != [] || bufs != map[]
      ensures forall f :: f in running ==> tsInc <= TimeToComplete(flows[f])
      ensures forall f :: f in bufs ==> ts + tsInc <= bufs[f]
      ensures until.Some? ==> ts + tsInc <= until.value
      ensures Decisive(flows, bufs, running, until, ts, tsInc)
    {
      hide TimeToComplete;
      var first := FirstCompleteTime();
      if |bufs| != 0 {
        var f := PeekBuffer();
        first := Least(first, bufs[f]);
      }
      if until.Some? {
        first := Least(first, until.value);
      }
      tsInc := first.value - ts;
    }

    /** Sharing the bandwidth in a valid state: the speeds become those of the in-order
        simulation, and nothing else changes. */
    method ShareBandwidth()
      requires Valid() && Fed()
      modifies this`flows
      ensures Valid() && (old(Exact()) ==> Exact())
      ensures LoadOf(flows) == LoadOf(old(flows)) && LoadOk(net, LoadOf(flows)) && Elems(running) <= flows.Keys
      ensures forall f :: f in Elems(running) ==> flows[f].speed == Rates(net, LoadOf(flows), Elems(running))[f]
      ensures forall f :: f in running ==> f in flows && 0 < flows[f].speed
      ensures forall f :: f in bufs ==> f in flows && bufs[f] == flows[f].spec.start && ts < bufs[f]
      ensures forall f :: f in flows && f !in running && f !in retired ==> f in bufs
      ensures SameRecords(old(flows), flows, Elems(retired))
    {
      hide LoadOk, Inverse, Rates, Ok, InStep, RoutesDistinct, OnlyRatesDiffer, Routed, Shares, SameRecords,
          NetSupport.Fed, Provisioned;
      OkParts(net, ts, flows, bufs, running, links, retired);
      FedNow(net, ts, flows, bufs.Keys, Elems(running), Elems(retired));
      SubloadOk(net, LoadOf(flows), Elems(running));
      Converge();
      ConvergedOk(net, ts, old(flows), flows, bufs, running, links, retired);
      RatesKeepRecords(net, ts, old(flows), flows, bufs, running, links, retired);
      OkParts(net, ts, flows, bufs, running, links, retired);
      ReadyToStep(net, flows, running);
    }

    /** The first half of a round of the event loop: share the bandwidth and choose the step. */
    method PrepareStep(until: Option<nat>) returns (tsInc: nat, ghost completing: bool)
      requires Valid() && Fed()
      requires until.Some? ==> ts < until.value
      requires running != [] || bufs != map[]
      modifies this`flows
      ensures Valid() && (old(Exact()) ==> Exact()) && LoadOf(flows) == LoadOf(old(flows))
      ensures LoadOk(net, LoadOf(flows)) && Elems(running) <= flows.Keys
      ensures StepFits(net, ts, tsInc, flows, Elems(running), Elems(retired))
      ensures until.Some? ==> ts + tsInc <= until.value
      ensures completing ==> FinishedIn(AdvanceAll(flows, Elems(running), ts, tsInc), Elems(running)) != {}
      ensures !completing ==> (exists f :: f in bufs && bufs[f] == ts + tsInc) || until == Some(ts + tsInc)
      ensures SameRecords(old(flows), flows, Elems(retired))
    {
      hide LoadOk, Rates, TimeToComplete, Ok, InStep, Decisive, AdvanceAll, FinishedIn, SameRecords, NetSupport.Fed;
      ShareBandwidth();
      tsInc := NextStep(until);
      completing := DecidedBy(flows, bufs, running, until, ts, tsInc);
    }

    /** One round of the event loop: share the bandwidth and step. */
    method StepOnce(until: Option<nat>) returns (comp: seq<Completion>)
      requires Valid() && Fed()
      requires until.Some? ==> ts < until.value
      requires running != [] || bufs != map[]
      modifies this`ts, this`flows, this`running, this`links, this`retired, this`bufs
      ensures Valid() && Fed() && (old(Exact()) ==> Exact())
      ensures LoadOf(flows) == LoadOf(old(flows)) && old(ts) <= ts
      ensures until.Some? ==> ts <= until.value
      ensures retired == old(retired) + FlowIds(comp)
      ensures forall c :: c in comp ==> c.flow in flows && c.duration == ts - flows[c.flow].spec.start
      ensures old(Exact()) ==> Reports(net, LoadOf(flows), Elems(old(retired)), old(ts), ts, Elems(FlowIds(comp)))
      ensures SameRecords(old(flows), flows, Elems(old(retired))) && CompletedAt(flows, FlowIds(comp), ts)
      ensures comp == [] ==> NoneFinished(flows, old(Elems(running))) && old(Elems(running)) <= Elems(running)
      ensures bufs.Keys <= old(bufs).Keys
      ensures comp != [] || bufs.Keys < old(bufs).Keys || until == Some(ts)
    {
      hide LoadOk, Ok, InStep, Reports, AdvanceAll, FinishedIn, StepFits, LoadOf, SameRecords, CompletedAt,
          NoneFinished, NetSupport.Fed;
      var tsInc, completing := PrepareStep(until);
      ghost var shared := flows;
      comp := Proceed(tsInc);
      SameTwice(old(flows), shared, flows, Elems(old(retired)));
      StaysFed(net, old(ts), old(flows), old(bufs).Keys, Elems(old(running)), Elems(old(retired)),
               ts, flows, bufs.Keys, Elems(running), Elems(retired));
      if comp == [] {
        assert Elems(FlowIds(comp)) == {};
        if until != Some(ts) {
          ghost var f :| f in old(bufs) && old(bufs)[f] == ts;
          assert f !in bufs;
        }
      }
    }

    /** `max_min_fairness`, which is `run_one_step`: share the bandwidth, step to the next
        completion or start, until some flow completes, `until` is reached, or nothing is left. */
    method MaxMinFairness(until: Option<nat>) returns (comp: seq<Completion>)
      requires Valid() && Fed()
      modifies this`ts, this`flows, this`running, this`links, this`retired, this`bufs
      ensures Valid() && Fed() && (old(Exact()) ==> Exact())
      ensures LoadOf(flows) == LoadOf(old(flows)) && old(ts) <= ts
      ensures retired == old(retired) + FlowIds(comp)
      ensures forall c :: c in comp ==> c.flow in flows && c.duration == ts - flows[c.flow].spec.start
      ensures comp == [] ==> ts >= (if until.Some? then until.value else 0xFFFF_FFFF_FFFF_FFFF)
                             || (running == [] && bufs == map[])
      ensures until.Some? && old(ts) <= until.value ==> ts <= until.value
      ensures SameRecords(old(flows), flows, Elems(old(retired))) && CompletedAt(flows, FlowIds(comp), ts)
      ensures comp != [] ==>
                (ByNanosecond(flows, retired) <==>
                 ByNanosecond(old(flows), old(retired))
                 && forall f :: f in old(retired) ==> f in old(flows) && LastStart(old(flows)[f].history) <= ts)
      ensures comp == [] && old(ts) < (if until.Some? then until.value else 0xFFFF_FFFF_FFFF_FFFF) ==>
              NoneFinished(flows, old(Elems(running)))
      ensures old(Exact()) ==> Reports(net, LoadOf(flows), Elems(old(retired)), old(ts), ts, Elems(FlowIds(comp)))
    {
      hide Ok, InStep, NoBatch, NextBatch, Reports, SameRecords, CompletedAt, NoneFinished, ByNanosecond,
          NetSupport.Fed;
      comp := [];
      var limit := if until.Some? then until.value else MAX_TS;
      assert FlowIds(comp) == [];
      ReportsNothing(net, ts, flows, bufs, running, links, retired);
      NothingSoFar(net, ts, flows, bufs, running, links, retired);
      while true
        invariant Valid() && Fed() && (old(Exact()) ==> Exact())
        invariant LoadOf(flows) == LoadOf(old(flows)) && old(ts) <= ts && retired == old(retired) && comp == []
        invariant until.Some? && old(ts) <= until.value ==> ts <= until.value
        invariant old(Exact()) ==> Reports(net, LoadOf(flows), Elems(old(retired)), old(ts), ts, {})
        invariant SameRecords(old(flows), flows, Elems(old(retired))) && CompletedAt(flows, [], ts)
        invariant old(Elems(running)) <= Elems(running)
        invariant NoneFinished(flows, old(Elems(running))) || (ts == old(ts) && running == old(running))
        decreases bufs.Keys, if ts < limit then 1 else 0
      {
        if ts >= limit {
          break;
        }
        if |running| == 0 && |bufs| == 0 {
          NobodyRuns(flows, running);
          break;
        }
        ghost var t0, before, was := ts, flows, Elems(running);
        comp := StepOnce(until);
        SameTwice(old(flows), before, flows, Elems(old(retired)));
        FewerFinished(flows, was, old(Elems(running)));
        if old(Exact()) {
          ReportsOn(net, LoadOf(flows), Elems(old(retired)), old(ts), t0, ts, Elems(FlowIds(comp)));
        }
        if |comp| != 0 {
          break;
        }
        assert Elems(FlowIds(comp)) == {} && retired == old(retired);
      }
      assert comp == [] ==> Elems(FlowIds(comp)) == {};
      if comp != [] {
        OrderAfterCompletions(old(flows), flows, old(retired), FlowIds(comp), ts);
      }
    }

    /*** Rolling back ***/

    /** The first part of `rollback_to`: take from the end of the retired list the flows
        that complete in a later microsecond than `past`, up to the first that does not. */
    method ReviveRetired(past: nat) returns (revived: seq<FlowId>, ghost k: nat)
      requires AllRetired(flows, retired, ts) && Distinct(retired)
      modifies this`retired
      ensures k <= |old(retired)| && retired == old(retired)[..k]
      ensures Elems(revived) == Elems(old(retired)[k..]) && Distinct(revived)
      ensures 0 < k ==> !CompletesLater(flows[old(retired)[k - 1]], past)
      ensures forall i :: k <= i < |old(retired)| ==> CompletesLater(flows[old(retired)[i]], past)
    {
      hide SentBy, Ordered, Elems, Distinct;
      ghost var was := retired;
      NonePopped(was);
      revived := [];
      k := |was|;
      while |retired| != 0
        invariant k <= |was| && retired == was[..k]
        invariant Elems(revived) == Elems(was[k..]) && Distinct(revived)
        invariant forall i :: k <= i < |was| ==> CompletesLater(flows[was[i]], past)
        decreases |retired|
      {
        var f := retired[|retired| - 1];
        assert f == was[k - 1];
        var h := flows[f].history;
        var endTs := h[|h| - 1].start;
        if past < endTs / 1000 * 1000 {
          assert CompletesLater(flows[f], past);
          PopPush(was, k, revived);
          revived := revived + [f];
          retired := retired[..|retired| - 1];
          k := k - 1;
        } else {
          assert !CompletesLater(flows[f], past);
          break;
        }
      }
    }

    /** Emit the flows of a vector one after the other. */
    method EmitAll(fs: seq<FlowId>)
      requires Distinct(fs) && Elems(fs) <= flows.Keys && Elems(fs) !! Elems(running) && RoutesDistinct(flows)
      requires Inverse(links, flows, Elems(running))
      modifies this`running, this`links
      ensures running == old(running) + fs && Inverse(links, flows, Elems(running))
    {
      hide Inverse;
      for i := 0 to |fs|
        invariant running == old(running) + fs[..i] && Inverse(links, flows, Elems(running))
      {
        assert fs[i] in Elems(fs) && fs[i] !in fs[..i];
        EmitFlow(fs[i]);
      }
      assert fs[..|fs|] == fs;
    }

    /** The middle part of `rollback_to`: undo every running flow; the ones that start at or
        after `past` become embryos. */
    method UndoRunning(past: nat) returns (embryos: seq<FlowId>)
      requires past <= ts && Distinct(running)
      requires Elems(running) <= flows.Keys
      requires forall f :: f in running ==>
                             RunningOk(flows[f], ts) || (RetiredOk(flows[f], ts) && CompletesLater(flows[f], past))
      modifies this`flows
      ensures flows == UndoAll(old(flows), Elems(running), past)
      ensures embryos == Keep(running, set f | f in running && f in old(flows) && past <= old(flows)[f].spec.start)
    {
      hide RunningOk, RetiredOk, Keep, CompletesLater, Before, SentBy, Integrated, UndoAll;
      embryos := [];
      ghost var late := set f | f in running && f in old(flows) && past <= old(flows)[f].spec.start;
      KeepNone<FlowId>(late);
      UndoNone(flows, past);
      assert Elems(running[..0]) == {};
      for i := 0 to |running|
        invariant flows == UndoAll(old(flows), Elems(running[..i]), past)
        invariant embryos == Keep(running[..i], late)
      {
        var f := running[i];
        UndoNext(old(flows), running, i, past);
        KeepPrefix(running, i, late);
        RolledIntegrated(flows[f], ts, past);
        RolledOk(flows[f], ts, past);
        var h, sent := Undo(flows[f].history, flows[f].sent, ts, past);
        if past <= flows[f].spec.start {
          assert sent == 0 && h == [];
          embryos := embryos + [f];
        }
        flows := flows[f := flows[f].(history := h, sent := sent)];
      }
      assert running[..|running|] == running;
    }

    /** Undo the running flows and drop the embryos from the running list and the link index. */
    method UndoAndRetain(past: nat) returns (embryos: seq<FlowId>)
      requires past <= ts && Distinct(running) && Elems(running) <= flows.Keys && Inverse(links, flows, Elems(running))
      requires forall f :: f in running ==>
                             RunningOk(flows[f], ts) || (RetiredOk(flows[f], ts) && CompletesLater(flows[f], past))
      modifies this`flows, this`running, this`links
      ensures flows == UndoAll(old(flows), old(Elems(running)), past)
      ensures Distinct(running) && Distinct(embryos)
      ensures Elems(embryos) == set f | f in old(running) && past <= old(flows)[f].spec.start
      ensures Elems(running) == old(Elems(running)) - Elems(embryos)
      ensures Inverse(links, flows, Elems(running))
    {
      hide Inverse, RunningOk, RetiredOk, CompletesLater, Keep, UndoAll;
      ghost var rolled := Elems(running);
      UndoKeepsSpec(flows, rolled, past);
      embryos := UndoRunning(past);
      var keep := set f | f in running && past > flows[f].spec.start;
      ghost var late := set f | f in running && f in old(flows) && past <= old(flows)[f].spec.start;
      assert keep == rolled - late;
      KeptFinished(running, late);
      running := Keep(running, keep);
      InverseFrame(links, old(flows), flows, rolled);
      RetainLinks(keep, rolled);
      assert rolled * keep == keep;
    }

    /** The last part of `rollback_to`: embryos are buffered again, or emitted if they start now. */
    method PushAll(fs: seq<FlowId>, past: nat)
      requires Distinct(fs) && Elems(fs) <= flows.Keys && RoutesDistinct(flows) && Distinct(running)
      requires Elems(fs) !! Elems(running) && Elems(fs) !! bufs.Keys
      requires Inverse(links, flows, Elems(running))
      modifies this`running, this`links, this`bufs
      ensures Inverse(links, flows, Elems(running)) && Distinct(running)
      ensures Elems(running) == old(Elems(running)) + StartedIn(flows, Elems(fs), past)
      ensures bufs == old(bufs) + AheadIn(flows, Elems(fs), past)
    {
      hide Inverse, StartedIn, AheadIn;
      PushNone(flows, past);
      assert Elems(fs[..0]) == {};
      for i := 0 to |fs|
        invariant Inverse(links, flows, Elems(running)) && Distinct(running)
        invariant Elems(running) == old(Elems(running)) + StartedIn(flows, Elems(fs[..i]), past)
        invariant bufs == old(bufs) + AheadIn(flows, Elems(fs[..i]), past)
      {
        var f := fs[i];
        assert f in Elems(fs);
        PushNext(flows, fs, i, past);
        ElemsPush(running, f);
        PushFlow(f, past);
      }
      assert fs[..|fs|] == fs;
    }

    /** Revive the retired flows that completed too late and let them run again. */
    method Revive(past: nat) returns (revived: seq<FlowId>, ghost k: nat)
      requires Valid() && past <= ts
      modifies this`running, this`links, this`retired
      ensures RevivedExactly(flows, old(retired), revived, k, past) && retired == old(retired)[..k]
      ensures Elems(running) == old(Elems(running)) + Elems(revived) && Distinct(running)
      ensures Elems(running) <= flows.Keys && Inverse(links, flows, Elems(running)) && RoutesDistinct(flows)
      ensures bufs.Keys !! Elems(running)
      ensures forall f :: f in running ==>
                            RunningOk(flows[f], ts) || (RetiredOk(flows[f], ts) && CompletesLater(flows[f], past))
    {
      hide LoadOk, Inverse, RunningOk, RetiredOk, RoutesDistinct, CompletesLater, Ok, ToRevive;
      OkParts(net, ts, flows, bufs, running, links, retired);
      OkRetired(net, ts, flows, bufs, running, links, retired);
      OkRunning(net, ts, flows, bufs, running, links, retired);
      revived, k := ReviveRetired(past);
      EarlyExitMissesNone(flows, old(retired), ts, k, past);
      SplitElems(old(retired), k);
      EmitAll(revived);
      DistinctConcat(old(running), revived);
      RolledAll(flows, old(running), old(retired), revived, running, ts, past);
    }

    /** `rollback_to`: revive what completed too late, undo the running flows, and put back
        the ones that have not started at `past`. */
    method RollbackTo(past: nat) returns (revived: seq<FlowId>, ghost k: nat)
      requires Valid() && past <= ts
      modifies this`flows, this`running, this`links, this`retired, this`bufs
      ensures RevivedExactly(old(flows), old(retired), revived, k, past) && retired == old(retired)[..k]
      ensures flows == UndoAll(old(flows), old(Elems(running)) + Elems(revived), past)
      ensures Ok(net, past, flows, bufs, running, links, retired)
      ensures Elems(running) == StartedIn(old(flows), old(Elems(running)) + Elems(revived), past)
      ensures bufs == old(bufs) + AheadIn(old(flows), old(Elems(running)) + Elems(revived), past)
    {
      hide Inverse, RunningOk, RetiredOk, RoutesDistinct, CompletesLater, UndoAll, Ok, StartedIn, AheadIn, ToRevive;
      revived, k := Revive(past);
      ghost var rolled := Elems(running);
      UndoKeepsSpec(flows, rolled, past);
      var embryos := UndoAndRetain(past);
      SameRoutes(old(flows), flows);
      PushAll(embryos, past);
      EmbryosPlaced(old(flows), flows, rolled, Elems(embryos), past);
      RollbackOk(net, ts, past, old(flows), old(bufs), old(running), old(links), old(retired), k, bufs, running, links);
    }

    /*** Events from outside ***/

    /** `add_flow`: a new record, buffered or emitted. */
    method AddFlow(r: Arrival)
      requires Valid() && r.flow !in flows && Distinct(r.spec.route)
      requires LoadOk(net, LoadOf(flows[r.flow := NewFlow(r.spec)]))
      modifies this`flows, this`running, this`links, this`bufs
      ensures Valid() && flows == old(flows)[r.flow := NewFlow(r.spec)]
      ensures Elems(running) == old(Elems(running)) + if r.spec.start <= ts then {r.flow} else {}
    {
      hide LoadOk, Ok, Inverse, RoutesDistinct, Distinct, LoadOf;
      OkParts(net, ts, flows, bufs, running, links, retired);
      assert r.flow !in Elems(running) && r.flow !in bufs;
      flows := flows[r.flow := NewFlow(r.spec)];
      InverseFrame(links, old(flows), flows, Elems(running));
      ElemsPush(running, r.flow);
      PushFlow(r.flow, ts);
      OneArrivedOk(net, ts, old(flows), old(bufs), old(running), old(links), retired, r, bufs, running, links);
    }

    /** `add_flow` for every arriving flow. */
    method AddFlows(recs: seq<Arrival>)
      requires Valid() && NewFlows(flows, recs)
      requires LoadOk(net, LoadOf(Added(flows, recs)))
      modifies this`flows, this`running, this`links, this`bufs
      ensures Valid() && flows == Added(old(flows), recs)
      ensures Elems(running) == old(Elems(running)) + StartedIn(flows, NewIds(recs), ts)
    {
      hide LoadOk, Ok, StartedIn, NewIds, NewFlows, Elems;
      ghost var flows0 := flows;
      assert recs[..0] == [];
      assert NewIds(recs[..0]) == {} by { NoNewIds(); }
      PushNone(flows, ts);
      for i := 0 to |recs|
        invariant Valid() && flows == Added(flows0, recs[..i])
        invariant Elems(running) == old(Elems(running)) + StartedIn(flows, NewIds(recs[..i]), ts)
      {
        AddNext(flows0, recs, i, ts);
        PrefixLoadOk(net, flows0, recs, i + 1);
        AddFlow(recs[i]);
      }
      assert recs[..|recs|] == recs;
    }

    /** The earliest start among the arrivals. */
    method FirstStart(recs: seq<Arrival>) returns (first: nat)
      requires recs != []
      ensures IsFirstStart(recs, first)
    {
      first := recs[0].spec.start;
      for i := 1 to |recs|
        invariant forall j :: 0 <= j < i ==> first <= recs[j].spec.start
        invariant exists j :: 0 <= j < i && recs[j].spec.start == first
      {
        if recs[i].spec.start < first {
          first := recs[i].spec.start;
        }
      }
    }

    /** `on_event` for `FlowArrive`: add the flows; if the first of them starts before the
        current microsecond, roll back to its start.  Given a state in step with the in-order
        simulation, the new state agrees with the in-order simulation of all flows, the
        late ones included, if and only if the microsecond shortcuts drop nothing.  (That a late flow
        not rolled back for is behind takes that the in-order simulation lets it send: `Provided`.) */
    method FlowArrive(recs: seq<Arrival>) returns (affected: Option<seq<FlowId>>, ghost first: nat)
      requires Valid() && recs != [] && NewFlows(flows, recs)
      requires LoadOk(net, LoadOf(Added(flows, recs)))
      modifies this`ts, this`flows, this`running, this`links, this`retired, this`bufs
      ensures Valid() && LoadOf(flows) == LoadOf(Added(old(flows), recs))
      ensures IsFirstStart(recs, first) && ts == ClockAfter(old(ts), first)
      ensures affected.Some? <==> first < Microsecond(old(ts))
      ensures affected.Some? ==>
              (forall f :: f in old(retired) ==> f in old(flows) && Terminated(old(flows)[f].history))
                                 && Elems(affected.value) == ToRevive(old(flows), old(retired), first)
                                 && Elems(retired) == Elems(old(retired)) - Elems(affected.value)
      ensures affected.None? ==> retired == old(retired)
      ensures retired <= old(retired) && SameRecords(old(flows), flows, Elems(retired))
      ensures Elems(old(retired)) <= old(flows.Keys) && forall f :: f in Elems(old(retired)) ==>
              Terminated(old(flows)[f].history)
      ensures old(Exact()) && !Dropped(old(ts), first, old(flows), Elems(old(retired))) ==> Exact()
      ensures old(Exact()) && (affected.Some? || Provided(net, LoadOf(flows), first)) ==>
                (AsInOrder() <==> !Dropped(old(ts), first, old(flows), Elems(old(retired))))
    {
      hide LoadOk, Ok, InStep, Synced, Added, NewIds, NewFlows, IsFirstStart, StartedIn, AheadIn, CompletesLater,
          UndoAll, ToRevive, Provided;
      OkParts(net, ts, flows, bufs, running, links, retired);
      OkRetired(net, ts, flows, bufs, running, links, retired);
      AddFlows(recs);
      var minTs := FirstStart(recs);
      first := minTs;
      ghost var running1, flows1 := Elems(running), flows;
      if minTs < ts / 1000 * 1000 {
        OkParts(net, ts, flows, bufs, running, links, retired);
        OkRunning(net, ts, flows, bufs, running, links, retired);
        OkBuffered(net, ts, flows, bufs, running, links, retired);
        ghost var bufs1 := bufs;
        var revived, k := RollbackTo(minTs);
        ts := minTs;
        affected := Some(revived);
        RollbackVerdict(net, old(ts), old(flows), old(running), old(retired), flows1, recs, minTs,
                        revived, k, bufs1, running1, flows, running, retired);
        KeptRecords(old(flows), flows1, flows, recs, running1, old(retired), revived, k, minTs);
      } else {
        affected := None;
        AddedRecords(old(flows), recs);
        if old(Exact()) {
          ArrivalVerdict(net, ts, old(flows), old(running), retired, recs, minTs, running1);
        }
      }
    }
  }
}
