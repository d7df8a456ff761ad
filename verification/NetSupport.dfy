/** The pieces of the network simulator's proof: what each loop and each branch of its methods
    does to the state, as values. */
module NetSupport {
  import opened Options
  import opened Sequences
  import opened FairShare
  import opened NetReference
  import opened SpeedHistory
  import opened NetState
  import opened NetSteps
  import opened NetFilling
  import opened NetBatches
  import opened NetArrivals
  import NetTracking

  const MAX_TS: nat := 0xFFFF_FFFF_FFFF_FFFF

  /** A flow that completed, and how long after its start. */
  datatype Completion = Completion(flow: FlowId, duration: nat)

  /** The completions reported by a run from `t0` to `t1` are those of the in-order simulation. */
  ghost predicate Reports(net: Fabric, load: Load, seen: set<FlowId>, t0: nat, t1: nat, batch: set<FlowId>) {
    LoadOk(net, load) && if batch == {} then NoBatch(net, load, seen, t0, t1)
        else NextBatch(net, load, seen, t0, t1, batch)
  }

  ghost function FlowIds(cs: seq<Completion>): (ids: seq<FlowId>)
    ensures |ids| == |cs|
  {
    seq(|cs|, i requires 0 <= i < |cs| => cs[i].flow)
  }

  /** The records of the flows `s` are as they were. */
  ghost predicate SameRecords(flows: Flows, flows': Flows, s: set<FlowId>) {
    forall f :: f in s ==> f in flows && f in flows' && flows'[f] == flows[f]
  }

  /** Each of these flows has completed at `t`. */
  ghost predicate CompletedAt(flows: Flows, ids: seq<FlowId>, t: nat) {
    forall f :: f in ids ==> f in flows && Terminated(flows[f].history) && EndOf(flows[f].history) == t
  }

  ghost predicate NoneFinished(flows: Flows, s: set<FlowId>) {
    forall f :: f in s ==> f in flows && !Finished(flows[f])
  }

  lemma SameTwice(a: Flows, b: Flows, c: Flows, s: set<FlowId>)
    requires SameRecords(a, b, s) && SameRecords(b, c, s)
    ensures SameRecords(a, c, s)
  {
  }

  /** A step leaves the retired flows alone, and ends the histories of those that complete. */
  lemma StepRecords(net: Fabric, ts: nat, d: nat, flows: Flows, bufs: map<FlowId, nat>, running: seq<FlowId>,
      links: LinkFlows, retired: seq<FlowId>,
                    flows': Flows, ids: seq<FlowId>)
    requires Ok(net, ts, flows, bufs, running, links, retired)
    requires flows' == AdvanceAll(flows, Elems(running), ts, d) && Elems(ids) == FinishedIn(flows', Elems(running))
    ensures SameRecords(flows, flows', Elems(retired)) && CompletedAt(flows', ids, ts + d)
    ensures ids == [] ==> NoneFinished(flows', Elems(running))
  {
    hide Inverse, LoadOk, SentBy, Ordered, RunningOk, RetiredOk, Advance;
    OkParts(net, ts, flows, bufs, running, links, retired);
    forall f | f in ids ensures f in flows' && Terminated(flows'[f].history) && EndOf(flows'[f].history) == ts + d {
      assert f in Elems(ids);
      AdvanceOk(flows[f], ts, d);
      assert RetiredOk(flows'[f], ts + d);
      TerminatedWhenRetired(flows'[f], ts + d);
    }
    if ids == [] {
      assert Elems(ids) == {};
      forall f | f in Elems(running) ensures !Finished(flows'[f]) { assert f !in FinishedIn(flows', Elems(running)); }
    }
  }

  lemma TerminatedWhenRetired(fs: FlowState, ts: nat)
    requires RetiredOk(fs, ts)
    ensures Terminated(fs.history)
  {
  }

  /** Completions at `t` keep the order by nanosecond if and only if no flow that was retired before completes
      later than that. */
  lemma OrderAfterCompletions(flows: Flows, flows': Flows, retired: seq<FlowId>, ids: seq<FlowId>, t: nat)
    requires SameRecords(flows, flows', Elems(retired)) && CompletedAt(flows', ids, t) && ids != []
    ensures ByNanosecond(flows', retired + ids) <==>
            ByNanosecond(flows, retired) && forall f :: f in retired ==> f in flows && LastStart(flows[f].history) <= t
  {
    var all := retired + ids;
    forall i | 0 <= i < |all| ensures all[i] in flows' && (|retired| <= i ==> LastStart(flows'[all[i]].history) == t) {
      assert i < |retired| ==> all[i] in Elems(retired);
      assert |retired| <= i ==> all[i] in ids;
    }
    forall i | 0 <= i < |retired| ensures retired[i] in flows && all[i] == retired[i]
        && flows'[all[i]] == flows[retired[i]] {
      assert retired[i] in Elems(retired);
    }
    if ByNanosecond(flows', all) {
      forall i, j | 0 <= i < j < |retired|
          ensures LastStart(flows[retired[i]].history) <= LastStart(flows[retired[j]].history) {
        assert LastStart(flows'[all[i]].history) <= LastStart(flows'[all[j]].history);
      }
      forall f | f in retired ensures f in flows && LastStart(flows[f].history) <= t {
        var i :| 0 <= i < |retired| && retired[i] == f;
        assert LastStart(flows'[all[i]].history) <= LastStart(flows'[all[|retired|]].history);
      }
    }
    if ByNanosecond(flows, retired) && forall f :: f in retired ==> f in flows && LastStart(flows[f].history) <= t {
      forall i, j | 0 <= i < j < |all| ensures LastStart(flows'[all[i]].history) <= LastStart(flows'[all[j]].history) {
        if j < |retired| {
          assert LastStart(flows[retired[i]].history) <= LastStart(flows[retired[j]].history);
        } else if i < |retired| {
          assert retired[i] in retired;
        }
      }
    }
  }

  /** Before a run's first step. */
  lemma NothingSoFar(net: Fabric, ts: nat, flows: Flows, bufs: map<FlowId, nat>, running: seq<FlowId>,
      links: LinkFlows, retired: seq<FlowId>)
    requires Ok(net, ts, flows, bufs, running, links, retired)
    ensures SameRecords(flows, flows, Elems(retired)) && CompletedAt(flows, [], ts)
  {
    hide Inverse, LoadOk;
    OkParts(net, ts, flows, bufs, running, links, retired);
  }

  lemma NobodyRuns(flows: Flows, running: seq<FlowId>)
    requires running == []
    ensures NoneFinished(flows, Elems(running))
  {
  }

  lemma FewerFinished(flows: Flows, s: set<FlowId>, s': set<FlowId>)
    requires s' <= s
    ensures NoneFinished(flows, s) ==> NoneFinished(flows, s')
  {
  }

  /** A rollback leaves alone what it leaves retired. */
  lemma KeptRecords(flows: Flows, flows1: Flows, flows': Flows, recs: seq<Arrival>, running1: set<FlowId>,
                    retired: seq<FlowId>, revived: seq<FlowId>, k: nat, past: nat)
    requires NewFlows(flows, recs) && flows1 == Added(flows, recs) && Elems(retired) <= flows.Keys
    requires RevivedExactly(flows1, retired, revived, k, past) && Distinct(retired) && running1 !! Elems(retired)
    requires flows' == UndoAll(flows1, running1 + Elems(revived), past)
    ensures SameRecords(flows, flows', Elems(retired[..k]))
  {
    AddedRecords(flows, recs);
    SplitElems(retired, k);
  }

  lemma RatesKeepRecords(net: Fabric, ts: nat, flows: Flows, flows': Flows, bufs: map<FlowId, nat>,
      running: seq<FlowId>, links: LinkFlows, retired: seq<FlowId>)
    requires Ok(net, ts, flows, bufs, running, links, retired) && OnlyRatesDiffer(flows, flows', Elems(running))
    ensures SameRecords(flows, flows', Elems(retired))
  {
    hide Inverse, LoadOk;
    OkParts(net, ts, flows, bufs, running, links, retired);
  }

  function Least(a: Option<nat>, b: nat): (r: Option<nat>)
    ensures r.Some?
  {
    if a.Some? && a.value <= b then a else Some(b)
  }

  /** The link index while flow `f` is being entered: it is the inverse for the flows
      `before` and has `f` under the links of `part`. */
  ghost predicate Entered(links: LinkFlows, flows: Flows, before: set<FlowId>, f: FlowId, part: seq<LinkIx>) {
    && before <= flows.Keys && f in flows && f !in before
    && (forall l :: l in links ==> links[l] != [] && Distinct(links[l]))
    && (forall l, g :: l in links && g in links[l] ==> EntryOf(flows, before, f, part, l, g))
    && (forall l, g :: g in before && l in flows[g].spec.route ==> l in links && g in links[l])
    && (forall l :: l in part ==> l in links && f in links[l])
  }

  ghost predicate EntryOf(flows: Flows, before: set<FlowId>, f: FlowId, part: seq<LinkIx>, l: LinkIx, g: FlowId)
    requires before <= flows.Keys
  {
    (g in before && l in flows[g].spec.route) || (g == f && l in part)
  }

  lemma EnterNext(links: LinkFlows, flows: Flows, before: set<FlowId>, f: FlowId, route: seq<LinkIx>, i: nat)
    requires i < |route| && Distinct(route) && Entered(links, flows, before, f, route[..i])
    ensures var l := route[i];
            Entered(links[l := (if l in links then links[l] else []) + [f]], flows, before, f, route[..i + 1])
  {
    var l := route[i];
    var entry := if l in links then links[l] else [];
    var links' := links[l := entry + [f]];
    assert route[..i + 1] == route[..i] + [l];
    assert l !in route[..i];
    assert f !in entry;
    ElemsPush(entry, f);
    forall k, g | k in links' && g in links'[k]
      ensures EntryOf(flows, before, f, route[..i + 1], k, g)
    {
      if k in links && g in links[k] {
        assert EntryOf(flows, before, f, route[..i], k, g);
      }
    }
  }

  lemma EnteredStart(links: LinkFlows, flows: Flows, before: set<FlowId>, f: FlowId)
    requires f in flows && f !in before && Inverse(links, flows, before)
    ensures Entered(links, flows, before, f, [])
  {
  }

  lemma EnteredInverse(links: LinkFlows, flows: Flows, before: set<FlowId>, f: FlowId)
    requires f in flows && Entered(links, flows, before, f, flows[f].spec.route)
    ensures Inverse(links, flows, before + {f})
  {
    forall l, g | l in links && g in links[l]
      ensures g in before + {f} && l in flows[g].spec.route
    {
      assert EntryOf(flows, before, f, flows[f].spec.route, l, g);
    }
  }

  function RetainedLinks(links: LinkFlows, keep: set<FlowId>): LinkFlows {
    map l | l in links && Keep(links[l], keep) != [] :: Keep(links[l], keep)
  }

  lemma RetainInverse(links: LinkFlows, flows: Flows, all: set<FlowId>, keep: set<FlowId>)
    requires Inverse(links, flows, all)
    ensures Inverse(RetainedLinks(links, keep), flows, all * keep)
  {
    hide Keep;
    var links' := RetainedLinks(links, keep);
    forall l | l in links'
      ensures links'[l] != [] && Distinct(links'[l])
    {
      KeepElems(links[l], keep);
    }
    forall l, f | l in links' && f in links'[l]
      ensures f in all * keep && l in flows[f].spec.route
    {
      KeepElems(links[l], keep);
      assert f in Elems(Keep(links[l], keep));
    }
    forall l, f | f in all * keep && l in flows[f].spec.route
      ensures l in links' && f in links'[l]
    {
      KeepElems(links[l], keep);
      assert f in Elems(links[l]) * keep;
    }
  }

  lemma ReadyGone(was: map<FlowId, nat>, bufs: map<FlowId, nat>, simTs: nat)
    requires bufs.Keys <= was.Keys && forall f :: f in bufs ==> bufs[f] == was[f]
    requires forall f :: f in was && f !in bufs ==> was[f] == simTs
    requires forall f :: f in bufs ==> simTs < bufs[f]
    ensures was.Keys - bufs.Keys == set f | f in was && was[f] == simTs
    ensures bufs == map f | f in was && simTs < was[f] :: was[f]
  {
  }

  lemma FlowIdsPush(cs: seq<Completion>, c: Completion)
    ensures FlowIds(cs + [c]) == FlowIds(cs) + [c.flow]
  {
  }

  lemma KeepNone<T>(keep: set<T>)
    ensures Keep<T>([], keep) == []
  {
  }

  lemma AdvanceStart(flows: Flows, running: seq<FlowId>, finished: set<FlowId>, ts: nat, d: nat)
    ensures AdvanceAll(flows, Elems(running[..0]), ts, d) == flows
    ensures Keep(running[..0], finished) == [] && FlowIds([]) == []
  {
    assert Elems(running[..0]) == {};
  }

  /** Advancing the flows of a vector one by one. */
  lemma AdvanceNext(flows: Flows, running: seq<FlowId>, i: nat, all: set<FlowId>, ts: nat, d: nat)
    requires i < |running| && Distinct(running) && all == Elems(running) && all <= flows.Keys
    ensures var part, f := AdvanceAll(flows, Elems(running[..i]), ts, d), running[i];
            && f in flows && part[f] == flows[f]
            && AdvanceAll(flows, Elems(running[..i + 1]), ts, d) == part[f := Advance(flows[f], ts, d)]
            && AdvanceAll(flows, all, ts, d)[f] == Advance(flows[f], ts, d)
            && (f in FinishedIn(AdvanceAll(flows, all, ts, d), all) <==> Finished(Advance(flows[f], ts, d)))
  {
    hide Advance;
    ElemsPrefix(running, i);
    assert running[i] in all;
  }

  lemma AdvanceKeepsSpec(flows: Flows, all: set<FlowId>, ts: nat, d: nat)
    ensures forall f :: f in flows ==> AdvanceAll(flows, all, ts, d)[f].speed == flows[f].speed
                                       && AdvanceAll(flows, all, ts, d)[f].spec == flows[f].spec
  {
  }

  /** The link index speaks of routes only. */
  lemma InverseFrame(links: LinkFlows, flows: Flows, flows': Flows, running: set<FlowId>)
    requires Inverse(links, flows, running) && running <= flows'.Keys
    requires forall f :: f in running ==> flows'[f].spec == flows[f].spec
    ensures Inverse(links, flows', running)
  {
  }

  lemma SameRoutes(flows: Flows, flows': Flows)
    requires RoutesDistinct(flows) && flows'.Keys == flows.Keys && forall f :: f in flows ==>
             flows'[f].spec == flows[f].spec
    ensures RoutesDistinct(flows')
  {
  }

  ghost function Reset(net: Fabric, fs: FlowState): FlowState {
    if fs.spec.route == [] then fs.(bound := net.loopback, converged := true, speed := net.loopback)
    else fs.(bound := MAX_RATE, converged := false, speed := 0)
  }

  ghost function ResetAll(net: Fabric, flows: Flows, s: set<FlowId>): (flows': Flows)
    ensures flows'.Keys == flows.Keys
  {
    map f | f in flows :: if f in s then Reset(net, flows[f]) else flows[f]
  }

  lemma ResetNone(net: Fabric, flows: Flows)
    ensures ResetAll(net, flows, {}) == flows
  {
  }

  lemma ResetNext(net: Fabric, flows: Flows, running: seq<FlowId>, i: nat)
    requires i < |running| && Distinct(running) && running[i] in flows
    ensures var f, part := running[i], ResetAll(net, flows, Elems(running[..i]));
            part[f] == flows[f] && ResetAll(net, flows, Elems(running[..i + 1])) == part[f := Reset(net, flows[f])]
  {
    hide Reset;
    ElemsPrefix(running, i);
  }

  lemma ResetUnconverged(net: Fabric, flows: Flows, all: set<FlowId>)
    requires all <= flows.Keys
    ensures Unconverged(ResetAll(net, flows, all), all) == set f | f in all && f in flows && flows[f].spec.route != []
  {
  }

  /** Reset records show the empty filling. */
  lemma ResetShows(net: Fabric, flows: Flows, all: set<FlowId>)
    requires all <= flows.Keys
    ensures var flows', w := ResetAll(net, flows, all), Empty(net, Running(flows, all));
            && OnlyRatesDiffer(flows, flows', all) && Shows(flows', all, w) && Unbounded(flows', w.open)
            && LoadOf(flows') == LoadOf(flows)
  {
  }

  /** The flows of `s` bounded by their speed plus `inc`. */
  ghost function Lowered(flows: Flows, s: set<FlowId>, inc: nat): Flows {
    map f | f in flows ::
      if f in s && flows[f].speed + inc < flows[f].bound then flows[f].(bound := flows[f].speed + inc) else flows[f]
  }

  lemma LoweredNone(flows: Flows, inc: nat)
    ensures Lowered(flows, {}, inc) == flows
  {
  }

  lemma LoweredNext(flows: Flows, fs: seq<FlowId>, i: nat, inc: nat)
    requires i < |fs| && Distinct(fs) && fs[i] in flows
    ensures var f, part := fs[i], Lowered(flows, Elems(fs[..i]), inc);
            && f in part && part[f] == flows[f]
            && Lowered(flows, Elems(fs[..i + 1]), inc)
               == part[f := flows[f].(bound := if flows[f].bound <= flows[f].speed + inc then flows[f].bound
                   else flows[f].speed + inc)]
  {
    ElemsPrefix(fs, i);
  }

  lemma LeveledParts(net: Fabric, routes: Routes, w: Filling, l: LinkIx)
    requires FabricOk(net) && Leveled(net, routes, w) && l in OpenLinks(net, routes, w.open)
    ensures w.speed.Keys == routes.Keys && w.open <= routes.Keys && l in net.capacity && net.capacity[l] <= MAX_RATE
    ensures 0 < |On(routes, l) * w.open|
  {
  }

  lemma TotalEmpty(speed: map<FlowId, nat>)
    ensures Total({}, speed) == 0
  {
  }

  /** `f.speed <= f.max_rate`, as the source asserts. */
  lemma SpeedsBounded(net: Fabric, routes: Routes, w: Filling, l: LinkIx, f: FlowId)
    requires FabricOk(net) && Leveled(net, routes, w) && l in net.capacity && f in On(routes, l)
    ensures w.speed[f] <= MAX_RATE
  {
    TotalMember(On(routes, l), w.speed, f);
  }

  lemma LeveledKeys(net: Fabric, routes: Routes, w: Filling)
    requires Leveled(net, routes, w)
    ensures w.speed.Keys == routes.Keys && w.open <= routes.Keys
  {
  }

  lemma LinkListed(net: Fabric, links: LinkFlows, flows: Flows, running: set<FlowId>, l: LinkIx)
    requires Inverse(links, flows, running) && l in links
    ensures forall f :: f in links[l] ==> f in flows && f in running && l in flows[f].spec.route
  {
  }

  lemma OnlyRatesReflexive(flows: Flows, running: set<FlowId>)
    ensures OnlyRatesDiffer(flows, flows, running)
  {
  }

  lemma OnlyRatesTrans(a: Flows, b: Flows, c: Flows, running: set<FlowId>)
    requires OnlyRatesDiffer(a, b, running) && OnlyRatesDiffer(b, c, running)
    ensures OnlyRatesDiffer(a, c, running)
  {
  }

  /** Changing rates changes neither the link index nor the routes. */
  lemma OnlyRatesFrame(net: Fabric, links: LinkFlows, a: Flows, b: Flows, running: set<FlowId>)
    requires OnlyRatesDiffer(a, b, running) && Inverse(links, a, running)
    ensures Inverse(links, b, running) && Running(a, running) == Running(b, running) && LoadOf(a) == LoadOf(b)
  {
    InverseFrame(links, a, b, running);
    assert LoadOf(a) == LoadOf(b);
  }

  lemma ShowsKeys(flows: Flows, running: set<FlowId>, w: Filling)
    requires Shows(flows, running, w)
    ensures running <= flows.Keys && w.open <= running
  {
  }

  lemma NoBoundYet(net: Fabric, routes: Routes, w: Filling, flows: Flows)
    requires w.speed.Keys == routes.Keys && w.open <= routes.Keys && Unbounded(flows, w.open)
    ensures forall f :: f in w.open ==> f in flows && BoundedBy(net, routes, w, {}, f, flows[f].bound)
  {
  }

  /** One more link lowers the bounds of the flows on it, and nothing else. */
  lemma LoweredKeeps(net: Fabric, routes: Routes, w: Filling, flows: Flows, l: LinkIx, inc: nat, seen: set<LinkIx>)
    requires w.speed.Keys == routes.Keys && w.open <= routes.Keys && Shows(flows, routes.Keys, w)
    requires l in OpenLinks(net, routes, w.open) && seen <= OpenLinks(net, routes, w.open)
    requires inc == LinkIncrement(net, routes, w, l)
    requires forall f :: f in w.open ==> BoundedBy(net, routes, w, seen, f, flows[f].bound)
    ensures var flows' := Lowered(flows, On(routes, l), inc);
            && OnlyRatesDiffer(flows, flows', routes.Keys) && Shows(flows', routes.Keys, w)
            && forall f :: f in w.open ==> BoundedBy(net, routes, w, seen + {l}, f, flows'[f].bound)
  {
    hide LinkIncrement;
    var flows' := Lowered(flows, On(routes, l), inc);
    forall f | f in w.open ensures BoundedBy(net, routes, w, seen + {l}, f, flows'[f].bound) {
      assert BoundedBy(net, routes, w, seen, f, flows[f].bound);
      BoundNext(net, routes, w, seen, l, f, flows[f].bound);
    }
  }

  lemma BoundNext(net: Fabric, routes: Routes, w: Filling, seen: set<LinkIx>, l: LinkIx, f: FlowId, bound: nat)
    requires w.speed.Keys == routes.Keys && f in routes
    requires l in OpenLinks(net, routes, w.open) && seen <= OpenLinks(net, routes, w.open)
    requires BoundedBy(net, routes, w, seen, f, bound)
    ensures var cap := w.speed[f] + LinkIncrement(net, routes, w, l);
            BoundedBy(net, routes, w, seen + {l}, f, if f in On(routes, l) && cap < bound then cap else bound)
  {
    hide LinkIncrement, OpenLinks;
    var cap := w.speed[f] + LinkIncrement(net, routes, w, l);
    if f in On(routes, l) && cap < bound {
      assert l in seen + {l} && l in routes[f] && cap == w.speed[f] + LinkIncrement(net, routes, w, l);
    } else if bound != MAX_RATE {
      var k :| k in seen && k in routes[f] && bound == w.speed[f] + LinkIncrement(net, routes, w, k);
      assert k in seen + {l};
    }
  }

  lemma LeastNext(net: Fabric, routes: Routes, w: Filling, seen: set<LinkIx>, l: LinkIx, best: Option<nat>)
    requires w.speed.Keys == routes.Keys
    requires l in OpenLinks(net, routes, w.open) && seen <= OpenLinks(net, routes, w.open)
    requires if best.None? then seen == {} else LeastOver(net, routes, w, seen, best.value)
    ensures LeastOver(net, routes, w, seen + {l}, Least(best, LinkIncrement(net, routes, w, l)).value)
  {
    hide LinkIncrement, OpenLinks;
    var inc := LinkIncrement(net, routes, w, l);
    if best.Some? && best.value <= inc {
      var k :| k in seen && LinkIncrement(net, routes, w, k) == best.value;
      assert k in seen + {l};
    } else {
      assert l in seen + {l};
    }
  }

  ghost function Raised(fs: FlowState, inc: nat): FlowState {
    if fs.converged then fs
    else if fs.speed + inc >= fs.bound then fs.(speed := fs.speed + inc, converged := true)
    else fs.(speed := fs.speed + inc, bound := MAX_RATE)
  }

  ghost function RaiseAll(flows: Flows, s: set<FlowId>, inc: nat): (flows': Flows)
    ensures flows'.Keys == flows.Keys
  {
    map f | f in flows :: if f in s then Raised(flows[f], inc) else flows[f]
  }

  lemma RaiseNone(flows: Flows, inc: nat)
    ensures RaiseAll(flows, {}, inc) == flows
  {
  }

  lemma RaiseNext(flows: Flows, running: seq<FlowId>, i: nat, inc: nat)
    requires i < |running| && Distinct(running) && running[i] in flows
    ensures var f, part := running[i], RaiseAll(flows, Elems(running[..i]), inc);
            part[f] == flows[f] && RaiseAll(flows, Elems(running[..i + 1]), inc) == part[f := Raised(flows[f], inc)]
  {
    hide Raised;
    ElemsPrefix(running, i);
  }

  lemma ShowsUnconverged(flows: Flows, all: set<FlowId>, w: Filling)
    requires Shows(flows, all, w)
    ensures all <= flows.Keys && Unconverged(flows, all) == w.open
  {
  }

  /** Raising by the bottleneck increment carries out one round of the filling. */
  lemma RaisedShows(net: Fabric, routes: Routes, w: Filling, flows: Flows)
    requires FabricOk(net) && Leveled(net, routes, w) && w.open != {} && Shows(flows, routes.Keys, w)
    requires forall f :: f in w.open ==>
             f in routes && BoundedBy(net, routes, w, OpenLinks(net, routes, w.open), f, flows[f].bound)
    ensures var flows', w' := RaiseAll(flows, routes.Keys, Increment(net, routes, w)), Round(net, routes, w);
            && OnlyRatesDiffer(flows, flows', routes.Keys) && Shows(flows', routes.Keys, w')
               && Unbounded(flows', w'.open)
  {
    hide FabricOk, BoundedBy, LinkIncrement, OpenLinks, Feasible, Routed, Increment;
    var inc := Increment(net, routes, w);
    forall f | f in w.open
      ensures flows[f].speed + inc >= flows[f].bound <==> f !in Round(net, routes, w).open
    {
      ReachesBound(net, routes, w, f, flows[f].bound);
    }
  }

  /** When every flow has converged, the records hold the shares. */
  lemma ShowsShares(net: Fabric, routes: Routes, flows: Flows, all: set<FlowId>, w: Filling)
    requires Shows(flows, all, w) && w.open == {} && routes == Running(flows, all) && Routed(net, routes)
    requires Leveled(net, routes, Empty(net, routes)) && Leveled(net, routes, w)
    requires Fill(net, routes, w) == Fill(net, routes, Empty(net, routes))
    ensures forall f :: f in all ==> flows[f].speed == Shares(net, routes)[f]
  {
    assert Fill(net, routes, w) == w;
  }

  lemma ReportsNothing(net: Fabric, ts: nat, flows: Flows, bufs: map<FlowId, nat>, running: seq<FlowId>,
      links: LinkFlows, retired: seq<FlowId>)
    requires Ok(net, ts, flows, bufs, running, links, retired)
    ensures Reports(net, LoadOf(flows), Elems(retired), ts, ts, {})
  {
  }

  lemma OnlyRatesOk(net: Fabric, ts: nat, flows: Flows, flows': Flows, bufs: map<FlowId, nat>, running: seq<FlowId>,
      links: LinkFlows, retired: seq<FlowId>)
    requires Ok(net, ts, flows, bufs, running, links, retired) && OnlyRatesDiffer(flows, flows', Elems(running))
    ensures Ok(net, ts, flows', bufs, running, links, retired) && LoadOf(flows') == LoadOf(flows)
  {
    hide LoadOk, SentBy, Ordered, Terminated, Inverse, Distinct;
    OnlyRatesFrame(net, links, flows, flows', Elems(running)) by {
      assert Inverse(links, flows, Elems(running));
    }
    SameRoutes(flows, flows');
    assert AllRetired(flows', retired, ts) by {
      forall f | f in retired ensures f in flows' && RetiredOk(flows'[f], ts) && flows'[f].history == flows[f].history {
        assert f in Elems(retired) && f !in Elems(running);
      }
    }
    assert AllBuffered(flows', bufs, ts) by {
      forall f | f in bufs ensures f in flows' && BufferedOk(flows'[f], bufs[f], ts) {
        assert BufferedOk(flows[f], bufs[f], ts);
      }
    }
    assert AllRunning(flows', Elems(running), ts) by {
      forall f | f in Elems(running) ensures f in flows' && RunningOk(flows'[f], ts) {
        assert RunningOk(flows[f], ts);
      }
    }
  }

  lemma OnlyRatesInStep(net: Fabric, ts: nat, flows: Flows, flows': Flows, running: set<FlowId>, retired: set<FlowId>)
    requires InStep(net, ts, flows, running, retired) && OnlyRatesDiffer(flows, flows', running)
    ensures InStep(net, ts, flows', running, retired)
  {
    hide LoadOk;
    assert LoadOf(flows') == LoadOf(flows);
    assert Histories(flows', running) == Histories(flows, running);
    assert Histories(flows', retired) == Histories(flows, retired);
  }

  /** Sharing the bandwidth touches nothing but rates, and sets these to the shares of the reference. */
  lemma ConvergedOk(net: Fabric, ts: nat, flows: Flows, flows': Flows, bufs: map<FlowId, nat>, running: seq<FlowId>,
      links: LinkFlows, retired: seq<FlowId>)
    requires Ok(net, ts, flows, bufs, running, links, retired) && OnlyRatesDiffer(flows, flows', Elems(running))
    requires Elems(running) <= flows.Keys == flows'.Keys && Routed(net, Running(flows, Elems(running)))
    requires forall f :: f in running ==> flows'[f].speed == Shares(net, Running(flows, Elems(running)))[f]
    ensures Ok(net, ts, flows', bufs, running, links, retired) && LoadOf(flows') == LoadOf(flows)
    ensures LoadOk(net, LoadOf(flows'))
    ensures InStep(net, ts, flows, Elems(running), Elems(retired)) ==>
            InStep(net, ts, flows', Elems(running), Elems(retired))
    ensures forall f :: f in Elems(running) ==> flows'[f].speed == Rates(net, LoadOf(flows'), Elems(running))[f]
  {
    hide LoadOk, Ok, InStep, Shares;
    OnlyRatesOk(net, ts, flows, flows', bufs, running, links, retired);
    OkParts(net, ts, flows, bufs, running, links, retired);
    if InStep(net, ts, flows, Elems(running), Elems(retired)) {
      OnlyRatesInStep(net, ts, flows, flows', Elems(running), Elems(retired));
    }
  }

  /** A step as long as some flow's time to completion completes that flow. */
  lemma DecisiveStep(flows: Flows, running: set<FlowId>, ts: nat, d: nat, f: FlowId)
    requires f in running && running <= flows.Keys && 0 < flows[f].speed && d == TimeToComplete(flows[f])
    ensures f in FinishedIn(AdvanceAll(flows, running, ts, d), running)
  {
    if flows[f].sent < flows[f].spec.size {
      CompletesInTime(flows[f], d);
    } else {
      assert flows[f].speed * d >= 0;
    }
  }

  /** What limits the next step: a completion, a start, or the caller's `until`. */
  ghost predicate Decisive(flows: Flows, bufs: map<FlowId, nat>, running: seq<FlowId>, until: Option<nat>, ts: nat,
      d: nat)
    requires forall f :: f in running ==> f in flows && 0 < flows[f].speed
  {
    || (exists f :: f in running && d == TimeToComplete(flows[f]))
    || (exists f :: f in bufs && bufs[f] == ts + d)
    || until == Some(ts + d)
  }

  lemma DecidedBy(flows: Flows, bufs: map<FlowId, nat>, running: seq<FlowId>, until: Option<nat>, ts: nat, d: nat)
    returns (completing: bool)
    requires forall f :: f in running ==> f in flows && 0 < flows[f].speed
    requires Decisive(flows, bufs, running, until, ts, d)
    ensures completing ==> FinishedIn(AdvanceAll(flows, Elems(running), ts, d), Elems(running)) != {}
    ensures !completing ==> (exists f :: f in bufs && bufs[f] == ts + d) || until == Some(ts + d)
  {
    hide AdvanceAll, TimeToComplete, FinishedIn;
    completing := exists f :: f in running && d == TimeToComplete(flows[f]);
    if completing {
      var f :| f in running && d == TimeToComplete(flows[f]);
      DecisiveStep(flows, Elems(running), ts, d, f);
    }
  }

  /** The forward step needs every running flow to have a speed: either the state agrees with the in-order
      simulation, in which the links provide for the flows under way at every moment to come, or they provide for
      all flows that have not retired. */
  ghost predicate Fed(net: Fabric, ts: nat, flows: Flows, bufs: set<FlowId>, running: set<FlowId>,
      retired: set<FlowId>)
  {
    && LoadOk(net, LoadOf(flows)) && running + bufs <= flows.Keys
    && ((InStep(net, ts, flows, running, retired) && Provided(net, LoadOf(flows), ts))
        || Provisioned(net, RoutesOf(LoadOf(flows), running + bufs)))
  }

  /** A state that agrees with the in-order simulation, and may go on. */
  lemma ExactIsFed(net: Fabric, ts: nat, flows: Flows, bufs: map<FlowId, nat>, running: seq<FlowId>, links: LinkFlows,
      retired: seq<FlowId>)
    requires Ok(net, ts, flows, bufs, running, links, retired)
    requires InStep(net, ts, flows, Elems(running), Elems(retired)) && Provided(net, LoadOf(flows), ts)
    ensures Fed(net, ts, flows, bufs.Keys, Elems(running), Elems(retired))
  {
    hide Ok, LoadOk, InStep, Provided;
    OkParts(net, ts, flows, bufs, running, links, retired);
  }

  /** So may any state of flows that the links can carry together. */
  lemma ProvisionedIsFed(net: Fabric, ts: nat, flows: Flows, bufs: map<FlowId, nat>, running: seq<FlowId>,
      links: LinkFlows, retired: seq<FlowId>)
    requires Ok(net, ts, flows, bufs, running, links, retired)
    requires Provisioned(net, RoutesOf(LoadOf(flows), LoadOf(flows).Keys))
    ensures Fed(net, ts, flows, bufs.Keys, Elems(running), Elems(retired))
  {
    hide Ok, LoadOk, InStep, Provided, Provisioned;
    OkParts(net, ts, flows, bufs, running, links, retired);
    FewerProvisioned(net, LoadOf(flows), Elems(running) + bufs.Keys, LoadOf(flows).Keys);
  }

  lemma FedNow(net: Fabric, ts: nat, flows: Flows, bufs: set<FlowId>, running: set<FlowId>, retired: set<FlowId>)
    requires Fed(net, ts, flows, bufs, running, retired)
    ensures running <= flows.Keys && Provisioned(net, RoutesOf(LoadOf(flows), running))
  {
    hide LoadOk, Provisioned, WorldAt;
    var load := LoadOf(flows);
    if InStep(net, ts, flows, running, retired) && Provided(net, load, ts) {
      var now := WorldAt(net, load, ts).sent.Keys;
      forall f | f in running ensures f in now { RunsNow(net, ts, flows, running, retired, f); }
      FewerProvisioned(net, load, running, now);
    } else {
      FewerProvisioned(net, load, running, running + bufs);
    }
  }

  lemma RunsNow(net: Fabric, ts: nat, flows: Flows, running: set<FlowId>, retired: set<FlowId>, f: FlowId)
    requires InStep(net, ts, flows, running, retired) && f in running
    ensures LoadOk(net, LoadOf(flows)) && f in WorldAt(net, LoadOf(flows), ts).sent
  {
    hide LoadOk, WorldAt, NetTracking.Tracks, SentBy;
    InStepElim(net, ts, flows, running, retired, f);
    NetTracking.TracksAtEnd(net, LoadOf(flows), f, flows[f].history, ts);
  }

  /** Going on, with no flow more that has not retired. */
  lemma StaysFed(net: Fabric, ts: nat, flows: Flows, bufs: set<FlowId>, running: set<FlowId>, retired: set<FlowId>,
      ts': nat, flows': Flows, bufs': set<FlowId>, running': set<FlowId>, retired': set<FlowId>)
    requires Fed(net, ts, flows, bufs, running, retired) && LoadOf(flows') == LoadOf(flows) && ts <= ts'
    requires InStep(net, ts, flows, running, retired) ==> InStep(net, ts', flows', running', retired')
    requires running' + bufs' <= running + bufs
    ensures Fed(net, ts', flows', bufs', running', retired')
  {
    hide LoadOk, Provisioned, WorldAt, InStep;
    assert flows'.Keys == LoadOf(flows').Keys == LoadOf(flows).Keys == flows.Keys;
    if !(InStep(net, ts, flows, running, retired) && Provided(net, LoadOf(flows), ts)) {
      FewerProvisioned(net, LoadOf(flows), running' + bufs', running + bufs);
    }
  }

  lemma ReadyToStep(net: Fabric, flows: Flows, running: seq<FlowId>)
    requires LoadOk(net, LoadOf(flows)) && Elems(running) <= flows.Keys
    requires Provisioned(net, RoutesOf(LoadOf(flows), Elems(running)))
    requires forall f :: f in Elems(running) ==> flows[f].speed == Rates(net, LoadOf(flows), Elems(running))[f]
    ensures forall f :: f in running ==> f in flows && 0 < flows[f].speed
  {
    hide LoadOk, Rates, Provisioned;
    RatesArePositive(net, LoadOf(flows), Elems(running), Elems(running));
    forall f | f in running ensures f in flows && 0 < flows[f].speed {
      assert f in Elems(running);
    }
  }

  lemma ReportsOn(net: Fabric, load: Load, seen: set<FlowId>, t0: nat, t1: nat, t2: nat, batch: set<FlowId>)
    requires Reports(net, load, seen, t0, t1, {}) && Reports(net, load, seen, t1, t2, batch)
    ensures Reports(net, load, seen, t0, t2, batch)
  {
    hide LoadOk, NoBatch, NextBatch;
    if batch == {} {
      QuietAfterQuiet(net, load, seen, t0, t1, t2);
    } else {
      BatchAfterQuiet(net, load, seen, t0, t1, t2, batch);
    }
  }

  lemma UndoNone(flows: Flows, past: nat)
    ensures UndoAll(flows, {}, past) == flows
  {
  }

  lemma UndoNext(flows: Flows, running: seq<FlowId>, i: nat, past: nat)
    requires i < |running| && Distinct(running) && running[i] in flows
    ensures var f, part := running[i], UndoAll(flows, Elems(running[..i]), past);
            part[f] == flows[f] && UndoAll(flows, Elems(running[..i + 1]), past) == part[f := Undone(flows[f], past)]
  {
    hide Undone;
    ElemsPrefix(running, i);
  }

  /** Every flow that a rollback undoes is running or revived. */
  lemma RolledAll(flows: Flows, was: seq<FlowId>, retired: seq<FlowId>, revived: seq<FlowId>, running: seq<FlowId>,
      ts: nat, past: nat)
    requires AllRunning(flows, Elems(was), ts) && AllRetired(flows, retired, ts)
    requires running == was + revived && Elems(revived) == ToRevive(flows, retired, past)
    ensures Elems(running) <= flows.Keys
    ensures forall f :: f in running ==>
                          RunningOk(flows[f], ts) || (RetiredOk(flows[f], ts) && CompletesLater(flows[f], past))
  {
    hide RunningOk, CompletesLater;
    forall f | f in running ensures f in flows
              && (RunningOk(flows[f], ts) || (RetiredOk(flows[f], ts) && CompletesLater(flows[f], past)))
    {
      if f in was {
        assert f in Elems(was);
      } else {
        assert f in Elems(revived);
      }
    }
  }

  /** The revived flows are exactly the retired ones that complete in a later microsecond. */
  ghost predicate RevivedExactly(flows: Flows, retired: seq<FlowId>, revived: seq<FlowId>, k: nat, past: nat) {
    && k <= |retired| && Elems(revived) == Elems(retired[k..])
    && (forall f :: f in retired ==> f in flows && Terminated(flows[f].history))
    && Elems(revived) == ToRevive(flows, retired, past)
    && (0 < k ==> !CompletesLater(flows[retired[k - 1]], past))
    && (forall i :: k <= i < |retired| ==> CompletesLater(flows[retired[i]], past))
  }

  lemma UndoKeepsSpec(flows: Flows, rolled: set<FlowId>, past: nat)
    ensures forall f :: f in flows ==> UndoAll(flows, rolled, past)[f].spec == flows[f].spec
  {
  }

  lemma OkRetired(net: Fabric, ts: nat, flows: Flows, bufs: map<FlowId, nat>, running: seq<FlowId>, links: LinkFlows,
      retired: seq<FlowId>)
    requires Ok(net, ts, flows, bufs, running, links, retired)
    ensures AllRetired(flows, retired, ts)
  {
  }

  lemma PushNone(flows: Flows, past: nat)
    ensures StartedIn(flows, {}, past) == {} && AheadIn(flows, {}, past) == map[]
  {
  }

  lemma PushNext(flows: Flows, fs: seq<FlowId>, i: nat, past: nat)
    requires i < |fs| && Distinct(fs) && fs[i] in flows
    ensures var f, part := fs[i], Elems(fs[..i]);
            && f !in StartedIn(flows, part, past) && f !in AheadIn(flows, part, past)
            && (flows[f].spec.start <= past ==>
                  StartedIn(flows, Elems(fs[..i + 1]), past) == StartedIn(flows, part, past) + {f}
                  && AheadIn(flows, Elems(fs[..i + 1]), past) == AheadIn(flows, part, past))
            && (past < flows[f].spec.start ==>
                  StartedIn(flows, Elems(fs[..i + 1]), past) == StartedIn(flows, part, past)
                  && AheadIn(flows, Elems(fs[..i + 1]), past) == AheadIn(flows, part, past)[f := flows[f].spec.start])
  {
    ElemsPrefix(fs, i);
  }

  /** Pushing the embryos back places every rolled-back flow. */
  lemma EmbryosPlaced(flows: Flows, flows': Flows, rolled: set<FlowId>, embryos: set<FlowId>, past: nat)
    requires rolled <= flows.Keys && flows'.Keys == flows.Keys && forall f :: f in flows ==>
             flows'[f].spec == flows[f].spec
    requires embryos == set f | f in rolled && past <= flows[f].spec.start
    ensures rolled - embryos + StartedIn(flows', embryos, past) == StartedIn(flows, rolled, past)
    ensures AheadIn(flows', embryos, past) == AheadIn(flows, rolled, past)
  {
  }

  /** One more arrival. */
  lemma AddNext(flows: Flows, recs: seq<Arrival>, i: nat, ts: nat)
    requires NewFlows(flows, recs) && i < |recs|
    ensures var part, f := Added(flows, recs[..i]), recs[i].flow;
            && Added(flows, recs[..i + 1]) == part[f := NewFlow(recs[i].spec)]
            && f !in part && Distinct(recs[i].spec.route) && NewIds(recs[..i]) <= part.Keys
            && NewIds(recs[..i + 1]) == NewIds(recs[..i]) + {f}
            && StartedIn(part[f := NewFlow(recs[i].spec)], NewIds(recs[..i + 1]), ts)
               == StartedIn(part, NewIds(recs[..i]), ts) + (if recs[i].spec.start <= ts then {f} else {})
  {
    var part, part', f := Added(flows, recs[..i]), Added(flows, recs[..i + 1]), recs[i].flow;
    AddedStep(flows, recs[..i + 1]);
    assert recs[..i + 1][..i] == recs[..i];
    assert f !in NewIds(recs[..i]);
    NewIdsNext(recs, i);
    StartedNext(part, NewIds(recs[..i]), f, recs[i].spec, ts);
  }

  lemma NewIdsNext(recs: seq<Arrival>, i: nat)
    requires i < |recs|
    ensures NewIds(recs[..i + 1]) == NewIds(recs[..i]) + {recs[i].flow}
  {
    forall f | f in NewIds(recs[..i]) ensures f in NewIds(recs[..i + 1]) {
      var j :| 0 <= j < i && recs[..i][j].flow == f;
      assert recs[..i + 1][j].flow == f;
    }
    assert recs[..i + 1][i] == recs[i];
  }

  lemma StartedNext(flows: Flows, ids: set<FlowId>, f: FlowId, spec: FlowSpec, ts: nat)
    requires f !in flows && ids <= flows.Keys
    ensures StartedIn(flows[f := NewFlow(spec)], ids + {f}, ts)
         == StartedIn(flows, ids, ts) + (if spec.start <= ts then {f} else {})
  {
  }

  lemma AddedStep(flows: Flows, recs: seq<Arrival>)
    requires recs != []
    ensures var n := |recs| - 1; Added(flows, recs) == Added(flows, recs[..n])[recs[n].flow := NewFlow(recs[n].spec)]
  {
  }

  /** Fewer flows are no harder to carry. */
  lemma PrefixLoadOk(net: Fabric, flows: Flows, recs: seq<Arrival>, i: nat)
    requires NewFlows(flows, recs) && LoadOk(net, LoadOf(Added(flows, recs))) && i <= |recs|
    ensures LoadOk(net, LoadOf(Added(flows, recs[..i])))
  {
    hide Added, LoadOk;
    var all, part := Added(flows, recs), Added(flows, recs[..i]);
    AddedRecords(flows, recs);
    AddedRecords(flows, recs[..i]);
    forall f | f in part ensures f in all && all[f] == part[f] {
      if f !in flows {
        var j :| 0 <= j < i && recs[..i][j].flow == f;
        assert recs[j] == recs[..i][j];
      }
    }
    SubloadOk(net, LoadOf(all), part.Keys);
    assert RoutesOf(LoadOf(all), part.Keys) == RoutesOf(LoadOf(part), part.Keys);
    LoadOkFrom(net, LoadOf(all), LoadOf(part));
  }

  lemma LoadOkFrom(net: Fabric, load: Load, part: Load)
    requires LoadOk(net, load) && Routed(net, RoutesOf(part, part.Keys))
    ensures LoadOk(net, part)
  {
  }

  lemma NoNewIds()
    ensures NewIds([]) == {}
  {
  }

  /** A single arrival is a vector of one. */
  lemma OneArrival(flows: Flows, r: Arrival)
    requires r.flow !in flows && Distinct(r.spec.route)
    ensures NewFlows(flows, [r]) && IsFirstStart([r], r.spec.start) && NewIds([r]) == {r.flow}
    ensures Added(flows, [r]) == flows[r.flow := NewFlow(r.spec)]
    ensures forall ts: nat :: StartedIn(Added(flows, [r]), {r.flow}, ts) == if r.spec.start <= ts then {r.flow} else {}
    ensures forall ts: nat :: AheadIn(Added(flows, [r]), {r.flow}, ts) == if r.spec.start <= ts then map[]
            else map[r.flow := r.spec.start]
  {
    assert [r][0] == r;
    assert [r][..0] == [];
  }

  lemma OkBuffered(net: Fabric, ts: nat, flows: Flows, bufs: map<FlowId, nat>, running: seq<FlowId>, links: LinkFlows,
      retired: seq<FlowId>)
    requires Ok(net, ts, flows, bufs, running, links, retired)
    ensures AllBuffered(flows, bufs, ts) && flows.Keys == bufs.Keys + Elems(running) + Elems(retired)
  {
  }

  /** Arrivals without rollback agree with the in-order simulation iff none is late. */
  lemma ArrivalVerdict(net: Fabric, ts: nat, flows: Flows, running: seq<FlowId>, retired: seq<FlowId>,
                       recs: seq<Arrival>, first: nat, running': set<FlowId>)
    requires Elems(running) <= flows.Keys && Elems(retired) <= flows.Keys && Elems(running) !! Elems(retired)
    requires forall f :: f in Elems(retired) ==> Terminated(flows[f].history)
    requires NewFlows(flows, recs) && IsFirstStart(recs, first) && LoadOk(net, LoadOf(Added(flows, recs)))
    requires running' == Elems(running) + StartedIn(Added(flows, recs), NewIds(recs), ts)
    requires Microsecond(ts) <= first && InStep(net, ts, flows, Elems(running), Elems(retired))
    ensures !Dropped(ts, first, flows, Elems(retired)) ==> InStep(net, ts, Added(flows, recs), running', Elems(retired))
    ensures Provided(net, LoadOf(Added(flows, recs)), first) ==>
              (Synced(net, ts, Added(flows, recs), running', Elems(retired)) <==>
               !Dropped(ts, first, flows, Elems(retired)))
  {
    hide LoadOk, InStep, Synced, Added, NewIds, NewFlows, IsFirstStart, StartedIn, Provided;
    assert Microsecond(ts) <= ts;
    if ts <= first {
      OnTime(net, ts, flows, Elems(running), Elems(retired), recs, first, running');
      InStepSynced(net, ts, Added(flows, recs), running', Elems(retired));
    } else if Provided(net, LoadOf(Added(flows, recs)), first) {
      TooLate(net, ts, flows, Elems(running), Elems(retired), recs, first, running');
    }
  }

  /** Arrivals with rollback agree with the in-order simulation iff no flow that stays
      retired completes after the new clock. */
  lemma RollbackVerdict(net: Fabric, ts: nat, flows: Flows, running: seq<FlowId>, retired: seq<FlowId>,
                        flows1: Flows, recs: seq<Arrival>, past: nat, revived: seq<FlowId>, k: nat,
                        bufs1: map<FlowId, nat>, running1: set<FlowId>,
                        flows': Flows, running': seq<FlowId>, kept: seq<FlowId>)
    requires Elems(running) <= flows.Keys && Elems(retired) <= flows.Keys && Distinct(retired)
    requires forall f :: f in Elems(retired) ==> Terminated(flows[f].history)
    requires NewFlows(flows, recs) && IsFirstStart(recs, past) && flows1 == Added(flows, recs)
             && LoadOk(net, LoadOf(flows1))
    requires AllRetired(flows, retired, ts)
    requires RevivedExactly(flows1, retired, revived, k, past) && kept == retired[..k]
    requires AllRunning(flows1, running1, ts) && AllBuffered(flows1, bufs1, ts)
    requires flows1.Keys == bufs1.Keys + running1 + Elems(retired) && Elems(running) <= running1
    requires bufs1.Keys !! running1 && bufs1.Keys !! Elems(retired) && running1 !! Elems(retired)
    requires flows' == UndoAll(flows1, running1 + Elems(revived), past)
    requires Elems(running') == StartedIn(flows1, running1 + Elems(revived), past)
    requires past < Microsecond(ts)
    ensures Elems(revived) == ToRevive(flows, retired, past) && Elems(kept) == Elems(retired) - Elems(revived)
    ensures InStep(net, ts, flows, Elems(running), Elems(retired)) ==>
              (!Dropped(ts, past, flows, Elems(retired)) ==> InStep(net, past, flows', Elems(running'), Elems(kept)))
              && (Synced(net, past, flows', Elems(running'), Elems(kept)) <==>
                 !Dropped(ts, past, flows, Elems(retired)))
  {
    hide LoadOk, InStep, Synced, Added, NewIds, NewFlows, IsFirstStart, StartedIn, UndoAll, RetiredOk, RunningOk,
        Distinct, AllRunning, AllBuffered;
    assert past <= ts by { MicrosecondBelow(ts); }
    AddedArrived(flows, recs, past);
    AddedRecords(flows, recs);
    SplitElems(retired, k);
    assert forall f :: f in Elems(kept) ==> f in retired && flows1[f] == flows[f];
    if InStep(net, ts, flows, Elems(running), Elems(retired)) {
      if forall f :: f in Elems(kept) ==> EndOf(flows[f].history) <= past {
        RolledBack(net, ts, flows, Elems(running), Elems(retired), flows1, past, Elems(kept), Elems(revived), bufs1,
            running1);
        InStepSynced(net, past, flows', Elems(running'), Elems(kept));
      } else {
        var f :| f in Elems(kept) && past < EndOf(flows[f].history);
        KeptUnchanged(flows1, running1 + Elems(revived), past, f);
        StartedWithin(flows1, running1 + Elems(revived), past);
        KeptTooLongDiffers(net, past, flows', Elems(running'), Elems(kept), f);
      }
    }
  }

  lemma MicrosecondBelow(t: nat)
    ensures Microsecond(t) <= t
  {
  }

  lemma KeptUnchanged(flows: Flows, rolled: set<FlowId>, past: nat, f: FlowId)
    requires f in flows && f !in rolled
    ensures UndoAll(flows, rolled, past)[f] == flows[f] && LoadOf(UndoAll(flows, rolled, past)) == LoadOf(flows)
  {
  }

  lemma StartedWithin(flows: Flows, s: set<FlowId>, past: nat)
    ensures StartedIn(flows, s, past) <= s && StartedIn(flows, s, past) <= flows.Keys
  {
  }

  lemma OneArrivedOk(net: Fabric, ts: nat, flows: Flows, bufs: map<FlowId, nat>, running: seq<FlowId>,
      links: LinkFlows, retired: seq<FlowId>,
                     r: Arrival, bufs': map<FlowId, nat>, running': seq<FlowId>, links': LinkFlows)
    requires Ok(net, ts, flows, bufs, running, links, retired)
    requires r.flow !in flows && Distinct(r.spec.route) && LoadOk(net, LoadOf(flows[r.flow := NewFlow(r.spec)]))
    requires Distinct(running') && Elems(running') == Elems(running) + if r.spec.start <= ts then {r.flow} else {}
    requires bufs' == if r.spec.start <= ts then bufs else bufs[r.flow := r.spec.start]
    requires Inverse(links', flows[r.flow := NewFlow(r.spec)], Elems(running'))
    ensures Ok(net, ts, flows[r.flow := NewFlow(r.spec)], bufs', running', links', retired)
  {
    hide LoadOk, Ok, Inverse, Added, NewIds, NewFlows, IsFirstStart, StartedIn, AheadIn, Distinct, LoadOf;
    OneArrival(flows, r);
    ArrivedOk(net, ts, flows, bufs, running, links, retired, [r], bufs', running', links', r.spec.start);
  }

  lemma FoldStart(net: Fabric, routes: Routes, w: Filling, l: LinkIx, fs: seq<FlowId>)
    requires Leveled(net, routes, w)
    ensures Elems(fs[..0]) == {} && Total({}, w.speed) == 0 && |{} * w.open| == 0 && w.speed.Keys == routes.Keys
  {
    hide Leveled, Total;
    LeveledKeys(net, routes, w);
    TotalEmpty(w.speed);
    assert {} * w.open == {};
  }

  /** What the fold reads of one flow on the link, and what that adds to the sums. */
  lemma FoldFlow(net: Fabric, routes: Routes, w: Filling, l: LinkIx, flows: Flows, fs: seq<FlowId>, i: nat)
    requires FabricOk(net) && Leveled(net, routes, w) && Shows(flows, routes.Keys, w)
             && l in OpenLinks(net, routes, w.open)
    requires Distinct(fs) && Elems(fs) == On(routes, l) && i < |fs|
    ensures var f, part := fs[i], Elems(fs[..i]);
            && f in flows && flows[f].speed <= MAX_RATE
            && Elems(fs[..i + 1]) <= w.speed.Keys && part <= w.speed.Keys
            && Total(Elems(fs[..i + 1]), w.speed) == Total(part, w.speed) + flows[f].speed
            && |Elems(fs[..i + 1]) * w.open| == |part * w.open| + if flows[f].converged then 0 else 1
  {
    hide Leveled, FabricOk, Total;
    LeveledParts(net, routes, w, l);
    assert fs[i] in Elems(fs);
    FoldStep(fs, i, w.speed, w.open);
    SpeedsBounded(net, routes, w, l, fs[i]);
  }

  /** The share that `calc_delta_per_flow` computes is the link's increment. */
  lemma ShareValue(net: Fabric, routes: Routes, w: Filling, l: LinkIx, minInc: nat)
    requires FabricOk(net) && Leveled(net, routes, w) && l in OpenLinks(net, routes, w.open)
    requires MAX_RATE <= minInc + Total(On(routes, l), w.speed)
    ensures var used, n := Total(On(routes, l), w.speed), |On(routes, l) * w.open|;
            && 0 < n
            && var inc := if net.capacity[l] < used then 0 else (net.capacity[l] - used) / n;
               LinkIncrement(net, routes, w, l) == if inc <= minInc then inc else minInc
  {
    hide Leveled, Total, Quotient;
    LeveledParts(net, routes, w, l);
    HeadroomDoesNotBind(net.capacity[l], Total(On(routes, l), w.speed), |On(routes, l) * w.open|, minInc);
  }

  lemma NoLoad(net: Fabric)
    requires FabricOk(net)
    ensures LoadOk(net, LoadOf(map[]))
  {
    var routes := RoutesOf(LoadOf(map[]), {});
    forall l | l in net.capacity ensures |On(routes, l)| == 0 {
      assert On(routes, l) == {};
    }
  }

  /** Before any flow arrives. */
  lemma NothingYet(net: Fabric)
    requires FabricOk(net)
    ensures Ok(net, 0, map[], map[], [], map[], [])
    ensures InStep(net, 0, map[], Elems([]), Elems([]))
  {
    hide LoadOk, NetTracking.InStep;
    NoLoad(net);
    assert Elems<FlowId>([]) == {};
    InStepIntro(net, 0, map[], {}, {});
  }
}
