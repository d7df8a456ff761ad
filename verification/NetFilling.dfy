/** The link between the flow records that the convergence loop updates in place and
    the stages of progressive filling. */
module NetFilling {
  import opened Sequences
  import opened FairShare
  import opened NetReference
  import opened NetState

  /** The records of the running flows show stage `w` of the filling. */
  ghost predicate Shows(flows: Flows, running: set<FlowId>, w: Filling) {
    && running <= flows.Keys && w.speed.Keys == running && w.open <= running
    && forall f :: f in running ==> flows[f].speed == w.speed[f] && (flows[f].converged <==> f !in w.open)
  }

  /** Only speeds, bounds and convergence flags of running flows differ. */
  ghost predicate OnlyRatesDiffer(a: Flows, b: Flows, running: set<FlowId>) {
    && a.Keys == b.Keys
    && forall f :: f in a ==> b[f].spec == a[f].spec && b[f].sent == a[f].sent && b[f].history == a[f].history
                              && (f !in running ==> b[f] == a[f])
  }

  /** Every unconverged flow's bound is back at its maximal rate. */
  ghost predicate Unbounded(flows: Flows, open: set<FlowId>) {
    forall f :: f in open ==> f in flows && flows[f].bound == MAX_RATE
  }

  ghost function Running(flows: Flows, running: set<FlowId>): Routes
    requires running <= flows.Keys
  {
    RoutesOf(LoadOf(flows), running)
  }

  ghost function Unconverged(flows: Flows, s: set<FlowId>): (open: set<FlowId>)
    requires s <= flows.Keys
    ensures open <= s
  {
    set f | f in s && !flows[f].converged
  }

  /** A speed bound as the links in `seen` have left it. */
  ghost predicate BoundedBy(net: Fabric, routes: Routes, w: Filling, seen: set<LinkIx>, f: FlowId, bound: nat)
    requires w.speed.Keys == routes.Keys && f in w.speed && f in routes && seen <= OpenLinks(net, routes, w.open)
  {
    && bound <= MAX_RATE
    && (forall l :: l in seen && l in routes[f] ==> bound <= w.speed[f] + LinkIncrement(net, routes, w, l))
    && (bound == MAX_RATE
        || exists l :: l in seen && l in routes[f] && bound == w.speed[f] + LinkIncrement(net, routes, w, l))
  }

  /** The least increment over the links in `seen`. */
  ghost predicate LeastOver(net: Fabric, routes: Routes, w: Filling, seen: set<LinkIx>, best: nat)
    requires w.speed.Keys == routes.Keys && seen <= OpenLinks(net, routes, w.open)
  {
    && (exists l :: l in seen && LinkIncrement(net, routes, w, l) == best)
    && forall l :: l in seen ==> best <= LinkIncrement(net, routes, w, l)
  }

  lemma LeastIsIncrement(net: Fabric, routes: Routes, w: Filling, best: nat)
    requires Leveled(net, routes, w) && w.open != {}
    requires LeastOver(net, routes, w, OpenLinks(net, routes, w.open), best)
    ensures best == Increment(net, routes, w)
  {
    hide LinkIncrement, Feasible, Routed;
    var inc := Increment(net, routes, w);
    var l :| IsBottleneck(net, routes, w, l) && LinkIncrement(net, routes, w, l) == inc;
  }

  /** A flow on an open link cannot reach the maximal rate before that link is full. */
  lemma RoomOnLink(net: Fabric, routes: Routes, w: Filling, f: FlowId, l: LinkIx)
    requires FabricOk(net) && Leveled(net, routes, w) && f in w.open && l in routes[f]
    ensures l in OpenLinks(net, routes, w.open)
    ensures w.speed[f] + LinkIncrement(net, routes, w, l) <= MAX_RATE
  {
    hide Quotient, Total;
    var on := On(routes, l);
    assert f in on * w.open;
    TotalMember(on, w.speed, f);
    var room := net.capacity[l] - Total(on, w.speed);
    QuotientAtMost(room, |on * w.open|);
  }

  lemma {:induction false} QuotientAtMost(a: nat, n: nat)
    requires 0 < n
    ensures Quotient(a, n) <= a
    decreases a
  {
    if n <= a {
      QuotientAtMost(a - n, n);
    }
  }

  /** Reaching the bound is the same as sitting on a link that the round saturates. */
  lemma ReachesBound(net: Fabric, routes: Routes, w: Filling, f: FlowId, bound: nat)
    requires FabricOk(net) && Leveled(net, routes, w) && f in w.open
    requires BoundedBy(net, routes, w, OpenLinks(net, routes, w.open), f, bound)
    ensures w.speed[f] + Increment(net, routes, w) >= bound <==> f !in Round(net, routes, w).open
  {
    hide LinkIncrement, Feasible, Routed;
    var inc := Increment(net, routes, w);
    assert routes[f] != [] by { OpenNotLoopback(net, routes, w, f); }
    var l0 := routes[f][0];
    RoomOnLink(net, routes, w, f, l0);
    if w.speed[f] + inc >= bound {
      if bound == MAX_RATE {
        assert LinkIncrement(net, routes, w, l0) <= inc;
      }
    } else {
      forall l | l in routes[f] && l in OpenLinks(net, routes, w.open)
        ensures inc < LinkIncrement(net, routes, w, l)
      {
      }
    }
  }

  lemma OpenNotLoopback(net: Fabric, routes: Routes, w: Filling, f: FlowId)
    requires Leveled(net, routes, w) && f in w.open
    ensures f in routes && routes[f] != []
  {
  }

  /** The flows listed under a link of the index are the running flows that cross it. */
  lemma ListedFlows(links: LinkFlows, flows: Flows, running: set<FlowId>, l: LinkIx)
    requires Inverse(links, flows, running) && l in links
    ensures Distinct(links[l]) && Elems(links[l]) == On(Running(flows, running), l)
  {
  }

  /** Every link with an unconverged flow is in the index. */
  lemma OpenLinksListed(net: Fabric, links: LinkFlows, flows: Flows, running: set<FlowId>, open: set<FlowId>)
    requires Inverse(links, flows, running) && open <= running
    ensures OpenLinks(net, Running(flows, running), open) <= links.Keys
  {
  }

  /** One more flow in the sums that `calc_delta_per_flow` folds. */
  lemma FoldStep(fs: seq<FlowId>, i: nat, speed: map<FlowId, nat>, open: set<FlowId>)
    requires i < |fs| && Distinct(fs) && Elems(fs) <= speed.Keys
    ensures var f, part := fs[i], Elems(fs[..i]);
            && Elems(fs[..i + 1]) <= speed.Keys && part <= speed.Keys
            && Total(Elems(fs[..i + 1]), speed) == Total(part, speed) + speed[f]
            && |Elems(fs[..i + 1]) * open| == |part * open| + if f in open then 1 else 0
  {
    hide Total;
    var f, part := fs[i], Elems(fs[..i]);
    ElemsPrefix(fs, i);
    assert part <= Elems(fs) && f in Elems(fs);
    TotalRemove(part + {f}, speed, f);
    assert part + {f} - {f} == part;
    CountOneMore(part, f, open);
  }

  lemma CountOneMore(part: set<FlowId>, f: FlowId, open: set<FlowId>)
    requires f !in part
    ensures |(part + {f}) * open| == |part * open| + if f in open then 1 else 0
  {
    if f in open {
      assert (part + {f}) * open == (part * open) + {f};
    } else {
      assert (part + {f}) * open == part * open;
    }
  }

  /** The headroom of converged flows never limits the increment. */
  lemma HeadroomDoesNotBind(cap: nat, used: nat, n: nat, headroom: nat)
    requires 0 < n && cap <= MAX_RATE && MAX_RATE <= headroom + used
    ensures used <= cap ==> (cap - used) / n <= headroom && (cap - used) / n == Quotient(cap - used, n)
  {
    if used <= cap {
      QuotientIsDivision(cap - used, n);
      QuotientAtMost(cap - used, n);
    }
  }
}
