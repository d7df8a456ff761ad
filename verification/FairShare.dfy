/** Progressive filling: how the flow-level simulator shares link bandwidth.

    `Shares` is the allocation the convergence loop of `NetSim.Simulator` is
    proved to compute.  It is defined on sets and maps only, so it cannot depend
    on the order in which links or flows are visited.  The theorems below say
    what is special about it: it is feasible, every flow has a bottleneck link,
    and hence no flow can be raised without lowering one that was no faster. */
module FairShare {

  type FlowId = nat
  type LinkIx = nat

  /** The largest bandwidth a 64-bit word holds; also every flow's `max_rate`. */
  const MAX_RATE: nat := 0xFFFF_FFFF_FFFF_FFFF

  /** Link capacities and the loopback speed, in whole bits per second. */
  datatype Fabric = Fabric(capacity: map<LinkIx, nat>, loopback: nat)

  type Routes = map<FlowId, seq<LinkIx>>

  ghost predicate FabricOk(net: Fabric) {
    && 0 < net.loopback < 0x1_0000_0000_0000_0000
    && forall l :: l in net.capacity ==> net.capacity[l] < 0x1_0000_0000_0000_0000
  }

  /** Every link of every route exists. */
  ghost predicate Routed(net: Fabric, routes: Routes) {
    forall f, l :: f in routes && l in routes[f] ==> l in net.capacity
  }

  /** The flows crossing link `l`. */
  ghost function On(routes: Routes, l: LinkIx): set<FlowId> {
    set f | f in routes && l in routes[f]
  }

  /** Each link has at least one bit per second for each flow crossing it. */
  ghost predicate Provisioned(net: Fabric, routes: Routes) {
    forall l :: l in net.capacity ==> |On(routes, l)| <= net.capacity[l]
  }

  ghost function Total(s: set<FlowId>, speed: map<FlowId, nat>): nat
    requires s <= speed.Keys
    decreases |s|
  {
    if s == {} then 0 else var f :| f in s; speed[f] + Total(s - {f}, speed)
  }

  lemma {:induction false} TotalRemove(s: set<FlowId>, speed: map<FlowId, nat>, f: FlowId)
    requires s <= speed.Keys && f in s
    ensures Total(s, speed) == speed[f] + Total(s - {f}, speed)
    decreases |s|
  {
    var g :| g in s && Total(s, speed) == speed[g] + Total(s - {g}, speed);
    if g != f {
      TotalRemove(s - {g}, speed, f);
      TotalRemove(s - {f}, speed, g);
      assert s - {g} - {f} == s - {f} - {g};
    }
  }

  /** Raising the members of `up` by `inc` adds `inc` once per raised member. */
  lemma {:induction false} TotalRaise(s: set<FlowId>, speed: map<FlowId, nat>, speed': map<FlowId, nat>,
                                      up: set<FlowId>, inc: nat)
    requires s <= speed.Keys && s <= speed'.Keys
    requires forall f :: f in s ==> speed'[f] == if f in up then speed[f] + inc else speed[f]
    ensures Total(s, speed') == Total(s, speed) + |s * up| * inc
    decreases |s|
  {
    if s == {} {
      assert s * up == {};
    } else {
      var f :| f in s;
      TotalRemove(s, speed, f);
      TotalRemove(s, speed', f);
      TotalRaise(s - {f}, speed, speed', up, inc);
      if f in up {
        assert s * up == ((s - {f}) * up) + {f};
        OneMore(|(s - {f}) * up|, inc);
      } else {
        assert s * up == (s - {f}) * up;
      }
    }
  }

  lemma OneMore(k: nat, inc: nat)
    ensures (k + 1) * inc == k * inc + inc
  {
  }

  lemma TotalMember(s: set<FlowId>, speed: map<FlowId, nat>, f: FlowId)
    requires s <= speed.Keys && f in s
    ensures speed[f] <= Total(s, speed)
  {
    TotalRemove(s, speed, f);
  }

  /*** Progressive filling ***/

  /** A stage of the filling: the speeds so far, the flows not yet converged, and
      the common speed of those flows. */
  datatype Filling = Filling(speed: map<FlowId, nat>, open: set<FlowId>, level: nat)

  ghost function OpenLinks(net: Fabric, routes: Routes, open: set<FlowId>): set<LinkIx> {
    set l | l in net.capacity && On(routes, l) * open != {}
  }

  /** What one link can still give to each of its unconverged flows. */
  ghost function LinkIncrement(net: Fabric, routes: Routes, w: Filling, l: LinkIx): nat
    requires w.speed.Keys == routes.Keys && l in OpenLinks(net, routes, w.open)
  {
    var used := Total(On(routes, l), w.speed);
    if net.capacity[l] < used then 0 else Quotient(net.capacity[l] - used, |On(routes, l) * w.open|)
  }

  /** Truncating division; see `QuotientIsDivision`. */
  ghost function Quotient(a: nat, n: nat): nat
    requires 0 < n
    decreases a
  {
    if a < n then 0 else 1 + Quotient(a - n, n)
  }

  lemma {:induction false} QuotientBounds(a: nat, n: nat)
    requires 0 < n
    ensures n * Quotient(a, n) <= a < n * Quotient(a, n) + n
    decreases a
  {
    if a >= n {
      QuotientBounds(a - n, n);
      var q := Quotient(a - n, n);
      assert n * (1 + q) == n + n * q;
    }
  }

  lemma QuotientIsDivision(a: nat, n: nat)
    requires 0 < n
    ensures Quotient(a, n) == a / n
  {
    QuotientBounds(a, n);
    DivisionUnique(a, n, Quotient(a, n));
  }

  lemma DivisionUnique(a: nat, n: nat, q: nat)
    requires 0 < n && n * q <= a < n * q + n
    ensures q == a / n
  {
    var d := a / n;
    assert n * d <= a < n * d + n;
    if q < d {
      MulMono(n, q + 1, d);
    } else if d < q {
      MulMono(n, d + 1, q);
    }
  }

  ghost predicate IsBottleneck(net: Fabric, routes: Routes, w: Filling, l: LinkIx)
    requires w.speed.Keys == routes.Keys
  {
    && l in OpenLinks(net, routes, w.open)
    && forall k :: k in OpenLinks(net, routes, w.open) ==>
                     LinkIncrement(net, routes, w, l) <= LinkIncrement(net, routes, w, k)
  }

  lemma {:induction false} LeastIncrement(net: Fabric, routes: Routes, w: Filling, ls: set<LinkIx>) returns (l: LinkIx)
    requires w.speed.Keys == routes.Keys && ls != {} && ls <= OpenLinks(net, routes, w.open)
    ensures l in ls
    ensures forall k :: k in ls ==> LinkIncrement(net, routes, w, l) <= LinkIncrement(net, routes, w, k)
    decreases |ls|
  {
    l :| l in ls;
    if ls != {l} {
      var k := LeastIncrement(net, routes, w, ls - {l});
      if LinkIncrement(net, routes, w, k) < LinkIncrement(net, routes, w, l) {
        l := k;
      }
    }
  }

  /** The invariant of progressive filling: unconverged flows share one level that no
      other flow exceeds, no link is overloaded, and ... */
  ghost predicate Leveled(net: Fabric, routes: Routes, w: Filling) {
    && Routed(net, routes)
    && w.speed.Keys == routes.Keys
    && w.open <= routes.Keys
    && (forall f :: f in w.open ==> routes[f] != [] && w.speed[f] == w.level)
    && (forall f :: f in routes && routes[f] == [] ==> w.speed[f] == net.loopback)
    && (forall f :: f in routes && routes[f] != [] ==> w.speed[f] <= w.level)
    && Feasible(net, routes, w.speed)
  }

  /** ... each converged flow has a saturated link with no unconverged flow left. */
  ghost predicate Settled(net: Fabric, routes: Routes, w: Filling)
    requires w.speed.Keys == routes.Keys
  {
    forall f :: f in routes && f !in w.open && routes[f] != [] ==> HasSaturated(net, routes, w, f)
  }

  ghost predicate HasSaturated(net: Fabric, routes: Routes, w: Filling, f: FlowId)
    requires w.speed.Keys == routes.Keys && f in routes
  {
    exists l :: Saturates(net, routes, w.speed, f, l) && On(routes, l) !! w.open
  }

  /** No link carries more than its capacity. */
  ghost predicate Feasible(net: Fabric, routes: Routes, speed: map<FlowId, nat>)
    requires speed.Keys == routes.Keys
  {
    forall l :: l in net.capacity ==> Total(On(routes, l), speed) <= net.capacity[l]
  }

  /** Link `l` is full up to fewer bits per second than it has flows, and `f` is
      as fast as any flow on it. */
  ghost predicate Saturates(net: Fabric, routes: Routes, speed: map<FlowId, nat>, f: FlowId, l: LinkIx)
    requires speed.Keys == routes.Keys && f in routes
  {
    && l in routes[f] && l in net.capacity
    && net.capacity[l] < Total(On(routes, l), speed) + |On(routes, l)|
    && forall g :: g in On(routes, l) ==> speed[g] <= speed[f]
  }

  lemma OpenHasLink(net: Fabric, routes: Routes, w: Filling)
    requires Leveled(net, routes, w) && w.open != {}
    ensures OpenLinks(net, routes, w.open) != {}
  {
    var f :| f in w.open;
    var l := routes[f][0];
    assert f in On(routes, l) * w.open;
    assert l in OpenLinks(net, routes, w.open);
  }

  ghost function Increment(net: Fabric, routes: Routes, w: Filling): (inc: nat)
    requires Leveled(net, routes, w) && w.open != {}
    ensures exists l :: IsBottleneck(net, routes, w, l) && LinkIncrement(net, routes, w, l) == inc
  {
    assert exists l :: IsBottleneck(net, routes, w, l) by {
      OpenHasLink(net, routes, w);
      var l := LeastIncrement(net, routes, w, OpenLinks(net, routes, w.open));
      assert IsBottleneck(net, routes, w, l);
    }
    var l :| IsBottleneck(net, routes, w, l);
    LinkIncrement(net, routes, w, l)
  }

  /** One round: raise every unconverged flow by the least link increment; the
      flows on a link that can give no more than that converge. */
  ghost function Round(net: Fabric, routes: Routes, w: Filling): Filling
    requires Leveled(net, routes, w) && w.open != {}
  {
    var inc := Increment(net, routes, w);
    Filling(
      map f | f in routes :: if f in w.open then w.speed[f] + inc else w.speed[f],
      (set f | f in w.open && forall l :: l in routes[f] && l in OpenLinks(net, routes, w.open) ==>
                                          inc < LinkIncrement(net, routes, w, l)),
      w.level + inc)
  }

  lemma ShareFits(n: nat, inc: nat, room: nat)
    requires 0 < n && inc <= Quotient(room, n)
    ensures n * inc <= room
  {
    QuotientBounds(room, n);
    MulMono(n, inc, Quotient(room, n));
  }

  lemma MulMono(n: nat, a: nat, b: nat)
    requires a <= b
    ensures n * a <= n * b
  {
  }

  /** Raising the `open` flows on a link by no more than its increment keeps the link
      within its capacity, and fills it but for a remainder if the raise is as large. */
  lemma RaiseFits(on: set<FlowId>, open: set<FlowId>, speed: map<FlowId, nat>, speed': map<FlowId, nat>,
                  inc: nat, cap: nat)
    requires on <= speed.Keys && on <= speed'.Keys
    requires forall f :: f in on ==> speed'[f] == if f in open then speed[f] + inc else speed[f]
    requires Total(on, speed) <= cap
    requires on * open != {} ==> inc <= Quotient(cap - Total(on, speed), |on * open|)
    ensures Total(on, speed') <= cap
    ensures on * open == {} ==> Total(on, speed') == Total(on, speed)
    ensures on * open != {} && inc == Quotient(cap - Total(on, speed), |on * open|) ==>
              cap < Total(on, speed') + |on|
  {
    TotalRaise(on, speed, speed', open, inc);
    var n := |on * open|;
    if on * open != {} {
      ShareFits(n, inc, cap - Total(on, speed));
      QuotientBounds(cap - Total(on, speed), n);
      SubsetSize(on * open, on);
    }
  }

  lemma RoundFeasible(net: Fabric, routes: Routes, w: Filling, l: LinkIx)
    requires Leveled(net, routes, w) && w.open != {} && l in net.capacity
    ensures var w' := Round(net, routes, w);
            && Total(On(routes, l), w'.speed) <= net.capacity[l]
            && (On(routes, l) !! w.open ==> Total(On(routes, l), w'.speed) == Total(On(routes, l), w.speed))
            && (l in OpenLinks(net, routes, w.open) && LinkIncrement(net, routes, w, l) <= Increment(net, routes, w) ==>
                  net.capacity[l] < Total(On(routes, l), w'.speed) + |On(routes, l)|)
  {
    var w', inc := Round(net, routes, w), Increment(net, routes, w);
    assert l in OpenLinks(net, routes, w.open) <==> On(routes, l) * w.open != {};
    RaiseFits(On(routes, l), w.open, w.speed, w'.speed, inc, net.capacity[l]);
  }

  /** A flow that converges in this round does so because of a link that the
      round saturates. */
  lemma RoundSaturates(net: Fabric, routes: Routes, w: Filling, f: FlowId) returns (l: LinkIx)
    requires Leveled(net, routes, w) && f in w.open && f !in Round(net, routes, w).open
    ensures l in routes[f] && Saturates(net, routes, Round(net, routes, w).speed, f, l)
    ensures On(routes, l) !! Round(net, routes, w).open
  {
    var w', inc := Round(net, routes, w), Increment(net, routes, w);
    l :| l in routes[f] && l in OpenLinks(net, routes, w.open) && LinkIncrement(net, routes, w, l) <= inc;
    assert LinkIncrement(net, routes, w, l) == inc;
    forall g | g in On(routes, l)
      ensures g !in w'.open && w'.speed[g] <= w'.speed[f]
    {
      assert g in w.open ==> w.speed[g] == w.level;
    }
    RoundFeasible(net, routes, w, l);
  }

  lemma {:induction false} SubsetSize<T>(a: set<T>, b: set<T>)
    requires a <= b
    ensures |a| <= |b|
  {
    assert b == a + (b - a);
    assert |b| == |a| + |b - a|;
  }

  /** At least one flow converges in every round: the filling terminates. */
  lemma RoundShrinks(net: Fabric, routes: Routes, w: Filling)
    requires Leveled(net, routes, w) && w.open != {}
    ensures Round(net, routes, w).open < w.open
  {
    var inc := Increment(net, routes, w);
    var l :| IsBottleneck(net, routes, w, l) && LinkIncrement(net, routes, w, l) == inc;
    var f :| f in On(routes, l) * w.open;
    assert f !in Round(net, routes, w).open;
  }

  lemma RoundLeveled(net: Fabric, routes: Routes, w: Filling)
    requires Leveled(net, routes, w) && w.open != {}
    ensures Leveled(net, routes, Round(net, routes, w))
  {
    var w' := Round(net, routes, w);
    forall l | l in net.capacity
      ensures Total(On(routes, l), w'.speed) <= net.capacity[l]
    {
      RoundFeasible(net, routes, w, l);
    }
  }

  lemma RoundKeepsSaturated(net: Fabric, routes: Routes, w: Filling, f: FlowId)
    requires Leveled(net, routes, w) && w.open != {} && f in routes
    requires HasSaturated(net, routes, w, f) && f !in w.open
    ensures HasSaturated(net, routes, Round(net, routes, w), f)
  {
    var w' := Round(net, routes, w);
    var l :| Saturates(net, routes, w.speed, f, l) && On(routes, l) !! w.open;
    RoundFeasible(net, routes, w, l);
    assert forall g :: g in On(routes, l) ==> g !in w.open;
    assert Saturates(net, routes, w'.speed, f, l);
  }

  lemma RoundSettled(net: Fabric, routes: Routes, w: Filling)
    requires Leveled(net, routes, w) && Settled(net, routes, w) && w.open != {}
    ensures Settled(net, routes, Round(net, routes, w))
  {
    var w' := Round(net, routes, w);
    forall f | f in routes && f !in w'.open && routes[f] != []
      ensures HasSaturated(net, routes, w', f)
    {
      if f in w.open {
        var l := RoundSaturates(net, routes, w, f);
      } else {
        RoundKeepsSaturated(net, routes, w, f);
      }
    }
  }

  ghost function Fill(net: Fabric, routes: Routes, w: Filling): (w': Filling)
    requires Leveled(net, routes, w)
    ensures Leveled(net, routes, w') && w'.open == {}
    decreases |w.open|
  {
    if w.open == {} then w else
      RoundLeveled(net, routes, w);
      RoundShrinks(net, routes, w);
      ProperSubsetSize(Round(net, routes, w).open, w.open);
      Fill(net, routes, Round(net, routes, w))
  }

  lemma {:induction false} FillSettled(net: Fabric, routes: Routes, w: Filling)
    requires Leveled(net, routes, w) && Settled(net, routes, w)
    ensures Settled(net, routes, Fill(net, routes, w))
    decreases |w.open|
  {
    if w.open != {} {
      RoundLeveled(net, routes, w);
      RoundSettled(net, routes, w);
      RoundShrinks(net, routes, w);
      ProperSubsetSize(Round(net, routes, w).open, w.open);
      FillSettled(net, routes, Round(net, routes, w));
    }
  }

  lemma {:induction false} ProperSubsetSize<T>(a: set<T>, b: set<T>)
    requires a < b
    ensures |a| < |b|
  {
    var x :| x in b && x !in a;
    SubsetSize(a, b - {x});
  }

  ghost function Empty(net: Fabric, routes: Routes): (w: Filling)
  {
    Filling(map f | f in routes :: if routes[f] == [] then net.loopback else 0,
            set f | f in routes && routes[f] != [], 0)
  }

  lemma {:induction false} TotalZero(s: set<FlowId>, speed: map<FlowId, nat>)
    requires s <= speed.Keys && forall f :: f in s ==> speed[f] == 0
    ensures Total(s, speed) == 0
    decreases |s|
  {
    if s != {} {
      var f :| f in s;
      TotalRemove(s, speed, f);
      TotalZero(s - {f}, speed);
    }
  }

  lemma EmptyLeveled(net: Fabric, routes: Routes)
    requires Routed(net, routes)
    ensures Leveled(net, routes, Empty(net, routes))
  {
    var w := Empty(net, routes);
    forall l | l in net.capacity
      ensures Total(On(routes, l), w.speed) <= net.capacity[l]
    {
      TotalZero(On(routes, l), w.speed);
    }
  }

  /** The bandwidth each flow gets. */
  ghost function Shares(net: Fabric, routes: Routes): (speed: map<FlowId, nat>)
    requires Routed(net, routes)
    ensures speed.Keys == routes.Keys
  {
    EmptyLeveled(net, routes);
    Fill(net, routes, Empty(net, routes)).speed
  }

  /*** Main theorems about the allocation ***/

  /** No link is overloaded; every flow that crosses a link has one that is full up to
      fewer bits per second than its flow count and on which it is a fastest flow;
      a loopback flow gets the loopback speed. */
  lemma SharesAreMaxMinFair(net: Fabric, routes: Routes)
    requires Routed(net, routes)
    ensures Feasible(net, routes, Shares(net, routes))
    ensures forall f :: f in routes && routes[f] != [] ==> exists l :: Saturates(net, routes, Shares(net, routes), f, l)
    ensures forall f :: f in routes && routes[f] == [] ==> Shares(net, routes)[f] == net.loopback
  {
    EmptyLeveled(net, routes);
    var w := Fill(net, routes, Empty(net, routes));
    FillSettled(net, routes, Empty(net, routes));
    forall f | f in routes && routes[f] != []
      ensures exists l :: Saturates(net, routes, w.speed, f, l)
    {
      assert HasSaturated(net, routes, w, f);
    }
  }

  ghost function RealTotal(s: set<FlowId>, rate: map<FlowId, real>): real
    requires s <= rate.Keys
    decreases |s|
  {
    if s == {} then 0.0 else var f :| f in s; rate[f] + RealTotal(s - {f}, rate)
  }

  lemma {:induction false} RealTotalRemove(s: set<FlowId>, rate: map<FlowId, real>, f: FlowId)
    requires s <= rate.Keys && f in s
    ensures RealTotal(s, rate) == rate[f] + RealTotal(s - {f}, rate)
    decreases |s|
  {
    var g :| g in s && RealTotal(s, rate) == rate[g] + RealTotal(s - {g}, rate);
    if g != f {
      RealTotalRemove(s - {g}, rate, f);
      RealTotalRemove(s - {f}, rate, g);
      assert s - {g} - {f} == s - {f} - {g};
    }
  }

  lemma {:induction false} RealTotalAtLeast(s: set<FlowId>, speed: map<FlowId, nat>, rate: map<FlowId, real>)
    requires s <= speed.Keys && s <= rate.Keys
    requires forall f :: f in s ==> rate[f] >= speed[f] as real
    ensures RealTotal(s, rate) >= Total(s, speed) as real
    decreases |s|
  {
    if s != {} {
      var f :| f in s;
      TotalRemove(s, speed, f);
      RealTotalRemove(s, rate, f);
      RealTotalAtLeast(s - {f}, speed, rate);
    }
  }

  /** Max-min optimality.  In any allocation that overloads no link, fractional ones
      included, raising one flow by the flow count of its saturated link lowers some
      flow that was no faster. */
  lemma RaisingOneLowersASlowerOne(net: Fabric, routes: Routes, other: map<FlowId, real>, f: FlowId)
    requires Routed(net, routes) && f in routes && routes[f] != []
    requires other.Keys == routes.Keys
    requires forall l :: l in net.capacity ==> RealTotal(On(routes, l), other) <= net.capacity[l] as real
    ensures exists l :: l in routes[f] && Saturates(net, routes, Shares(net, routes), f, l) &&
                        (other[f] >= (Shares(net, routes)[f] + |On(routes, l)|) as real ==>
                           exists g :: g in On(routes, l) && other[g] < Shares(net, routes)[g] as real
                                       && Shares(net, routes)[g] <= Shares(net, routes)[f])
  {
    SharesAreMaxMinFair(net, routes);
    var speed := Shares(net, routes);
    var l :| Saturates(net, routes, speed, f, l);
    var s := On(routes, l);
    if && other[f] >= (speed[f] + |s|) as real
       && !exists g :: g in s && other[g] < speed[g] as real && speed[g] <= speed[f] {
      forall g | g in s ensures other[g] >= speed[g] as real {
        assert speed[g] <= speed[f];
      }
      TotalRemove(s, speed, f);
      RealTotalRemove(s, other, f);
      RealTotalAtLeast(s - {f}, speed, other);
      assert false;
    }
  }

  /** An allocation with no slack at all: each flow has a link that is exactly full. */
  ghost predicate ExactlyFair(net: Fabric, routes: Routes, speed: map<FlowId, nat>) {
    && speed.Keys == routes.Keys && Feasible(net, routes, speed)
    && (forall f :: f in routes && routes[f] == [] ==> speed[f] == net.loopback)
    && forall f :: f in routes && routes[f] != [] ==>
                     exists l :: l in routes[f] && l in net.capacity && net.capacity[l] == Total(On(routes, l), speed)
                                 && forall g :: g in On(routes, l) ==> speed[g] <= speed[f]
  }

  lemma {:induction false} TotalBelow(s: set<FlowId>, a: map<FlowId, nat>, b: map<FlowId, nat>, f: FlowId)
    requires s <= a.Keys && s <= b.Keys && f in s
    requires (forall g :: g in s ==> a[g] <= b[g]) && a[f] < b[f]
    ensures Total(s, a) < Total(s, b)
    decreases |s|
  {
    TotalRemove(s, a, f);
    TotalRemove(s, b, f);
    if s != {f} {
      var g :| g in s && g != f;
      if a[g] < b[g] {
        TotalBelow(s - {f}, a, b, g);
      } else {
        TotalNotAbove(s - {f}, a, b);
      }
    } else {
      assert s - {f} == {};
    }
  }

  lemma {:induction false} TotalNotAbove(s: set<FlowId>, a: map<FlowId, nat>, b: map<FlowId, nat>)
    requires s <= a.Keys && s <= b.Keys && forall g :: g in s ==> a[g] <= b[g]
    ensures Total(s, a) <= Total(s, b)
    decreases |s|
  {
    if s != {} {
      var f :| f in s;
      TotalRemove(s, a, f);
      TotalRemove(s, b, f);
      TotalNotAbove(s - {f}, a, b);
    }
  }

  ghost function Lower(a: map<FlowId, nat>, b: map<FlowId, nat>, f: FlowId): nat
    requires f in a && f in b
  {
    if a[f] < b[f] then a[f] else b[f]
  }

  /** If `a` gives `f` less than `b`, some flow sharing `f`'s full link gets less in
      `b` than in `a`, and less than `f` gets in either. */
  lemma SlowerElsewhere(net: Fabric, routes: Routes, a: map<FlowId, nat>, b: map<FlowId, nat>, f: FlowId)
      returns (g: FlowId)
    requires Routed(net, routes) && ExactlyFair(net, routes, a) && ExactlyFair(net, routes, b)
    requires f in routes && a[f] < b[f]
    ensures g in routes && a[g] != b[g] && Lower(a, b, g) < Lower(a, b, f)
  {
    var l :| l in routes[f] && l in net.capacity && net.capacity[l] == Total(On(routes, l), a)
             && forall h :: h in On(routes, l) ==> a[h] <= a[f];
    if forall h :: h in On(routes, l) ==> a[h] <= b[h] {
      TotalBelow(On(routes, l), a, b, f);
      assert false;
    }
    g :| g in On(routes, l) && a[g] > b[g];
  }

  /** The max-min fair allocation is unique, so whenever the truncating division
      leaves no slack the filling computes the one fair allocation. */
  lemma {:induction false} ExactShareIsUnique(net: Fabric, routes: Routes, a: map<FlowId, nat>, b: map<FlowId, nat>,
      f: FlowId)
    requires Routed(net, routes) && ExactlyFair(net, routes, a) && ExactlyFair(net, routes, b) && f in routes
    ensures a[f] == b[f]
    decreases Lower(a, b, f)
  {
    if a[f] < b[f] {
      var g := SlowerElsewhere(net, routes, a, b, f);
      ExactShareIsUnique(net, routes, a, b, g);
    } else if b[f] < a[f] {
      var g := SlowerElsewhere(net, routes, b, a, f);
      ExactShareIsUnique(net, routes, a, b, g);
    }
  }

  /*** Positive speeds ***/

  lemma {:induction false} FillKeepsPositive(net: Fabric, routes: Routes, w: Filling, f: FlowId)
    requires Leveled(net, routes, w) && f in routes && 0 < w.speed[f]
    ensures 0 < Fill(net, routes, w).speed[f]
    decreases |w.open|
  {
    if w.open != {} {
      RoundLeveled(net, routes, w);
      RoundShrinks(net, routes, w);
      ProperSubsetSize(Round(net, routes, w).open, w.open);
      FillKeepsPositive(net, routes, Round(net, routes, w), f);
    }
  }

  /** Where each link has at least one bit per second for each of its flows, the
      first round already gives every flow something. */
  lemma FirstRoundPositive(net: Fabric, routes: Routes)
    requires Routed(net, routes) && Provisioned(net, routes) && Empty(net, routes).open != {}
    ensures Leveled(net, routes, Empty(net, routes)) && 0 < Increment(net, routes, Empty(net, routes))
  {
    var w := Empty(net, routes);
    EmptyLeveled(net, routes);
    var inc := Increment(net, routes, w);
    var l :| IsBottleneck(net, routes, w, l) && LinkIncrement(net, routes, w, l) == inc;
    TotalZero(On(routes, l), w.speed);
    var active := On(routes, l) * w.open;
    assert active == On(routes, l);
    QuotientBounds(net.capacity[l], |active|);
  }

  lemma SharesArePositive(net: Fabric, routes: Routes, f: FlowId)
    requires FabricOk(net) && Routed(net, routes) && Provisioned(net, routes) && f in routes
    ensures 0 < Shares(net, routes)[f]
  {
    var w := Empty(net, routes);
    EmptyLeveled(net, routes);
    if f in w.open {
      FirstRoundPositive(net, routes);
      RoundLeveled(net, routes, w);
      RoundShrinks(net, routes, w);
      FillKeepsPositive(net, routes, Round(net, routes, w), f);
    } else {
      FillKeepsPositive(net, routes, w, f);
    }
  }

  lemma {:induction false} TotalAtLeastSize(s: set<FlowId>, speed: map<FlowId, nat>)
    requires s <= speed.Keys && forall f :: f in s ==> 0 < speed[f]
    ensures |s| <= Total(s, speed)
    decreases |s|
  {
    if s != {} {
      var f :| f in s;
      TotalRemove(s, speed, f);
      TotalAtLeastSize(s - {f}, speed);
    }
  }

  /** Every flow gets a speed exactly if every link has one bit per second for each flow on it. */
  lemma PositiveIffProvisioned(net: Fabric, routes: Routes)
    requires FabricOk(net) && Routed(net, routes)
    ensures (forall f :: f in routes ==> 0 < Shares(net, routes)[f]) <==> Provisioned(net, routes)
  {
    hide Shares;
    if Provisioned(net, routes) {
      forall f | f in routes ensures 0 < Shares(net, routes)[f] { SharesArePositive(net, routes, f); }
    }
    if forall f :: f in routes ==> 0 < Shares(net, routes)[f] {
      SharesAreMaxMinFair(net, routes);
      forall l | l in net.capacity ensures |On(routes, l)| <= net.capacity[l] {
        TotalAtLeastSize(On(routes, l), Shares(net, routes));
      }
    }
  }
}
