/** The reference semantics of the network: what an in-order simulation computes,
    advancing one nanosecond at a time.

    `WorldAt(net, load, t)` is the network at nanosecond `t` when the flows of `load`
    are all known from the beginning.  It knows nothing of events, histories,
    rollback or step sizes; the optimistic simulator is proved equal to it.

    Amounts are counted in bit-nanoseconds: `bytes * 8e9`.  A flow of speed `v`
    bit/s sends exactly `v` of them per nanosecond, so the arithmetic is exact. */
module NetReference {
  import opened FairShare

  datatype FlowSpec = FlowSpec(start: nat, size: nat, route: seq<LinkIx>)

  type Load = map<FlowId, FlowSpec>

  ghost function RoutesOf(load: Load, run: set<FlowId>): (routes: Routes)
    requires run <= load.Keys
    ensures routes.Keys == run
  {
    map f | f in run :: load[f].route
  }

  ghost predicate LoadOk(net: Fabric, load: Load) {
    FabricOk(net) && Routed(net, RoutesOf(load, load.Keys))
  }

  /** Any subset of an acceptable load is acceptable. */
  lemma SubloadOk(net: Fabric, load: Load, run: set<FlowId>)
    requires LoadOk(net, load) && run <= load.Keys
    ensures Routed(net, RoutesOf(load, run))
  {
    forall f, l | f in run && l in load[f].route ensures l in net.capacity {
      assert f in RoutesOf(load, load.Keys);
    }
  }

  /** The fewer flows run, the less the links have to provide for. */
  lemma FewerProvisioned(net: Fabric, load: Load, run: set<FlowId>, all: set<FlowId>)
    requires run <= all <= load.Keys && Provisioned(net, RoutesOf(load, all))
    ensures Provisioned(net, RoutesOf(load, run))
  {
    forall l | l in net.capacity
      ensures |On(RoutesOf(load, run), l)| <= net.capacity[l]
    {
      SubsetSize(On(RoutesOf(load, run), l), On(RoutesOf(load, all), l));
    }
  }

  /** The speeds of the flows `run` when exactly they are running. */
  ghost function Rates(net: Fabric, load: Load, run: set<FlowId>): (rate: map<FlowId, nat>)
    requires LoadOk(net, load) && run <= load.Keys
    ensures rate.Keys == run
  {
    SubloadOk(net, load, run);
    Shares(net, RoutesOf(load, run))
  }

  /** Progress of the flows under way, and the completion times of those that are done. */
  datatype World = World(sent: map<FlowId, nat>, done: map<FlowId, nat>)

  ghost predicate Within(w: World, load: Load) {
    w.sent.Keys <= load.Keys && w.done.Keys <= load.Keys
  }

  /** Retire, at time `t`, the flows that have sent all they have. */
  ghost function Settle(load: Load, w: World, t: nat): (w': World)
    requires Within(w, load)
    ensures Within(w', load)
  {
    World(map f | f in w.sent && w.sent[f] < load[f].size :: w.sent[f],
          w.done + map f | f in w.sent && load[f].size <= w.sent[f] :: t)
  }

  ghost function Starting(load: Load, t: nat): map<FlowId, nat> {
    map f | f in load && load[f].start == t :: 0
  }

  /** One nanosecond: completed flows leave, the others send, new ones start. */
  ghost function Tick(net: Fabric, load: Load, w: World, t: nat): (w': World)
    requires LoadOk(net, load) && Within(w, load)
    ensures Within(w', load)
  {
    var s := Settle(load, w, t);
    var rate := Rates(net, load, s.sent.Keys);
    World((map f | f in s.sent :: s.sent[f] + rate[f]) + Starting(load, t + 1), s.done)
  }

  ghost function WorldAt(net: Fabric, load: Load, t: nat): (w: World)
    requires LoadOk(net, load)
    ensures Within(w, load)
  {
    if t == 0 then World(Starting(load, 0), map[]) else Tick(net, load, WorldAt(net, load, t - 1), t - 1)
  }

  ghost function SettledAt(net: Fabric, load: Load, t: nat): (w: World)
    requires LoadOk(net, load)
    ensures Within(w, load)
  {
    Settle(load, WorldAt(net, load, t), t)
  }

  /** At every moment from `t0` on, every link has one bit per second for each flow that is under way on it then. */
  ghost predicate Provided(net: Fabric, load: Load, t0: nat) {
    LoadOk(net, load)
        && forall t: nat :: t0 <= t ==> Provisioned(net, RoutesOf(load, WorldAt(net, load, t).sent.Keys))
  }

  /** If the links provide for all flows together, they provide for those under way at any moment. */
  lemma AlwaysProvided(net: Fabric, load: Load, t0: nat)
    requires LoadOk(net, load) && Provisioned(net, RoutesOf(load, load.Keys))
    ensures Provided(net, load, t0)
  {
    hide LoadOk, WorldAt, Provisioned;
    forall t: nat | t0 <= t ensures Provisioned(net, RoutesOf(load, WorldAt(net, load, t).sent.Keys)) {
      FewerProvisioned(net, load, WorldAt(net, load, t).sent.Keys, load.Keys);
    }
  }

  /** The speeds of flows under way are positive. */
  lemma RatesArePositive(net: Fabric, load: Load, run: set<FlowId>, all: set<FlowId>)
    requires LoadOk(net, load) && run <= all <= load.Keys && Provisioned(net, RoutesOf(load, all))
    ensures forall f :: f in run ==> 0 < Rates(net, load, run)[f]
  {
    hide Shares, Provisioned;
    SubloadOk(net, load, run);
    FewerProvisioned(net, load, run, all);
    forall f | f in run ensures 0 < Rates(net, load, run)[f] { SharesArePositive(net, RoutesOf(load, run), f); }
  }

  /*** Facts about the reference semantics ***/

  /** What one nanosecond does to one flow. */
  lemma TickOne(net: Fabric, load: Load, w: World, t: nat, f: FlowId)
    requires LoadOk(net, load) && Within(w, load) && f in load
    ensures var w', s := Tick(net, load, w, t), Settle(load, w, t);
            && (f in w'.sent <==> f in s.sent || load[f].start == t + 1)
            && (f in w'.sent ==> w'.sent[f] == if load[f].start == t + 1 then 0
               else s.sent[f] + Rates(net, load, s.sent.Keys)[f])
            && (f in w'.done <==> f in w.done || (f in w.sent && load[f].size <= w.sent[f]))
            && (f in w'.done ==> w'.done[f] == if f in w.sent && load[f].size <= w.sent[f] then t else w.done[f])
            && (f in s.sent <==> f in w.sent && w.sent[f] < load[f].size)
            && (f in s.sent ==> s.sent[f] == w.sent[f])
  {
  }

  lemma TickDone(net: Fabric, load: Load, w: World, t: nat)
    requires LoadOk(net, load) && Within(w, load)
    ensures Tick(net, load, w, t).done == Settle(load, w, t).done
  {
  }

  /** At every moment a started flow is either under way or done, never both; a flow
      that is done was done before. */
  lemma {:induction false} WorldShape(net: Fabric, load: Load, t: nat, f: FlowId)
    requires LoadOk(net, load) && f in load
    ensures var w := WorldAt(net, load, t);
            && !(f in w.sent && f in w.done)
            && (load[f].start <= t <==> f in w.sent || f in w.done)
            && (f in w.done ==> load[f].start <= w.done[f] < t)
            && (load[f].start == t ==> f in w.sent && w.sent[f] == 0)
  {
    hide LoadOk, Rates, Tick, Settle;
    if t != 0 {
      WorldShape(net, load, t - 1, f);
      TickOne(net, load, WorldAt(net, load, t - 1), t - 1, f);
    }
  }

  /** Once done, a flow stays done with the same completion time. */
  lemma {:induction false} DoneStays(net: Fabric, load: Load, t: nat, u: nat, f: FlowId)
    requires LoadOk(net, load) && t <= u && f in WorldAt(net, load, t).done
    ensures f in WorldAt(net, load, u).done && WorldAt(net, load, u).done[f] == WorldAt(net, load, t).done[f]
    decreases u
  {
    hide LoadOk, Rates, Tick, Settle;
    if t < u {
      DoneStays(net, load, t, u - 1, f);
      WorldShape(net, load, u - 1, f);
      TickOne(net, load, WorldAt(net, load, u - 1), u - 1, f);
    }
  }

  /** A flow that has sent everything at `t` is done, with completion time `t`, ever after. */
  lemma CompletesAt(net: Fabric, load: Load, t: nat, u: nat, f: FlowId)
    requires LoadOk(net, load) && t < u
    requires f in WorldAt(net, load, t).sent && load[f].size <= WorldAt(net, load, t).sent[f]
    ensures f in WorldAt(net, load, u).done && WorldAt(net, load, u).done[f] == t
  {
    TickOne(net, load, WorldAt(net, load, t), t, f);
    DoneStays(net, load, t + 1, u, f);
  }

  /** A flow under way was under way, and unfinished, at every earlier moment since its start. */
  lemma {:induction false} UnfinishedBefore(net: Fabric, load: Load, t: nat, u: nat, f: FlowId)
    requires LoadOk(net, load) && t < u && f in WorldAt(net, load, u).sent && load[f].start <= t
    ensures f in WorldAt(net, load, t).sent && WorldAt(net, load, t).sent[f] < load[f].size
  {
    WorldShape(net, load, t, f);
    WorldShape(net, load, u, f);
    if f in WorldAt(net, load, t).done {
      DoneStays(net, load, t, u, f);
    } else if load[f].size <= WorldAt(net, load, t).sent[f] {
      CompletesAt(net, load, t, u, f);
    }
  }

  /** `more` has the flows of `load` and possibly others, none starting before `p`. */
  ghost predicate Extends(load: Load, more: Load, p: nat) {
    && (forall f :: f in load ==> f in more && more[f] == load[f])
    && forall f :: f in more && f !in load ==> p <= more[f].start
  }

  lemma SameRates(net: Fabric, load: Load, more: Load, run: set<FlowId>)
    requires LoadOk(net, load) && LoadOk(net, more) && run <= load.Keys && run <= more.Keys
    requires forall f :: f in run ==> load[f] == more[f]
    ensures Rates(net, load, run) == Rates(net, more, run)
  {
    assert RoutesOf(load, run) == RoutesOf(more, run);
  }

  /** The past does not depend on flows that start later. */
  lemma {:induction false} PastUnchanged(net: Fabric, load: Load, more: Load, p: nat, t: nat)
    requires LoadOk(net, load) && LoadOk(net, more) && Extends(load, more, p) && t < p
    ensures WorldAt(net, more, t) == WorldAt(net, load, t)
  {
    hide LoadOk, Rates, Tick, Settle;
    if t == 0 {
      assert Starting(load, 0) == Starting(more, 0);
    } else {
      PastUnchanged(net, load, more, p, t - 1);
      var w := WorldAt(net, load, t - 1);
      assert Starting(load, t) == Starting(more, t);
      SameTick(net, load, more, w, t - 1);
    }
  }

  lemma SameSettle(load: Load, more: Load, w: World, t: nat)
    requires Within(w, load) && forall f :: f in load ==> f in more && more[f] == load[f]
    ensures Settle(load, w, t) == Settle(more, w, t)
  {
  }

  lemma SameTick(net: Fabric, load: Load, more: Load, w: World, t: nat)
    requires LoadOk(net, load) && LoadOk(net, more) && Within(w, load) && Within(w, more)
    requires forall f :: f in load ==> f in more && more[f] == load[f]
    requires Starting(load, t + 1) == Starting(more, t + 1)
    ensures Tick(net, load, w, t) == Tick(net, more, w, t)
  {
    hide LoadOk, Rates, Settle, Starting;
    SameSettle(load, more, w, t);
    SameRates(net, load, more, Settle(load, w, t).sent.Keys);
  }

  /** At the very moment the first new flow starts, the others stand as before. */
  lemma PresentUnchanged(net: Fabric, load: Load, more: Load, p: nat, f: FlowId)
    requires LoadOk(net, load) && LoadOk(net, more) && Extends(load, more, p) && f in load
    ensures f in WorldAt(net, load, p).sent <==> f in WorldAt(net, more, p).sent
    ensures f in WorldAt(net, load, p).sent ==> WorldAt(net, load, p).sent[f] == WorldAt(net, more, p).sent[f]
    ensures WorldAt(net, load, p).done == WorldAt(net, more, p).done
  {
    hide LoadOk, Rates, Tick, Settle;
    if p != 0 {
      PastUnchanged(net, load, more, p, p - 1);
      var w := WorldAt(net, load, p - 1);
      SameSettle(load, more, w, p - 1);
      SameRates(net, load, more, Settle(load, w, p - 1).sent.Keys);
      TickDone(net, load, w, p - 1);
      TickDone(net, more, w, p - 1);
      TickOne(net, load, w, p - 1, f);
      TickOne(net, more, w, p - 1, f);
    }
  }

  /*** A long step equals as many short ones ***/

  /** No flow completes strictly inside the next `d` nanoseconds, and none starts there. */
  ghost predicate Quiet(load: Load, sent: map<FlowId, nat>, rate: map<FlowId, nat>, t: nat, d: nat)
    requires sent.Keys <= rate.Keys && sent.Keys <= load.Keys
  {
    && (forall f :: f in sent ==> sent[f] + rate[f] * (d - 1) < load[f].size)
    && forall f :: f in load ==> !(t < load[f].start < t + d)
  }

  lemma RateStep(v: nat, d: nat)
    requires 1 < d
    ensures v * (d - 1) == v * (d - 2) + v && v * (d - 2) >= 0
  {
  }

  lemma QuietBefore(load: Load, sent: map<FlowId, nat>, rate: map<FlowId, nat>, t: nat, d: nat)
    requires sent.Keys <= rate.Keys && sent.Keys <= load.Keys && 1 < d && Quiet(load, sent, rate, t, d)
    ensures Quiet(load, sent, rate, t, d - 1)
  {
    forall f | f in sent ensures sent[f] + rate[f] * (d - 2) < load[f].size {
      RateStep(rate[f], d);
    }
  }

  /** What a quiet stretch makes of one flow. */
  ghost predicate Stretched(load: Load, s: World, rate: map<FlowId, nat>, w: World, t: nat, d: nat, f: FlowId)
    requires s.sent.Keys <= rate.Keys && f in load
  {
    && (f in w.sent <==> f in s.sent || load[f].start == t + d)
    && (f in w.sent ==> w.sent[f] == if load[f].start == t + d then 0 else s.sent[f] + rate[f] * d)
  }

  /** Inside a quiet stretch nothing completes and the speeds do not change. */
  lemma StretchSettled(net: Fabric, load: Load, s: World, rate: map<FlowId, nat>, w: World, t: nat, d: nat)
    requires LoadOk(net, load) && Within(w, load) && Within(s, load) && 1 < d
    requires s.sent.Keys == rate.Keys && Quiet(load, s.sent, rate, t, d)
    requires w.done == s.done && forall f :: f in load ==> Stretched(load, s, rate, w, t, d - 1, f)
    ensures w.sent.Keys == s.sent.Keys && Settle(load, w, t + d - 1) == w
  {
    forall f | f in w.sent ensures f in s.sent && w.sent[f] < load[f].size {
      assert Stretched(load, s, rate, w, t, d - 1, f);
    }
    forall f | f in s.sent ensures f in w.sent {
      assert Stretched(load, s, rate, w, t, d - 1, f);
    }
  }

  /** Stepping over a quiet stretch in one go gives the world that the nanosecond-by-
      nanosecond semantics reaches. */
  lemma {:induction false} Stretch(net: Fabric, load: Load, t: nat, d: nat, s: World, rate: map<FlowId, nat>)
    requires LoadOk(net, load) && 0 < d
    requires s == SettledAt(net, load, t) && rate == Rates(net, load, s.sent.Keys)
    requires Quiet(load, s.sent, rate, t, d)
    ensures WorldAt(net, load, t + d).done == s.done
    ensures forall f :: f in load ==> Stretched(load, s, rate, WorldAt(net, load, t + d), t, d, f)
    decreases d
  {
    hide LoadOk, Rates, Tick, Settle;
    var w := WorldAt(net, load, t + d - 1);
    TickDone(net, load, w, t + d - 1);
    if d != 1 {
      QuietBefore(load, s.sent, rate, t, d);
      Stretch(net, load, t, d - 1, s, rate);
      StretchSettled(net, load, s, rate, w, t, d);
    }
    forall f | f in load
      ensures Stretched(load, s, rate, WorldAt(net, load, t + d), t, d, f)
    {
      TickOne(net, load, w, t + d - 1, f);
      if d != 1 {
        assert Stretched(load, s, rate, w, t, d - 1, f);
      }
      if f in s.sent {
        WorldShape(net, load, t, f);
        RateNext(rate[f], d);
      }
    }
  }

  lemma RateNext(v: nat, d: nat)
    requires 0 < d
    ensures v * (d - 1) + v == v * d
  {
  }
}
