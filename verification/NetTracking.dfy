/** How the optimistic simulator's records relate to the in-order reference: each
    flow's speed history must integrate, at every past moment, to exactly what the
    reference semantics had that flow send by then. */
module NetTracking {
  import opened FairShare
  import opened NetReference
  import opened SpeedHistory

  /** Up to `until`, flow `f` has been under way and `h` records its progress. */
  ghost predicate Tracks(net: Fabric, load: Load, f: FlowId, h: seq<Span>, until: nat)
    requires LoadOk(net, load) && f in load
  {
    && load[f].start <= until
    && forall t: nat :: load[f].start <= t <= until ==> TracksNow(net, load, f, h, t)
  }

  ghost predicate TracksNow(net: Fabric, load: Load, f: FlowId, h: seq<Span>, t: nat)
    requires LoadOk(net, load) && f in load
  {
    f in WorldAt(net, load, t).sent && WorldAt(net, load, t).sent[f] == SentBy(h, t)
  }

  /** A flow that starts now has an empty history. */
  lemma TracksStart(net: Fabric, load: Load, f: FlowId)
    requires LoadOk(net, load) && f in load
    ensures Tracks(net, load, f, [], load[f].start)
  {
    hide LoadOk, WorldAt;
    WorldShape(net, load, load[f].start, f);
  }

  /** Rolling a history back keeps it true of the time that remains. */
  lemma TracksBack(net: Fabric, load: Load, f: FlowId, h: seq<Span>, until: nat, past: nat)
    requires LoadOk(net, load) && f in load && Tracks(net, load, f, h, until)
    requires load[f].start <= past <= until
    ensures Tracks(net, load, f, Before(h, past), past)
  {
    hide LoadOk, WorldAt, SentBy, Before;
    forall t: nat | load[f].start <= t <= past
      ensures TracksNow(net, load, f, Before(h, past), t)
    {
      assert TracksNow(net, load, f, h, t);
      BeforeKeepsThePast(h, past, t);
    }
  }

  /** A history stays true when flows that start later become known. */
  lemma TracksMore(net: Fabric, load: Load, more: Load, p: nat, f: FlowId, h: seq<Span>, until: nat)
    requires LoadOk(net, load) && LoadOk(net, more) && Extends(load, more, p) && until <= p
    requires f in load && Tracks(net, load, f, h, until)
    ensures f in more && Tracks(net, more, f, h, until)
  {
    hide LoadOk, WorldAt, SentBy;
    forall t: nat | more[f].start <= t <= until
      ensures TracksNow(net, more, f, h, t)
    {
      assert TracksNow(net, load, f, h, t);
      if t < p {
        PastUnchanged(net, load, more, p, t);
      } else {
        PresentUnchanged(net, load, more, p, f);
      }
    }
  }

  /** The `(start, 0)` entries that end a history do not change what it says of the past. */
  lemma TracksPush(net: Fabric, load: Load, f: FlowId, h: seq<Span>, until: nat, e: Span)
    requires LoadOk(net, load) && f in load && Tracks(net, load, f, h, until) && until <= e.start
    ensures Tracks(net, load, f, h + [e], until)
  {
    hide LoadOk, WorldAt, SentBy;
    forall t: nat | load[f].start <= t <= until
      ensures TracksNow(net, load, f, h + [e], t)
    {
      assert TracksNow(net, load, f, h, t);
      SentByPush(h, e, t);
    }
  }

  lemma QuietSooner(load: Load, sent: map<FlowId, nat>, rate: map<FlowId, nat>, t: nat, d: nat, e: nat)
    requires sent.Keys <= rate.Keys && sent.Keys <= load.Keys && 0 < e <= d && Quiet(load, sent, rate, t, d)
    ensures Quiet(load, sent, rate, t, e)
  {
    forall f | f in sent ensures sent[f] + rate[f] * (e - 1) < load[f].size {
      assert rate[f] * (e - 1) <= rate[f] * (d - 1);
    }
  }

  lemma TracksAhead(net: Fabric, load: Load, f: FlowId, h: seq<Span>, ts: nat, d: nat, e: nat,
                    s: World, rate: map<FlowId, nat>)
    requires LoadOk(net, load) && f in load && load[f].start <= ts && 0 < e <= d
    requires s == SettledAt(net, load, ts) && rate == Rates(net, load, s.sent.Keys)
    requires f in s.sent && s.sent[f] == SentBy(h, ts)
    requires Quiet(load, s.sent, rate, ts, d)
    ensures TracksNow(net, load, f, h + [Span(ts, rate[f])], ts + e)
  {
    hide LoadOk, WorldAt, SentBy, Rates, Settle, SettledAt, Quiet;
    QuietSooner(load, s.sent, rate, ts, d, e);
    Stretch(net, load, ts, e, s, rate);
    assert Stretched(load, s, rate, WorldAt(net, load, ts + e), ts, e, f);
    SentByPush(h, Span(ts, rate[f]), ts + e);
    assert rate[f] * e == e * rate[f];
  }

  /** Recording the current speed keeps a history true over a quiet stretch. */
  lemma TracksForward(net: Fabric, load: Load, f: FlowId, h: seq<Span>, ts: nat, d: nat,
                      s: World, rate: map<FlowId, nat>)
    requires LoadOk(net, load) && f in load && Tracks(net, load, f, h, ts) && 0 < d
    requires s == SettledAt(net, load, ts) && rate == Rates(net, load, s.sent.Keys)
    requires f in s.sent && s.sent[f] == SentBy(h, ts)
    requires Quiet(load, s.sent, rate, ts, d)
    ensures Tracks(net, load, f, h + [Span(ts, rate[f])], ts + d)
  {
    hide LoadOk, WorldAt, SentBy, Rates, Settle, SettledAt, Quiet, TracksNow;
    forall t: nat | load[f].start <= t <= ts + d
      ensures TracksNow(net, load, f, h + [Span(ts, rate[f])], t)
    {
      if t <= ts {
        TracksPush(net, load, f, h, ts, Span(ts, rate[f]));
      } else {
        TracksAhead(net, load, f, h, ts, d, t - ts, s, rate);
      }
    }
  }

  /*** Where each flow is ***/

  /** Every flow is buffered, running or retired, and its history tracks the reference. */
  ghost predicate InStep(net: Fabric, load: Load, ts: nat, running: map<FlowId, seq<Span>>,
      retired: map<FlowId, seq<Span>>)
    requires LoadOk(net, load)
  {
    && running.Keys <= load.Keys && retired.Keys <= load.Keys && running.Keys !! retired.Keys
    && (forall f :: f in load && f !in running && f !in retired ==> ts < load[f].start)
    && (forall f :: f in running ==> Tracks(net, load, f, running[f], ts))
    && (forall f :: f in retired ==> CompletedInStep(net, load, f, retired[f], ts))
  }

  ghost predicate CompletedInStep(net: Fabric, load: Load, f: FlowId, h: seq<Span>, ts: nat)
    requires LoadOk(net, load) && f in load
  {
    && Terminated(h) && EndOf(h) <= ts
    && Tracks(net, load, f, h, EndOf(h)) && load[f].size <= SentBy(h, EndOf(h))
  }

  /** The simulator's own account of the network. */
  ghost function Seen(running: map<FlowId, seq<Span>>, retired: map<FlowId, seq<Span>>, ts: nat): World
    requires forall f :: f in retired ==> Terminated(retired[f])
  {
    World(map f | f in running :: SentBy(running[f], ts), map f | f in retired :: EndOf(retired[f]))
  }

  /** The simulator agrees with the in-order reference, once both have retired what is complete. */
  ghost predicate Synced(net: Fabric, load: Load, ts: nat, running: map<FlowId, seq<Span>>,
      retired: map<FlowId, seq<Span>>)
    requires LoadOk(net, load) && running.Keys <= load.Keys && retired.Keys <= load.Keys
    requires forall f :: f in retired ==> Terminated(retired[f])
  {
    Settle(load, Seen(running, retired, ts), ts) == SettledAt(net, load, ts)
  }

  /** A retired flow is done in the settled reference, at the same time. */
  lemma RetiredIsDone(net: Fabric, load: Load, ts: nat, f: FlowId, h: seq<Span>)
    requires LoadOk(net, load) && f in load && CompletedInStep(net, load, f, h, ts)
    ensures var w := WorldAt(net, load, ts);
            && (f in w.sent ==> EndOf(h) == ts && load[f].size <= w.sent[f])
            && (f !in w.sent ==> f in w.done && w.done[f] == EndOf(h))
  {
    hide LoadOk, WorldAt, SentBy;
    assert TracksNow(net, load, f, h, EndOf(h));
    WorldShape(net, load, ts, f);
    if EndOf(h) < ts {
      CompletesAt(net, load, EndOf(h), ts, f);
    }
  }

  /** Settling one flow. */
  lemma SettleOne(load: Load, w: World, t: nat, f: FlowId)
    requires Within(w, load) && f in load
    ensures var s := Settle(load, w, t);
            && (f in s.sent <==> f in w.sent && w.sent[f] < load[f].size)
            && (f in s.sent ==> s.sent[f] == w.sent[f])
            && (f in s.done <==> f in w.done || (f in w.sent && load[f].size <= w.sent[f]))
            && (f in s.done ==> s.done[f] == if f in w.sent && load[f].size <= w.sent[f] then t else w.done[f])
  {
  }

  lemma SameWorld(load: Load, a: World, b: World)
    requires Within(a, load) && Within(b, load)
    requires forall f :: f in load ==> SameProgress(a, b, f)
    ensures a == b
  {
    assert a.sent.Keys == b.sent.Keys by {
      forall f | f in a.sent || f in b.sent ensures f in a.sent && f in b.sent { assert SameProgress(a, b, f); }
    }
    assert a.done.Keys == b.done.Keys by {
      forall f | f in a.done || f in b.done ensures f in a.done && f in b.done { assert SameProgress(a, b, f); }
    }
    forall f | f in a.sent ensures a.sent[f] == b.sent[f] { assert SameProgress(a, b, f); }
    forall f | f in a.done ensures a.done[f] == b.done[f] { assert SameProgress(a, b, f); }
    assert a.sent == b.sent;
    assert a.done == b.done;
  }

  ghost predicate SameProgress(a: World, b: World, f: FlowId) {
    && (f in a.sent <==> f in b.sent) && (f in a.sent ==> a.sent[f] == b.sent[f])
    && (f in a.done <==> f in b.done) && (f in a.done ==> a.done[f] == b.done[f])
  }

  lemma SyncedOne(net: Fabric, load: Load, ts: nat, running: map<FlowId, seq<Span>>, retired: map<FlowId, seq<Span>>,
      f: FlowId)
    requires LoadOk(net, load) && InStep(net, load, ts, running, retired) && f in load
    ensures SameProgress(Settle(load, Seen(running, retired, ts), ts), SettledAt(net, load, ts), f)
  {
    hide LoadOk, WorldAt, Settle, SentBy, Tracks;
    var w := WorldAt(net, load, ts);
    SettleOne(load, Seen(running, retired, ts), ts, f);
    SettleOne(load, w, ts, f);
    WorldShape(net, load, ts, f);
    if f in running {
      TracksAtEnd(net, load, f, running[f], ts);
    } else if f in retired {
      RetiredIsDone(net, load, ts, f, retired[f]);
    }
  }

  lemma TracksAtEnd(net: Fabric, load: Load, f: FlowId, h: seq<Span>, until: nat)
    requires LoadOk(net, load) && f in load && Tracks(net, load, f, h, until)
    ensures TracksNow(net, load, f, h, until)
  {
  }

  /** Histories that track the reference make the whole state agree with it. */
  lemma InStepSynced(net: Fabric, load: Load, ts: nat, running: map<FlowId, seq<Span>>, retired: map<FlowId, seq<Span>>)
    requires LoadOk(net, load) && InStep(net, load, ts, running, retired)
    ensures Synced(net, load, ts, running, retired)
  {
    hide LoadOk, WorldAt, Settle, SentBy, Tracks;
    forall f | f in load
      ensures SameProgress(Settle(load, Seen(running, retired, ts), ts), SettledAt(net, load, ts), f)
    {
      SyncedOne(net, load, ts, running, retired, f);
    }
    SameWorld(load, Settle(load, Seen(running, retired, ts), ts), SettledAt(net, load, ts));
  }

  /** When no running flow is complete, the settled reference has exactly the running
      flows under way, with the same progress. */
  lemma RunningIsSettled(net: Fabric, load: Load, ts: nat, running: map<FlowId, seq<Span>>,
      retired: map<FlowId, seq<Span>>)
    requires LoadOk(net, load) && InStep(net, load, ts, running, retired)
    requires forall f :: f in running ==> SentBy(running[f], ts) < load[f].size
    ensures SettledAt(net, load, ts).sent == map f | f in running :: SentBy(running[f], ts)
  {
    hide LoadOk, WorldAt, SentBy, Tracks, SettledAt;
    InStepSynced(net, load, ts, running, retired);
    var seen := Seen(running, retired, ts);
    assert Settle(load, seen, ts).sent == seen.sent;
  }
}
