/** What each call adds to the graph of dependencies, edge by edge: these and no others. */
module CallGraphs {
  import opened Collectives
  import opened EventGraph
  import opened EventState
  import opened PointToPoint
  import opened Rendezvous
  import opened StreamOrder

  /** Exactly the allocated ids are known. */
  ghost predicate Known(g: Graph) {
    forall e: EventId :: e in g.deps <==> e < g.next
  }

  /** `n` ids in a row. */
  function Run(first: EventId, n: nat): (ids: seq<EventId>)
    ensures |ids| == n && forall i :: 0 <= i < n ==> ids[i] == first + i
  {
    seq(n, i requires 0 <= i < n => first + i)
  }

  /** The events before `g.next` wait for what they did, all but those in `es`. */
  ghost predicate SameBut(g: Graph, g': Graph, es: set<EventId>) {
    && g.next <= g'.next
    && forall e: EventId :: e < g.next && e !in es ==> e in g.deps && e in g'.deps && g'.deps[e] == g.deps[e]
  }

  /** From event `first` on, `n` kernels, each of which waits for just the one before on the stream. */
  ghost predicate InARow(g: Graph, events: seq<EventId>, first: EventId, n: nat) {
    forall i: nat :: i < n ==> first + i in g.deps && g.deps[first + i] == LastOf(events + Run(first, i))
  }

  lemma RunStarts(first: EventId, n: nat)
    ensures [first] + Run(first + 1, n) == Run(first, n + 1) && Run(first, 0) == []
    ensures Run(first, n) + [first + n] == Run(first, n + 1)
  {
  }

  lemma {:induction false} FlushedExactly(g: Graph, events: seq<EventId>, n: nat)
    requires Known(g)
    ensures var (g', events') := Flushed(g, events, n);
            && Known(g') && g'.next == g.next + n && g'.held == g.held && events' == events + Run(g.next, n)
            && SameBut(g, g', {}) && InARow(g', events, g.next, n)
    decreases n
  {
    if n > 0 {
      var g1 := OnTop(g, events, {});
      assert {} + LastOf(events) == LastOf(events);
      FlushedExactly(g1, events + [g.next], n - 1);
      RunStarts(g.next, n - 1);
      assert events + [g.next] + Run(g.next + 1, n - 1) == events + Run(g.next, n);
      var g' := Flushed(g, events, n).0;
      forall i: nat | i < n ensures g.next + i in g'.deps && g'.deps[g.next + i] == LastOf(events + Run(g.next, i)) {
        if i == 0 {
          assert events + Run(g.next, 0) == events;
          assert g'.deps[g.next] == g1.deps[g.next];
        } else {
          RunStarts(g.next, i - 1);
          assert g.next + i == g1.next + (i - 1);
          assert events + [g.next] + Run(g.next + 1, i - 1) == events + Run(g.next, i);
        }
      }
    } else {
      assert events + Run(g.next, 0) == events;
    }
  }

  /** The kernels buffered on a stream in a row, and on top of them an event that waits for `ds` and for the last
      event before it. */
  lemma AppendedExactly(g: Graph, info: StreamInfo, ds: set<EventId>)
    requires Known(g)
    ensures var (g', events') := Appended(g, info, ds);
            var n := |info.buffered|;
            && Known(g') && g'.next == g.next + n + 1 && g'.held == g.held
            && events' == info.events + Run(g.next, n) + [g.next + n]
            && SameBut(g, g', {}) && InARow(g', info.events, g.next, n)
            && g'.deps[g.next + n] == ds + LastOf(info.events + Run(g.next, n))
  {
    var n := |info.buffered|;
    FlushedExactly(g, info.events, n);
    var (g1, events) := Flushed(g, info.events, n);
    var g' := OnTop(g1, events, ds);
    forall i: nat | i < n
        ensures g.next + i in g'.deps && g'.deps[g.next + i] == LastOf(info.events + Run(g.next, i)) {
      assert g1.deps[g.next + i] == LastOf(info.events + Run(g.next, i));
    }
  }

  /** The call that opens a collective adds: a held barrier; the buffered kernels; the stream's start, which waits for
      the barrier and the event before it; the common start, which waits for that start; the common end, which waits
      for the common start; and the stream's end, which waits for the common end and the stream's start. */
  lemma OpenedExactly(g: Graph, info: StreamInfo)
    requires Known(g)
    ensures var (g', events') := Opened(g, info);
            var barrier, n := g.next, |info.buffered|;
            var start := barrier + n + 1;
            && g'.next == start + 4 && g'.held == g.held + {barrier} && SameBut(g, g', {})
            && events' == info.events + Run(barrier + 1, n) + [start] + [start + 3]
            && barrier in g'.deps && g'.deps[barrier] == {} && InARow(g', info.events, barrier + 1, n)
            && start in g'.deps && g'.deps[start] == {barrier} + LastOf(info.events + Run(barrier + 1, n))
            && start + 1 in g'.deps && g'.deps[start + 1] == {start}
            && start + 2 in g'.deps && g'.deps[start + 2] == {start + 1}
            && start + 3 in g'.deps && g'.deps[start + 3] == {start + 2, start}
  {
    hide Appended, InARow, SameBut, Run, Known;
    var barrier, n := g.next, |info.buffered|;
    var start := barrier + n + 1;
    StartExactly(g, info);
    var (g1, events) := Appended(AddNode(g, {}, true), info, {barrier});
    MetaExactly(g1, start);
    var g2 := AddNode(AddNode(g1, {start}, false), {start + 1}, false);
    EndExactly(g2, events, start, {start + 2});
    var (g', events') := Appended(g2, StreamInfo(events, []), {start + 2});
    assert {start + 2} + {start} == {start + 2, start};
    SameTwice(g1, g2, g');
    SameTwice(g, g1, g');
    StaysInARow(g1, g', info.events, barrier + 1, n) by { SameAt(g1, g', barrier + 1, n); }
    SameAt(g1, g', barrier, 1);
    SameAt(g1, g', start, 1);
    SameAt(g2, g', start + 1, 2);
  }

  /** A new barrier, and the buffered kernels and an event that waits for the barrier on a stream. */
  lemma StartExactly(g: Graph, info: StreamInfo)
    requires Known(g)
    ensures var (g', events') := Appended(AddNode(g, {}, true), info, {g.next});
            var barrier, n := g.next, |info.buffered|;
            var start := barrier + n + 1;
            && Known(g') && g'.next == start + 1 && g'.held == g.held + {barrier} && SameBut(g, g', {})
            && events' == info.events + Run(barrier + 1, n) + [start] && Newest(events') == start
            && barrier in g'.deps && g'.deps[barrier] == {} && InARow(g', info.events, barrier + 1, n)
            && start in g'.deps && g'.deps[start] == {barrier} + LastOf(info.events + Run(barrier + 1, n))
  {
    hide Appended, InARow, Run;
    AppendedExactly(AddNode(g, {}, true), info, {g.next});
  }

  /** A single event on top of a stream without buffered kernels. */
  lemma EndExactly(g: Graph, events: seq<EventId>, last: EventId, ds: set<EventId>)
    requires Known(g) && events != [] && Newest(events) == last
    ensures var (g', events') := Appended(g, StreamInfo(events, []), ds);
            && Known(g') && g'.next == g.next + 1 && g'.held == g.held && SameBut(g, g', {})
            && events' == events + [g.next] && g.next in g'.deps && g'.deps[g.next] == ds + {last}
  {
    hide Appended;
    AppendedExactly(g, StreamInfo(events, []), ds);
    assert events + Run(g.next, 0) == events;
  }

  lemma MetaExactly(g: Graph, start: EventId)
    requires Known(g) && start + 1 == g.next
    ensures var g' := AddNode(AddNode(g, {start}, false), {start + 1}, false);
            && Known(g') && g'.next == start + 3 && g'.held == g.held && SameBut(g, g', {})
            && g'.deps[start + 1] == {start} && g'.deps[start + 2] == {start + 1}
  {
  }

  lemma SameTwice(g: Graph, g1: Graph, g2: Graph)
    requires SameBut(g, g1, {}) && SameBut(g1, g2, {})
    ensures SameBut(g, g2, {})
  {
  }

  lemma SameAt(g: Graph, g': Graph, first: EventId, n: nat)
    requires SameBut(g, g', {}) && first + n <= g.next
    ensures forall e: EventId :: first <= e < first + n ==> e in g.deps && e in g'.deps && g'.deps[e] == g.deps[e]
  {
  }

  lemma StaysInARow(g: Graph, g': Graph, events: seq<EventId>, first: EventId, n: nat)
    requires InARow(g, events, first, n) && first + n <= g.next
    requires forall e: EventId :: first <= e < first + n ==> e in g'.deps && e in g.deps && g'.deps[e] == g.deps[e]
    ensures InARow(g', events, first, n)
  {
  }

  /** A further rank's call adds: the buffered kernels; the stream's start, which waits for the barrier and the event
      before it, and for which the common start now waits too; and the stream's end, which waits for the common end
      and the stream's start. */
  lemma JoinedExactly(g: Graph, info: StreamInfo, c: CCWaiting)
    requires Known(g) && c.commStart < g.next
    ensures var (g', events') := JoinedGraph(g, info, c);
            var n := |info.buffered|;
            var start := g.next + n;
            && g'.next == start + 2 && g'.held == g.held && SameBut(g, g', {c.commStart})
            && events' == info.events + Run(g.next, n) + [start] + [start + 1] && InARow(g', info.events, g.next, n)
            && start in g'.deps && g'.deps[start] == {c.barrier} + LastOf(info.events + Run(g.next, n))
            && c.commStart in g'.deps && g'.deps[c.commStart] == g.deps[c.commStart] + {start}
            && start + 1 in g'.deps && g'.deps[start + 1] == {c.commEnd, start}
  {
    hide Appended;
    var n := |info.buffered|;
    var start := g.next + n;
    AppendedExactly(g, info, {c.barrier});
    var (g1, events) := Appended(g, info, {c.barrier});
    assert Newest(events) == start && g1.next == start + 1;
    var g2 := AddEdge(g1, c.commStart, start);
    EndExactly(g2, events, start, {c.commEnd});
    assert {c.commEnd} + {start} == {c.commEnd, start};
    StaysInARow(g1, JoinedGraph(g, info, c).0, info.events, g.next, n);
  }

  lemma {:induction false} WithFlowsExactly(g: Graph, commStart: EventId, n: nat)
    requires Known(g)
    ensures var g' := WithFlows(g, commStart, n);
            && Known(g') && g'.next == g.next + n && g'.held == g.held && SameBut(g, g', {})
            && forall f: EventId :: g.next <= f < g.next + n ==> g'.deps[f] == {commStart}
    decreases n
  {
    if n > 0 {
      var g1 := AddNode(g, {commStart}, false);
      WithFlowsExactly(g1, commStart, n - 1);
      assert g1.deps[g.next] == {commStart};
    }
  }

  function Between(first: EventId, n: nat): (ids: set<EventId>)
    ensures forall e: EventId :: e in ids <==> first <= e < first + n
    decreases n
  {
    if n == 0 then {} else {first} + Between(first + 1, n - 1)
  }

  lemma {:induction false} WithFlowEndsExactly(g: Graph, commEnd: EventId, first: EventId, n: nat)
    requires Known(g) && commEnd < g.next
    ensures var g' := WithFlowEnds(g, commEnd, first, n);
            && Known(g') && g'.next == g.next && g'.held == g.held && SameBut(g, g', {commEnd})
            && g'.deps[commEnd] == g.deps[commEnd] + Between(first, n)
    decreases n
  {
    if n > 0 {
      WithFlowEndsExactly(AddEdge(g, commEnd, first), commEnd, first + 1, n - 1);
    }
  }

  /** The call that completes a collective adds the flows, which all wait for the common start and nothing else, and
      for all of which the common end now waits; and lets go of the barrier. */
  lemma CompletedExactly(g: Graph, c: CCWaiting)
    requires Known(g) && c.commEnd < g.next
    ensures var g' := Completed(g, c);
            && g'.next == g.next + c.flows && g'.held == g.held - {c.barrier} && SameBut(g, g', {c.commEnd})
            && (forall f: EventId :: g.next <= f < g.next + c.flows ==> f in g'.deps && g'.deps[f] == {c.commStart})
            && c.commEnd in g'.deps && g'.deps[c.commEnd] == g.deps[c.commEnd] + Between(g.next, c.flows)
  {
    hide WithFlows, WithFlowEnds;
    WithFlowsExactly(g, c.commStart, c.flows);
    WithFlowEndsExactly(WithFlows(g, c.commStart, c.flows), c.commEnd, g.next, c.flows);
  }

  /** A single send or receive adds: a held barrier; the buffered kernels; and on the stream a start, which waits for
      the barrier and the event before it, and an end, which waits for the start. */
  lemma EndpointExactly(d: Desk, stream: Stream, time: nat)
    requires Known(d.graph)
    ensures var g, info, d', ep := d.graph, InfoAt(d.streams, stream), Ungrouped(d, stream),
            UngroupedEndpoint(d, stream, time);
            var n := |info.buffered|;
            && d'.graph.next == g.next + n + 3 && d'.graph.held == g.held + {ep.barrier} && SameBut(g, d'.graph, {})
            && ep.barrier == g.next && ep.flowStart == g.next + n + 1 && ep.flowEnd == g.next + n + 2 && ep.time == time
            && d'.streams == d.streams[stream := StreamInfo(info.events + Run(g.next + 1, n) + [ep.flowStart]
                + [ep.flowEnd], [])]
            && ep.barrier in d'.graph.deps && d'.graph.deps[ep.barrier] == {}
            && InARow(d'.graph, info.events, g.next + 1, n)
            && ep.flowStart in d'.graph.deps
            && d'.graph.deps[ep.flowStart] == {ep.barrier} + LastOf(info.events + Run(g.next + 1, n))
            && ep.flowEnd in d'.graph.deps && d'.graph.deps[ep.flowEnd] == {ep.flowStart}
  {
    hide Appended;
    var g, info := d.graph, InfoAt(d.streams, stream);
    var start := g.next + |info.buffered| + 1;
    StartExactly(g, info);
    var (g1, events) := Appended(AddNode(g, {}, true), info, {g.next});
    EndExactly(g1, events, start, {start});
    assert {start} + {start} == {start};
    StaysInARow(g1, Ungrouped(d, stream).graph, info.events, g.next + 1, |info.buffered|);
  }

  /** A matched pair adds its flow, which waits for both starts and nothing else, and for which both ends now wait; and
      lets go of both barriers. */
  lemma TransferExactly(g: Graph, send: Endpoint, recv: Endpoint)
    requires Known(g) && send.flowEnd < g.next && recv.flowEnd < g.next
    ensures var g', flow := Transfer(g, send, recv), g.next;
            && g'.next == flow + 1 && g'.held == g.held - {send.barrier} - {recv.barrier}
            && SameBut(g, g', {send.flowEnd, recv.flowEnd})
            && flow in g'.deps && g'.deps[flow] == {send.flowStart, recv.flowStart}
            && send.flowEnd in g'.deps && g'.deps[send.flowEnd] == g.deps[send.flowEnd] + {flow}
            && recv.flowEnd in g'.deps && g'.deps[recv.flowEnd] == g.deps[recv.flowEnd] + {flow}
  {
  }

  /*** Groups ***/

  /** From `g` on, one endpoint after the other: a barrier; a start, which waits for the group's start and that barrier;
      and an end, which waits for that start. */
  ghost predicate SetUp(g: Graph, g': Graph, start: EventId, eps: seq<Endpoint>) {
    && g'.next == g.next + 3 * |eps| && SameBut(g, g', {})
    && forall i :: 0 <= i < |eps| ==> SetUpAt(g', start, eps[i], g.next + 3 * i)
  }

  ghost predicate SetUpAt(g: Graph, start: EventId, ep: Endpoint, first: EventId) {
    && ep.barrier == first && ep.flowStart == first + 1 && ep.flowEnd == first + 2
    && ep.barrier in g.deps && g.deps[ep.barrier] == {}
    && ep.flowStart in g.deps && g.deps[ep.flowStart] == {start, ep.barrier}
    && ep.flowEnd in g.deps && g.deps[ep.flowEnd] == {ep.flowStart}
  }

  lemma NoneSetUp(g: Graph, start: EventId)
    requires Known(g)
    ensures SetUp(g, g, start, [])
  {
  }

  lemma SetUpStays(g: Graph, g': Graph, start: EventId, ep: Endpoint, first: EventId)
    requires SetUpAt(g, start, ep, first) && SameBut(g, g', {}) && first + 2 < g.next
    ensures SetUpAt(g', start, ep, first)
  {
  }

  lemma OneMoreSetUp(g: Graph, g1: Graph, g2: Graph, start: EventId, eps: seq<Endpoint>, ep: Endpoint)
    requires SetUp(g, g1, start, eps) && SameBut(g1, g2, {}) && g2.next == g1.next + 3
    requires SetUpAt(g2, start, ep, g1.next)
    ensures SetUp(g, g2, start, eps + [ep])
  {
    hide SameBut, SetUpAt;
    SameTwice(g, g1, g2);
    forall i | 0 <= i < |eps + [ep]| ensures SetUpAt(g2, start, (eps + [ep])[i], g.next + 3 * i) {
      if i < |eps| { SetUpStays(g1, g2, start, eps[i], g.next + 3 * i); }
    }
  }

  /** The events of an endpoint of a group. */
  lemma SetUpExactly(g: Graph, start: EventId, ep: Endpoint)
    requires Known(g) && ep.barrier == g.next && ep.flowStart == g.next + 1 && ep.flowEnd == g.next + 2
    ensures var g' := AddNode(AddNode(AddNode(g, {}, true), {start, ep.barrier}, false), {ep.flowStart}, false);
            SameBut(g, g', {}) && g'.next == g.next + 3 && SetUpAt(g', start, ep, g.next)
  {
  }

  /** A group adds on its stream: the buffered kernels; a start, which waits for a held barrier and the event before it;
      and, after all its endpoints, an end, which waits for the start and the ends of all endpoints. */
  ghost predicate GroupIs(g: Graph, info: StreamInfo, g': Graph, events: seq<EventId>, f: Fused) {
    var n := |info.buffered|;
    && f.barrier == g.next && f.start == g.next + n + 1 && f.end == f.start + 1 + 3 * |f.eps| && SameBut(g, g', {})
    && events == info.events + Run(g.next + 1, n) + [f.start] + [f.end]
    && f.barrier in g'.deps && g'.deps[f.barrier] == {} && InARow(g', info.events, g.next + 1, n)
    && f.start in g'.deps && g'.deps[f.start] == {f.barrier} + LastOf(info.events + Run(g.next + 1, n))
    && (forall i :: 0 <= i < |f.eps| ==> SetUpAt(g', f.start, f.eps[i], f.start + 1 + 3 * i))
    && f.end in g'.deps
    && forall e :: e in g'.deps[f.end] <==> e == f.start || exists i :: 0 <= i < |f.eps| && e == f.eps[i].flowEnd
  }

  lemma GroupExactly(g: Graph, info: StreamInfo, g2: Graph, ends: set<EventId>, f: Fused)
    requires Known(g) && Known(g2) && f.barrier == g.next && f.start == g.next + |info.buffered| + 1 && f.end == g2.next
    requires var (g1, events) := Appended(AddNode(g, {}, true), info, {g.next}); SetUp(g1, g2, f.start, f.eps)
    requires forall e :: e in ends <==> e == f.start || exists i :: 0 <= i < |f.eps| && e == f.eps[i].flowEnd
    ensures var (g1, events1) := Appended(AddNode(g, {}, true), info, {g.next});
            var (g', events) := Appended(g2, StreamInfo(events1, []), ends);
            GroupIs(g, info, g', events, f) && g'.next == f.end + 1 && Known(g')
  {
    hide Appended, InARow, SameBut, Run, Known, SetUpAt;
    var n := |info.buffered|;
    StartExactly(g, info);
    var (g1, events1) := Appended(AddNode(g, {}, true), info, {g.next});
    EndExactly(g2, events1, f.start, ends);
    var (g', events) := Appended(g2, StreamInfo(events1, []), ends);
    SameTwice(g1, g2, g');
    SameTwice(g, g1, g');
    SameAt(g1, g', f.barrier, 1);
    SameAt(g1, g', f.start, 1);
    StaysInARow(g1, g', info.events, g.next + 1, n) by { SameAt(g1, g', g.next + 1, n); }
    forall i | 0 <= i < |f.eps| ensures SetUpAt(g', f.start, f.eps[i], f.start + 1 + 3 * i) {
      SetUpStays(g2, g', f.start, f.eps[i], f.start + 1 + 3 * i);
    }
    assert ends + {f.start} == ends;
  }
}
