/** Kernels, copies, single sends and receives, and synchronize calls leave every event waiting for exactly what it
    should; and every endpoint so far stands on a stream, alone or in a group. */
module ExactSteps {
  import opened CallGraphs
  import opened Collectives
  import opened EventGraph
  import opened EventState
  import opened ExactDesk
  import opened ExactTransfers
  import opened PointToPoint
  import opened Rendezvous
  import opened StreamOrder

  lemma DeskIsKnown(d: Desk, extra: set<EventId>)
    requires DeskBut(d, extra)
    ensures Known(d.graph)
  {
    hide DeskBut;
    DeskIsDense(d, extra);
  }

  lemma KnownIsSame(g: Graph, es: set<EventId>)
    requires Known(g)
    ensures SameBut(g, g, es)
  {
  }

  /** The graph stays, and streams go on. */
  lemma StreamsExact(d: Desk, d': Desk)
    requires DeskOk(d) && ExactOk(d) && Continues(d.streams, d'.streams)
    requires d' == d.(streams := d'.streams, groups := d'.groups)
    ensures ExactOk(d')
  {
    hide DeskBut, HistoryOk, ExactBut, Continues;
    DeskIsKnown(d, {});
    KnownIsSame(d.graph, {});
    ExactGrows(d, d', {}, {});
  }

  lemma NodeExact(d: Desk, ds: set<EventId>)
    requires DeskOk(d) && ExactOk(d)
    ensures ExactOk(d.(graph := AddNode(d.graph, ds, false)))
  {
    hide DeskBut, HistoryOk, ExactBut, Continues;
    DeskIsKnown(d, {});
    SameContinues(d.streams);
    ExactGrows(d, d.(graph := AddNode(d.graph, ds, false)), {}, {});
  }

  lemma OnStreamExact(d: Desk, stream: Stream, ds: set<EventId>)
    requires DeskOk(d) && ExactOk(d)
    ensures ExactOk(OnStream(d, stream, ds))
  {
    hide DeskBut, HistoryOk, ExactBut, Continues, Appended, InARow, SameBut;
    DeskIsKnown(d, {});
    var d', info := OnStream(d, stream, ds), InfoAt(d.streams, stream);
    AppendedExactly(d.graph, info, ds);
    StreamContinues(d.streams, stream, d'.streams[stream]);
    ExactGrows(d, d', {}, {});
  }

  lemma FlushedExact(d: Desk, stream: Stream)
    requires DeskOk(d) && ExactOk(d)
    ensures var info := InfoAt(d.streams, stream);
            var (g, events) := Flushed(d.graph, info.events, |info.buffered|);
            ExactOk(d.(graph := g, streams := d.streams[stream := StreamInfo(events, [])]))
  {
    hide DeskBut, HistoryOk, ExactBut, Continues, Flushed, InARow, SameBut;
    DeskIsKnown(d, {});
    var info := InfoAt(d.streams, stream);
    FlushedExactly(d.graph, info.events, |info.buffered|);
    var (g, events) := Flushed(d.graph, info.events, |info.buffered|);
    StreamContinues(d.streams, stream, StreamInfo(events, []));
    ExactGrows(d, d.(graph := g, streams := d.streams[stream := StreamInfo(events, [])]), {}, {});
  }

  /** The start of a single endpoint. */
  lemma SingleIs(d: Desk, stream: Stream, time: nat)
    requires DeskOk(d) && ExactOk(d)
    ensures var d', ep := Ungrouped(d, stream), UngroupedEndpoint(d, stream, time);
            && ExactBut(d', {ep.flowEnd}) && EndWaits(d'.graph, ep) && Known(d'.graph)
            && SingleExact(d'.graph, d'.streams, Opens(d', {ep.flowEnd}), LastSingle(d', stream, ep))
  {
    hide DeskBut, HistoryOk, ExactBut, Continues, Ungrouped, InARow, SameBut, Strung, Opens;
    DeskIsKnown(d, {});
    var d', ep, info := Ungrouped(d, stream), UngroupedEndpoint(d, stream, time), InfoAt(d.streams, stream);
    EndpointExactly(d, stream, time);
    UngroupedGrows(d, stream);
    StreamContinues(d.streams, stream, d'.streams[stream]);
    ExactGrows(d, d', {}, {ep.flowEnd});
    UngroupedOk(d, stream, time);
    DeskIsKnown(d', {ep.barrier});
    OpenIsOld(d, d', {ep.flowEnd});
    var events := d'.streams[stream].events;
    assert events[..|events| - 2] == info.events + Run(d.graph.next + 1, |info.buffered|);
  }

  /** A single send or receive, matched or not. */
  lemma EnteredExact(d: Desk, side: Side, key: P2PKey, stream: Stream, time: nat)
    requires DeskOk(d) && ExactOk(d)
    ensures ExactOk(Entered(d, side, key, stream, time))
  {
    hide DeskBut, HistoryOk, ExactBut, Ungrouped, Processed, Lined, SingleExact, FusedExact, EndWaits, Opens;
    var d', ep := Ungrouped(d, stream), UngroupedEndpoint(d, stream, time);
    SingleIs(d, stream, time);
    UngroupedGrows(d, stream);
    HistoryLined(d);
    var single := LastSingle(d', stream, ep);
    RecordsHere(d', {ep.flowEnd});
    var d1 := WithSingle(d', single);
    OtherRecords(d', d1, {ep.flowEnd});
    ProcessedExact(d1, {ep.flowEnd}, side, key, ep);
    SameProcessed(d', d1, side, key, ep);
    assert {ep.flowEnd} - {ep.flowEnd} == {};
  }

  lemma UngroupedGrows(d: Desk, stream: Stream)
    ensures var d' := Ungrouped(d, stream); d' == d.(graph := d'.graph, streams := d'.streams)
  {
    hide EndpointOn;
  }

  /*** Where endpoints stand ***/

  /** The endpoint is recorded, as a single one or in a group. */
  ghost predicate Recorded(fused: seq<Fused>, singles: seq<Single>, ep: Endpoint) {
    || (exists i :: 0 <= i < |singles| && singles[i].ep == ep)
    || exists i, j :: 0 <= i < |fused| && 0 <= j < |fused[i].eps| && fused[i].eps[j] == ep
  }

  ghost predicate AllRecorded(fused: seq<Fused>, singles: seq<Single>, eps: seq<Endpoint>) {
    forall i :: 0 <= i < |eps| ==> Recorded(fused, singles, eps[i])
  }

  /** So are all endpoints so far. */
  ghost predicate RecordedOk(sends: P2PKey -> seq<Endpoint>, recvs: P2PKey -> seq<Endpoint>, fused: seq<Fused>,
      singles: seq<Single>)
  {
    forall key :: AllRecorded(fused, singles, sends(key)) && AllRecorded(fused, singles, recvs(key))
  }

  lemma StillRecorded(fused: seq<Fused>, singles: seq<Single>, fused': seq<Fused>, singles': seq<Single>,
      eps: seq<Endpoint>)
    requires AllRecorded(fused, singles, eps) && fused <= fused' && singles <= singles'
    ensures AllRecorded(fused', singles', eps)
  {
    forall i | 0 <= i < |eps| ensures Recorded(fused', singles', eps[i]) {
      assert Recorded(fused, singles, eps[i]);
      if k :| 0 <= k < |singles| && singles[k].ep == eps[i] {
        assert singles'[k].ep == eps[i];
      } else {
        var k, j :| 0 <= k < |fused| && 0 <= j < |fused[k].eps| && fused[k].eps[j] == eps[i];
        assert fused'[k].eps[j] == eps[i];
      }
    }
  }

  lemma BothRecorded(fused: seq<Fused>, singles: seq<Single>, eps: seq<Endpoint>, more: seq<Endpoint>)
    requires AllRecorded(fused, singles, eps) && AllRecorded(fused, singles, more)
    ensures AllRecorded(fused, singles, eps + more)
  {
    hide Recorded;
  }

  lemma LastRecorded(fused: seq<Fused>, singles: seq<Single>, ep: Endpoint)
    requires singles != [] && singles[|singles| - 1].ep == ep
    ensures AllRecorded(fused, singles, [ep])
  {
  }

  /** A single endpoint is entered on one side. */
  lemma EnteredRecorded(d: Desk, side: Side, key: P2PKey, stream: Stream, time: nat)
    requires RecordedOk(d.sends, d.recvs, d.fused, d.singles)
    ensures var d' := Entered(d, side, key, stream, time); RecordedOk(d'.sends, d'.recvs, d'.fused, d'.singles)
  {
    hide Processed, Ungrouped, Recorded;
    var d1, ep, d' := Ungrouped(d, stream), UngroupedEndpoint(d, stream, time), Entered(d, side, key, stream, time);
    UngroupedGrows(d, stream);
    SameProcessed(d1, d1, side, key, ep);
    ProcessedEndpoints(d1, side, key, ep);
    LastRecorded(d'.fused, d'.singles, ep);
    forall k: P2PKey
      ensures AllRecorded(d'.fused, d'.singles, d'.sends(k)) && AllRecorded(d'.fused, d'.singles, d'.recvs(k))
    {
      StillRecorded(d.fused, d.singles, d'.fused, d'.singles, d.sends(k));
      StillRecorded(d.fused, d.singles, d'.fused, d'.singles, d.recvs(k));
      BothRecorded(d'.fused, d'.singles, d.sends(k), [ep]);
      BothRecorded(d'.fused, d'.singles, d.recvs(k), [ep]);
    }
  }

  lemma ProcessedEndpoints(d: Desk, side: Side, key: P2PKey, ep: Endpoint)
    ensures var d' := Processed(d, side, key, ep);
            forall k :: (d'.sends(k) == d.sends(k) || d'.sends(k) == d.sends(k) + [ep])
                        && (d'.recvs(k) == d.recvs(k) || d'.recvs(k) == d.recvs(k) + [ep])
  {
    hide Transfer, Popped, PairOf;
  }

  /** A group's endpoints are entered. */
  lemma GroupRecorded(sends: P2PKey -> seq<Endpoint>, recvs: P2PKey -> seq<Endpoint>, fused: seq<Fused>,
      singles: seq<Single>, f: Fused, sends': P2PKey -> seq<Endpoint>, recvs': P2PKey -> seq<Endpoint>)
    requires RecordedOk(sends, recvs, fused, singles)
    requires forall k :: sends(k) <= sends'(k) && Among(sends'(k)[|sends(k)|..], f.eps)
    requires forall k :: recvs(k) <= recvs'(k) && Among(recvs'(k)[|recvs(k)|..], f.eps)
    ensures RecordedOk(sends', recvs', fused + [f], singles)
  {
    hide Recorded;
    forall k: P2PKey
      ensures AllRecorded(fused + [f], singles, sends'(k)) && AllRecorded(fused + [f], singles, recvs'(k))
    {
      MoreRecorded(fused, singles, f, sends(k), sends'(k));
      MoreRecorded(fused, singles, f, recvs(k), recvs'(k));
    }
  }

  ghost predicate Among(some: seq<Endpoint>, eps: seq<Endpoint>) {
    forall i :: 0 <= i < |some| ==> some[i] in eps
  }

  lemma MoreRecorded(fused: seq<Fused>, singles: seq<Single>, f: Fused, eps: seq<Endpoint>, eps': seq<Endpoint>)
    requires AllRecorded(fused, singles, eps) && eps <= eps' && Among(eps'[|eps|..], f.eps)
    ensures AllRecorded(fused + [f], singles, eps')
  {
    StillRecorded(fused, singles, fused + [f], singles, eps);
    var more := eps'[|eps|..];
    forall i | 0 <= i < |more| ensures Recorded(fused + [f], singles, more[i]) {
      assert (fused + [f])[|fused|] == f;
    }
    BothRecorded(fused + [f], singles, eps, more);
    assert eps' == eps + more;
  }
}
