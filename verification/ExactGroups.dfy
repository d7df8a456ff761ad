/** A group, once all its endpoints have been entered, leaves every event waiting for exactly what it should. */
module ExactGroups {
  import opened Barriers
  import opened CallGraphs
  import opened Collectives
  import opened EventGraph
  import opened EventState
  import opened ExactDesk
  import opened ExactTransfers
  import opened PointToPoint
  import opened Rendezvous
  import opened StreamOrder

  /** The ends of the endpoints from `from` on. */
  ghost function EndsFrom(eps: seq<Endpoint>, from: nat): set<EventId> {
    set i | from <= i < |eps| :: eps[i].flowEnd
  }

  ghost function WithGroup(d: Desk, f: Fused): Desk {
    d.(fused := d.fused + [f])
  }

  ghost predicate OneEach(eps: seq<Endpoint>) {
    forall i, j :: 0 <= i < j < |eps| ==> eps[i].flowEnd != eps[j].flowEnd
  }

  /** All is exact, the group included, of which the endpoints from `from` on are about to be entered. */
  ghost predicate Entering(d: Desk, f: Fused, from: nat) {
    && from <= |f.eps| && ExactBut(WithGroup(d, f), EndsFrom(f.eps, from)) && OneEach(f.eps)
    && forall i :: from <= i < |f.eps| ==> EndWaits(d.graph, f.eps[i])
  }

  lemma NextLeaves(eps: seq<Endpoint>, from: nat)
    requires from < |eps| && OneEach(eps)
    ensures eps[from].flowEnd in EndsFrom(eps, from)
    ensures EndsFrom(eps, from) - {eps[from].flowEnd} == EndsFrom(eps, from + 1)
  {
  }

  /** What is not open anywhere else, and is about to be entered later, still waits for its start. */
  lemma LaterStillWaits(d: Desk, extra: set<EventId>, side: Side, key: P2PKey, ep: Endpoint, later: Endpoint)
    requires ExactBut(d, extra) && Known(d.graph) && ep.flowEnd in extra && later.flowEnd in extra
    requires later.flowEnd != ep.flowEnd && EndWaits(d.graph, later)
    ensures EndWaits(Processed(d, side, key, ep).graph, later)
  {
    hide ExactBut, OpenLine, Transfer;
    var theirs := QueueAt(WaitingOn(d, Other(side)), key);
    if theirs != [] {
      ApartHere(d, extra);
      MatchedSlot(d, side, key, ep);
      assert InLine(OpenLine(d), OpenLine(d)(SlotOn(Other(side), key))[0]);
      var pair := PairOf(side, ep, theirs[0], d.graph.next);
      assert theirs[0].flowEnd in d.graph.deps;
      TransferExactly(d.graph, pair.send, pair.recv);
    }
  }

  lemma ProcessedEnters(d: Desk, f: Fused, from: nat, side: Side, key: P2PKey)
    requires Entering(d, f, from) && from < |f.eps| && Known(d.graph) && Lined(d.waiting, d.done, d.meetings)
    ensures Entering(Processed(d, side, key, f.eps[from]), f, from + 1)
  {
    hide ExactBut, Lined, EndWaits, Processed;
    var d1, extra, ep := WithGroup(d, f), EndsFrom(f.eps, from), f.eps[from];
    NextLeaves(f.eps, from);
    ProcessedExact(d1, extra, side, key, ep);
    SameProcessed(d, d1, side, key, ep);
    forall i | from + 1 <= i < |f.eps| ensures EndWaits(Processed(d, side, key, ep).graph, f.eps[i]) {
      assert f.eps[i].flowEnd in extra;
      LaterStillWaits(d1, extra, side, key, ep, f.eps[i]);
    }
  }

  lemma AllEntered(d: Desk, f: Fused)
    requires Entering(d, f, |f.eps|)
    ensures ExactOk(WithGroup(d, f))
  {
    hide ExactBut;
    assert EndsFrom(f.eps, |f.eps|) == {};
  }

  /*** A new group ***/

  lemma GroupFused(g: Graph, streams: map<Stream, StreamInfo>, g': Graph, streams': map<Stream, StreamInfo>, f: Fused,
      open: set<EventId>)
    requires f.stream in streams' && GroupIs(g, InfoAt(streams, f.stream), g', streams'[f.stream].events, f)
    requires f.at + 2 == |streams'[f.stream].events|
    requires forall e :: e in open ==> e < g.next || e in EndsFrom(f.eps, 0)
    ensures FusedExact(g', streams', open, f)
  {
    hide InARow, SameBut;
    var info, events := InfoAt(streams, f.stream), streams'[f.stream].events;
    assert events[..f.at] == info.events + Run(g.next + 1, |info.buffered|);
    forall e | e >= g.next && e in open ensures exists i :: 0 <= i < |f.eps| && e == f.start + 3 * i + 3 {
      var i :| 0 <= i < |f.eps| && f.eps[i].flowEnd == e;
      assert SetUpAt(g', f.start, f.eps[i], f.start + 1 + 3 * i);
    }
    forall j | 0 <= j < |f.eps| ensures EndpointInGroup(g', open, f.start, f.eps[j]) {
      assert SetUpAt(g', f.start, f.eps[j], f.start + 1 + 3 * j);
    }
    assert g'.deps[f.end] == {f.start} + Ids(FlowEnds(f.eps)) by { EndsOfGroup(g', f); }
  }

  lemma EndsOfGroup(g: Graph, f: Fused)
    requires f.end in g.deps
    requires forall e :: e in g.deps[f.end] <==> e == f.start || exists i :: 0 <= i < |f.eps| && e == f.eps[i].flowEnd
    ensures g.deps[f.end] == {f.start} + Ids(FlowEnds(f.eps))
  {
    var ends := FlowEnds(f.eps);
    forall e ensures e in g.deps[f.end] <==> e == f.start || e in ends {
      if e in ends {
        var i :| 0 <= i < |ends| && ends[i] == e;
        assert e == f.eps[i].flowEnd;
      }
      if exists i :: 0 <= i < |f.eps| && e == f.eps[i].flowEnd {
        var i :| 0 <= i < |f.eps| && e == f.eps[i].flowEnd;
        assert ends[i] == e;
      }
    }
  }

  /** All events of a new group are there, and none of its endpoints has been entered. */
  lemma GroupEnters(d: Desk, d': Desk, f: Fused)
    requires ExactOk(d) && Known(d.graph) && Continues(d.streams, d'.streams)
    requires d' == d.(graph := d'.graph, streams := d'.streams)
    requires f.stream in d'.streams && f.at + 2 == |d'.streams[f.stream].events|
    requires GroupIs(d.graph, InfoAt(d.streams, f.stream), d'.graph, d'.streams[f.stream].events, f)
    ensures Entering(d', f, 0)
  {
    hide ExactBut, Continues, SameBut, InARow, FusedExact, Opens, OpenLine;
    var ends := EndsFrom(f.eps, 0);
    forall i | 0 <= i < |f.eps| ensures f.eps[i].flowEnd == f.start + 3 * i + 3 && EndWaits(d'.graph, f.eps[i]) {
      assert SetUpAt(d'.graph, f.start, f.eps[i], f.start + 1 + 3 * i);
    }
    ExactGrows(d, d', {}, ends);
    OpensGrow(d, d', {}, ends) by { assert OpenLine(d') == OpenLine(d) by { SameLine(d, d'); } }
    OpenIsOld(d, d', ends);
    GroupFused(d.graph, d.streams, d'.graph, d'.streams, f, Opens(d', ends));
    GroupIncluded(d', ends, f);
  }

  lemma GroupIncluded(d: Desk, extra: set<EventId>, f: Fused)
    requires ExactBut(d, extra) && FusedExact(d.graph, d.streams, Opens(d, extra), f)
    ensures ExactBut(WithGroup(d, f), extra)
  {
    hide ExactBut, FusedExact, SingleExact;
    RecordsHere(d, extra);
    OtherRecords(d, WithGroup(d, f), extra);
  }
}
