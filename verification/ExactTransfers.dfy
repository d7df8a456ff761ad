/** An endpoint that is matched or enqueued leaves every event waiting for exactly what it should. */
module ExactTransfers {
  import opened Barriers
  import opened CallGraphs
  import opened Collectives
  import opened EventGraph
  import opened EventState
  import opened ExactDesk
  import opened PointToPoint
  import opened Rendezvous

  ghost function SlotOn(side: Side, key: P2PKey): Slot {
    if side == Send then SendEnds(key) else RecvEnds(key)
  }

  /** The event stands in the queues of one transfer, or is about to. */
  ghost predicate OfTransfer(d: Desk, extra: set<EventId>, key: P2PKey, e: EventId) {
    e in extra || e in OpenLine(d)(SendEnds(key)) || e in OpenLine(d)(RecvEnds(key))
  }

  lemma NotOfTransfer(d: Desk, extra: set<EventId>, key: P2PKey, e: EventId, o: Slot, i: nat)
    requires Apart(extra, OpenLine(d)) && i < |OpenLine(d)(o)| && OpenLine(d)(o)[i] == e
    requires o != SendEnds(key) && o != RecvEnds(key)
    ensures !OfTransfer(d, extra, key, e)
  {
    hide OpenLine;
    assert e in OpenLine(d)(o);
    assert InLine(OpenLine(d), e);
  }

  /** The open events of collectives are none of a transfer. */
  lemma MeetingsNotChanged(d: Desk, extra: set<EventId>, key: P2PKey, changed: set<EventId>, op: OpKey)
    requires Apart(extra, OpenLine(d)) && Lined(d.waiting, d.done, d.meetings)
    requires forall e :: e in changed ==> OfTransfer(d, extra, key, e)
    ensures forall k :: d.done(op) <= k < |d.meetings(op)| ==>
              d.meetings(op)[k].commStart !in changed && d.meetings(op)[k].commEnd !in changed
  {
    hide OfTransfer, Apart;
    forall k | d.done(op) <= k < |d.meetings(op)|
        ensures d.meetings(op)[k].commStart !in changed && d.meetings(op)[k].commEnd !in changed {
      var i := k - d.done(op);
      assert SameEnds(d.meetings(op)[d.done(op) + i], DequeAt(d.waiting, op)[i]);
      NotOfTransfer(d, extra, key, d.meetings(op)[k].commStart, StartsOf(op), i);
      NotOfTransfer(d, extra, key, d.meetings(op)[k].commEnd, EndsOf(op), i);
    }
  }

  /** Nor are those of other transfers. */
  lemma OtherEndsNotChanged(d: Desk, extra: set<EventId>, key: P2PKey, changed: set<EventId>, k: P2PKey)
    requires Apart(extra, OpenLine(d)) && k != key
    requires forall e :: e in changed ==> OfTransfer(d, extra, key, e)
    ensures forall i :: 0 <= i < |QueueAt(d.sendWaiting, k)| ==> QueueAt(d.sendWaiting, k)[i].flowEnd !in changed
    ensures forall i :: 0 <= i < |QueueAt(d.recvWaiting, k)| ==> QueueAt(d.recvWaiting, k)[i].flowEnd !in changed
  {
    hide OfTransfer, Apart;
    forall i | 0 <= i < |QueueAt(d.sendWaiting, k)| ensures QueueAt(d.sendWaiting, k)[i].flowEnd !in changed {
      NotOfTransfer(d, extra, key, QueueAt(d.sendWaiting, k)[i].flowEnd, SendEnds(k), i);
    }
    forall i | 0 <= i < |QueueAt(d.recvWaiting, k)| ensures QueueAt(d.recvWaiting, k)[i].flowEnd !in changed {
      NotOfTransfer(d, extra, key, QueueAt(d.recvWaiting, k)[i].flowEnd, RecvEnds(k), i);
    }
  }

  /** The queues and pairs of one transfer change, and of the open events only some of its. */
  lemma KeyExact(d: Desk, d': Desk, extra: set<EventId>, extra': set<EventId>, key: P2PKey, changed: set<EventId>)
    requires ExactBut(d, extra) && Lined(d.waiting, d.done, d.meetings)
    requires Moves(d.graph, d'.graph, Opens(d, extra), Opens(d', extra'), changed)
    requires Apart(extra', OpenLine(d')) && forall e :: e in extra' || InLine(OpenLine(d'), e) ==> e in d'.graph.deps
    requires d'.streams == d.streams && d'.meetings == d.meetings && d'.done == d.done && d'.fused == d.fused
             && d'.singles == d.singles
    requires forall k: P2PKey :: k != key ==> d'.pairs(k) == d.pairs(k)
                                              && QueueAt(d'.sendWaiting, k) == QueueAt(d.sendWaiting, k)
                                              && QueueAt(d'.recvWaiting, k) == QueueAt(d.recvWaiting, k)
    requires forall e :: e in changed ==> OfTransfer(d, extra, key, e)
    requires PairsExact(d'.graph, Opens(d', extra'), d'.pairs(key))
    requires EndsWait(d'.graph, QueueAt(d'.sendWaiting, key)) && EndsWait(d'.graph, QueueAt(d'.recvWaiting, key))
    ensures ExactBut(d', extra')
  {
    hide Moves, MeetingsExact, RecordsExact, PairsExact, EndsWait, Opens, OpenLine, Lined, Continues, ExactBut,
        OfTransfer, Apart;
    var open, open' := Opens(d, extra), Opens(d', extra');
    ApartHere(d, extra);
    SameContinues(d.streams);
    forall o: OpKey ensures MeetingsExact(d'.graph, d'.streams, open', d'.meetings(o), d'.done(o)) {
      MeetingsHere(d, extra, o);
      MeetingsNotChanged(d, extra, key, changed, o);
      MeetingsStayExact(d.graph, d'.graph, d.streams, d'.streams, open, open', changed, d.meetings(o), d.done(o));
    }
    TransfersHere(d, extra);
    forall k: P2PKey
      ensures PairsExact(d'.graph, open', d'.pairs(k)) && EndsWait(d'.graph, QueueAt(d'.sendWaiting, k))
              && EndsWait(d'.graph, QueueAt(d'.recvWaiting, k))
    {
      if k != key {
        OtherEndsNotChanged(d, extra, key, changed, k);
        PairsStay(d.graph, d'.graph, open, open', changed, d.pairs(k));
        EndsStay(d.graph, d'.graph, open, open', changed, QueueAt(d.sendWaiting, k));
        EndsStay(d.graph, d'.graph, open, open', changed, QueueAt(d.recvWaiting, k));
      }
    }
    RecordsHere(d, extra);
    RecordsStayExact(d, d', open, open', changed);
    ExactAll(d', extra');
  }

  /*** Enqueued ***/

  lemma EnqueuedSlot(d: Desk, side: Side, key: P2PKey, ep: Endpoint)
    ensures var d', o := Enqueued(d, side, key, ep), SlotOn(side, key);
            But(OpenLine(d), OpenLine(d'), o) && OpenLine(d')(o) == OpenLine(d)(o) + [ep.flowEnd]
  {
    var q := QueueAt(WaitingOn(d, side), key);
    assert FlowEnds(q + [ep]) == FlowEnds(q) + [ep.flowEnd];
  }

  /** The end of the endpoint goes from those about to be entered into its line. */
  lemma ApartEnqueued(d: Desk, d': Desk, extra: set<EventId>, e: EventId, o: Slot)
    requires ExactBut(d, extra) && e in extra && d'.graph == d.graph
    requires But(OpenLine(d), OpenLine(d'), o) && OpenLine(d')(o) == OpenLine(d)(o) + [e]
    ensures var extra' := extra - {e};
            && Apart(extra', OpenLine(d'))
            && (forall x :: x in extra' || InLine(OpenLine(d'), x) ==> x in d'.graph.deps)
            && Opens(d', extra') == Opens(d, extra)
  {
    hide OpenLine, ExactBut;
    ApartHere(d, extra);
    var extra' := extra - {e};
    assert !InLine(OpenLine(d), e) && Apart(extra', OpenLine(d));
    ApartPush(extra', OpenLine(d), OpenLine(d'), o, e);
    hide InLine;
    forall x: EventId ensures x in Opens(d', extra') <==> x in Opens(d, extra) {
      OpensHere(d', extra', x);
      OpensHere(d, extra, x);
    }
  }

  lemma NothingMoves(g: Graph, open: set<EventId>)
    requires Known(g)
    ensures Moves(g, g, open, open, {})
  {
  }

  lemma EnqueuedExact(d: Desk, extra: set<EventId>, side: Side, key: P2PKey, ep: Endpoint)
    requires ExactBut(d, extra) && Known(d.graph) && Lined(d.waiting, d.done, d.meetings)
    requires ep.flowEnd in extra && EndWaits(d.graph, ep)
    ensures ExactBut(Enqueued(d, side, key, ep), extra - {ep.flowEnd})
  {
    hide ExactBut, OpenLine, Opens, Apart, InLine, Moves, Lined, PairsExact, EndWaits;
    var d' := Enqueued(d, side, key, ep);
    EnqueuedSlot(d, side, key, ep);
    ApartEnqueued(d, d', extra, ep.flowEnd, SlotOn(side, key));
    NothingMoves(d.graph, Opens(d, extra));
    TransfersHere(d, extra);
    assert PairsExact(d.graph, Opens(d, extra), d.pairs(key));
    assert EndsWait(d.graph, QueueAt(d.sendWaiting, key)) && EndsWait(d.graph, QueueAt(d.recvWaiting, key));
    KeyExact(d, d', extra, extra - {ep.flowEnd}, key, {});
  }

  /*** Matched ***/

  lemma MatchedSlot(d: Desk, side: Side, key: P2PKey, ep: Endpoint)
    requires QueueAt(WaitingOn(d, Other(side)), key) != []
    ensures var d', o := Matched(d, side, key, ep), SlotOn(Other(side), key);
            && But(OpenLine(d), OpenLine(d'), o) && OpenLine(d)(o) != [] && OpenLine(d')(o) == OpenLine(d)(o)[1..]
            && OpenLine(d)(o)[0] == QueueAt(WaitingOn(d, Other(side)), key)[0].flowEnd
  {
    hide Transfer;
    var q := QueueAt(WaitingOn(d, Other(side)), key);
    assert FlowEnds(q[1..]) == FlowEnds(q)[1..];
    assert QueueAt(Popped(WaitingOn(d, Other(side)), key), key) == q[1..];
  }

  lemma ApartMatched(d: Desk, d': Desk, extra: set<EventId>, e: EventId, o: Slot)
    requires ExactBut(d, extra) && e in extra && d.graph.deps.Keys <= d'.graph.deps.Keys
    requires But(OpenLine(d), OpenLine(d'), o) && OpenLine(d)(o) != [] && OpenLine(d')(o) == OpenLine(d)(o)[1..]
    ensures var extra', peer := extra - {e}, OpenLine(d)(o)[0];
            && Apart(extra', OpenLine(d'))
            && (forall x :: x in extra' || InLine(OpenLine(d'), x) ==> x in d'.graph.deps)
            && (forall x :: x in Opens(d', extra') ==> x in Opens(d, extra))
            && e in Opens(d, extra) && peer in Opens(d, extra) && e != peer
            && e !in Opens(d', extra') && peer !in Opens(d', extra')
  {
    hide OpenLine, ExactBut;
    ApartHere(d, extra);
    var extra', peer := extra - {e}, OpenLine(d)(o)[0];
    assert Apart(extra', OpenLine(d));
    ApartPop(extra', OpenLine(d), OpenLine(d'), o);
    assert peer in OpenLine(d)(o);
    assert InLine(OpenLine(d), peer) && !InLine(OpenLine(d), e);
    hide InLine;
    forall x | x in Opens(d', extra') ensures x in Opens(d, extra) {
      OpensHere(d', extra', x);
      OpensHere(d, extra, x);
    }
    OpensHere(d, extra, e);
    OpensHere(d', extra', e);
    OpensHere(d, extra, peer);
    OpensHere(d', extra', peer);
  }

  /** The new pair. */
  lemma NewPairExact(g: Graph, send: Endpoint, recv: Endpoint, open: set<EventId>)
    requires Known(g) && EndWaits(g, send) && EndWaits(g, recv) && send.flowEnd != recv.flowEnd
    requires send.flowEnd !in open && recv.flowEnd !in open && forall e :: e in open ==> e < g.next
    ensures var g' := Transfer(g, send, recv);
            PairExact(g', open, Pair(send, recv, g.next)) && SameBut(g, g', {send.flowEnd, recv.flowEnd})
                && g.deps.Keys <= g'.deps.Keys
  {
    hide Transfer;
    TransferExactly(g, send, recv);
  }

  /** The first of a queue leaves it. */
  lemma FirstLeaves(g: Graph, g': Graph, open: set<EventId>, open': set<EventId>, changed: set<EventId>,
      eps: seq<Endpoint>)
    requires EndsWait(g, eps) && Moves(g, g', open, open', changed) && eps != []
    requires forall i :: 1 <= i < |eps| ==> eps[i].flowEnd !in changed
    ensures EndsWait(g', eps[1..])
  {
    hide Moves, EndWaits;
    forall i | 0 <= i < |eps[1..]| ensures EndWaits(g, eps[1..][i]) && eps[1..][i].flowEnd !in changed {
      assert eps[1..][i] == eps[i + 1];
    }
    EndsStay(g, g', open, open', changed, eps[1..]);
  }

  /** Those that stay in the two queues are not the two that are paired. */
  lemma QueuesNotChanged(d: Desk, extra: set<EventId>, side: Side, key: P2PKey, ep: Endpoint)
    requires Apart(extra, OpenLine(d)) && ep.flowEnd in extra && QueueAt(WaitingOn(d, Other(side)), key) != []
    ensures var mine, theirs := QueueAt(WaitingOn(d, side), key), QueueAt(WaitingOn(d, Other(side)), key);
            && (forall i :: 0 <= i < |mine| ==> mine[i].flowEnd !in {ep.flowEnd, theirs[0].flowEnd})
            && (forall i :: 1 <= i < |theirs| ==> theirs[i].flowEnd !in {ep.flowEnd, theirs[0].flowEnd})
            && OfTransfer(d, extra, key, theirs[0].flowEnd) && OfTransfer(d, extra, key, ep.flowEnd)
  {
    var mine, theirs := QueueAt(WaitingOn(d, side), key), QueueAt(WaitingOn(d, Other(side)), key);
    var line, o, o' := OpenLine(d), SlotOn(side, key), SlotOn(Other(side), key);
    assert line(o) == FlowEnds(mine) && line(o') == FlowEnds(theirs);
    hide OpenLine;
    assert line(o')[0] == theirs[0].flowEnd;
    forall i | 0 <= i < |mine| ensures mine[i].flowEnd !in {ep.flowEnd, theirs[0].flowEnd} {
      assert line(o)[i] == mine[i].flowEnd;
      assert InLine(line, line(o)[i]);
    }
    forall i | 1 <= i < |theirs| ensures theirs[i].flowEnd !in {ep.flowEnd, theirs[0].flowEnd} {
      assert line(o')[i] == theirs[i].flowEnd;
      assert InLine(line, line(o')[i]);
    }
    assert theirs[0].flowEnd in line(o');
  }

  lemma MatchedExact(d: Desk, extra: set<EventId>, side: Side, key: P2PKey, ep: Endpoint)
    requires ExactBut(d, extra) && Known(d.graph) && Lined(d.waiting, d.done, d.meetings)
    requires ep.flowEnd in extra && EndWaits(d.graph, ep) && QueueAt(WaitingOn(d, Other(side)), key) != []
    ensures ExactBut(Matched(d, side, key, ep), extra - {ep.flowEnd})
  {
    hide ExactBut, OpenLine, Opens, Apart, InLine, Moves, Lined, PairsExact, EndsWait, EndWaits, Transfer, SameBut,
        PairExact, OfTransfer;
    var d', extra' := Matched(d, side, key, ep), extra - {ep.flowEnd};
    var mine, theirs := QueueAt(WaitingOn(d, side), key), QueueAt(WaitingOn(d, Other(side)), key);
    var pair := PairOf(side, ep, theirs[0], d.graph.next);
    var open, open', changed := Opens(d, extra), Opens(d', extra'), {ep.flowEnd, theirs[0].flowEnd};
    ApartHere(d, extra);
    TransfersHere(d, extra);
    PeerWaits(d.graph, theirs);
    QueuesNotChanged(d, extra, side, key, ep);
    MatchedSlot(d, side, key, ep);
    TransferKeys(d.graph, pair.send, pair.recv);
    ApartMatched(d, d', extra, ep.flowEnd, SlotOn(Other(side), key));
    forall e | e in open' ensures e < d.graph.next { OpensHere(d, extra, e); }
    NewPairExact(d.graph, pair.send, pair.recv, open');
    assert {pair.send.flowEnd, pair.recv.flowEnd} == changed;
    MovesThere(d.graph, d'.graph, open, open', changed);
    assert PairsExact(d.graph, open, d.pairs(key));
    PairsStay(d.graph, d'.graph, open, open', changed, d.pairs(key));
    OneMorePair(d'.graph, open', d.pairs(key), pair);
    EndsStay(d.graph, d'.graph, open, open', changed, mine);
    FirstLeaves(d.graph, d'.graph, open, open', changed, theirs);
    assert QueueAt(Popped(WaitingOn(d, Other(side)), key), key) == theirs[1..];
    KeyExact(d, d', extra, extra', key, changed);
  }

  lemma MovesThere(g: Graph, g': Graph, open: set<EventId>, open': set<EventId>, changed: set<EventId>)
    requires SameBut(g, g', changed) && Known(g) && changed <= open && open' <= open
    ensures Moves(g, g', open, open', changed)
  {
  }

  lemma PeerWaits(g: Graph, eps: seq<Endpoint>)
    requires EndsWait(g, eps) && eps != []
    ensures EndWaits(g, eps[0])
  {
  }

  lemma OneMorePair(g: Graph, open: set<EventId>, ps: seq<Pair>, p: Pair)
    requires PairsExact(g, open, ps) && PairExact(g, open, p)
    ensures PairsExact(g, open, ps + [p])
  {
    hide PairExact;
  }

  lemma TransferKeys(g: Graph, send: Endpoint, recv: Endpoint)
    ensures g.deps.Keys <= Transfer(g, send, recv).deps.Keys
  {
  }

  /** Matched or enqueued. */
  lemma ProcessedExact(d: Desk, extra: set<EventId>, side: Side, key: P2PKey, ep: Endpoint)
    requires ExactBut(d, extra) && Known(d.graph) && Lined(d.waiting, d.done, d.meetings)
    requires ep.flowEnd in extra && EndWaits(d.graph, ep)
    ensures ExactBut(Processed(d, side, key, ep), extra - {ep.flowEnd})
  {
    hide ExactBut, Lined, EndWaits, Enqueued, Matched;
    if QueueAt(WaitingOn(d, Other(side)), key) == [] {
      EnqueuedExact(d, extra, side, key, ep);
    } else {
      MatchedExact(d, extra, side, key, ep);
    }
  }

  /*** Records ***/

  /** The records of groups and of single endpoints play no role in it. */
  lemma SameProcessed(d: Desk, d1: Desk, side: Side, key: P2PKey, ep: Endpoint)
    requires d1 == d.(fused := d1.fused, singles := d1.singles)
    ensures Processed(d1, side, key, ep) == Processed(d, side, key, ep).(fused := d1.fused, singles := d1.singles)
    ensures Processed(d, side, key, ep).fused == d.fused && Processed(d, side, key, ep).singles == d.singles
  {
    hide Transfer, Append, Popped, PairOf, Enqueued, Matched, QueueAt;
    assert WaitingOn(d1, Send) == WaitingOn(d, Send) && WaitingOn(d1, Recv) == WaitingOn(d, Recv);
    if QueueAt(WaitingOn(d, Other(side)), key) == [] {
      SameEnqueued(d, d1, side, key, ep);
    } else {
      SameMatched(d, d1, side, key, ep);
    }
  }

  lemma SameEnqueued(d: Desk, d1: Desk, side: Side, key: P2PKey, ep: Endpoint)
    requires d1 == d.(fused := d1.fused, singles := d1.singles)
    ensures Enqueued(d1, side, key, ep) == Enqueued(d, side, key, ep).(fused := d1.fused, singles := d1.singles)
    ensures Enqueued(d, side, key, ep).fused == d.fused && Enqueued(d, side, key, ep).singles == d.singles
  {
    hide Append, QueueAt;
  }

  lemma SameMatched(d: Desk, d1: Desk, side: Side, key: P2PKey, ep: Endpoint)
    requires d1 == d.(fused := d1.fused, singles := d1.singles)
    requires QueueAt(WaitingOn(d, Other(side)), key) != []
    ensures QueueAt(WaitingOn(d1, Other(side)), key) != []
    ensures Matched(d1, side, key, ep) == Matched(d, side, key, ep).(fused := d1.fused, singles := d1.singles)
    ensures Matched(d, side, key, ep).fused == d.fused && Matched(d, side, key, ep).singles == d.singles
  {
    hide Transfer, Append, PairOf;
  }

  lemma SameLine(d: Desk, d': Desk)
    requires d'.waiting == d.waiting && d'.sendWaiting == d.sendWaiting && d'.recvWaiting == d.recvWaiting
    ensures OpenLine(d') == OpenLine(d)
  {
  }

  lemma OpenIsOld(d: Desk, d': Desk, ends: set<EventId>)
    requires ExactOk(d) && Known(d.graph) && ExactBut(d', ends)
    requires d'.waiting == d.waiting && d'.sendWaiting == d.sendWaiting && d'.recvWaiting == d.recvWaiting
    ensures forall e :: e in Opens(d', ends) ==> e < d.graph.next || e in ends
  {
    hide ExactBut, OpenLine;
    SameLine(d, d');
    ApartHere(d, {});
    ApartHere(d', ends);
    forall e | e in Opens(d', ends) ensures e < d.graph.next || e in ends { OpensHere(d', ends, e); }
  }

  /** The records of groups and single endpoints have changed. */
  lemma OtherRecords(d: Desk, d': Desk, extra: set<EventId>)
    requires ExactBut(d, extra) && d' == d.(fused := d'.fused, singles := d'.singles)
    requires RecordsExact(d', Opens(d, extra))
    ensures ExactBut(d', extra)
  {
    hide ExactBut, RecordsExact, MeetingsExact, Opens, OpenLine, Apart;
    SameLine(d, d');
    SameSetOpen(d, d', extra);
    ApartHere(d, extra);
    TransfersHere(d, extra);
    assert TransfersExact(d', Opens(d', extra)) by { SameTransfersExact(d, d', Opens(d, extra)); }
    forall op: OpKey
        ensures MeetingsExact(d'.graph, d'.streams, Opens(d', extra), d'.meetings(op), d'.done(op)) {
      MeetingsHere(d, extra, op);
    }
    ExactAll(d', extra);
  }

  lemma SameSetOpen(d: Desk, d': Desk, extra: set<EventId>)
    requires d'.graph == d.graph && OpenLine(d') == OpenLine(d)
    ensures Opens(d', extra) == Opens(d, extra)
  {
    hide OpenLine, InLine;
  }

  lemma SameTransfersExact(d: Desk, d': Desk, open: set<EventId>)
    requires TransfersExact(d, open) && d'.graph == d.graph && d'.pairs == d.pairs
    requires d'.sendWaiting == d.sendWaiting && d'.recvWaiting == d.recvWaiting
    ensures TransfersExact(d', open)
  {
    hide PairsExact, EndsWait;
  }
}
