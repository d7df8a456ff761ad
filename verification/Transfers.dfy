/** A send and the receive that answers it, as calls of two ranks. */
module Transfers {
  import opened CallGraphs
  import opened Collectives
  import opened EventState
  import opened ExactDesk
  import opened ExactSteps
  import opened ExactTransfers
  import opened GpuSimulator
  import opened PointToPoint
  import opened Rendezvous
  import opened Requests
  import opened StreamOrder

  /** The endpoint of a call at `time` is recorded as two neighbouring events of its stream. */
  ghost predicate OnItsStream(d: Desk, stream: Stream, ep: Endpoint, time: nat) {
    && ep.time == time
    && exists i :: 0 <= i < |d.singles| && d.singles[i].stream == stream && d.singles[i].ep == ep
                   && Adjacent(d.streams, stream, d.singles[i].at, ep.flowStart, ep.flowEnd)
  }

  /** Nobody waits for this transfer, on either side. */
  ghost predicate NobodyWaits(d: Desk, comm: nat, sender: nat, receiver: nat) {
    P2PKey(comm, sender, receiver) !in d.sendWaiting && P2PKey(comm, sender, receiver) !in d.recvWaiting
  }

  /** Of all transfers, only this one's queues and pairs may have changed. */
  ghost predicate OthersAlone(d: Desk, d': Desk, comm: nat, sender: nat, receiver: nat) {
    forall key :: key != P2PKey(comm, sender, receiver) ==>
      && QueueAt(d'.sendWaiting, key) == QueueAt(d.sendWaiting, key)
      && QueueAt(d'.recvWaiting, key) == QueueAt(d.recvWaiting, key) && d'.pairs(key) == d.pairs(key)
  }

  /** The first of the two calls, on either side, finds nobody and waits alone. */
  lemma FirstWaits(d: Desk, side: Side, comm: nat, sender: nat, receiver: nat, stream: Stream, time: nat)
    requires DeskOk(d) && NobodyWaits(d, comm, sender, receiver)
    ensures var key, ep := P2PKey(comm, sender, receiver), UngroupedEndpoint(d, stream, time);
            var d' := Entered(d, side, key, stream, time);
            && d'.pairs == d.pairs && QueueAt(WaitingOn(d', side), key) == [ep]
            && QueueAt(WaitingOn(d', Other(side)), key) == [] && OthersAlone(d, d', comm, sender, receiver)
            && OnItsStream(d', stream, ep, time)
  {
    hide Ungrouped, DeskOk, Append, Continues, OnItsStream;
    UngroupedKeeps(d, stream, time);
    EnteredOnItsStream(d, side, P2PKey(comm, sender, receiver), stream, time);
  }

  /** The second one is paired with it. */
  lemma SecondPairs(d: Desk, side: Side, comm: nat, sender: nat, receiver: nat, stream: Stream, time: nat,
      first: Endpoint)
    requires DeskOk(d) && QueueAt(WaitingOn(d, Other(side)), P2PKey(comm, sender, receiver)) == [first]
    requires QueueAt(WaitingOn(d, side), P2PKey(comm, sender, receiver)) == []
             && P2PKey(comm, sender, receiver) !in WaitingOn(d, side)
    ensures var key, ep := P2PKey(comm, sender, receiver), UngroupedEndpoint(d, stream, time);
            var d' := Entered(d, side, key, stream, time);
            && NobodyWaits(d', comm, sender, receiver) && OthersAlone(d, d', comm, sender, receiver)
            && |d'.pairs(key)| == |d.pairs(key)| + 1 && d.pairs(key) <= d'.pairs(key)
            && d'.pairs(key)[|d.pairs(key)|].send == (if side == Send then ep else first)
            && d'.pairs(key)[|d.pairs(key)|].recv == (if side == Send then first else ep)
            && OnItsStream(d', stream, ep, time) && Continues(d.streams, d'.streams)
  {
    hide Ungrouped, DeskOk, Transfer, Continues, OnItsStream;
    UngroupedKeeps(d, stream, time);
    EnteredOnItsStream(d, side, P2PKey(comm, sender, receiver), stream, time);
  }

  /** The events of a call, before it is matched, change only the graph and the stream. */
  lemma UngroupedKeeps(d: Desk, stream: Stream, time: nat)
    requires DeskOk(d)
    ensures var d', ep := Ungrouped(d, stream), UngroupedEndpoint(d, stream, time);
            && d' == d.(graph := d'.graph, streams := d'.streams) && Continues(d.streams, d'.streams)
            && ep.time == time && stream in d'.streams && |d'.streams[stream].events| >= 2
            && Adjacent(d'.streams, stream, |d'.streams[stream].events| - 2, ep.flowStart, ep.flowEnd)
  {
    hide DeskBut, HistoryOk, InARow;
    DeskIsDense(d, {});
    EndpointExactly(d, stream, time);
  }

  lemma EnteredOnItsStream(d: Desk, side: Side, key: P2PKey, stream: Stream, time: nat)
    requires DeskOk(d)
    ensures OnItsStream(Entered(d, side, key, stream, time), stream, UngroupedEndpoint(d, stream, time), time)
    ensures d.singles <= Entered(d, side, key, stream, time).singles
    ensures Entered(d, side, key, stream, time).streams == Ungrouped(d, stream).streams
  {
    hide Ungrouped, DeskOk, Processed, Continues, UngroupedEndpoint;
    var d1, ep, d' := Ungrouped(d, stream), UngroupedEndpoint(d, stream, time), Entered(d, side, key, stream, time);
    UngroupedKeeps(d, stream, time);
    SameProcessed(d1, d1, side, key, ep);
    SameStreamsProcessed(d1, side, key, ep);
    assert d'.singles[|d.singles|] == LastSingle(d1, stream, ep);
  }

  lemma SameStreamsProcessed(d: Desk, side: Side, key: P2PKey, ep: Endpoint)
    ensures Processed(d, side, key, ep).streams == d.streams
  {
    hide Transfer, Append, Popped, PairOf;
  }

  lemma StillOnItsStream(d: Desk, d': Desk, stream: Stream, ep: Endpoint, time: nat)
    requires OnItsStream(d, stream, ep, time) && Continues(d.streams, d'.streams) && d.singles <= d'.singles
    ensures OnItsStream(d', stream, ep, time)
  {
    var i :| 0 <= i < |d.singles| && d.singles[i].stream == stream && d.singles[i].ep == ep
             && Adjacent(d.streams, stream, d.singles[i].at, ep.flowStart, ep.flowEnd);
    assert d'.singles[i] == d.singles[i];
    assert Adjacent(d'.streams, stream, d.singles[i].at, ep.flowStart, ep.flowEnd);
  }

  /** A rank's call on one side of a transfer. */
  method Call(sim: Simulator, side: Side, comm: nat, sender: nat, receiver: nat, stream: Stream, time: nat)
    requires sim.Valid()
    modifies sim.queue, sim`streamInfo, sim`sendWaiting, sim`recvWaiting, sim`sends, sim`recvs, sim`pairs, sim`singles
    ensures sim.Valid()
    ensures sim.TheDesk() == Entered(old(sim.TheDesk()), side, P2PKey(comm, sender, receiver), stream, time)
  {
    hide Entered, UngroupedEndpoint, DeskOk, SyncOk, LeftAlone, ExactBut, RecordedOk, AskedOk, Ok, Processed, Kept;
    if side == Send {
      sim.UngroupedP2P(Send, comm, sender, receiver, stream, time);
    } else {
      sim.UngroupedP2P(Recv, comm, receiver, sender, stream, time);
    }
  }

  /** The two calls, that of side `side` first. */
  method BothCall(sim: Simulator, side: Side, comm: nat, a: nat, b: nat, stream1: Stream, time1: nat, stream2: Stream,
      time2: nat)
    requires sim.Valid() && NobodyWaits(sim.TheDesk(), comm, a, b)
    modifies sim.queue, sim`streamInfo, sim`sendWaiting, sim`recvWaiting, sim`sends, sim`recvs, sim`pairs, sim`singles
    ensures sim.Valid() && NobodyWaits(sim.TheDesk(), comm, a, b)
    ensures OthersAlone(old(sim.TheDesk()), sim.TheDesk(), comm, a, b)
    ensures var before, now := old(sim.pairs)(P2PKey(comm, a, b)), sim.pairs(P2PKey(comm, a, b));
            && |now| == |before| + 1 && before <= now && Scheduled(sim.TheGraph(), now[|before|])
            && OnItsStream(sim.TheDesk(), stream1, EndOn(side, now[|before|]), time1)
            && OnItsStream(sim.TheDesk(), stream2, EndOn(Other(side), now[|before|]), time2)
  {
    hide Entered, UngroupedEndpoint, DeskOk, SyncOk, LeftAlone, ExactBut, RecordedOk, AskedOk, Ok, OnItsStream,
        Continues, Processed, Scheduled, WaitingOn, QueueAt, OthersAlone, NobodyWaits;
    ghost var d := sim.TheDesk();
    FirstWaits(d, side, comm, a, b, stream1, time1);
    Call(sim, side, comm, a, b, stream1, time1);
    ghost var d1, first := sim.TheDesk(), UngroupedEndpoint(d, stream1, time1);
    NoneIsAbsent(d1, Other(side), P2PKey(comm, a, b));
    SecondPairs(d1, Other(side), comm, a, b, stream2, time2, first);
    EnteredOnItsStream(d1, Other(side), P2PKey(comm, a, b), stream2, time2);
    Call(sim, Other(side), comm, a, b, stream2, time2);
    AloneTwice(d, d1, sim.TheDesk(), comm, a, b);
    StillOnItsStream(d1, sim.TheDesk(), stream1, first, time1);
    PairIsScheduled(sim.TheDesk(), P2PKey(comm, a, b), |d.pairs(P2PKey(comm, a, b))|);
  }

  function EndOn(side: Side, p: Pair): Endpoint {
    if side == Send then p.send else p.recv
  }

  /** Rank `a` sends to rank `b`, and `b` receives from `a`, in either order, while nobody else waits for that: they
      make exactly one pair, each side's part of it on the stream and from the time of its call, and nobody is left
      waiting. */
  method SendAndReceive(sim: Simulator, sendFirst: bool, comm: nat, a: nat, b: nat, streamA: Stream, timeA: nat,
      streamB: Stream, timeB: nat)
    requires sim.Valid() && NobodyWaits(sim.TheDesk(), comm, a, b)
    modifies sim.queue, sim`streamInfo, sim`sendWaiting, sim`recvWaiting, sim`sends, sim`recvs, sim`pairs, sim`singles
    ensures sim.Valid() && NobodyWaits(sim.TheDesk(), comm, a, b)
    ensures OthersAlone(old(sim.TheDesk()), sim.TheDesk(), comm, a, b)
    ensures var before, now := old(sim.pairs)(P2PKey(comm, a, b)), sim.pairs(P2PKey(comm, a, b));
            && |now| == |before| + 1 && before <= now && Scheduled(sim.TheGraph(), now[|before|])
            && OnItsStream(sim.TheDesk(), streamA, now[|before|].send, timeA)
            && OnItsStream(sim.TheDesk(), streamB, now[|before|].recv, timeB)
  {
    hide DeskOk, SyncOk, LeftAlone, ExactBut, RecordedOk, AskedOk, Ok, OnItsStream, Scheduled, OthersAlone, NobodyWaits;
    if sendFirst {
      BothCall(sim, Send, comm, a, b, streamA, timeA, streamB, timeB);
    } else {
      BothCall(sim, Recv, comm, a, b, streamB, timeB, streamA, timeA);
    }
  }

  lemma AloneTwice(d: Desk, d1: Desk, d2: Desk, comm: nat, sender: nat, receiver: nat)
    requires OthersAlone(d, d1, comm, sender, receiver) && OthersAlone(d1, d2, comm, sender, receiver)
    ensures OthersAlone(d, d2, comm, sender, receiver)
  {
    hide QueueAt;
  }

  lemma NoneIsAbsent(d: Desk, side: Side, key: P2PKey)
    requires DeskOk(d) && QueueAt(WaitingOn(d, side), key) == []
    ensures key !in WaitingOn(d, side)
  {
    hide HistoryOk;
    NoEmptyQueues(d, {}) by { hide DeskBut; }
  }

  lemma PairIsScheduled(d: Desk, key: P2PKey, i: nat)
    requires DeskOk(d) && i < |d.pairs(key)|
    ensures Scheduled(d.graph, d.pairs(key)[i])
  {
    hide HistoryOk, Scheduled, StreamsOk, CollectivesOk, Dense;
    FifoHere(d, key);
  }
}
