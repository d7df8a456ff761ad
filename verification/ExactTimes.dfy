/** When collectives and transfers take place, to the microsecond: as soon as all they wait for has come, and not
    later. */
module ExactTimes {
  import opened Barriers
  import opened Collectives
  import opened EventGraph
  import opened EventSchedule
  import opened EventState
  import opened ExactDesk
  import opened ExactSteps
  import opened Options
  import opened PointToPoint
  import opened Rendezvous
  import opened Requests
  import opened StreamOrder

  /** `t` is the latest of these times. */
  ghost predicate IsLatest(t: nat, times: set<nat>) {
    t in times && forall x :: x in times ==> x <= t
  }

  ghost function EndsOf(q: Queue, es: set<EventId>): set<nat> {
    set e | e in es && e in q.ended :: q.ended[e].end
  }

  /** What is the latest of some times and of times that are latest themselves. */
  lemma LatestOfLatest(t: nat, times: set<nat>, more: set<nat>, u: nat)
    requires IsLatest(t, times + {u}) && IsLatest(u, more)
    ensures IsLatest(t, times + more)
  {
  }

  /** The state of the queue and the desk between calls. */
  ghost predicate BetweenCalls(q: Queue, d: Desk) {
    && Ok(q) && DeskOk(d) && ExactOk(d) && AskedOk(q, d) && RecordedOk(d.sends, d.recvs, d.fused, d.singles)
    && d.graph == GraphOf(q)
  }

  /** An event that is ready starts at the latest of its arrival and the ends of what it waits for; a point ends
      then, too. */
  lemma StartsAt(q: Queue, d: Desk, open: set<EventId>, e: EventId, ds: set<EventId>)
    requires Ok(q) && d.graph == GraphOf(q) && Fixed(d.graph, open, e, ds) && Ready(q, e) && e in q.arrival
    ensures ds <= q.ended.Keys && IsLatest(TimeOf(q, e), {q.arrival[e]} + EndsOf(q, ds))
    ensures e in q.ended && e in q.acts && q.acts[e] == None ==> q.ended[e].end == TimeOf(q, e)
    ensures forall x :: x in ds ==> Ready(q, x)
  {
    hide Ok, TimeOf;
    assert e < q.counter by { GraphIsDense(q); }
    StartsExactly(q, e);
    var times := {q.arrival[e]} + EndsOf(q, ds);
    forall t | t in times ensures t <= TimeOf(q, e) {}
    if TimeOf(q, e) != q.arrival[e] {
      var x :| x in q.deps[e] && q.ended[x].end == TimeOf(q, e);
      assert q.ended[x].end in EndsOf(q, ds);
    }
  }

  /*** Collectives ***/

  /** When the ranks have made their calls. */
  ghost function CallTimes(m: Meeting): set<nat> {
    set r | r in m.parts :: m.parts[r].time
  }

  /** What stood last on the ranks' streams when they made their calls. */
  ghost function Fronts(d: Desk, m: Meeting): set<EventId> {
    set r, e | r in m.parts && e in Before(d.streams, m.parts[r].stream, m.parts[r].at) :: e
  }

  ghost predicate InRecord(q: Queue, d: Desk, open: set<EventId>, m: Meeting) {
    PartsExact(d.graph, d.streams, open, m) && CompleteExact(d.graph, open, m) && MeetingAsked(q, m)
  }

  lemma MeetingHere(q: Queue, d: Desk, op: OpKey, k: nat)
    requires BetweenCalls(q, d) && op.comm in d.groups && k < d.done(op)
    ensures k < |d.meetings(op)| && InRecord(q, d, Opens(d, {}), d.meetings(op)[k])
    ensures d.meetings(op)[k].parts.Keys == Ranks(d.groups[op.comm])
  {
    hide Ok, DeskBut, ExactBut, Opens, PartsExact, CompleteExact, OpenExact, MeetingAsked, RecordedOk, MeetingOk,
        TransfersAsked, FusedAsked;
    HistoryHere(d, op);
    MeetingsHere(d, {}, op);
    assert MeetingsAsked(q, d.meetings(op));
    assert IsComplete(d.meetings(op)[k], d.groups[op.comm]);
  }

  /** A rank's start is over when its call has been made, the collective has been opened, and everything before it
      on its stream is over. */
  lemma RankComes(q: Queue, d: Desk, open: set<EventId>, m: Meeting, r: nat)
    requires Ok(q) && d.graph == GraphOf(q) && InRecord(q, d, open, m) && r in m.parts
    requires m.parts[r].start in q.ended
    ensures var p := m.parts[r];
            && Before(d.streams, p.stream, p.at) <= q.ended.Keys
            && IsLatest(q.ended[p.start].end, {p.time, m.openedAt} + EndsOf(q, Before(d.streams, p.stream, p.at)))
  {
    hide Ok, TimeOf, Before, CompleteExact;
    var p := m.parts[r];
    assert PartExact(d.graph, d.streams, open, m, p) && PartAsked(q, p);
    var before := Before(d.streams, p.stream, p.at);
    StartsAt(q, d, open, p.start, {m.barrier} + before);
    StartsAt(q, d, open, m.barrier, {});
    assert q.ended[m.barrier].end == m.openedAt;
    EndsOfBoth(q, {m.barrier}, before);
    assert EndsOf(q, {m.barrier}) == {m.openedAt};
    assert {p.time} + ({m.openedAt} + EndsOf(q, before)) == {p.time, m.openedAt} + EndsOf(q, before);
  }

  lemma EndsOfBoth(q: Queue, es: set<EventId>, more: set<EventId>)
    ensures EndsOf(q, es + more) == EndsOf(q, es) + EndsOf(q, more)
  {
  }

  /** The common start is over exactly when all ranks have made their calls and all they had to do before is over. */
  lemma AllHaveCome(q: Queue, d: Desk, open: set<EventId>, m: Meeting)
    requires Ok(q) && d.graph == GraphOf(q) && InRecord(q, d, open, m) && m.commStart in q.ended
    ensures Fronts(d, m) <= q.ended.Keys
    ensures IsLatest(q.ended[m.commStart].end, {m.openedAt} + CallTimes(m) + EndsOf(q, Fronts(d, m)))
  {
    hide Ok, TimeOf, Before, PartsExact, PartAsked;
    var t, times := q.ended[m.commStart].end, {m.openedAt} + CallTimes(m) + EndsOf(q, Fronts(d, m));
    StartsAt(q, d, open, m.commStart, StartsIn(m));
    forall r | r in m.parts
      ensures m.parts[r].start in q.ended && q.ended[m.parts[r].start].end <= t
      ensures Before(d.streams, m.parts[r].stream, m.parts[r].at) <= q.ended.Keys
      ensures IsLatest(q.ended[m.parts[r].start].end,
              {m.parts[r].time, m.openedAt} + EndsOf(q, Before(d.streams, m.parts[r].stream, m.parts[r].at)))
    {
      assert m.parts[r].start in StartsIn(m);
      assert q.ended[m.parts[r].start].end in EndsOf(q, StartsIn(m));
      RankComes(q, d, open, m, r);
    }
    forall x | x in times ensures x <= t { NoneIsLater(q, d, m, x, t); }
    if t != m.openedAt {
      assert t in EndsOf(q, StartsIn(m));
      var e :| e in StartsIn(m) && e in q.ended && q.ended[e].end == t;
      var r :| r in m.parts && m.parts[r].start == e;
      var before := Before(d.streams, m.parts[r].stream, m.parts[r].at);
      assert m.parts[r].time in CallTimes(m);
      if t in EndsOf(q, before) {
        var x :| x in before && x in q.ended && q.ended[x].end == t;
        assert x in Fronts(d, m);
      }
    }
  }

  lemma NoneIsLater(q: Queue, d: Desk, m: Meeting, x: nat, t: nat)
    requires x in {m.openedAt} + CallTimes(m) + EndsOf(q, Fronts(d, m)) && m.openedAt <= t
    requires forall r :: r in m.parts ==> m.parts[r].start in q.ended && q.ended[m.parts[r].start].end <= t
    requires forall r :: r in m.parts ==> IsLatest(q.ended[m.parts[r].start].end,
               {m.parts[r].time, m.openedAt} + EndsOf(q, Before(d.streams, m.parts[r].stream, m.parts[r].at)))
    ensures x <= t
  {
    hide Before;
    if x in CallTimes(m) {
      var r :| r in m.parts && m.parts[r].time == x;
      assert x <= q.ended[m.parts[r].start].end;
    } else if x != m.openedAt {
      var e :| e in Fronts(d, m) && e in q.ended && q.ended[e].end == x;
      var r :| r in m.parts && e in Before(d.streams, m.parts[r].stream, m.parts[r].at);
      assert x in EndsOf(q, Before(d.streams, m.parts[r].stream, m.parts[r].at));
      assert x <= q.ended[m.parts[r].start].end;
    }
  }

  /** Every flow of a collective starts exactly when the last rank has made its call and everything that stood before
      on any rank's stream is over: no earlier, and no later. */
  lemma FlowsStartExactly(q: Queue, d: Desk, op: OpKey, k: nat, i: nat)
    requires BetweenCalls(q, d) && op.comm in d.groups && k < d.done(op)
    requires k < |d.meetings(op)| && i < |d.meetings(op)[k].flows| && Ready(q, d.meetings(op)[k].flows[i])
    ensures var m := d.meetings(op)[k];
            && m.parts.Keys == Ranks(d.groups[op.comm]) && Fronts(d, m) <= q.ended.Keys
            && IsLatest(TimeOf(q, m.flows[i]),
                 {m.closedAt, m.openedAt} + CallTimes(m) + EndsOf(q, Fronts(d, m)))
  {
    hide Ok, TimeOf, DeskOk, ExactBut, AskedOk, RecordedOk, Opens, PartsExact, PartAsked, Fronts, CallTimes;
    MeetingHere(q, d, op, k);
    var m, open := d.meetings(op)[k], Opens(d, {});
    assert FlowAt(q, m.flows[i], m.closedAt);
    StartsAt(q, d, open, m.flows[i], {m.commStart});
    AllHaveCome(q, d, open, m);
    var u := q.ended[m.commStart].end;
    assert EndsOf(q, {m.commStart}) == {u};
    var times := {m.openedAt} + CallTimes(m) + EndsOf(q, Fronts(d, m));
    LatestOfLatest(TimeOf(q, m.flows[i]), {m.closedAt}, times, u);
    assert {m.closedAt} + times == {m.closedAt, m.openedAt} + CallTimes(m) + EndsOf(q, Fronts(d, m));
  }

  /** The common end is over when the last flow is, and no earlier than any rank's start. */
  lemma AllAreOver(q: Queue, d: Desk, open: set<EventId>, m: Meeting, r: nat)
    requires Ok(q) && d.graph == GraphOf(q) && InRecord(q, d, open, m) && r in m.parts && m.commEnd in q.ended
    ensures m.commStart in q.ended && Ids(m.flows) <= q.ended.Keys
    ensures IsLatest(q.ended[m.commEnd].end, {q.ended[m.commStart].end} + EndsOf(q, Ids(m.flows)))
    ensures m.parts[r].start in q.ended && m.parts[r].time <= q.ended[m.parts[r].start].end <= q.ended[m.commEnd].end
  {
    hide Ok, TimeOf, Before, Ids, PartsExact;
    StartsAt(q, d, open, m.commEnd, {m.commStart} + Ids(m.flows));
    StartsAt(q, d, open, m.commStart, StartsIn(m));
    EndsOfBoth(q, {m.commStart}, Ids(m.flows));
    var start := q.ended[m.commStart].end;
    assert EndsOf(q, {m.commStart}) == {start};
    assert m.parts[r].start in StartsIn(m);
    assert q.ended[m.parts[r].start].end in EndsOf(q, StartsIn(m));
    RankComes(q, d, open, m, r);
    assert m.openedAt <= start <= q.ended[m.commEnd].end;
    assert {m.openedAt} + ({start} + EndsOf(q, Ids(m.flows))) == {start, m.openedAt} + EndsOf(q, Ids(m.flows));
  }

  /** And every rank's stream goes on exactly when the last flow is over; if there are none, as soon as all ranks have
      come. */
  lemma RanksGoOnExactly(q: Queue, d: Desk, op: OpKey, k: nat, r: nat)
    requires BetweenCalls(q, d) && op.comm in d.groups && k < d.done(op) && r < d.groups[op.comm]
    requires k < |d.meetings(op)| && r in d.meetings(op)[k].parts && Ready(q, d.meetings(op)[k].parts[r].end)
    ensures var m := d.meetings(op)[k];
            && m.commStart in q.ended && Ids(m.flows) <= q.ended.Keys
            && IsLatest(TimeOf(q, m.parts[r].end), {q.ended[m.commStart].end} + EndsOf(q, Ids(m.flows)))
  {
    hide Ok, TimeOf, DeskOk, ExactBut, AskedOk, RecordedOk, Opens, Before, Ids, CompleteExact;
    MeetingHere(q, d, op, k);
    var m, open := d.meetings(op)[k], Opens(d, {});
    var p := m.parts[r];
    assert PartExact(d.graph, d.streams, open, m, p) && PartAsked(q, p);
    StartsAt(q, d, open, p.end, {m.commEnd, p.start});
    AllAreOver(q, d, open, m, r);
    EndsOfBoth(q, {m.commEnd}, {p.start});
    assert {m.commEnd, p.start} == {m.commEnd} + {p.start};
    assert EndsOf(q, {m.commEnd}) == {q.ended[m.commEnd].end} && EndsOf(q, {p.start}) == {q.ended[p.start].end};
    assert TimeOf(q, p.end) == q.ended[m.commEnd].end;
  }

  /*** Transfers ***/

  /** Where an endpoint stands: when it may start at the earliest, and what stood before it on its stream. */
  ghost predicate Stands(d: Desk, ep: Endpoint, times: set<nat>, front: set<EventId>) {
    || (exists i :: 0 <= i < |d.singles| && d.singles[i].ep == ep && times == {ep.time}
                    && front == Before(d.streams, d.singles[i].stream, d.singles[i].at))
    || exists i, j :: 0 <= i < |d.fused| && 0 <= j < |d.fused[i].eps| && d.fused[i].eps[j] == ep
                      && times == {ep.time, d.fused[i].time}
                      && front == Before(d.streams, d.fused[i].stream, d.fused[i].at)
  }

  /** Every endpoint of a pair stands somewhere. */
  lemma PairStands(q: Queue, d: Desk, key: P2PKey, i: nat) returns (times: set<nat>, front: set<EventId>,
      times': set<nat>, front': set<EventId>)
    requires BetweenCalls(q, d) && i < |d.pairs(key)|
    ensures Stands(d, d.pairs(key)[i].send, times, front) && Stands(d, d.pairs(key)[i].recv, times', front')
  {
    hide Ok, ExactBut, AskedOk, HistoryOk, Recorded, Scheduled, Before, Stands;
    PairIsOfBoth(d, key, i);
    times, front := StandsSomewhere(d, d.pairs(key)[i].send);
    times', front' := StandsSomewhere(d, d.pairs(key)[i].recv);
  }

  lemma PairIsOfBoth(d: Desk, key: P2PKey, i: nat)
    requires DeskOk(d) && RecordedOk(d.sends, d.recvs, d.fused, d.singles) && i < |d.pairs(key)|
    ensures i < |d.sends(key)| && d.sends(key)[i] == d.pairs(key)[i].send
    ensures i < |d.recvs(key)| && d.recvs(key)[i] == d.pairs(key)[i].recv
    ensures Recorded(d.fused, d.singles, d.pairs(key)[i].send) && Recorded(d.fused, d.singles, d.pairs(key)[i].recv)
  {
    hide HistoryOk, Recorded, Scheduled, CollectivesOk, StreamsOk, Dense, HeldIn, Strung;
    FifoHere(d, key);
    assert AllRecorded(d.fused, d.singles, d.sends(key)) && AllRecorded(d.fused, d.singles, d.recvs(key));
  }

  lemma StandsSomewhere(d: Desk, ep: Endpoint) returns (times: set<nat>, front: set<EventId>)
    requires Recorded(d.fused, d.singles, ep)
    ensures Stands(d, ep, times, front)
  {
    hide Before;
    if k :| 0 <= k < |d.singles| && d.singles[k].ep == ep {
      times, front := {ep.time}, Before(d.streams, d.singles[k].stream, d.singles[k].at);
    } else {
      var k, j :| 0 <= k < |d.fused| && 0 <= j < |d.fused[k].eps| && d.fused[k].eps[j] == ep;
      times, front := {ep.time, d.fused[k].time}, Before(d.streams, d.fused[k].stream, d.fused[k].at);
    }
  }

  /** An endpoint's start is over when its call has been made and what stands before it is over. */
  lemma SideComes(q: Queue, d: Desk, ep: Endpoint, times: set<nat>, front: set<EventId>)
    requires Ok(q) && ExactOk(d) && AskedOk(q, d) && d.graph == GraphOf(q) && EndpointAsked(q, ep)
    requires Stands(d, ep, times, front) && ep.flowStart in q.ended
    ensures front <= q.ended.Keys && IsLatest(q.ended[ep.flowStart].end, times + EndsOf(q, front))
  {
    hide Ok, TimeOf, ExactBut, Before, Opens;
    var open := Opens(d, {});
    RecordsHere(d, {});
    if i :| 0 <= i < |d.singles| && d.singles[i].ep == ep && times == {ep.time}
                    && front == Before(d.streams, d.singles[i].stream, d.singles[i].at) {
      assert SingleExact(d.graph, d.streams, open, d.singles[i]);
      StartsAt(q, d, open, ep.flowStart, {ep.barrier} + front);
      StartsAt(q, d, open, ep.barrier, {});
      EndsOfBoth(q, {ep.barrier}, front);
      assert EndsOf(q, {ep.barrier}) == {ep.time};
    } else {
      var i, j :| 0 <= i < |d.fused| && 0 <= j < |d.fused[i].eps| && d.fused[i].eps[j] == ep
                      && times == {ep.time, d.fused[i].time}
                      && front == Before(d.streams, d.fused[i].stream, d.fused[i].at);
      GroupSideComes(q, d, open, d.fused[i], j);
    }
  }

  lemma GroupStarts(q: Queue, d: Desk, open: set<EventId>, f: Fused)
    requires Ok(q) && d.graph == GraphOf(q) && FusedExact(d.graph, d.streams, open, f) && FusedAsked(q, f)
             && f.start in q.ended
    ensures var front := Before(d.streams, f.stream, f.at);
            front <= q.ended.Keys && IsLatest(q.ended[f.start].end, {f.time} + EndsOf(q, front))
  {
    hide Ok, TimeOf, Before;
    var front := Before(d.streams, f.stream, f.at);
    StartsAt(q, d, open, f.start, {f.barrier} + front);
    StartsAt(q, d, open, f.barrier, {});
    EndsOfBoth(q, {f.barrier}, front);
    assert EndsOf(q, {f.barrier}) == {f.time};
  }

  lemma GroupSideComes(q: Queue, d: Desk, open: set<EventId>, f: Fused, j: nat)
    requires Ok(q) && d.graph == GraphOf(q) && FusedExact(d.graph, d.streams, open, f) && FusedAsked(q, f)
    requires j < |f.eps| && EndpointAsked(q, f.eps[j]) && f.eps[j].flowStart in q.ended
    ensures var front := Before(d.streams, f.stream, f.at);
            front <= q.ended.Keys
                && IsLatest(q.ended[f.eps[j].flowStart].end, {f.eps[j].time, f.time} + EndsOf(q, front))
  {
    hide Ok, TimeOf, Before;
    var ep, front := f.eps[j], Before(d.streams, f.stream, f.at);
    assert EndpointInGroup(d.graph, open, f.start, ep);
    StartsAt(q, d, open, ep.flowStart, {f.start, ep.barrier});
    StartsAt(q, d, open, ep.barrier, {});
    GroupStarts(q, d, open, f);
    EndsOfBoth(q, {f.start}, {ep.barrier});
    assert {f.start, ep.barrier} == {f.start} + {ep.barrier};
    assert EndsOf(q, {ep.barrier}) == {ep.time} && EndsOf(q, {f.start}) == {q.ended[f.start].end};
    assert {ep.time} + ({q.ended[f.start].end} + {ep.time}) == {ep.time} + {q.ended[f.start].end};
    LatestOfLatest(q.ended[ep.flowStart].end, {ep.time}, {f.time} + EndsOf(q, front), q.ended[f.start].end);
    assert {ep.time} + ({f.time} + EndsOf(q, front)) == {ep.time, f.time} + EndsOf(q, front);
  }

  lemma PairHere(q: Queue, d: Desk, key: P2PKey, i: nat)
    requires BetweenCalls(q, d) && i < |d.pairs(key)|
    ensures PairExact(d.graph, Opens(d, {}), d.pairs(key)[i]) && PairAsked(q, d.pairs(key)[i])
    ensures EndpointAsked(q, d.pairs(key)[i].send) && EndpointAsked(q, d.pairs(key)[i].recv)
  {
    hide Ok, DeskOk, ExactBut, Opens, PairExact, PairAsked, EndpointAsked, MeetingsAsked, FusedAsked, RecordedOk;
    TransfersHere(d, {});
    assert PairsExact(d.graph, Opens(d, {}), d.pairs(key));
    PairIsOfBoth(d, key, i);
    assert TransfersAsked(q, d);
    assert EndpointsAsked(q, d.sends(key)) && EndpointsAsked(q, d.recvs(key)) && PairsAsked(q, d.pairs(key));
  }

  /** The flow of a pair starts exactly when both calls have been made and what stood before them on both streams is
      over: no earlier, and no later. */
  lemma TransferStartsExactly(q: Queue, d: Desk, key: P2PKey, i: nat, times: set<nat>, front: set<EventId>,
      times': set<nat>, front': set<EventId>)
    requires BetweenCalls(q, d) && i < |d.pairs(key)| && Ready(q, d.pairs(key)[i].flow)
    requires Stands(d, d.pairs(key)[i].send, times, front) && Stands(d, d.pairs(key)[i].recv, times', front')
    ensures front + front' <= q.ended.Keys
    ensures IsLatest(TimeOf(q, d.pairs(key)[i].flow), times + times' + EndsOf(q, front + front'))
  {
    hide Ok, TimeOf, DeskOk, ExactBut, AskedOk, RecordedOk, Opens, Stands, EndpointAsked;
    PairHere(q, d, key, i);
    var p, open := d.pairs(key)[i], Opens(d, {});
    StartsAt(q, d, open, p.flow, {p.send.flowStart, p.recv.flowStart});
    SideComes(q, d, p.send, times, front);
    SideComes(q, d, p.recv, times', front');
    var arrival := q.arrival[p.flow];
    TimesOfSides(d, p.send, times, front);
    TimesOfSides(d, p.recv, times', front');
    var t, u, v := TimeOf(q, p.flow), q.ended[p.send.flowStart].end, q.ended[p.recv.flowStart].end;
    EndsOfBoth(q, {p.send.flowStart}, {p.recv.flowStart});
    EndsOfBoth(q, front, front');
    assert {p.send.flowStart, p.recv.flowStart} == {p.send.flowStart} + {p.recv.flowStart};
    assert EndsOf(q, {p.send.flowStart}) == {u} && EndsOf(q, {p.recv.flowStart}) == {v};
    LaterOfBoth(t, arrival, u, v, times + EndsOf(q, front), times' + EndsOf(q, front'));
    assert times + EndsOf(q, front) + (times' + EndsOf(q, front')) == times + times' + EndsOf(q, front + front');
  }

  lemma TimesOfSides(d: Desk, ep: Endpoint, times: set<nat>, front: set<EventId>)
    requires Stands(d, ep, times, front)
    ensures ep.time in times
  {
    hide Before;
  }

  lemma LaterOfBoth(t: nat, arrival: nat, u: nat, v: nat, times: set<nat>, times': set<nat>)
    requires IsLatest(t, {arrival} + ({u} + {v})) && IsLatest(u, times) && IsLatest(v, times')
    requires arrival in times + times'
    ensures IsLatest(t, times + times')
  {
  }

  /** And both sides are over exactly when the flow is. */
  lemma SidesGoOnExactly(q: Queue, d: Desk, key: P2PKey, i: nat, ep: Endpoint)
    requires BetweenCalls(q, d) && i < |d.pairs(key)| && Ready(q, ep.flowEnd)
    requires ep == d.pairs(key)[i].send || ep == d.pairs(key)[i].recv
    ensures d.pairs(key)[i].flow in q.ended && TimeOf(q, ep.flowEnd) == q.ended[d.pairs(key)[i].flow].end
  {
    hide Ok, TimeOf, DeskOk, ExactBut, AskedOk, RecordedOk, Opens;
    PairHere(q, d, key, i);
    var p, open := d.pairs(key)[i], Opens(d, {});
    StartsAt(q, d, open, ep.flowEnd, {ep.flowStart, p.flow});
    StartsAt(q, d, open, p.flow, {p.send.flowStart, p.recv.flowStart});
    EndsOfBoth(q, {ep.flowStart}, {p.flow});
    assert {ep.flowStart, p.flow} == {ep.flowStart} + {p.flow};
    var over := q.ended[p.flow].end;
    assert EndsOf(q, {ep.flowStart}) == {q.ended[ep.flowStart].end} && EndsOf(q, {p.flow}) == {over};
    assert q.ended[ep.flowStart].end in EndsOf(q, {p.send.flowStart, p.recv.flowStart});
    assert over >= TimeOf(q, p.flow) by { FlowIsNotBack(q, p.flow); }
  }

  lemma FlowIsNotBack(q: Queue, e: EventId)
    requires Ok(q) && e in q.ended
    ensures Ready(q, e) && TimeOf(q, e) <= q.ended[e].end
  {
    hide Ok;
    EndedIsKnown(q, e);
    StartsExactly(q, e);
  }

  /** A group is over exactly when all its endpoints are. */
  lemma GroupGoesOnExactly(q: Queue, d: Desk, i: nat)
    requires BetweenCalls(q, d) && i < |d.fused| && Ready(q, d.fused[i].end)
    ensures var f := d.fused[i];
            && f.start in q.ended && Ids(FlowEnds(f.eps)) <= q.ended.Keys
            && IsLatest(TimeOf(q, f.end), {q.ended[f.start].end} + EndsOf(q, Ids(FlowEnds(f.eps))))
  {
    hide Ok, TimeOf, DeskOk, ExactBut, MeetingsAsked, TransfersAsked, RecordedOk, Opens, Ids, FlowEnds;
    var f, open := d.fused[i], Opens(d, {});
    RecordsHere(d, {});
    assert FusedExact(d.graph, d.streams, open, f) && FusedAsked(q, f);
    StartsAt(q, d, open, f.end, {f.start} + Ids(FlowEnds(f.eps)));
    GroupStarts(q, d, open, f);
    EndsOfBoth(q, {f.start}, Ids(FlowEnds(f.eps)));
    assert EndsOf(q, {f.start}) == {q.ended[f.start].end};
    assert f.time <= q.ended[f.start].end;
  }
}
