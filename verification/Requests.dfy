/** What the events of collectives, transfers and groups were asked to be: points or communications, and from when
    on.  The records of a desk are checked against what the event queue was told. */
module Requests {
  import opened Barriers
  import opened Collectives
  import opened EventState
  import opened Options
  import opened PointToPoint
  import opened Rendezvous
  import opened StreamOrder

  /** Event `e` is a point that arrives at `t`: it is over as soon as it starts. */
  ghost predicate PointAt(q: Queue, e: EventId, t: nat) {
    e in q.acts && q.acts[e] == None && e in q.arrival && q.arrival[e] == t
  }

  /** Event `e` is a communication that arrives at `t`: the network says when it is over. */
  ghost predicate FlowAt(q: Queue, e: EventId, t: nat) {
    e in q.acts && q.acts[e] == Some(Communication) && e in q.arrival && q.arrival[e] == t
  }

  /** Barrier, common start and common end of a collective are points from the time of the call that opened it, a
      rank's two events points from the time of its call, and the flows communications from the time of the call
      that completed it. */
  ghost predicate MeetingAsked(q: Queue, m: Meeting) {
    && PointAt(q, m.barrier, m.openedAt) && PointAt(q, m.commStart, m.openedAt) && PointAt(q, m.commEnd, m.openedAt)
    && (forall r :: r in m.parts ==> PartAsked(q, m.parts[r]))
    && forall i :: 0 <= i < |m.flows| ==> FlowAt(q, m.flows[i], m.closedAt)
  }

  ghost predicate PartAsked(q: Queue, p: Part) {
    PointAt(q, p.start, p.time) && PointAt(q, p.end, p.time)
  }

  /** The events of an endpoint are points from the time of its call. */
  ghost predicate EndpointAsked(q: Queue, ep: Endpoint) {
    PointAt(q, ep.barrier, ep.time) && PointAt(q, ep.flowStart, ep.time) && PointAt(q, ep.flowEnd, ep.time)
  }

  /** The flow of a pair is a communication from the later of the two calls. */
  ghost predicate PairAsked(q: Queue, p: Pair) {
    FlowAt(q, p.flow, if p.send.time <= p.recv.time then p.recv.time else p.send.time)
  }

  ghost predicate FusedAsked(q: Queue, f: Fused) {
    PointAt(q, f.barrier, f.time) && PointAt(q, f.start, f.time) && PointAt(q, f.end, f.time)
  }

  ghost predicate MeetingsAsked(q: Queue, ms: seq<Meeting>) {
    forall k :: 0 <= k < |ms| ==> MeetingAsked(q, ms[k])
  }

  ghost predicate EndpointsAsked(q: Queue, eps: seq<Endpoint>) {
    forall i :: 0 <= i < |eps| ==> EndpointAsked(q, eps[i])
  }

  ghost predicate PairsAsked(q: Queue, ps: seq<Pair>) {
    forall i :: 0 <= i < |ps| ==> PairAsked(q, ps[i])
  }

  ghost predicate TransfersAsked(q: Queue, d: Desk) {
    && (forall key :: EndpointsAsked(q, d.sends(key))) && (forall key :: EndpointsAsked(q, d.recvs(key)))
    && forall key :: PairsAsked(q, d.pairs(key))
  }

  /** All records of the desk. */
  ghost predicate AskedOk(q: Queue, d: Desk) {
    && (forall op: OpKey :: MeetingsAsked(q, d.meetings(op))) && TransfersAsked(q, d)
    && forall i :: 0 <= i < |d.fused| ==> FusedAsked(q, d.fused[i])
  }

  /** What was asked for stays, and more may be. */
  ghost predicate MoreAsked(q: Queue, q': Queue) {
    && (forall e :: e in q.acts ==> e in q'.acts && q'.acts[e] == q.acts[e])
    && forall e :: e in q.arrival ==> e in q'.arrival && q'.arrival[e] == q.arrival[e]
  }

  lemma MeetingStaysAsked(q: Queue, q': Queue, m: Meeting)
    requires MeetingAsked(q, m) && MoreAsked(q, q')
    ensures MeetingAsked(q', m)
  {
    forall r | r in m.parts ensures PartAsked(q', m.parts[r]) { assert PartAsked(q, m.parts[r]); }
    forall i | 0 <= i < |m.flows| ensures FlowAt(q', m.flows[i], m.closedAt) {
      assert FlowAt(q, m.flows[i], m.closedAt);
    }
  }

  lemma PointStays(q: Queue, q': Queue, e: EventId, t: nat)
    requires PointAt(q, e, t) && MoreAsked(q, q')
    ensures PointAt(q', e, t)
  {
  }

  lemma EndpointStaysAsked(q: Queue, q': Queue, ep: Endpoint)
    requires EndpointAsked(q, ep) && MoreAsked(q, q')
    ensures EndpointAsked(q', ep)
  {
  }

  lemma FlowsStay(q: Queue, q': Queue, first: EventId, n: nat, t: nat)
    requires MoreAsked(q, q') && forall f: EventId :: first <= f < first + n ==> FlowAt(q, f, t)
    ensures forall f: EventId :: first <= f < first + n ==> FlowAt(q', f, t)
  {
    forall f: EventId | first <= f < first + n ensures FlowAt(q', f, t) { assert FlowAt(q, f, t); }
  }

  lemma PairStaysAsked(q: Queue, q': Queue, p: Pair)
    requires PairAsked(q, p) && MoreAsked(q, q')
    ensures PairAsked(q', p)
  {
  }

  lemma FusedStaysAsked(q: Queue, q': Queue, f: Fused)
    requires FusedAsked(q, f) && MoreAsked(q, q')
    ensures FusedAsked(q', f)
  {
  }

  lemma EndpointsStayAsked(q: Queue, q': Queue, eps: seq<Endpoint>)
    requires EndpointsAsked(q, eps) && MoreAsked(q, q')
    ensures EndpointsAsked(q', eps)
  {
    hide MoreAsked, EndpointAsked;
    forall i | 0 <= i < |eps| ensures EndpointAsked(q', eps[i]) { EndpointStaysAsked(q, q', eps[i]); }
  }

  lemma TransfersStayAsked(q: Queue, q': Queue, d: Desk)
    requires TransfersAsked(q, d) && MoreAsked(q, q')
    ensures TransfersAsked(q', d)
  {
    hide MoreAsked, EndpointAsked, PairAsked, EndpointsAsked;
    forall key: P2PKey ensures EndpointsAsked(q', d.sends(key)) { EndpointsStayAsked(q, q', d.sends(key)); }
    forall key: P2PKey ensures EndpointsAsked(q', d.recvs(key)) { EndpointsStayAsked(q, q', d.recvs(key)); }
    forall key: P2PKey ensures PairsAsked(q', d.pairs(key)) {
      assert PairsAsked(q, d.pairs(key));
      forall i | 0 <= i < |d.pairs(key)| ensures PairAsked(q', d.pairs(key)[i]) {
        PairStaysAsked(q, q', d.pairs(key)[i]);
      }
    }
  }

  lemma MeetingsStayAsked(q: Queue, q': Queue, ms: seq<Meeting>)
    requires MeetingsAsked(q, ms) && MoreAsked(q, q')
    ensures MeetingsAsked(q', ms)
  {
    hide MoreAsked, MeetingAsked;
    forall k | 0 <= k < |ms| ensures MeetingAsked(q', ms[k]) { MeetingStaysAsked(q, q', ms[k]); }
  }

  /** The records are as they were. */
  ghost predicate SameRecords(d: Desk, d': Desk) {
    && d'.meetings == d.meetings && d'.sends == d.sends && d'.recvs == d.recvs && d'.pairs == d.pairs
    && d'.fused == d.fused
  }

  lemma AskedStays(q: Queue, q': Queue, d: Desk, d': Desk)
    requires AskedOk(q, d) && MoreAsked(q, q') && SameRecords(d, d')
    ensures AskedOk(q', d')
  {
    hide MoreAsked, MeetingsAsked, TransfersAsked, FusedAsked;
    forall op: OpKey ensures MeetingsAsked(q', d'.meetings(op)) { MeetingsStayAsked(q, q', d.meetings(op)); }
    TransfersStayAsked(q, q', d);
    assert TransfersAsked(q', d') by { SameTransfersAsked(q', d, d'); }
    forall i | 0 <= i < |d'.fused| ensures FusedAsked(q', d'.fused[i]) { FusedStaysAsked(q, q', d.fused[i]); }
  }

  lemma SameTransfersAsked(q: Queue, d: Desk, d': Desk)
    requires TransfersAsked(q, d) && d'.sends == d.sends && d'.recvs == d.recvs && d'.pairs == d.pairs
    ensures TransfersAsked(q, d')
  {
  }

  /*** Collectives ***/

  /** The records of one operation change. */
  lemma OperationAsked(q: Queue, d: Desk, d': Desk, op: OpKey)
    requires AskedOk(q, d) && MeetingsAsked(q, d'.meetings(op))
    requires forall o: OpKey :: o != op ==> d'.meetings(o) == d.meetings(o)
    requires d'.sends == d.sends && d'.recvs == d.recvs && d'.pairs == d.pairs && d'.fused == d.fused
    ensures AskedOk(q, d')
  {
    hide MeetingsAsked, TransfersAsked, FusedAsked;
    SameTransfersAsked(q, d, d');
  }

  /** A collective is opened, */
  lemma OpenedAsked(q: Queue, ms: seq<Meeting>, m: Meeting, p: Part, rank: nat)
    requires MeetingsAsked(q, ms) && m.parts == map[rank := p] && m.flows == [] && PartAsked(q, p)
    requires PointAt(q, m.barrier, m.openedAt) && PointAt(q, m.commStart, m.openedAt)
             && PointAt(q, m.commEnd, m.openedAt)
    ensures MeetingsAsked(q, ms + [m])
  {
    assert MeetingAsked(q, m);
  }

  /** joined, */
  lemma AttendingAsked(q: Queue, ms: seq<Meeting>, k: nat, rank: nat, p: Part)
    requires MeetingsAsked(q, ms) && PartAsked(q, p)
    ensures MeetingsAsked(q, Attending(ms, k, rank, p))
  {
    hide PartAsked;
    if k < |ms| { assert MeetingAsked(q, ms[k].(parts := ms[k].parts[rank := p])); }
  }

  /** or gets its flows. */
  lemma WithFlowsAsked(q: Queue, ms: seq<Meeting>, k: nat, first: EventId, n: nat, time: nat)
    requires MeetingsAsked(q, ms) && forall f: EventId :: first <= f < first + n ==> FlowAt(q, f, time)
    ensures MeetingsAsked(q, WithFlowsOf(ms, k, first, n, time))
  {
    hide PartAsked;
    if k < |ms| {
      var m := WithFlowsOf(ms, k, first, n, time)[k];
      forall i | 0 <= i < |m.flows| ensures FlowAt(q, m.flows[i], m.closedAt) { assert m.flows[i] == first + i; }
      assert MeetingAsked(q, m);
    }
  }

  /** Every flow of a completed collective is a communication, from the time of the completing call on; its common
      start and end, and the events of its ranks, are points. */
  lemma CompletedFlowsCommunicate(q: Queue, d: Desk, op: OpKey, k: nat, i: nat)
    requires AskedOk(q, d) && DeskOk(d) && op.comm in d.groups && k < d.done(op)
    ensures k < |d.meetings(op)| && |d.meetings(op)[k].flows| == d.meetings(op)[k].wanted
    ensures i < d.meetings(op)[k].wanted ==>
              var m := d.meetings(op)[k];
              && m.flows[i] in q.acts && q.acts[m.flows[i]] == Some(Communication)
              && m.flows[i] in q.arrival && q.arrival[m.flows[i]] == m.closedAt
    ensures forall r :: r in d.meetings(op)[k].parts ==>
              var p := d.meetings(op)[k].parts[r];
              p.start in q.acts && q.acts[p.start] == None && p.end in q.acts && q.acts[p.end] == None
  {
    hide DeskBut, MeetingOk, TransfersAsked, FusedAsked;
    HistoryHere(d, op);
    var m := d.meetings(op)[k];
    assert MeetingsAsked(q, d.meetings(op));
    assert MeetingAsked(q, m) && IsComplete(m, d.groups[op.comm]);
    if i < |m.flows| { assert FlowAt(q, m.flows[i], m.closedAt); }
    forall r | r in m.parts ensures PartAsked(q, m.parts[r]) {}
  }

  /*** Transfers ***/

  /** One more endpoint is entered, and maybe a pair. */
  lemma ProcessedAsked(q: Queue, q': Queue, d: Desk, side: Side, key: P2PKey, ep: Endpoint)
    requires AskedOk(q, d) && MoreAsked(q, q') && EndpointAsked(q, ep)
    requires QueueAt(WaitingOn(d, Other(side)), key) != [] ==>
               PairAsked(q', PairOf(side, ep, QueueAt(WaitingOn(d, Other(side)), key)[0], d.graph.next))
    ensures AskedOk(q', Processed(d, side, key, ep))
  {
    hide MoreAsked, MeetingsAsked, TransfersAsked, FusedAsked, PairAsked, EndpointAsked, Processed;
    var d' := Processed(d, side, key, ep);
    EndpointStaysAsked(q, q', ep);
    AskedStays(q, q', d, d);
    ProcessedKeeps(d, side, key, ep);
    var waiting := QueueAt(WaitingOn(d, Other(side)), key);
    var pairs := if waiting == [] then [] else [PairOf(side, ep, waiting[0], d.graph.next)];
    EnteredAsked(q', d, d', side, key, ep, pairs);
  }

  /** What an endpoint adds to the records. */
  lemma ProcessedKeeps(d: Desk, side: Side, key: P2PKey, ep: Endpoint)
    ensures var d', waiting := Processed(d, side, key, ep), QueueAt(WaitingOn(d, Other(side)), key);
            && d'.meetings == d.meetings && d'.fused == d.fused
            && d'.sends == (if side == Send then Append(d.sends, key, ep) else d.sends)
            && d'.recvs == (if side == Recv then Append(d.recvs, key, ep) else d.recvs)
            && d'.pairs == (if waiting == [] then d.pairs
                            else Append(d.pairs, key, PairOf(side, ep, waiting[0], d.graph.next)))
  {
    hide Transfer, Append, Popped, PairOf;
  }

  lemma EnteredAsked(q: Queue, d: Desk, d': Desk, side: Side, key: P2PKey, ep: Endpoint, pairs: seq<Pair>)
    requires AskedOk(q, d) && EndpointAsked(q, ep) && d'.meetings == d.meetings && d'.fused == d.fused
    requires d'.sends == if side == Send then Append(d.sends, key, ep) else d.sends
    requires d'.recvs == if side == Recv then Append(d.recvs, key, ep) else d.recvs
    requires |pairs| <= 1 && d'.pairs == (if pairs == [] then d.pairs else Append(d.pairs, key, pairs[0]))
    requires pairs != [] ==> PairAsked(q, pairs[0])
    ensures AskedOk(q, d')
  {
    hide MeetingsAsked, FusedAsked, PairAsked, EndpointAsked;
    assert TransfersAsked(q, d);
    forall k: P2PKey ensures EndpointsAsked(q, d'.sends(k)) { assert EndpointsAsked(q, d.sends(k)); }
    forall k: P2PKey ensures EndpointsAsked(q, d'.recvs(k)) { assert EndpointsAsked(q, d.recvs(k)); }
    forall k: P2PKey ensures PairsAsked(q, d'.pairs(k)) { assert PairsAsked(q, d.pairs(k)); }
  }

  /** One more group. */
  lemma GroupAsked(q: Queue, d: Desk, d': Desk, f: Fused)
    requires AskedOk(q, d) && FusedAsked(q, f) && d'.fused == d.fused + [f]
    requires d'.meetings == d.meetings && d'.sends == d.sends && d'.recvs == d.recvs && d'.pairs == d.pairs
    ensures AskedOk(q, d')
  {
    hide MeetingsAsked, TransfersAsked, FusedAsked;
    SameTransfersAsked(q, d, d');
  }

  /** Whoever waits on the other side is one of the endpoints entered there. */
  lemma WaitingWasEntered(q: Queue, d: Desk, extra: set<EventId>, side: Side, key: P2PKey)
    requires AskedOk(q, d) && DeskBut(d, extra) && QueueAt(WaitingOn(d, side), key) != []
    ensures EndpointAsked(q, QueueAt(WaitingOn(d, side), key)[0])
  {
    hide MeetingsAsked, FusedAsked, PairAsked, EndpointAsked, Strung, InOrder, Dense, HeldIn, CollectivesOk, StreamsOk,
        Scheduled;
    FifoHere(d, key);
    assert TransfersAsked(q, d);
    assert EndpointsAsked(q, d.sends(key)) && EndpointsAsked(q, d.recvs(key));
    var n, m := |d.sends(key)|, |d.recvs(key)|;
    var least := if n <= m then n else m;
    assert QueueAt(d.sendWaiting, key) == d.sends(key)[least..] && QueueAt(d.recvWaiting, key) == d.recvs(key)[least..];
  }

  /** Every flow of a pair is a communication, from the later of the two calls on. */
  lemma PairedFlowsCommunicate(q: Queue, d: Desk, key: P2PKey, i: nat)
    requires AskedOk(q, d) && i < |d.pairs(key)|
    ensures var p := d.pairs(key)[i];
            && p.flow in q.acts && q.acts[p.flow] == Some(Communication) && p.flow in q.arrival
            && p.send.time <= q.arrival[p.flow] && p.recv.time <= q.arrival[p.flow]
            && (q.arrival[p.flow] == p.send.time || q.arrival[p.flow] == p.recv.time)
  {
    hide MeetingsAsked, FusedAsked, EndpointAsked;
    assert TransfersAsked(q, d);
    assert PairsAsked(q, d.pairs(key));
    assert PairAsked(q, d.pairs(key)[i]);
  }
}
