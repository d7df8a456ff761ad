/** Matching sends with receives: per key, the two queues of waiting endpoints are what is left
    over when the i-th send is paired with the i-th receive. */
module PointToPoint {
  import opened EventGraph
  import opened EventSchedule
  import opened EventState
  import opened StreamOrder

  datatype Side = Send | Recv

  datatype P2PKey = P2PKey(comm: nat, sender: nat, receiver: nat)

  /** One side of a transfer: it starts at `flowStart`, is over at `flowEnd`, and `barrier` keeps it from starting
      unmatched. */
  datatype Endpoint = Endpoint(time: nat, flowStart: EventId, flowEnd: EventId, barrier: EventId)

  datatype Pair = Pair(send: Endpoint, recv: Endpoint, flow: EventId)

  /** `p2p_key`: a send of `rank` goes to `peer`, a receive comes from it. */
  function KeyOf(side: Side, comm: nat, rank: nat, peer: nat): P2PKey {
    if side == Send then P2PKey(comm, rank, peer) else P2PKey(comm, peer, rank)
  }

  /** A send of `rank` to `peer` and a receive of `rank'` from `peer'` are entered under one key exactly if each
      names the other, in one communicator; two calls of one side, exactly if they say the same. */
  lemma KeysAgree(comm: nat, rank: nat, peer: nat, comm': nat, rank': nat, peer': nat)
    ensures KeyOf(Send, comm, rank, peer) == KeyOf(Recv, comm', rank', peer') <==>
            comm == comm' && rank == peer' && rank' == peer
    ensures forall side :: KeyOf(side, comm, rank, peer) == KeyOf(side, comm', rank', peer') <==>
            comm == comm' && rank == rank' && peer == peer'
    ensures KeyOf(Send, comm, rank, peer).sender == rank && KeyOf(Recv, comm, rank, peer).receiver == rank
  {
  }

  function QueueAt(m: map<P2PKey, seq<Endpoint>>, key: P2PKey): seq<Endpoint> {
    if key in m then m[key] else []
  }

  /** Both sides start before the flow, and the flow is over before either side is. */
  ghost predicate Scheduled(g: Graph, p: Pair) {
    && p.flow in g.deps && p.send.flowStart in g.deps[p.flow] && p.recv.flowStart in g.deps[p.flow]
    && p.send.flowEnd in g.deps && p.flow in g.deps[p.send.flowEnd]
    && p.recv.flowEnd in g.deps && p.flow in g.deps[p.recv.flowEnd]
  }

  lemma ScheduledStays(g: Graph, g': Graph, p: Pair)
    requires Scheduled(g, p) && Extends(g, g')
    ensures Scheduled(g', p)
  {
  }

  /** Of all endpoints ever processed for a key, the i-th send is paired with the i-th receive,
      and the rest of the longer list waits. */
  ghost predicate Fifo(g: Graph, sends: seq<Endpoint>, recvs: seq<Endpoint>, sendQueue: seq<Endpoint>,
      recvQueue: seq<Endpoint>, pairs: seq<Pair>) {
    var m := if |sends| <= |recvs| then |sends| else |recvs|;
    && sendQueue == sends[m..] && recvQueue == recvs[m..] && |pairs| == m
    && forall i :: 0 <= i < m ==> pairs[i].send == sends[i] && pairs[i].recv == recvs[i] && Scheduled(g, pairs[i])
  }

  lemma NeverBothWait(g: Graph, sends: seq<Endpoint>, recvs: seq<Endpoint>, sendQueue: seq<Endpoint>,
      recvQueue: seq<Endpoint>, pairs: seq<Pair>)
    requires Fifo(g, sends, recvs, sendQueue, recvQueue, pairs)
    ensures sendQueue == [] || recvQueue == []
    ensures sendQueue != [] <==> |sends| > |recvs|
    ensures recvQueue != [] <==> |recvs| > |sends|
  {
  }

  lemma FifoStays(g: Graph, g': Graph, sends: seq<Endpoint>, recvs: seq<Endpoint>, sendQueue: seq<Endpoint>,
      recvQueue: seq<Endpoint>, pairs: seq<Pair>)
    requires Fifo(g, sends, recvs, sendQueue, recvQueue, pairs) && Extends(g, g')
    ensures Fifo(g', sends, recvs, sendQueue, recvQueue, pairs)
  {
  }

  /** An endpoint that finds nobody waiting on the other side goes to the back of its own queue. */
  lemma WaitsAtTheBack(g: Graph, sends: seq<Endpoint>, recvs: seq<Endpoint>, sendQueue: seq<Endpoint>,
      recvQueue: seq<Endpoint>, pairs: seq<Pair>,
      side: Side, ep: Endpoint)
    requires Fifo(g, sends, recvs, sendQueue, recvQueue, pairs) && (if side == Send then recvQueue == []
             else sendQueue == [])
    ensures if side == Send then Fifo(g, sends + [ep], recvs, sendQueue + [ep], recvQueue, pairs)
            else Fifo(g, sends, recvs + [ep], sendQueue, recvQueue + [ep], pairs)
  {
  }

  /** Otherwise it is paired with the first one waiting there. */
  lemma PairsWithTheFirst(g: Graph, g': Graph, sends: seq<Endpoint>, recvs: seq<Endpoint>, sendQueue: seq<Endpoint>,
      recvQueue: seq<Endpoint>, pairs: seq<Pair>,
      side: Side, ep: Endpoint, p: Pair)
    requires Fifo(g, sends, recvs, sendQueue, recvQueue, pairs) && (if side == Send then recvQueue != []
             else sendQueue != [])
    requires Extends(g, g') && Scheduled(g', p)
    requires if side == Send then p.send == ep && p.recv == recvQueue[0] else p.send == sendQueue[0] && p.recv == ep
    ensures if side == Send then Fifo(g', sends + [ep], recvs, sendQueue, recvQueue[1..], pairs + [p])
            else Fifo(g', sends, recvs + [ep], sendQueue[1..], recvQueue, pairs + [p])
  {
    hide Scheduled, Extends;
    forall i | 0 <= i < |pairs| ensures Scheduled(g', pairs[i]) { ScheduledStays(g, g', pairs[i]); }
  }

  /*** The events of an endpoint ***/

  /** The endpoint's own chain: barrier, start, end. */
  ghost predicate Strung(g: Graph, ep: Endpoint) {
    && ep.flowStart in g.deps && ep.barrier in g.deps[ep.flowStart]
    && ep.flowEnd in g.deps && ep.flowStart in g.deps[ep.flowEnd]
  }

  lemma StrungStays(g: Graph, g': Graph, ep: Endpoint)
    requires Strung(g, ep) && Extends(g, g')
    ensures Strung(g', ep)
  {
  }

  lemma StrungIsBehind(g: Graph, ep: Endpoint)
    requires Strung(g, ep) && ep.barrier in g.held
    ensures Behind(g, [ep.barrier, ep.flowStart]) && Behind(g, [ep.barrier, ep.flowStart, ep.flowEnd])
  {
  }

  /** The graph after a pair's flow is scheduled, as event `g.next`, and both barriers are released. */
  ghost function Transfer(g: Graph, send: Endpoint, recv: Endpoint): Graph {
    var g1 := AddNode(g, {send.flowStart, recv.flowStart}, false);
    Unhold(Unhold(AddEdge(AddEdge(g1, send.flowEnd, g.next), recv.flowEnd, g.next), send.barrier), recv.barrier)
  }

  /*** In time ***/

  /** A grouped operation: its endpoints start after `start`, and `end` waits for all of them. */
  ghost predicate Grouped(g: Graph, start: EventId, end: EventId, eps: seq<Endpoint>) {
    && end in g.deps
    && forall i :: 0 <= i < |eps| ==>
         && eps[i].flowStart in g.deps && start in g.deps[eps[i].flowStart] && eps[i].flowEnd in g.deps[end]
  }

  function FlowEnds(eps: seq<Endpoint>): seq<EventId> {
    seq(|eps|, i requires 0 <= i < |eps| => eps[i].flowEnd)
  }

  /** A group on a stream: its start and end there, its endpoints, and the time of its call. */
  datatype Fused = Fused(stream: Stream, at: nat, start: EventId, end: EventId, eps: seq<Endpoint>, barrier: EventId,
      time: nat)

  /** A single send or receive: its endpoint is two neighbouring events of a stream. */
  datatype Single = Single(stream: Stream, at: nat, ep: Endpoint)

  ghost predicate FusedOk(g: Graph, streams: map<Stream, StreamInfo>, f: Fused) {
    Adjacent(streams, f.stream, f.at, f.start, f.end) && Grouped(g, f.start, f.end, f.eps)
  }

  /** The flow of one of a group's endpoints, on either side, starts after the group's start and is
      over before the group's end. */
  lemma RunsInItsGroup(q: Queue, p: Pair, start: EventId, end: EventId, eps: seq<Endpoint>, i: nat)
    requires Ok(q) && Dense(GraphOf(q)) && Scheduled(GraphOf(q), p) && Grouped(GraphOf(q), start, end, eps) && i < |eps|
    requires eps[i] == p.send || eps[i] == p.recv
    ensures Ready(q, p.flow) ==> start in q.ended && q.ended[start].end <= TimeOf(q, p.flow)
    ensures Ready(q, end) ==> p.flow in q.ended && q.ended[p.flow].end <= TimeOf(q, end)
  {
    hide Ok, TimeOf, Ready;
    assert eps[i].flowStart in q.deps[p.flow] && eps[i].flowEnd in q.deps[end];
    if Ready(q, p.flow) {
      After(q, p.flow, eps[i].flowStart);
      After(q, eps[i].flowStart, start);
    }
    if Ready(q, end) {
      After(q, end, eps[i].flowEnd);
      After(q, eps[i].flowEnd, p.flow);
    }
  }
}
