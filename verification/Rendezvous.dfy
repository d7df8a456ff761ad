/** Collectives, point-to-point transfers and streams together, as a value: the invariant that
    holds between calls from the ranks, whatever their order, and what each call does to it. */
module Rendezvous {
  import opened Barriers
  import opened Collectives
  import opened EventGraph
  import opened EventSchedule
  import opened EventState
  import opened PointToPoint
  import opened StreamOrder

  /** Where a held barrier waits. */
  datatype Owner = OfCollective(op: OpKey) | OfSend(key: P2PKey) | OfRecv(key: P2PKey)

  /** `graph` is the event queue's; the fields from `made` on are bookkeeping of the proof: per operation
      the calls made, the number of completed collectives and a record of all collectives; per key the
      endpoints processed and paired; and records of all grouped operations and of all single ones. */
  datatype Desk = Desk(
    graph: Graph,
    streams: map<Stream, StreamInfo>,
    groups: map<nat, nat>,
    waiting: map<OpKey, seq<CCWaiting>>,
    sendWaiting: map<P2PKey, seq<Endpoint>>,
    recvWaiting: map<P2PKey, seq<Endpoint>>,
    made: OpKey -> Calls,
    done: OpKey -> nat,
    meetings: OpKey -> seq<Meeting>,
    sends: P2PKey -> seq<Endpoint>,
    recvs: P2PKey -> seq<Endpoint>,
    pairs: P2PKey -> seq<Pair>,
    fused: seq<Fused>,
    singles: seq<Single>)

  function InfoAt(streams: map<Stream, StreamInfo>, stream: Stream): StreamInfo {
    if stream in streams then streams[stream] else StreamInfo([], [])
  }

  function DequeAt(waiting: map<OpKey, seq<CCWaiting>>, op: OpKey): seq<CCWaiting> {
    if op in waiting then waiting[op] else []
  }

  ghost function Lines(waiting: map<OpKey, seq<CCWaiting>>, sends: map<P2PKey, seq<Endpoint>>,
      recvs: map<P2PKey, seq<Endpoint>>):
    Owner -> seq<EventId>
  {
    (o: Owner) =>
      match o
      case OfCollective(op) => CollectiveBarriers(DequeAt(waiting, op))
      case OfSend(key) => EndpointBarriers(QueueAt(sends, key))
      case OfRecv(key) => EndpointBarriers(QueueAt(recvs, key))
  }

  ghost function Line(d: Desk): Owner -> seq<EventId> {
    Lines(d.waiting, d.sendWaiting, d.recvWaiting)
  }

  ghost function CollectiveBarriers(w: seq<CCWaiting>): seq<EventId> {
    seq(|w|, i requires 0 <= i < |w| => w[i].barrier)
  }

  ghost function EndpointBarriers(w: seq<Endpoint>): seq<EventId> {
    seq(|w|, i requires 0 <= i < |w| => w[i].barrier)
  }

  /*** The invariant ***/

  ghost predicate StreamsOk(g: Graph, streams: map<Stream, StreamInfo>) {
    forall s :: s in streams ==> InOrder(g, streams[s].events)
  }

  ghost predicate CollectivesOk(d: Desk) {
    && (forall op: OpKey :: op.comm in d.groups ==>
       DequeOk(DequeAt(d.waiting, op), d.made(op), d.done(op), d.groups[op.comm]))
    && (forall op: OpKey :: op.comm !in d.groups ==>
          DequeAt(d.waiting, op) == [] && d.done(op) == 0 && forall r: nat :: d.made(op)(r) == 0)
    && (forall op: OpKey, i :: 0 <= i < |DequeAt(d.waiting, op)| ==> Gated(d.graph, DequeAt(d.waiting, op)[i]))
  }

  ghost predicate TransfersOk(d: Desk) {
    && (forall key: P2PKey :: Fifo(d.graph, d.sends(key), d.recvs(key), QueueAt(d.sendWaiting, key),
       QueueAt(d.recvWaiting, key), d.pairs(key)))
    && (forall key: P2PKey, i :: 0 <= i < |QueueAt(d.sendWaiting, key)| ==>
       Strung(d.graph, QueueAt(d.sendWaiting, key)[i]))
    && (forall key: P2PKey, i :: 0 <= i < |QueueAt(d.recvWaiting, key)| ==>
       Strung(d.graph, QueueAt(d.recvWaiting, key)[i]))
    && (forall key: P2PKey :: key in d.sendWaiting ==> d.sendWaiting[key] != [])
    && (forall key: P2PKey :: key in d.recvWaiting ==> d.recvWaiting[key] != [])
  }

  /** The invariant in the middle of a call: barriers in `extra` are held but not yet, or no longer, waiting. */
  ghost predicate DeskBut(d: Desk, extra: set<EventId>) {
    Dense(d.graph) && StreamsOk(d.graph, d.streams) && CollectivesOk(d) && TransfersOk(d)
        && HeldIn(d.graph.held, extra, Line(d))
  }

  function RanksOf(groups: map<nat, nat>, op: OpKey): nat {
    if op.comm in groups then groups[op.comm] else 0
  }

  /** The records of collectives and of groups are true. */
  ghost predicate HistoryOk(d: Desk) {
    && (forall op: OpKey ::
          MeetingsOk(d.graph, d.streams, DequeAt(d.waiting, op), d.done(op), RanksOf(d.groups, op), d.meetings(op)))
    && forall i :: 0 <= i < |d.fused| ==> FusedOk(d.graph, d.streams, d.fused[i])
  }

  /** The invariant between calls. */
  ghost predicate DeskOk(d: Desk) {
    DeskBut(d, {}) && HistoryOk(d)
  }

  /** Between calls, exactly the barriers of waiting collectives and unmatched endpoints are held;
      and no key has endpoints waiting on both sides. */
  lemma HeldExactly(d: Desk)
    requires DeskOk(d)
    ensures forall b: EventId :: b in d.graph.held <==>
              || (exists op, i :: op in d.waiting && 0 <= i < |d.waiting[op]| && d.waiting[op][i].barrier == b)
              || (exists key, i :: key in d.sendWaiting && 0 <= i < |d.sendWaiting[key]|
                                   && d.sendWaiting[key][i].barrier == b)
              || (exists key, i :: key in d.recvWaiting && 0 <= i < |d.recvWaiting[key]|
                                   && d.recvWaiting[key][i].barrier == b)
    ensures d.sendWaiting.Keys !! d.recvWaiting.Keys
  {
    hide DequeOk, Gated, Fifo, Strung, InOrder, Dense;
    forall b: EventId | b in d.graph.held
      ensures (exists op, i :: op in d.waiting && 0 <= i < |d.waiting[op]| && d.waiting[op][i].barrier == b)
        || (exists key, i :: key in d.sendWaiting && 0 <= i < |d.sendWaiting[key]|
                             && d.sendWaiting[key][i].barrier == b)
        || (exists key, i :: key in d.recvWaiting && 0 <= i < |d.recvWaiting[key]|
                             && d.recvWaiting[key][i].barrier == b)
    {
      assert InLine(Line(d), b);
      var o :| b in Line(d)(o);
      var i :| 0 <= i < |Line(d)(o)| && Line(d)(o)[i] == b;
      match o {
        case OfCollective(op) => assert d.waiting[op][i].barrier == b;
        case OfSend(key) => assert d.sendWaiting[key][i].barrier == b;
        case OfRecv(key) => assert d.recvWaiting[key][i].barrier == b;
      }
    }
    forall op, i | op in d.waiting && 0 <= i < |d.waiting[op]| ensures d.waiting[op][i].barrier in d.graph.held {
      assert Line(d)(OfCollective(op))[i] == d.waiting[op][i].barrier;
      assert InLine(Line(d), d.waiting[op][i].barrier);
    }
    forall key, i | key in d.sendWaiting && 0 <= i < |d.sendWaiting[key]|
        ensures d.sendWaiting[key][i].barrier in d.graph.held {
      assert Line(d)(OfSend(key))[i] == d.sendWaiting[key][i].barrier;
      assert InLine(Line(d), d.sendWaiting[key][i].barrier);
    }
    forall key, i | key in d.recvWaiting && 0 <= i < |d.recvWaiting[key]|
        ensures d.recvWaiting[key][i].barrier in d.graph.held {
      assert Line(d)(OfRecv(key))[i] == d.recvWaiting[key][i].barrier;
      assert InLine(Line(d), d.recvWaiting[key][i].barrier);
    }
    forall key | key in d.sendWaiting && key in d.recvWaiting ensures false {
      NeverBothWait(d.graph, d.sends(key), d.recvs(key), QueueAt(d.sendWaiting, key), QueueAt(d.recvWaiting, key),
          d.pairs(key));
    }
  }

  /*** Steps ***/

  lemma WaitingIsHeld(d: Desk, extra: set<EventId>, o: Owner, i: nat)
    requires DeskBut(d, extra) && i < |Line(d)(o)|
    ensures Line(d)(o)[i] in d.graph.held && Line(d)(o)[i] !in extra
  {
    hide DequeOk, Fifo, Strung, InOrder, Dense, Gated;
    assert InLine(Line(d), Line(d)(o)[i]);
  }

  lemma GrownTransfers(d: Desk, g: Graph)
    requires TransfersOk(d) && Extends(d.graph, g)
    ensures TransfersOk(d.(graph := g))
  {
    hide Fifo, Strung, Extends;
    forall key: P2PKey
      ensures Fifo(g, d.sends(key), d.recvs(key), QueueAt(d.sendWaiting, key), QueueAt(d.recvWaiting, key),
              d.pairs(key))
    {
      FifoStays(d.graph, g, d.sends(key), d.recvs(key), QueueAt(d.sendWaiting, key), QueueAt(d.recvWaiting, key),
          d.pairs(key));
    }
    forall key: P2PKey, i | 0 <= i < |QueueAt(d.sendWaiting, key)| ensures Strung(g, QueueAt(d.sendWaiting, key)[i]) {
      StrungStays(d.graph, g, QueueAt(d.sendWaiting, key)[i]);
    }
    forall key: P2PKey, i | 0 <= i < |QueueAt(d.recvWaiting, key)| ensures Strung(g, QueueAt(d.recvWaiting, key)[i]) {
      StrungStays(d.graph, g, QueueAt(d.recvWaiting, key)[i]);
    }
  }

  /** The graph grows; nobody who waits is released. */
  lemma GraphGrows(d: Desk, g: Graph, extra: set<EventId>, extra': set<EventId>)
    requires DeskBut(d, extra) && Dense(g) && Extends(d.graph, g) && d.graph.held - extra <= g.held
    requires HeldIn(g.held, extra', Line(d))
    ensures DeskBut(d.(graph := g), extra')
  {
    hide DequeOk, Fifo, Strung, InOrder, Dense, HeldIn, Extends, Gated, TransfersOk;
    var d' := d.(graph := g);
    forall s | s in d.streams ensures InOrder(g, d.streams[s].events) {
        ExtendsInOrder(d.graph, g, d.streams[s].events); }
    forall op: OpKey, i | 0 <= i < |DequeAt(d.waiting, op)| ensures Gated(g, DequeAt(d.waiting, op)[i]) {
      var c := DequeAt(d.waiting, op)[i];
      assert Line(d)(OfCollective(op))[i] == c.barrier;
      WaitingIsHeld(d, extra, OfCollective(op), i);
      GatedStays(d.graph, g, c);
    }
    GrownTransfers(d, g);
  }

  /** A stream gets new events. */
  lemma StreamGrows(d: Desk, extra: set<EventId>, stream: Stream, info: StreamInfo)
    requires DeskBut(d, extra) && InOrder(d.graph, info.events)
    ensures DeskBut(d.(streams := d.streams[stream := info]), extra)
  {
    hide DequeOk, Fifo, Strung, InOrder, Dense, HeldIn, Extends, Gated, TransfersOk;
    SameTransfers(d, d.(streams := d.streams[stream := info]));
  }

  lemma SameTransfers(d: Desk, d': Desk)
    requires TransfersOk(d) && d'.graph == d.graph && d'.sendWaiting == d.sendWaiting && d'.recvWaiting == d.recvWaiting
    requires d'.sends == d.sends && d'.recvs == d.recvs && d'.pairs == d.pairs
    ensures TransfersOk(d')
  {
  }

  lemma InfoInOrder(d: Desk, extra: set<EventId>, stream: Stream)
    requires DeskBut(d, extra)
    ensures InOrder(d.graph, InfoAt(d.streams, stream).events)
  {
    hide DequeOk, Fifo, Strung, Dense, HeldIn, Extends, Gated, TransfersOk;
  }

  /** A new event, on no stream. */
  lemma NodeOk(d: Desk, extra: set<EventId>, ds: set<EventId>)
    requires DeskBut(d, extra) && forall e :: e in ds ==> e < d.graph.next
    ensures var g := AddNode(d.graph, ds, false); DeskBut(d.(graph := g), extra) && Extends(d.graph, g)
  {
    hide DequeOk, Fifo, Strung, InOrder, Dense, HeldIn, Extends, Gated, TransfersOk, CollectivesOk, StreamsOk, Line;
    NodeExtends(d.graph, ds, false);
    GraphGrows(d, AddNode(d.graph, ds, false), extra, extra);
  }

  /** A new barrier, in no line yet. */
  lemma BarrierOk(d: Desk, extra: set<EventId>)
    requires DeskBut(d, extra)
    ensures var g := AddNode(d.graph, {}, true); DeskBut(d.(graph := g), extra + {d.graph.next}) && Extends(d.graph, g)
    ensures d.graph.next !in d.graph.held
  {
    hide DequeOk, Fifo, Strung, InOrder, Dense, HeldIn, Extends, Gated, TransfersOk, CollectivesOk, StreamsOk, Line;
    NodeExtends(d.graph, {}, true);
    NotYetHeld(d.graph);
    HoldOne(d.graph.held, extra, Line(d), d.graph.next);
    GraphGrows(d, AddNode(d.graph, {}, true), extra, extra + {d.graph.next});
  }

  /** An event on top of a stream, after the kernels buffered there. */
  ghost function OnStream(d: Desk, stream: Stream, ds: set<EventId>): Desk {
    var (g, events) := Appended(d.graph, InfoAt(d.streams, stream), ds);
    d.(graph := g, streams := d.streams[stream := StreamInfo(events, [])])
  }

  lemma OnStreamOk(d: Desk, extra: set<EventId>, stream: Stream, ds: set<EventId>)
    requires DeskBut(d, extra) && forall e :: e in ds ==> e < d.graph.next
    ensures DeskBut(OnStream(d, stream, ds), extra)
    ensures var d' := OnStream(d, stream, ds);
            stream in d'.streams && d.graph.next <= Newest(d'.streams[stream].events)
                && d'.graph.next == Newest(d'.streams[stream].events) + 1
  {
    hide DequeOk, Fifo, Strung, InOrder, Dense, HeldIn, Extends, Gated, TransfersOk, CollectivesOk, StreamsOk, Line,
        Appended;
    var info := InfoAt(d.streams, stream);
    InfoInOrder(d, extra, stream);
    AppendedInOrder(d.graph, info, ds);
    var (g, events) := Appended(d.graph, info, ds);
    GraphGrows(d, g, extra, extra);
    StreamGrows(d.(graph := g), extra, stream, StreamInfo(events, []));
  }

  /*** A collective call ***/

  function OneMoreCall(made: OpKey -> Calls, op: OpKey, rank: nat): OpKey -> Calls {
    (o: OpKey) => if o == op then OneMore(made(o), rank) else made(o)
  }

  function OneMoreDone(done: OpKey -> nat, op: OpKey): OpKey -> nat {
    (o: OpKey) => if o == op then done(o) + 1 else done(o)
  }

  /** The collective that a first call opens. */
  ghost function NewCollective(d: Desk, op: OpKey, rank: nat, stream: Stream, flows: nat): CCWaiting
    requires op.comm in d.groups
  {
    var first := d.graph.next + |InfoAt(d.streams, stream).buffered| + 2;
    CCWaiting(flows, first, first + 1, d.graph.next, {rank}, Ranks(d.groups[op.comm]) - {rank})
  }

  function Put<T>(f: OpKey -> T, op: OpKey, x: T): OpKey -> T {
    (o: OpKey) => if o == op then x else f(o)
  }

  /** The record of a collective that a first call opens; `events` is then the rank's stream. */
  ghost function NewMeeting(d: Desk, op: OpKey, rank: nat, stream: Stream, flows: nat, time: nat,
      events: seq<EventId>): Meeting
    requires op.comm in d.groups
  {
    var c := NewCollective(d, op, rank, stream, flows);
    Meeting(c.barrier, c.commStart, c.commEnd, time, flows, map[rank := LastTwo(stream, events, time)], [], 0)
  }

  /** `nccl_call`. */
  ghost function Called(d: Desk, op: OpKey, rank: nat, stream: Stream, flows: nat, time: nat): Desk
    requires op.comm in d.groups
  {
    var w, info := DequeAt(d.waiting, op), InfoAt(d.streams, stream);
    var i := FirstOpen(w, rank);
    if i == |w| then
      var (g, events) := Opened(d.graph, info);
      d.(graph := g, streams := d.streams[stream := StreamInfo(events, [])],
         waiting := d.waiting[op := w + [NewCollective(d, op, rank, stream, flows)]],
             made := OneMoreCall(d.made, op, rank),
         meetings := Put(d.meetings, op, d.meetings(op) + [NewMeeting(d, op, rank, stream, flows, time, events)]))
    else
      var (g, events) := JoinedGraph(d.graph, info, w[i]);
      var c, k := JoinedBy(w[i], rank), d.done(op) + i;
      var ms := Attending(d.meetings(op), k, rank, LastTwo(stream, events, time));
      if c.waitingFor == {} then
        d.(graph := Completed(g, c), streams := d.streams[stream := StreamInfo(events, [])],
           waiting := d.waiting[op := w[..i] + w[i + 1..]], made := OneMoreCall(d.made, op, rank),
               done := OneMoreDone(d.done, op),
           meetings := Put(d.meetings, op, WithFlowsOf(ms, k, g.next, c.flows, time)))
      else
        d.(graph := g, streams := d.streams[stream := StreamInfo(events, [])],
           waiting := d.waiting[op := w[i := c]], made := OneMoreCall(d.made, op, rank),
               meetings := Put(d.meetings, op, ms))
  }

  lemma DequeSet(d: Desk, d': Desk, op: OpKey, w: seq<CCWaiting>)
    requires CollectivesOk(d) && op.comm in d.groups
    requires d'.graph == d.graph && d'.groups == d.groups && d'.waiting == d.waiting[op := w]
    requires forall o: OpKey :: o != op ==> d'.made(o) == d.made(o) && d'.done(o) == d.done(o)
    requires DequeOk(w, d'.made(op), d'.done(op), d.groups[op.comm])
    requires forall i :: 0 <= i < |w| ==> Gated(d.graph, w[i])
    ensures CollectivesOk(d')
  {
    hide DequeOk, Gated;
    forall o: OpKey | o.comm in d'.groups
        ensures DequeOk(DequeAt(d'.waiting, o), d'.made(o), d'.done(o), d'.groups[o.comm]) {
      if o != op { assert DequeAt(d'.waiting, o) == DequeAt(d.waiting, o); }
    }
    forall o: OpKey, i | 0 <= i < |DequeAt(d'.waiting, o)| ensures Gated(d'.graph, DequeAt(d'.waiting, o)[i]) {
      if o != op { assert DequeAt(d'.waiting, o) == DequeAt(d.waiting, o); }
    }
  }

  lemma DequeLine(d: Desk, d': Desk, op: OpKey, w: seq<CCWaiting>)
    requires d'.waiting == d.waiting[op := w] && d'.sendWaiting == d.sendWaiting && d'.recvWaiting == d.recvWaiting
    ensures But(Line(d), Line(d'), OfCollective(op)) && Line(d')(OfCollective(op)) == CollectiveBarriers(w)
    ensures Line(d)(OfCollective(op)) == CollectiveBarriers(DequeAt(d.waiting, op))
  {
  }

  /** A collective that was just opened takes its place at the back of its deque. */
  lemma CollectiveQueued(d: Desk, d': Desk, op: OpKey, rank: nat, c: CCWaiting)
    requires DeskBut(d, {c.barrier}) && op.comm in d.groups && rank < d.groups[op.comm]
    requires Gated(d.graph, c) && c.joined == {rank} && c.waitingFor == Ranks(d.groups[op.comm]) - {rank}
    requires FirstOpen(DequeAt(d.waiting, op), rank) == |DequeAt(d.waiting, op)|
    requires d' == d.(waiting := d.waiting[op := DequeAt(d.waiting, op) + [c]], made := OneMoreCall(d.made, op, rank),
             meetings := d'.meetings)
    ensures DeskBut(d', {})
  {
    hide DequeOk, Fifo, Strung, InOrder, Dense, HeldIn, Extends, Gated, TransfersOk, CollectivesOk, Line;
    var w := DequeAt(d.waiting, op);
    assert DequeOk(w, d.made(op), d.done(op), d.groups[op.comm]) by { assert CollectivesOk(d); DequeHere(d, op); }
    OpensOne(w, d.made(op), d.done(op), d.groups[op.comm], rank, c);
    AllGated(d, op);
    DequeSet(d, d', op, w + [c]);
    SameTransfers(d, d');
    DequeLine(d, d', op, w + [c]);
    assert CollectiveBarriers(w + [c]) == CollectiveBarriers(w) + [c.barrier];
    Enqueue(d.graph.held, {c.barrier}, Line(d), Line(d'), OfCollective(op), c.barrier);
    assert {c.barrier} - {c.barrier} == {};
  }

  lemma DequeHere(d: Desk, op: OpKey)
    requires CollectivesOk(d) && op.comm in d.groups
    ensures DequeOk(DequeAt(d.waiting, op), d.made(op), d.done(op), d.groups[op.comm])
  {
    hide DequeOk, Gated;
  }

  lemma AllGated(d: Desk, op: OpKey)
    requires CollectivesOk(d)
    ensures forall i :: 0 <= i < |DequeAt(d.waiting, op)| ==> Gated(d.graph, DequeAt(d.waiting, op)[i])
  {
    hide DequeOk, Gated;
  }

  lemma JoinedByGated(g: Graph, c: CCWaiting, rank: nat)
    requires Gated(g, c)
    ensures Gated(g, JoinedBy(c, rank))
  {
    var s :| GatedBy(g, c, s);
    assert GatedBy(g, JoinedBy(c, rank), s);
  }

  /** One more rank has joined, and the collective waits for others. */
  lemma CollectiveJoined(d: Desk, d': Desk, op: OpKey, rank: nat)
    requires DeskBut(d, {}) && op.comm in d.groups && rank < d.groups[op.comm]
    requires FirstOpen(DequeAt(d.waiting, op), rank) < |DequeAt(d.waiting, op)|
    requires var w := DequeAt(d.waiting, op); var i := FirstOpen(w, rank);
             && JoinedBy(w[i], rank).waitingFor != {}
             && d' == d.(waiting := d.waiting[op := w[i := JoinedBy(w[i], rank)]],
                made := OneMoreCall(d.made, op, rank), meetings := d'.meetings)
    ensures DeskBut(d', {})
  {
    hide DequeOk, Fifo, Strung, InOrder, Dense, HeldIn, Extends, Gated, TransfersOk, CollectivesOk, Line;
    var w, i := DequeAt(d.waiting, op), FirstOpen(DequeAt(d.waiting, op), rank);
    var w' := w[i := JoinedBy(w[i], rank)];
    DequeHere(d, op);
    StaysOpen(w, d.made(op), d.done(op), d.groups[op.comm], rank);
    AllGated(d, op);
    JoinedByGated(d.graph, w[i], rank);
    DequeSet(d, d', op, w');
    SameTransfers(d, d');
    DequeLine(d, d', op, w');
    assert CollectiveBarriers(w') == CollectiveBarriers(w);
    SameLines(d.graph.held, {}, Line(d), Line(d'));
  }

  /** The last rank has joined: the collective was at the front, and leaves; its barrier is still held. */
  lemma CollectiveLeft(d: Desk, d': Desk, op: OpKey, rank: nat)
    requires DeskBut(d, {}) && op.comm in d.groups && rank < d.groups[op.comm]
    requires FirstOpen(DequeAt(d.waiting, op), rank) < |DequeAt(d.waiting, op)|
    requires var w := DequeAt(d.waiting, op); var i := FirstOpen(w, rank);
             && JoinedBy(w[i], rank).waitingFor == {}
             && d' == d.(waiting := d.waiting[op := w[..i] + w[i + 1..]],
                         made := OneMoreCall(d.made, op, rank), done := OneMoreDone(d.done, op),
                             meetings := d'.meetings)
    ensures FirstOpen(DequeAt(d.waiting, op), rank) == 0
    ensures Gated(d'.graph, JoinedBy(DequeAt(d.waiting, op)[0], rank))
            && DeskBut(d', {DequeAt(d.waiting, op)[0].barrier})
  {
    hide DequeOk, Fifo, Strung, InOrder, Dense, HeldIn, Extends, Gated, TransfersOk, CollectivesOk, Line, FirstOpen,
        CollectiveBarriers;
    var w := DequeAt(d.waiting, op);
    DequeHere(d, op);
    OnlyTheFrontCompletes(w, d.made(op), d.done(op), d.groups[op.comm], rank);
    FrontLeaves(w, d.made(op), d.done(op), d.groups[op.comm], rank);
    assert w[..0] + w[1..] == w[1..];
    AllGated(d, op);
    JoinedByGated(d.graph, w[0], rank);
    DequeSet(d, d', op, w[1..]);
    SameTransfers(d, d');
    DequeLine(d, d', op, w[1..]);
    FirstBarrierLeaves(w);
    Dequeue(d.graph.held, {}, Line(d), Line(d'), OfCollective(op));
    assert {} + {w[0].barrier} == {w[0].barrier};
  }

  lemma FirstBarrierLeaves(w: seq<CCWaiting>)
    requires w != []
    ensures CollectiveBarriers(w) != [] && CollectiveBarriers(w[1..]) == CollectiveBarriers(w)[1..]
            && CollectiveBarriers(w)[0] == w[0].barrier
  {
  }

  lemma NotYetHeld(g: Graph)
    requires Dense(g)
    ensures g.next !in g.held
  {
  }

  /** A collective call keeps the places of collectives and barriers. */
  lemma CalledDesk(d: Desk, op: OpKey, rank: nat, stream: Stream, flows: nat, time: nat)
    requires DeskBut(d, {}) && op.comm in d.groups && rank < d.groups[op.comm]
    ensures DeskBut(Called(d, op, rank, stream, flows, time), {})
  {
    hide DequeOk, Fifo, Strung, InOrder, Dense, HeldIn, Extends, Gated, TransfersOk, CollectivesOk, StreamsOk, Line,
        Opened, JoinedGraph, Completed, HistoryOk, NewMeeting;
    var w, info := DequeAt(d.waiting, op), InfoAt(d.streams, stream);
    var i := FirstOpen(w, rank);
    InfoInOrder(d, {}, stream);
    if i == |w| {
      var c := NewCollective(d, op, rank, stream, flows);
      OpenedIs(d.graph, info, c);
      var (g, events) := Opened(d.graph, info);
      NotYetHeld(d.graph);
      HoldOne(d.graph.held, {}, Line(d), d.graph.next);
      assert {} + {d.graph.next} == {c.barrier};
      GraphGrows(d, g, {}, {c.barrier});
      StreamGrows(d.(graph := g), {c.barrier}, stream, StreamInfo(events, []));
      CollectiveQueued(d.(graph := g, streams := d.streams[stream := StreamInfo(events, [])]),
          Called(d, op, rank, stream, flows, time), op, rank, c);
    } else {
      AllGated(d, op);
      JoinedIs(d.graph, info, w[i]);
      var (g, events) := JoinedGraph(d.graph, info, w[i]);
      GraphGrows(d, g, {}, {});
      StreamGrows(d.(graph := g), {}, stream, StreamInfo(events, []));
      var d2 := d.(graph := g, streams := d.streams[stream := StreamInfo(events, [])]);
      var c := JoinedBy(w[i], rank);
      if c.waitingFor != {} {
        CollectiveJoined(d2, Called(d, op, rank, stream, flows, time), op, rank);
      } else {
        var d3 := Called(d, op, rank, stream, flows, time).(graph := g);
        CollectiveLeft(d2, d3, op, rank);
        CompletedIs(g, c);
        LetGo(g.held, {c.barrier}, Line(d3), c.barrier);
        assert {c.barrier} - {c.barrier} == {};
        GraphGrows(d3, Completed(g, c), {c.barrier}, {});
      }
    }
  }

  /*** The records of collectives ***/

  lemma GrownHistory(d: Desk, g: Graph, streams: map<Stream, StreamInfo>)
    requires HistoryOk(d) && Extends(d.graph, g) && Continues(d.streams, streams)
    ensures HistoryOk(d.(graph := g, streams := streams))
  {
    hide MeetingsOk, Extends, Continues, Grouped;
    forall op: OpKey
      ensures MeetingsOk(g, streams, DequeAt(d.waiting, op), d.done(op), RanksOf(d.groups, op), d.meetings(op))
    {
      MeetingsStay(d.graph, g, d.streams, streams, DequeAt(d.waiting, op), d.done(op), RanksOf(d.groups, op),
          d.meetings(op));
    }
    forall i | 0 <= i < |d.fused| ensures FusedOk(g, streams, d.fused[i]) {
      FusedStays(d.graph, g, d.streams, streams, d.fused[i]);
    }
  }

  lemma FusedStays(g: Graph, g': Graph, streams: map<Stream, StreamInfo>, streams': map<Stream, StreamInfo>, f: Fused)
    requires FusedOk(g, streams, f) && Extends(g, g') && Continues(streams, streams')
    ensures FusedOk(g', streams', f)
  {
  }

  lemma StreamContinues(streams: map<Stream, StreamInfo>, stream: Stream, info: StreamInfo)
    requires InfoAt(streams, stream).events <= info.events
    ensures Continues(streams, streams[stream := info])
  {
  }

  lemma SameHistory(d: Desk, d': Desk)
    requires HistoryOk(d) && d'.graph == d.graph && d'.streams == d.streams && d'.waiting == d.waiting
             && d'.done == d.done
    requires d'.groups == d.groups && d'.meetings == d.meetings && d'.fused == d.fused
    ensures HistoryOk(d')
  {
  }

  /** Only one operation has changed. */
  lemma OneOperation(d: Desk, d': Desk, op: OpKey)
    requires HistoryOk(d) && d'.graph == d.graph && d'.streams == d.streams && d'.groups == d.groups
             && d'.fused == d.fused
    requires forall o: OpKey :: o != op ==>
               DequeAt(d'.waiting, o) == DequeAt(d.waiting, o) && d'.done(o) == d.done(o)
                   && d'.meetings(o) == d.meetings(o)
    requires MeetingsOk(d.graph, d.streams, DequeAt(d'.waiting, op), d'.done(op), RanksOf(d.groups, op),
             d'.meetings(op))
    ensures HistoryOk(d')
  {
    hide MeetingsOk;
  }

  lemma HistoryHere(d: Desk, op: OpKey)
    requires HistoryOk(d) && op.comm in d.groups
    ensures MeetingsOk(d.graph, d.streams, DequeAt(d.waiting, op), d.done(op), d.groups[op.comm], d.meetings(op))
  {
    hide MeetingsOk;
  }

  /** The record of the call that opens a collective. */
  lemma OpenedHistory(d: Desk, op: OpKey, rank: nat, stream: Stream, flows: nat, time: nat)
    requires DeskOk(d) && op.comm in d.groups && rank < d.groups[op.comm]
    requires FirstOpen(DequeAt(d.waiting, op), rank) == |DequeAt(d.waiting, op)|
    ensures HistoryOk(Called(d, op, rank, stream, flows, time))
  {
    hide DeskBut, Extends, Gated, HistoryOk, Opened, InOrder, Dense, TakesPart, MeetingsOk;
    var w, info, c := DequeAt(d.waiting, op), InfoAt(d.streams, stream), NewCollective(d, op, rank, stream, flows);
    InfoInOrder(d, {}, stream);
    DeskIsDense(d, {});
    OpenedIs(d.graph, info, c);
    var (g, events) := Opened(d.graph, info);
    var streams := d.streams[stream := StreamInfo(events, [])];
    StreamContinues(d.streams, stream, StreamInfo(events, []));
    GrownHistory(d, g, streams);
    var d1 := d.(graph := g, streams := streams);
    HistoryHere(d1, op);
    MeetingOpens(g, streams, w, d.done(op), d.groups[op.comm], d.meetings(op), c, rank, time,
        LastTwo(stream, events, time));
    OneOperation(d1, Called(d, op, rank, stream, flows, time), op);
  }

  lemma DeskIsDense(d: Desk, extra: set<EventId>)
    requires DeskBut(d, extra)
    ensures Dense(d.graph)
  {
    hide StreamsOk, CollectivesOk, TransfersOk, HeldIn, Dense;
  }

  /** The record of a call that joins one, before it is complete. */
  lemma JoinedHistory(d: Desk, op: OpKey, rank: nat, stream: Stream, time: nat) returns (d2: Desk)
    requires DeskOk(d) && op.comm in d.groups && rank < d.groups[op.comm]
    requires FirstOpen(DequeAt(d.waiting, op), rank) < |DequeAt(d.waiting, op)|
    ensures var w := DequeAt(d.waiting, op); var i := FirstOpen(w, rank);
            var (g, events) := JoinedGraph(d.graph, InfoAt(d.streams, stream), w[i]);
            && d2 == d.(graph := g, streams := d.streams[stream := StreamInfo(events, [])],
               waiting := d.waiting[op := w[i := JoinedBy(w[i], rank)]],
                        meetings := Put(d.meetings, op, Attending(d.meetings(op), d.done(op) + i, rank,
                            LastTwo(stream, events, time))))
            && HistoryOk(d2) && Dense(g) && Gated(g, JoinedBy(w[i], rank))
  {
    hide DeskBut, Extends, Gated, HistoryOk, JoinedGraph, InOrder, Dense, TakesPart, MeetingsOk;
    var w, info := DequeAt(d.waiting, op), InfoAt(d.streams, stream);
    var i := FirstOpen(w, rank);
    InfoInOrder(d, {}, stream);
    DeskIsDense(d, {});
    WaitingIsGated(d, op, i);
    JoinedIs(d.graph, info, w[i]);
    var (g, events) := JoinedGraph(d.graph, info, w[i]);
    var streams := d.streams[stream := StreamInfo(events, [])];
    StreamContinues(d.streams, stream, StreamInfo(events, []));
    GrownHistory(d, g, streams);
    var d1 := d.(graph := g, streams := streams);
    HistoryHere(d1, op);
    MeetingJoined(g, streams, w, d.done(op), d.groups[op.comm], d.meetings(op), i, rank, LastTwo(stream, events, time));
    d2 := d1.(waiting := d.waiting[op := w[i := JoinedBy(w[i], rank)]],
              meetings := Put(d.meetings, op, Attending(d.meetings(op), d.done(op) + i, rank,
                  LastTwo(stream, events, time))));
    OneOperation(d1, d2, op);
    GatedStays(d.graph, g, w[i])
        by { assert w[i].barrier in d.graph.held by { assert Gated(d.graph, w[i]); BarrierIsHeld(d.graph, w[i]); } }
    JoinedByGated(g, w[i], rank);
  }

  lemma WaitingIsGated(d: Desk, op: OpKey, i: nat)
    requires DeskBut(d, {}) && i < |DequeAt(d.waiting, op)|
    ensures Gated(d.graph, DequeAt(d.waiting, op)[i])
  {
    hide StreamsOk, TransfersOk, HeldIn, Dense, Gated, DequeOk;
  }

  lemma BarrierIsHeld(g: Graph, c: CCWaiting)
    requires Gated(g, c)
    ensures c.barrier in g.held
  {
  }

  lemma CalledHistory(d: Desk, op: OpKey, rank: nat, stream: Stream, flows: nat, time: nat)
    requires DeskOk(d) && op.comm in d.groups && rank < d.groups[op.comm]
    ensures HistoryOk(Called(d, op, rank, stream, flows, time))
  {
    hide DeskBut, Extends, Gated, HistoryOk, JoinedGraph, Opened, InOrder, Dense, Runs, MeetingsOk, Completed;
    var w := DequeAt(d.waiting, op);
    var i := FirstOpen(w, rank);
    var d' := Called(d, op, rank, stream, flows, time);
    if i == |w| {
      OpenedHistory(d, op, rank, stream, flows, time);
    } else {
      var d2 := JoinedHistory(d, op, rank, stream, time);
      var c := JoinedBy(w[i], rank);
      if c.waitingFor != {} {
        SameHistory(d2, d');
      } else {
        LastJoins(d, op, rank);
        CompletedIs(d2.graph, c);
        SameContinues(d2.streams);
        GrownHistory(d2, Completed(d2.graph, c), d2.streams);
        var d3 := d2.(graph := Completed(d2.graph, c));
        HistoryHere(d3, op);
        MeetingCompletes(d3.graph, d3.streams, w[0 := c], d.done(op), d.groups[op.comm], d3.meetings(op),
            d2.graph.next, time);
        assert w[..0] + w[1..] == w[0 := c][1..];
        OneOperation(d3, d', op);
      }
    }
  }

  lemma SameContinues(streams: map<Stream, StreamInfo>)
    ensures Continues(streams, streams)
  {
  }

  lemma LastJoins(d: Desk, op: OpKey, rank: nat)
    requires DeskOk(d) && op.comm in d.groups && rank < d.groups[op.comm]
    requires FirstOpen(DequeAt(d.waiting, op), rank) < |DequeAt(d.waiting, op)|
    requires JoinedBy(DequeAt(d.waiting, op)[FirstOpen(DequeAt(d.waiting, op), rank)], rank).waitingFor == {}
    ensures FirstOpen(DequeAt(d.waiting, op), rank) == 0
    ensures JoinedBy(DequeAt(d.waiting, op)[0], rank).joined == Ranks(d.groups[op.comm])
  {
    hide DequeOk, StreamsOk, TransfersOk, HeldIn, Dense, Gated, HistoryOk;
    var w, n := DequeAt(d.waiting, op), d.groups[op.comm];
    DequeHere(d, op);
    OnlyTheFrontCompletes(w, d.made(op), d.done(op), n, rank);
    JoinedAreNested(w, d.made(op), d.done(op), n, 0, 0);
  }

  /** A collective call keeps the invariant. */
  lemma CalledOk(d: Desk, op: OpKey, rank: nat, stream: Stream, flows: nat, time: nat)
    requires DeskOk(d) && op.comm in d.groups && rank < d.groups[op.comm]
    ensures DeskOk(Called(d, op, rank, stream, flows, time))
  {
    hide DeskBut, HistoryOk, Called;
    CalledDesk(d, op, rank, stream, flows, time);
    CalledHistory(d, op, rank, stream, flows, time);
  }

  /** A rank's next call, its call number `k`, is its part in collective number `k`: that collective now
      has the last two events of the rank's stream, and had nothing of the rank before.  If the call opens the
      collective, the flows are those it brings; if it completes it, all flows are there. */
  lemma CallIsItsPart(d: Desk, op: OpKey, rank: nat, stream: Stream, flows: nat, time: nat)
    requires DeskOk(d) && op.comm in d.groups && rank < d.groups[op.comm]
    ensures var d', k := Called(d, op, rank, stream, flows, time), d.made(op)(rank);
            && k < |d'.meetings(op)| && stream in d'.streams && rank in d'.meetings(op)[k].parts
            && d'.meetings(op)[k].parts[rank] == LastTwo(stream, d'.streams[stream].events, time)
            && d'.meetings(op)[k].parts[rank].time == time && d'.meetings(op)[k].parts[rank].stream == stream
            && (k < |d.meetings(op)| ==> rank !in d.meetings(op)[k].parts)
            && d'.made(op)(rank) == k + 1
    ensures var m', k := Called(d, op, rank, stream, flows, time).meetings(op)[d.made(op)(rank)], d.made(op)(rank);
            if k < |d.meetings(op)| then
              m'.openedAt == d.meetings(op)[k].openedAt && m'.wanted == d.meetings(op)[k].wanted
            else m'.openedAt == time && m'.wanted == flows
    ensures var d', k := Called(d, op, rank, stream, flows, time), d.made(op)(rank);
            k < d'.done(op) ==> d'.meetings(op)[k].closedAt == time
                                && |d'.meetings(op)[k].flows| == d'.meetings(op)[k].wanted
  {
    hide DeskBut, HistoryOk, Called, DequeAt, FirstOpen;
    NotYetThere(d, op, rank);
    if FirstOpen(DequeAt(d.waiting, op), rank) == |DequeAt(d.waiting, op)| {
      OpenedPart(d, op, rank, stream, flows, time);
    } else {
      JoinedPart(d, op, rank, stream, flows, time);
    }
  }

  /** Before its call number `k`, a rank has no part in collective number `k`, which the call will join or open. */
  lemma NotYetThere(d: Desk, op: OpKey, rank: nat)
    requires DeskOk(d) && op.comm in d.groups && rank < d.groups[op.comm]
    ensures var w, k := DequeAt(d.waiting, op), d.made(op)(rank);
            && d.done(op) + FirstOpen(w, rank) == k && |d.meetings(op)| == d.done(op) + |w|
            && (k < |d.meetings(op)| ==>
                  rank !in d.meetings(op)[k].parts && d.meetings(op)[k].wanted == w[FirstOpen(w, rank)].flows)
  {
    hide DeskBut, HistoryOk, MeetingOk, IsComplete, DequeOk;
    var w, n := DequeAt(d.waiting, op), d.groups[op.comm];
    OrderHere(d, op);
    CallJoinsItsOwn(w, d.made(op), d.done(op), n, rank);
    HistoryHere(d, op);
    if FirstOpen(w, rank) < |w| {
      assert Records(d.meetings(op)[d.done(op) + FirstOpen(w, rank)], w[FirstOpen(w, rank)]);
    }
  }

  lemma OpenedPart(d: Desk, op: OpKey, rank: nat, stream: Stream, flows: nat, time: nat)
    requires op.comm in d.groups && FirstOpen(DequeAt(d.waiting, op), rank) == |DequeAt(d.waiting, op)|
    ensures var d', n := Called(d, op, rank, stream, flows, time), |d.meetings(op)|;
            && stream in d'.streams && d'.made(op)(rank) == d.made(op)(rank) + 1 && |d'.meetings(op)| == n + 1
            && d'.meetings(op)[n].parts == map[rank := LastTwo(stream, d'.streams[stream].events, time)]
            && d'.meetings(op)[n].openedAt == time && d'.meetings(op)[n].wanted == flows && d'.done == d.done
  {
    hide JoinedGraph, Opened, Completed, LastTwo, FirstOpen;
  }

  lemma JoinedPart(d: Desk, op: OpKey, rank: nat, stream: Stream, flows: nat, time: nat)
    requires op.comm in d.groups && FirstOpen(DequeAt(d.waiting, op), rank) < |DequeAt(d.waiting, op)|
    ensures var d', ms, k := Called(d, op, rank, stream, flows, time), d.meetings(op),
            d.done(op) + FirstOpen(DequeAt(d.waiting, op), rank);
            && stream in d'.streams && d'.made(op)(rank) == d.made(op)(rank) + 1
            && (k < |ms| ==>
                  |d'.meetings(op)| == |ms| && d'.meetings(op)[k].parts == ms[k].parts[rank :=
                      LastTwo(stream, d'.streams[stream].events, time)]
                  && d'.meetings(op)[k].openedAt == ms[k].openedAt && d'.meetings(op)[k].wanted == ms[k].wanted
                  && if JoinedBy(DequeAt(d.waiting, op)[FirstOpen(DequeAt(d.waiting, op), rank)], rank).waitingFor == {}
                     then d'.meetings(op)[k].closedAt == time
                          && |d'.meetings(op)[k].flows| == DequeAt(d.waiting, op)[FirstOpen(DequeAt(d.waiting, op),
                              rank)].flows
                     else d'.done == d.done)
  {
    hide JoinedGraph, Opened, Completed, LastTwo, FirstOpen;
  }

  lemma OrderHere(d: Desk, op: OpKey)
    requires DeskBut(d, {}) && op.comm in d.groups
    ensures DequeOk(DequeAt(d.waiting, op), d.made(op), d.done(op), d.groups[op.comm])
  {
    hide DequeOk, StreamsOk, TransfersOk, HeldIn, Dense, Gated;
  }

  /** Every completed collective has a part of every rank, two events next to each other on the rank's
      stream, and as many flows as were asked for.  No flow starts before every rank's stream has come
      to the collective, and no rank's stream goes on before all flows are over. */
  lemma FlowsRunInBetween(q: Queue, d: Desk, op: OpKey, k: nat, rank: nat, i: nat)
    requires Ok(q) && DeskOk(d) && d.graph == GraphOf(q) && op.comm in d.groups && k < d.done(op)
             && rank < d.groups[op.comm]
    ensures k < |d.meetings(op)| && |d.meetings(op)[k].flows| == d.meetings(op)[k].wanted
            && rank in d.meetings(op)[k].parts
    ensures var p := d.meetings(op)[k].parts[rank]; Adjacent(d.streams, p.stream, p.at, p.start, p.end)
    ensures var m := d.meetings(op)[k];
            i < |m.flows| ==>
              && (Ready(q, m.flows[i]) ==>
                 m.parts[rank].start in q.ended && q.ended[m.parts[rank].start].end <= TimeOf(q, m.flows[i]))
              && (Ready(q, m.parts[rank].end) ==>
                 m.flows[i] in q.ended && q.ended[m.flows[i]].end <= TimeOf(q, m.parts[rank].end))
  {
    hide Ok, DeskBut, Ready, TimeOf, TakesPart, Runs, Dense, Adjacent;
    DeskIsDense(d, {});
    HistoryHere(d, op);
    var m := d.meetings(op)[k];
    assert IsComplete(m, d.groups[op.comm]) && MeetingOk(d.graph, d.streams, m);
    assert rank in Ranks(d.groups[op.comm]);
    assert Attends(d.graph, d.streams, m.commStart, m.commEnd, m.parts[rank]);
    if i < |m.flows| {
      RunsBetween(q, m.commStart, m.commEnd, m.parts[rank].start, m.parts[rank].end, m.flows[i]);
    }
  }

  /** Nothing is released early: while a collective waits for a rank, the streams of all that have joined
      it stand still there, and it has no flows. */
  lemma NobodyGoesAhead(q: Queue, d: Desk, op: OpKey, i: nat, rank: nat)
    requires Ok(q) && DeskOk(d) && d.graph == GraphOf(q) && op.comm in d.groups && i < |DequeAt(d.waiting, op)|
    requires rank in DequeAt(d.waiting, op)[i].joined
    ensures d.done(op) + i < |d.meetings(op)| && d.meetings(op)[d.done(op) + i].flows == []
    ensures rank in d.meetings(op)[d.done(op) + i].parts && d.meetings(op)[d.done(op) + i].parts[rank].end in q.pending
  {
    hide Ok, DeskBut, Runs, Dense, IsComplete, GatedBy;
    HistoryHere(d, op);
    WaitingIsGated(d, op, i);
    var c, m := DequeAt(d.waiting, op)[i], d.meetings(op)[d.done(op) + i];
    assert Records(m, c) && MeetingOk(d.graph, d.streams, m);
    var p := m.parts[rank];
    assert Attends(d.graph, d.streams, m.commStart, m.commEnd, p);
    var path := GatedIsBehind(d.graph, c);
    BehindIsPending(q, path + [p.end]);
  }

  /** For every grouped operation so far, and whatever endpoint its flow is or will be paired with: the
      flow does not start before the group's start on its stream, and the group's end there is not
      reached before the flow is over. */
  lemma FlowsStayInTheirGroups(q: Queue, d: Desk, g: nat, j: nat, key: P2PKey, i: nat)
    requires Ok(q) && DeskOk(d) && d.graph == GraphOf(q) && g < |d.fused| && j < |d.fused[g].eps| && i < |d.pairs(key)|
    requires d.pairs(key)[i].send == d.fused[g].eps[j] || d.pairs(key)[i].recv == d.fused[g].eps[j]
    ensures var f, flow := d.fused[g], d.pairs(key)[i].flow;
            && Adjacent(d.streams, f.stream, f.at, f.start, f.end)
            && (Ready(q, flow) ==> f.start in q.ended && q.ended[f.start].end <= TimeOf(q, flow))
            && (Ready(q, f.end) ==> flow in q.ended && q.ended[flow].end <= TimeOf(q, f.end))
  {
    hide Ok, Ready, TimeOf, Dense, Adjacent, MeetingsOk, Scheduled, Strung, StreamsOk, CollectivesOk, HeldIn, Grouped;
    FifoHere(d, key);
    var f := d.fused[g];
    assert FusedOk(d.graph, d.streams, f);
    RunsInItsGroup(q, d.pairs(key)[i], f.start, f.end, f.eps, j);
  }

  /** A communicator of one rank never completes a collective: each call opens another one, and all
      their barriers stay held. */
  lemma LoneRankIsNeverReleased(d: Desk, op: OpKey, stream: Stream, flows: nat, time: nat)
    requires DeskOk(d) && op.comm in d.groups && d.groups[op.comm] == 1
    ensures var d', w := Called(d, op, 0, stream, flows, time), DequeAt(d.waiting, op);
            && d'.done == d.done && |DequeAt(d'.waiting, op)| == |w| + 1 && w <= DequeAt(d'.waiting, op)
            && forall i :: 0 <= i <= |w| ==> DequeAt(d'.waiting, op)[i].barrier in d'.graph.held
  {
    hide DequeOk, Fifo, Strung, InOrder, Dense, HeldIn, Extends, Gated, TransfersOk, StreamsOk, Opened, JoinedGraph,
        Completed, HistoryOk, NewMeeting, Put, Attending, WithFlowsOf;
    var w := DequeAt(d.waiting, op);
    DequeHere(d, op);
    AloneHasJoined(w, d.made(op), d.done(op));
    CalledOk(d, op, 0, stream, flows, time);
    var d' := Called(d, op, 0, stream, flows, time);
    forall i | 0 <= i < |DequeAt(d'.waiting, op)| ensures DequeAt(d'.waiting, op)[i].barrier in d'.graph.held {
      assert Line(d')(OfCollective(op))[i] == DequeAt(d'.waiting, op)[i].barrier;
      WaitingIsHeld(d', {}, OfCollective(op), i);
    }
  }

  lemma AloneHasJoined(w: seq<CCWaiting>, made: Calls, done: nat)
    requires DequeOk(w, made, done, 1)
    ensures FirstOpen(w, 0) == |w|
  {
    if FirstOpen(w, 0) < |w| {
      NobodyElse(w, made, done, 1, 0);
      assert false;
    }
  }

  /*** An endpoint of a transfer ***/

  function Popped(m: map<P2PKey, seq<Endpoint>>, key: P2PKey): map<P2PKey, seq<Endpoint>>
    requires key in m
  {
    if |m[key]| <= 1 then m - {key} else m[key := m[key][1..]]
  }

  function Append<T>(f: P2PKey -> seq<T>, key: P2PKey, x: T): P2PKey -> seq<T> {
    (k: P2PKey) => if k == key then f(k) + [x] else f(k)
  }

  function WaitingOn(d: Desk, side: Side): map<P2PKey, seq<Endpoint>> {
    if side == Send then d.sendWaiting else d.recvWaiting
  }

  function Other(side: Side): Side {
    if side == Send then Recv else Send
  }

  function PairOf(side: Side, ep: Endpoint, peer: Endpoint, flow: EventId): Pair {
    if side == Send then Pair(ep, peer, flow) else Pair(peer, ep, flow)
  }

  /** An endpoint finds nobody on the other side and queues up. */
  function Enqueued(d: Desk, side: Side, key: P2PKey, ep: Endpoint): Desk {
    if side == Send then
      d.(sendWaiting := d.sendWaiting[key := QueueAt(d.sendWaiting, key) + [ep]], sends := Append(d.sends, key, ep))
    else
      d.(recvWaiting := d.recvWaiting[key := QueueAt(d.recvWaiting, key) + [ep]], recvs := Append(d.recvs, key, ep))
  }

  /** An endpoint is paired with the first one waiting on the other side; their flow is event `graph.next`. */
  ghost function Matched(d: Desk, side: Side, key: P2PKey, ep: Endpoint): Desk
    requires QueueAt(WaitingOn(d, Other(side)), key) != []
  {
    var pair := PairOf(side, ep, QueueAt(WaitingOn(d, Other(side)), key)[0], d.graph.next);
    var d' := d.(graph := Transfer(d.graph, pair.send, pair.recv), pairs := Append(d.pairs, key, pair));
    if side == Send then d'.(recvWaiting := Popped(d.recvWaiting, key), sends := Append(d.sends, key, ep))
    else d'.(sendWaiting := Popped(d.sendWaiting, key), recvs := Append(d.recvs, key, ep))
  }

  /** `match_or_enqueue_p2p_endpoint`. */
  ghost function Processed(d: Desk, side: Side, key: P2PKey, ep: Endpoint): Desk {
    if QueueAt(WaitingOn(d, Other(side)), key) == [] then Enqueued(d, side, key, ep) else Matched(d, side, key, ep)
  }

  function OwnerOn(side: Side, key: P2PKey): Owner {
    if side == Send then OfSend(key) else OfRecv(key)
  }

  lemma EnqueuedLine(d: Desk, side: Side, key: P2PKey, ep: Endpoint)
    ensures var d', o := Enqueued(d, side, key, ep), OwnerOn(side, key);
            But(Line(d), Line(d'), o) && Line(d')(o) == Line(d)(o) + [ep.barrier]
  {
    var q := QueueAt(WaitingOn(d, side), key);
    assert EndpointBarriers(q + [ep]) == EndpointBarriers(q) + [ep.barrier];
  }

  lemma EnqueuedTransfers(d: Desk, side: Side, key: P2PKey, ep: Endpoint)
    requires TransfersOk(d) && Strung(d.graph, ep) && QueueAt(WaitingOn(d, Other(side)), key) == []
    ensures TransfersOk(Enqueued(d, side, key, ep))
  {
    hide Fifo, Strung;
    var d' := Enqueued(d, side, key, ep);
    WaitsAtTheBack(d.graph, d.sends(key), d.recvs(key), QueueAt(d.sendWaiting, key), QueueAt(d.recvWaiting, key),
        d.pairs(key), side, ep);
  }

  lemma SameCollectives(d: Desk, d': Desk)
    requires CollectivesOk(d) && d'.graph == d.graph && d'.groups == d.groups && d'.waiting == d.waiting
    requires d'.made == d.made && d'.done == d.done
    ensures CollectivesOk(d')
  {
  }

  lemma EnqueuedOk(d: Desk, extra: set<EventId>, side: Side, key: P2PKey, ep: Endpoint)
    requires DeskBut(d, extra) && Strung(d.graph, ep) && ep.barrier in extra
             && QueueAt(WaitingOn(d, Other(side)), key) == []
    ensures DeskBut(Enqueued(d, side, key, ep), extra - {ep.barrier})
  {
    hide DequeOk, Fifo, Strung, InOrder, Dense, HeldIn, Extends, Gated, TransfersOk, CollectivesOk, StreamsOk, Line;
    var d' := Enqueued(d, side, key, ep);
    EnqueuedTransfers(d, side, key, ep);
    SameCollectives(d, d');
    EnqueuedLine(d, side, key, ep);
    Enqueue(d.graph.held, extra, Line(d), Line(d'), OwnerOn(side, key), ep.barrier);
  }

  lemma TransferIs(g: Graph, send: Endpoint, recv: Endpoint)
    requires Dense(g) && Strung(g, send) && Strung(g, recv)
    ensures var g' := Transfer(g, send, recv);
            Dense(g') && Extends(g, g') && g'.held == g.held - {send.barrier} - {recv.barrier}
                && Scheduled(g', Pair(send, recv, g.next))
  {
    hide Dense, Extends;
    assert send.flowStart < g.next && recv.flowStart < g.next by { assert Dense(g); StrungIsKnown(g, send);
        StrungIsKnown(g, recv); }
    var g1 := AddNode(g, {send.flowStart, recv.flowStart}, false);
    NodeExtends(g, {send.flowStart, recv.flowStart}, false);
    var g2 := AddEdge(g1, send.flowEnd, g.next);
    assert send.flowEnd in g1.deps && recv.flowEnd in g1.deps;
    EdgeExtends(g1, send.flowEnd, g.next);
    var g3 := AddEdge(g2, recv.flowEnd, g.next);
    EdgeExtends(g2, recv.flowEnd, g.next);
    var g4 := Unhold(g3, send.barrier);
    UnholdExtends(g3, send.barrier);
    UnholdExtends(g4, recv.barrier);
    ExtendsTwice(g, g1, g2);
    ExtendsTwice(g, g2, g3);
    ExtendsTwice(g, g3, g4);
    ExtendsTwice(g, g4, Unhold(g4, recv.barrier));
    TransferEdges(g, g1, g3, send, recv);
  }

  lemma StrungIsKnown(g: Graph, ep: Endpoint)
    requires Dense(g) && Strung(g, ep)
    ensures ep.barrier < g.next && ep.flowStart < g.next && ep.flowEnd < g.next
  {
  }

  lemma TransferEdges(g: Graph, g1: Graph, g3: Graph, send: Endpoint, recv: Endpoint)
    requires Dense(g) && Strung(g, send) && Strung(g, recv) && g1 == AddNode(g, {send.flowStart, recv.flowStart}, false)
    requires g3 == AddEdge(AddEdge(g1, send.flowEnd, g.next), recv.flowEnd, g.next)
    ensures Scheduled(g3, Pair(send, recv, g.next))
  {
    StrungIsKnown(g, send);
    StrungIsKnown(g, recv);
  }

  lemma MatchedLine(d: Desk, side: Side, key: P2PKey, ep: Endpoint)
    requires QueueAt(WaitingOn(d, Other(side)), key) != []
    ensures var d', o := Matched(d, side, key, ep), OwnerOn(Other(side), key);
            && But(Line(d), Line(d'), o) && Line(d)(o) != [] && Line(d')(o) == Line(d)(o)[1..]
            && Line(d)(o)[0] == QueueAt(WaitingOn(d, Other(side)), key)[0].barrier
  {
    var q := QueueAt(WaitingOn(d, Other(side)), key);
    assert EndpointBarriers(q[1..]) == EndpointBarriers(q)[1..];
    assert QueueAt(Popped(WaitingOn(d, Other(side)), key), key) == q[1..];
  }

  lemma MatchedTransfers(d: Desk, side: Side, key: P2PKey, ep: Endpoint)
    requires TransfersOk(d) && Strung(d.graph, ep) && Dense(d.graph) && QueueAt(WaitingOn(d, Other(side)), key) != []
    ensures TransfersOk(Matched(d, side, key, ep))
  {
    hide Fifo, Strung, Dense, Extends, Scheduled, Transfer, TransfersOk;
    var d', q := Matched(d, side, key, ep), QueueAt(WaitingOn(d, Other(side)), key);
    PeerIsStrung(d, side, key);
    var pair := PairOf(side, ep, q[0], d.graph.next);
    TransferIs(d.graph, pair.send, pair.recv);
    var g := d'.graph;
    GrownTransfers(d, g);
    assert Fifo(d.graph, d.sends(key), d.recvs(key), QueueAt(d.sendWaiting, key), QueueAt(d.recvWaiting, key),
        d.pairs(key))
      by { assert TransfersOk(d); FifoHere(d, key); }
    PairsWithTheFirst(d.graph, g, d.sends(key), d.recvs(key), QueueAt(d.sendWaiting, key),
        QueueAt(d.recvWaiting, key), d.pairs(key), side, ep, pair);
    assert QueueAt(Popped(WaitingOn(d, Other(side)), key), key) == q[1..];
    FifoAt(d.(graph := g), d', side, key);
  }

  lemma FifoHere(d: Desk, key: P2PKey)
    requires TransfersOk(d)
    ensures Fifo(d.graph, d.sends(key), d.recvs(key), QueueAt(d.sendWaiting, key), QueueAt(d.recvWaiting, key),
            d.pairs(key))
  {
    hide Fifo, Strung;
  }

  lemma PeerIsStrung(d: Desk, side: Side, key: P2PKey)
    requires TransfersOk(d) && QueueAt(WaitingOn(d, Other(side)), key) != []
    ensures Strung(d.graph, QueueAt(WaitingOn(d, Other(side)), key)[0])
  {
    hide Fifo, Strung;
  }

  /** All keys but one are as before, and on that one a waiting endpoint has left the front. */
  lemma FifoAt(d: Desk, d': Desk, side: Side, key: P2PKey)
    requires TransfersOk(d) && d'.graph == d.graph && QueueAt(WaitingOn(d, Other(side)), key) != []
    requires WaitingOn(d', side) == WaitingOn(d, side)
             && WaitingOn(d', Other(side)) == Popped(WaitingOn(d, Other(side)), key)
    requires forall k: P2PKey :: k != key ==> d'.sends(k) == d.sends(k) && d'.recvs(k) == d.recvs(k)
                                              && d'.pairs(k) == d.pairs(k)
    requires Fifo(d'.graph, d'.sends(key), d'.recvs(key), QueueAt(d'.sendWaiting, key), QueueAt(d'.recvWaiting, key),
             d'.pairs(key))
    ensures TransfersOk(d')
  {
    hide Fifo, Strung;
  }

  lemma MatchedOk(d: Desk, extra: set<EventId>, side: Side, key: P2PKey, ep: Endpoint)
    requires DeskBut(d, extra) && Strung(d.graph, ep) && ep.barrier in extra
             && QueueAt(WaitingOn(d, Other(side)), key) != []
    ensures DeskBut(Matched(d, side, key, ep), extra - {ep.barrier})
  {
    hide DequeOk, Fifo, Strung, InOrder, Dense, HeldIn, Extends, Gated, TransfersOk, CollectivesOk, StreamsOk, Line,
        Transfer;
    var d', o := Matched(d, side, key, ep), OwnerOn(Other(side), key);
    var peer := QueueAt(WaitingOn(d, Other(side)), key)[0];
    var pair := PairOf(side, ep, peer, d.graph.next);
    PeerIsStrung(d, side, key);
    TransferIs(d.graph, pair.send, pair.recv);
    MatchedTransfers(d, side, key, ep);
    MatchedLine(d, side, key, ep);
    WaitingIsHeld(d, extra, o, 0);
    var held := d.graph.held;
    Dequeue(held, extra, Line(d), Line(d'), o);
    LetGo(held, extra + {peer.barrier}, Line(d'), ep.barrier);
    LetGo(held - {ep.barrier}, extra + {peer.barrier} - {ep.barrier}, Line(d'), peer.barrier);
    assert extra + {peer.barrier} - {ep.barrier} - {peer.barrier} == extra - {ep.barrier};
    assert d'.graph.held == held - {ep.barrier} - {peer.barrier};
    MatchedCollectives(d, extra, side, key, ep);
    GrownStreams(d, d'.graph);
  }

  lemma GrownStreams(d: Desk, g: Graph)
    requires StreamsOk(d.graph, d.streams) && Extends(d.graph, g)
    ensures StreamsOk(g, d.streams)
  {
    hide InOrder, Extends;
    forall s | s in d.streams ensures InOrder(g, d.streams[s].events) {
        ExtendsInOrder(d.graph, g, d.streams[s].events); }
  }

  /** Collectives keep their barriers. */
  lemma MatchedCollectives(d: Desk, extra: set<EventId>, side: Side, key: P2PKey, ep: Endpoint)
    requires DeskBut(d, extra) && ep.barrier in extra && QueueAt(WaitingOn(d, Other(side)), key) != []
    requires var g, peer := Matched(d, side, key, ep).graph, QueueAt(WaitingOn(d, Other(side)), key)[0];
             Extends(d.graph, g) && g.held == d.graph.held - {ep.barrier} - {peer.barrier}
    ensures CollectivesOk(Matched(d, side, key, ep))
  {
    hide DequeOk, Fifo, Strung, InOrder, Dense, Extends, Gated, TransfersOk, StreamsOk, Transfer;
    var d', peerOwner := Matched(d, side, key, ep), OwnerOn(Other(side), key);
    forall op: OpKey, i | 0 <= i < |DequeAt(d.waiting, op)| ensures Gated(d'.graph, DequeAt(d.waiting, op)[i]) {
      var c := DequeAt(d.waiting, op)[i];
      assert Line(d)(OfCollective(op))[i] == c.barrier;
      WaitingIsHeld(d, extra, OfCollective(op), i);
      assert Line(d)(peerOwner)[0] == QueueAt(WaitingOn(d, Other(side)), key)[0].barrier;
      GatedStays(d.graph, d'.graph, c);
    }
  }

  /** Processing an endpoint keeps the invariant; its own barrier is now accounted for. */
  lemma ProcessedOk(d: Desk, extra: set<EventId>, side: Side, key: P2PKey, ep: Endpoint)
    requires DeskBut(d, extra) && Strung(d.graph, ep) && ep.barrier in extra
    ensures DeskBut(Processed(d, side, key, ep), extra - {ep.barrier})
    ensures Extends(d.graph, Processed(d, side, key, ep).graph)
  {
    hide DeskBut, Strung, Extends, Transfer;
    if QueueAt(WaitingOn(d, Other(side)), key) == [] {
      EnqueuedOk(d, extra, side, key, ep);
      assert Extends(d.graph, d.graph) by { SelfExtends(d.graph); }
    } else {
      MatchedOk(d, extra, side, key, ep);
      MatchedExtends(d, extra, side, key, ep);
    }
  }

  lemma SelfExtends(g: Graph)
    ensures Extends(g, g)
  {
  }

  lemma MatchedExtends(d: Desk, extra: set<EventId>, side: Side, key: P2PKey, ep: Endpoint)
    requires DeskBut(d, extra) && Strung(d.graph, ep) && QueueAt(WaitingOn(d, Other(side)), key) != []
    ensures Extends(d.graph, Matched(d, side, key, ep).graph)
  {
    hide DequeOk, Fifo, Strung, InOrder, Dense, HeldIn, Extends, Gated, TransfersOk, CollectivesOk, StreamsOk, Line,
        Transfer;
    PeerIsStrung(d, side, key);
    var pair := PairOf(side, ep, QueueAt(WaitingOn(d, Other(side)), key)[0], d.graph.next);
    TransferIs(d.graph, pair.send, pair.recv);
  }

  /*** Ungrouped transfers ***/

  /** The events of an ungrouped endpoint: a barrier off the stream, and a start and an end on it. */
  ghost function EndpointOn(g: Graph, info: StreamInfo): (Graph, seq<EventId>) {
    var (g1, events) := Appended(AddNode(g, {}, true), info, {g.next});
    Appended(g1, StreamInfo(events, []), {Newest(events)})
  }

  ghost function Ungrouped(d: Desk, stream: Stream): Desk {
    var (g, events) := EndpointOn(d.graph, InfoAt(d.streams, stream));
    d.(graph := g, streams := d.streams[stream := StreamInfo(events, [])])
  }

  ghost function UngroupedEndpoint(d: Desk, stream: Stream, time: nat): Endpoint {
    var flowStart := d.graph.next + |InfoAt(d.streams, stream).buffered| + 1;
    Endpoint(time, flowStart, flowStart + 1, d.graph.next)
  }

  /** `nccl_ungrouped_p2p`: the whole call of one side of a transfer. */
  ghost function Entered(d: Desk, side: Side, key: P2PKey, stream: Stream, time: nat): Desk {
    var d', ep := Ungrouped(d, stream), UngroupedEndpoint(d, stream, time);
    WithSingle(Processed(d', side, key, ep), LastSingle(d', stream, ep))
  }

  /** An endpoint as the last two events of its stream. */
  ghost function LastSingle(d: Desk, stream: Stream, ep: Endpoint): Single {
    var n := |InfoAt(d.streams, stream).events|;
    Single(stream, if n < 2 then 0 else n - 2, ep)
  }

  ghost function WithSingle(d: Desk, s: Single): Desk {
    d.(singles := d.singles + [s])
  }

  lemma UngroupedOk(d: Desk, stream: Stream, time: nat)
    requires DeskOk(d)
    ensures var d', ep := Ungrouped(d, stream), UngroupedEndpoint(d, stream, time);
            && DeskBut(d', {ep.barrier}) && Strung(d'.graph, ep) && d.graph.next <= d'.graph.next
            && stream in d'.streams && ep.flowEnd == Newest(d'.streams[stream].events) && HistoryOk(d')
  {
    hide DequeOk, Fifo, Strung, InOrder, Dense, HeldIn, Extends, Gated, TransfersOk, CollectivesOk, StreamsOk, Line,
        Appended, HistoryOk, Continues;
    var ep, info, g := UngroupedEndpoint(d, stream, time), InfoAt(d.streams, stream), d.graph;
    var ga := AddNode(g, {}, true);
    BarrierOk(d, {});
    assert {} + {g.next} == {ep.barrier};
    InfoInOrder(d, {}, stream);
    NodeExtends(g, {}, true);
    ExtendsInOrder(g, ga, info.events);
    AppendedInOrder(ga, info, {g.next});
    var (g1, events) := Appended(ga, info, {g.next});
    NewestIsKnown(g1, events);
    AppendedInOrder(g1, StreamInfo(events, []), {Newest(events)});
    var (g2, events') := Appended(g1, StreamInfo(events, []), {Newest(events)});
    ExtendsTwice(ga, g1, g2);
    GraphGrows(d.(graph := ga), g2, {ep.barrier}, {ep.barrier});
    StreamGrows(d.(graph := g2), {ep.barrier}, stream, StreamInfo(events', []));
    assert Strung(g2, ep) by { EndpointStrung(g1, g2, ep); }
    ExtendsTwice(g, ga, g2);
    StreamContinues(d.streams, stream, StreamInfo(events', []));
    GrownHistory(d, g2, d.streams[stream := StreamInfo(events', [])]);
    assert ga.next <= g1.next <= g2.next;
  }

  lemma EndpointStrung(g1: Graph, g2: Graph, ep: Endpoint)
    requires ep.flowStart in g1.deps && ep.barrier in g1.deps[ep.flowStart] && Extends(g1, g2)
    requires ep.flowEnd in g2.deps && ep.flowStart in g2.deps[ep.flowEnd]
    ensures Strung(g2, ep)
  {
  }

  /*** Events that are left alone ***/

  /** None of the events `es`, all of them allocated, will get another dependency: what may still get one
      is the common start and end of a waiting collective, and the end of a waiting endpoint. */
  ghost predicate LeftAlone(d: Desk, es: set<EventId>) {
    && (forall e :: e in es ==> e < d.graph.next)
    && (forall op: OpKey, i :: 0 <= i < |DequeAt(d.waiting, op)| ==>
          DequeAt(d.waiting, op)[i].commStart !in es && DequeAt(d.waiting, op)[i].commEnd !in es)
    && (forall key: P2PKey, i :: 0 <= i < |QueueAt(d.sendWaiting, key)| ==>
       QueueAt(d.sendWaiting, key)[i].flowEnd !in es)
    && (forall key: P2PKey, i :: 0 <= i < |QueueAt(d.recvWaiting, key)| ==>
       QueueAt(d.recvWaiting, key)[i].flowEnd !in es)
  }

  lemma LeftAloneStays(d: Desk, d': Desk, es: set<EventId>)
    requires LeftAlone(d, es) && d'.waiting == d.waiting && d'.sendWaiting == d.sendWaiting
             && d'.recvWaiting == d.recvWaiting
    requires d.graph.next <= d'.graph.next
    ensures LeftAlone(d', es)
  {
  }

  /** An event newer than all that may still get a dependency. */
  lemma OneMoreLeftAlone(d: Desk, d': Desk, es: set<EventId>, e: EventId)
    requires DeskBut(d, {}) && LeftAlone(d, es) && d.graph.next <= e < d'.graph.next
    requires d'.waiting == d.waiting && d'.sendWaiting == d.sendWaiting && d'.recvWaiting == d.recvWaiting
    ensures LeftAlone(d', es + {e})
  {
    hide DequeOk, Fifo, InOrder, HeldIn;
    forall op: OpKey, i | 0 <= i < |DequeAt(d.waiting, op)|
      ensures DequeAt(d.waiting, op)[i].commStart < d.graph.next && DequeAt(d.waiting, op)[i].commEnd < d.graph.next
    {
      GatedIsKnown(d.graph, DequeAt(d.waiting, op)[i]);
    }
  }

  lemma CalledLeavesAlone(d: Desk, op: OpKey, rank: nat, stream: Stream, flows: nat, time: nat, es: set<EventId>)
    requires DeskOk(d) && op.comm in d.groups && rank < d.groups[op.comm] && LeftAlone(d, es)
    requires d.graph.next <= Called(d, op, rank, stream, flows, time).graph.next
    ensures LeftAlone(Called(d, op, rank, stream, flows, time), es)
  {
    hide DeskBut, HistoryOk, Called, DequeAt, QueueAt, DeskOk;
    var d', w := Called(d, op, rank, stream, flows, time), DequeAt(d.waiting, op);
    CalledWaiting(d, op, rank, stream, flows, time);
    forall o: OpKey, i | 0 <= i < |DequeAt(d'.waiting, o)|
      ensures DequeAt(d'.waiting, o)[i].commStart !in es && DequeAt(d'.waiting, o)[i].commEnd !in es
    {
      if o == op && DequeAt(d'.waiting, op)[i].commStart < d.graph.next {
        var j :| 0 <= j < |w| && w[j].commStart == DequeAt(d'.waiting, op)[i].commStart
            && w[j].commEnd == DequeAt(d'.waiting, op)[i].commEnd;
      }
    }
  }

  /** Whatever is waited for after a call was waited for before, or is new. */
  lemma CalledWaiting(d: Desk, op: OpKey, rank: nat, stream: Stream, flows: nat, time: nat)
    requires op.comm in d.groups
    ensures var d', w := Called(d, op, rank, stream, flows, time), DequeAt(d.waiting, op);
            && d'.sendWaiting == d.sendWaiting && d'.recvWaiting == d.recvWaiting
            && (forall o: OpKey :: o != op ==> DequeAt(d'.waiting, o) == DequeAt(d.waiting, o))
            && forall i :: 0 <= i < |DequeAt(d'.waiting, op)| ==>
                 var c := DequeAt(d'.waiting, op)[i];
                 || (d.graph.next <= c.commStart && d.graph.next <= c.commEnd)
                 || exists j :: 0 <= j < |w| && w[j].commStart == c.commStart && w[j].commEnd == c.commEnd
  {
    hide JoinedGraph, Opened, Completed, Attending, WithFlowsOf, LastTwo, FirstOpen, Put, NewMeeting;
    var d', w, at := Called(d, op, rank, stream, flows, time), DequeAt(d.waiting, op),
        FirstOpen(DequeAt(d.waiting, op), rank);
    forall i | 0 <= i < |DequeAt(d'.waiting, op)|
      ensures var c := DequeAt(d'.waiting, op)[i];
              || (d.graph.next <= c.commStart && d.graph.next <= c.commEnd)
              || exists j :: 0 <= j < |w| && w[j].commStart == c.commStart && w[j].commEnd == c.commEnd
    {
      var from := if |DequeAt(d'.waiting, op)| < |w| && i >= at then i + 1 else i;
      if from < |w| {
        assert w[from].commStart == DequeAt(d'.waiting, op)[i].commStart
            && w[from].commEnd == DequeAt(d'.waiting, op)[i].commEnd;
      }
    }
  }

  lemma ProcessedLeavesAlone(d: Desk, side: Side, key: P2PKey, ep: Endpoint, es: set<EventId>)
    requires LeftAlone(d, es) && ep.flowEnd !in es && d.graph.next <= Processed(d, side, key, ep).graph.next
    ensures LeftAlone(Processed(d, side, key, ep), es)
  {
    hide Transfer, Append, PairOf;
    var d' := Processed(d, side, key, ep);
    forall k: P2PKey, i | 0 <= i < |QueueAt(d'.sendWaiting, k)| ensures QueueAt(d'.sendWaiting, k)[i].flowEnd !in es {
      QueueAfter(d.sendWaiting, d'.sendWaiting, key, ep, k, i);
    }
    forall k: P2PKey, i | 0 <= i < |QueueAt(d'.recvWaiting, k)| ensures QueueAt(d'.recvWaiting, k)[i].flowEnd !in es {
      QueueAfter(d.recvWaiting, d'.recvWaiting, key, ep, k, i);
    }
  }

  /** Whoever waits was waiting, or is the endpoint that has just come. */
  lemma QueueAfter(m: map<P2PKey, seq<Endpoint>>, m': map<P2PKey, seq<Endpoint>>, key: P2PKey, ep: Endpoint,
      k: P2PKey, i: nat)
    requires i < |QueueAt(m', k)|
    requires m' == m || m' == m[key := QueueAt(m, key) + [ep]] || (key in m && m' == Popped(m, key))
    ensures QueueAt(m', k)[i] == ep || exists j :: 0 <= j < |QueueAt(m, k)| && QueueAt(m, k)[j] == QueueAt(m', k)[i]
  {
    var j := if k == key && |QueueAt(m', k)| < |QueueAt(m, k)| then i + 1 else i;
    if j < |QueueAt(m, k)| { assert QueueAt(m, k)[j] == QueueAt(m', k)[i]; }
  }
}
