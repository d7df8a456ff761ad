/** Which collective a rank's call joins: the deque of collectives that are still waiting for ranks. */
module Collectives {
  import opened EventGraph
  import opened EventSchedule
  import opened EventState
  import opened StreamOrder

  datatype Kind = Bcast | AllReduce | AllGather | ReduceScatter

  /** A communicator and a kind of operation. */
  datatype OpKey = OpKey(comm: nat, kind: Kind)

  /** A collective that some ranks have joined; `flows` is the number of flows of its trace. */
  datatype CCWaiting = CCWaiting(flows: nat, commStart: EventId, commEnd: EventId, barrier: EventId, joined: set<nat>,
      waitingFor: set<nat>)

  /** How many calls each rank has made on an operation. */
  type Calls = nat -> nat

  function OneMore(made: Calls, rank: nat): Calls {
    r => if r == rank then made(r) + 1 else made(r)
  }

  ghost function Joined(made: Calls, k: nat, n: nat): set<nat> {
    set r | 0 <= r < n && made(r) > k
  }

  ghost function NotJoined(made: Calls, k: nat, n: nat): set<nat> {
    set r | 0 <= r < n && made(r) <= k
  }

  /** After `done` completed collectives the deque holds the next ones, in order: collective number
      `k` has been joined by exactly the ranks that have made more than `k` calls, and it is still
      waiting for someone (unless there is only one rank, which is never waited for). */
  ghost predicate DequeOk(waitings: seq<CCWaiting>, made: Calls, done: nat, n: nat) {
    && (forall i :: 0 <= i < |waitings| ==>
          && waitings[i].joined == Joined(made, done + i, n) && waitings[i].waitingFor == NotJoined(made, done + i, n)
          && waitings[i].joined != {} && (n >= 2 ==> waitings[i].waitingFor != {}))
    && forall r :: 0 <= r < n ==> done <= made(r) <= done + |waitings|
  }

  /** The first collective in the deque that the rank has not joined; the length of the deque if there is none. */
  function FirstOpen(waitings: seq<CCWaiting>, rank: nat): (i: nat)
    ensures i <= |waitings|
    ensures i < |waitings| ==> rank !in waitings[i].joined
    ensures forall j :: 0 <= j < i ==> rank in waitings[j].joined
  {
    if waitings == [] then 0
    else if rank !in waitings[0].joined then 0
    else 1 + FirstOpen(waitings[1..], rank)
  }

  /** A rank's call number `k`, counted from 0, joins or opens collective number `k`. */
  lemma CallJoinsItsOwn(waitings: seq<CCWaiting>, made: Calls, done: nat, n: nat, rank: nat)
    requires DequeOk(waitings, made, done, n) && rank < n
    ensures done + FirstOpen(waitings, rank) == made(rank)
  {
    var i := FirstOpen(waitings, rank);
    if i < |waitings| {
      assert waitings[i].joined == Joined(made, done + i, n);
    }
    if i > 0 {
      assert rank in waitings[i - 1].joined;
      assert waitings[i - 1].joined == Joined(made, done + (i - 1), n);
    }
  }

  /** How one more call changes who has joined collective number `k`. */
  lemma JoinedAfter(made: Calls, rank: nat, k: nat, n: nat)
    requires rank < n
    ensures Joined(OneMore(made, rank), k, n) == if made(rank) == k then Joined(made, k, n) + {rank}
            else Joined(made, k, n)
    ensures NotJoined(OneMore(made, rank), k, n) == if made(rank) == k then NotJoined(made, k, n) - {rank}
            else NotJoined(made, k, n)
  {
  }

  /** Ranks below `n`. */
  function Ranks(n: nat): (s: set<nat>)
    ensures forall r: nat :: r in s <==> r < n
  {
    if n == 0 then {} else Ranks(n - 1) + {n - 1}
  }

  /** Along the deque, fewer and fewer ranks have joined; with the awaited ones they make up all ranks. */
  lemma JoinedAreNested(waitings: seq<CCWaiting>, made: Calls, done: nat, n: nat, i: nat, j: nat)
    requires DequeOk(waitings, made, done, n) && i <= j < |waitings|
    ensures waitings[j].joined <= waitings[i].joined && waitings[i].waitingFor <= waitings[j].waitingFor
    ensures waitings[i].joined !! waitings[i].waitingFor
    ensures waitings[i].joined + waitings[i].waitingFor == Ranks(n)
  {
  }

  /** A call that finds no open collective opens one at the back. */
  lemma OpensOne(waitings: seq<CCWaiting>, made: Calls, done: nat, n: nat, rank: nat, c: CCWaiting)
    requires DequeOk(waitings, made, done, n) && rank < n && FirstOpen(waitings, rank) == |waitings|
    requires c.joined == {rank} && c.waitingFor == Ranks(n) - {rank}
    ensures DequeOk(waitings + [c], OneMore(made, rank), done, n)
  {
    hide Joined, NotJoined, Ranks;
    CallJoinsItsOwn(waitings, made, done, n, rank);
    var made', after := OneMore(made, rank), waitings + [c];
    var k := done + |waitings|;
    forall i | 0 <= i < |waitings|
      ensures waitings[i].joined == Joined(made', done + i, n)
              && waitings[i].waitingFor == NotJoined(made', done + i, n)
    {
      JoinedAfter(made, rank, done + i, n);
    }
    JoinedAfter(made, rank, k, n);
    NobodyYet(made, k, n);
    if n >= 2 {
      assert (if rank == 0 then 1 else 0) in c.waitingFor by { assert 0 in Ranks(n) && 1 in Ranks(n); }
    }
  }

  lemma NobodyYet(made: Calls, k: nat, n: nat)
    requires forall r :: 0 <= r < n ==> made(r) <= k
    ensures Joined(made, k, n) == {} && NotJoined(made, k, n) == Ranks(n)
  {
  }

  function JoinedBy(c: CCWaiting, rank: nat): CCWaiting {
    c.(joined := c.joined + {rank}, waitingFor := c.waitingFor - {rank})
  }

  /** Joining an open collective at `i`: the others are as before. */
  lemma JoinsOne(waitings: seq<CCWaiting>, made: Calls, done: nat, n: nat, rank: nat, at: nat)
    requires DequeOk(waitings, made, done, n) && rank < n && FirstOpen(waitings, rank) < |waitings| && at < |waitings|
    ensures var i := FirstOpen(waitings, rank);
            var c := waitings[i := JoinedBy(waitings[i], rank)][at];
            c.joined == Joined(OneMore(made, rank), done + at, n)
                && c.waitingFor == NotJoined(OneMore(made, rank), done + at, n)
  {
    hide Joined, NotJoined, OneMore;
    CallJoinsItsOwn(waitings, made, done, n, rank);
    JoinedAfter(made, rank, done + at, n);
  }

  /** If it still waits for others, it stays. */
  lemma StaysOpen(waitings: seq<CCWaiting>, made: Calls, done: nat, n: nat, rank: nat)
    requires DequeOk(waitings, made, done, n) && rank < n && FirstOpen(waitings, rank) < |waitings|
    requires var i := FirstOpen(waitings, rank); JoinedBy(waitings[i], rank).waitingFor != {}
    ensures var i := FirstOpen(waitings, rank);
            DequeOk(waitings[i := JoinedBy(waitings[i], rank)], OneMore(made, rank), done, n)
  {
    hide Joined, NotJoined;
    var i := FirstOpen(waitings, rank);
    CallJoinsItsOwn(waitings, made, done, n, rank);
    var after := waitings[i := JoinedBy(waitings[i], rank)];
    forall j | 0 <= j < |after|
      ensures after[j].joined == Joined(OneMore(made, rank), done + j, n)
              && after[j].waitingFor == NotJoined(OneMore(made, rank), done + j, n)
    {
      JoinsOne(waitings, made, done, n, rank, j);
    }
  }

  /** A collective that is complete with this call is at index 0. */
  lemma OnlyTheFrontCompletes(waitings: seq<CCWaiting>, made: Calls, done: nat, n: nat, rank: nat)
    requires DequeOk(waitings, made, done, n) && rank < n && FirstOpen(waitings, rank) < |waitings|
    requires JoinedBy(waitings[FirstOpen(waitings, rank)], rank).waitingFor == {}
    ensures FirstOpen(waitings, rank) == 0
  {
    if FirstOpen(waitings, rank) > 0 {
      LaterStillWaits(waitings, made, done, n, rank);
      assert false;
    }
  }

  /** Whoever an earlier collective waits for, a later one waits for too. */
  lemma LaterStillWaits(waitings: seq<CCWaiting>, made: Calls, done: nat, n: nat, rank: nat)
    requires DequeOk(waitings, made, done, n) && rank < n && 0 < FirstOpen(waitings, rank) < |waitings|
    ensures JoinedBy(waitings[FirstOpen(waitings, rank)], rank).waitingFor != {}
  {
    hide Joined, NotJoined;
    var i := FirstOpen(waitings, rank);
    NobodyElse(waitings, made, done, n, rank);
    JoinedAreNested(waitings, made, done, n, i - 1, i);
    var r :| r in waitings[i - 1].waitingFor;
    assert r in JoinedBy(waitings[i], rank).waitingFor;
  }

  lemma NobodyElse(waitings: seq<CCWaiting>, made: Calls, done: nat, n: nat, rank: nat)
    requires DequeOk(waitings, made, done, n) && rank < n && FirstOpen(waitings, rank) < |waitings|
    ensures n >= 2
  {
    var i := FirstOpen(waitings, rank);
    var r :| r in waitings[i].joined;
    assert r != rank;
  }

  /** Then the rest of the deque is in order without it. */
  lemma FrontLeaves(waitings: seq<CCWaiting>, made: Calls, done: nat, n: nat, rank: nat)
    requires DequeOk(waitings, made, done, n) && rank < n && FirstOpen(waitings, rank) < |waitings|
    requires JoinedBy(waitings[FirstOpen(waitings, rank)], rank).waitingFor == {}
    ensures DequeOk(waitings[1..], OneMore(made, rank), done + 1, n)
  {
    hide Joined, NotJoined, FirstOpen;
    var made' := OneMore(made, rank);
    OnlyTheFrontCompletes(waitings, made, done, n, rank);
    CallJoinsItsOwn(waitings, made, done, n, rank);
    JoinsOne(waitings, made, done, n, rank, 0);
    AllHaveJoined(made', done, n);
    var rest := waitings[1..];
    forall j | 0 <= j < |rest|
      ensures rest[j].joined == Joined(made', done + 1 + j, n)
              && rest[j].waitingFor == NotJoined(made', done + 1 + j, n)
    {
      JoinsOne(waitings, made, done, n, rank, j + 1);
    }
  }

  lemma AllHaveJoined(made: Calls, k: nat, n: nat)
    requires NotJoined(made, k, n) == {}
    ensures forall r :: 0 <= r < n ==> made(r) >= k + 1
  {
    forall r | 0 <= r < n ensures made(r) >= k + 1 {
      assert r !in NotJoined(made, k, n);
    }
  }

  /*** The events of a collective ***/

  /** The chain from a collective's barrier to its end: barrier, a stream's start, the common start, the common end. */
  ghost predicate GatedBy(g: Graph, c: CCWaiting, s: EventId) {
    && c.barrier in g.held && s in g.deps && c.barrier in g.deps[s]
    && c.commStart in g.deps && s in g.deps[c.commStart] && c.commEnd in g.deps && c.commStart in g.deps[c.commEnd]
  }

  ghost predicate Gated(g: Graph, c: CCWaiting) {
    exists s :: GatedBy(g, c, s)
  }

  lemma GatedStays(g: Graph, g': Graph, c: CCWaiting)
    requires Gated(g, c) && Extends(g, g') && c.barrier in g'.held
    ensures Gated(g', c)
  {
    var s :| GatedBy(g, c, s);
    assert GatedBy(g', c, s);
  }

  lemma GatedIsBehind(g: Graph, c: CCWaiting) returns (p: seq<EventId>)
    requires Gated(g, c)
    ensures |p| == 4 && p[2] == c.commStart && p[3] == c.commEnd && Behind(g, p) && Behind(g, p[..3])
  {
    var s :| GatedBy(g, c, s);
    p := [c.barrier, s, c.commStart, c.commEnd];
  }

  /** The graph after the first rank's call, whose stream is `info`; the barrier is event `g.next`. */
  ghost function Opened(g: Graph, info: StreamInfo): (Graph, seq<EventId>) {
    var (g1, events) := Appended(AddNode(g, {}, true), info, {g.next});
    var g2 := AddNode(AddNode(g1, {Newest(events)}, false), {g1.next}, false);
    Appended(g2, StreamInfo(events, []), {g1.next + 1})
  }

  /** The graph after another rank's call. */
  ghost function JoinedGraph(g: Graph, info: StreamInfo, c: CCWaiting): (Graph, seq<EventId>) {
    var (g1, events) := Appended(g, info, {c.barrier});
    Appended(AddEdge(g1, c.commStart, Newest(events)), StreamInfo(events, []), {c.commEnd})
  }

  /** `n` flows that wait for the common start. */
  ghost function WithFlows(g: Graph, commStart: EventId, n: nat): Graph
    decreases n
  {
    if n == 0 then g else WithFlows(AddNode(g, {commStart}, false), commStart, n - 1)
  }

  /** The common end waits for the flows `first` to `first + n - 1`. */
  ghost function WithFlowEnds(g: Graph, commEnd: EventId, first: EventId, n: nat): Graph
    decreases n
  {
    if n == 0 then g else WithFlowEnds(AddEdge(g, commEnd, first), commEnd, first + 1, n - 1)
  }

  /** The graph after the last rank's call has added the flows and released the barrier. */
  ghost function Completed(g: Graph, c: CCWaiting): Graph {
    Unhold(WithFlowEnds(WithFlows(g, c.commStart, c.flows), c.commEnd, g.next, c.flows), c.barrier)
  }

  lemma OpenedIs(g: Graph, info: StreamInfo, c: CCWaiting)
    requires Dense(g) && InOrder(g, info.events)
    requires c.barrier == g.next && c.commStart == g.next + |info.buffered| + 2 && c.commEnd == c.commStart + 1
    ensures var (g', events) := Opened(g, info);
            && Dense(g') && Extends(g, g') && InOrder(g', events) && info.events <= events
            && g'.held == g.held + {g.next} && Gated(g', c)
            && |events| >= 2 && TakesPart(g', c.commStart, c.commEnd, events[|events| - 2], events[|events| - 1])
  {
    hide Dense, InOrder, Extends;
    var ga := AddNode(g, {}, true);
    NodeExtends(g, {}, true);
    ExtendsInOrder(g, ga, info.events);
    AppendedInOrder(ga, info, {g.next});
    var (g1, events) := Appended(ga, info, {g.next});
    ExtendsTwice(g, ga, g1);
    NewestIsKnown(g1, events);
    MetaNodes(g1, events);
    var g2 := AddNode(AddNode(g1, {Newest(events)}, false), {g1.next}, false);
    ExtendsTwice(g, g1, g2);
    AppendedInOrder(g2, StreamInfo(events, []), {g1.next + 1});
    var (g', events') := Appended(g2, StreamInfo(events, []), {g1.next + 1});
    ExtendsTwice(g, g2, g');
    assert GatedBy(g', c, Newest(events)) by { OpenedGates(g1, g2, g', c, Newest(events)); }
    assert events' == events + [g2.next];
  }

  lemma ExtendsTwice(g: Graph, g1: Graph, g2: Graph)
    requires Extends(g, g1) && Extends(g1, g2)
    ensures Extends(g, g2)
  {
  }

  /** The common start and the common end, each behind the one before. */
  lemma MetaNodes(g: Graph, events: seq<EventId>)
    requires Dense(g) && InOrder(g, events) && events != []
    ensures var g' := AddNode(AddNode(g, {Newest(events)}, false), {g.next}, false);
            Dense(g') && Extends(g, g') && InOrder(g', events) && g'.held == g.held
  {
    hide Dense, InOrder, Extends;
    var g1 := AddNode(g, {Newest(events)}, false);
    NewestIsKnown(g, events);
    NodeExtends(g, {Newest(events)}, false);
    NodeExtends(g1, {g.next}, false);
    ExtendsTwice(g, g1, AddNode(g1, {g.next}, false));
    ExtendsInOrder(g, AddNode(g1, {g.next}, false), events);
  }

  lemma NewestIsKnown(g: Graph, events: seq<EventId>)
    requires InOrder(g, events) && events != []
    ensures Newest(events) < g.next && Newest(events) in g.deps
  {
  }

  lemma OpenedGates(g1: Graph, g2: Graph, g': Graph, c: CCWaiting, s: EventId)
    requires s in g1.deps && s < g1.next && c.barrier in g1.deps[s] && c.barrier in g'.held
    requires g2 == AddNode(AddNode(g1, {s}, false), {g1.next}, false) && Extends(g1, g2) && Extends(g2, g')
    requires c.commStart == g1.next && c.commEnd == g1.next + 1
    ensures GatedBy(g', c, s)
  {
  }

  /** A rank takes part in a collective between its two stream events `start` and `end`. */
  ghost predicate TakesPart(g: Graph, commStart: EventId, commEnd: EventId, start: EventId, end: EventId) {
    commStart in g.deps && start in g.deps[commStart] && end in g.deps && commEnd in g.deps[end]
  }

  lemma JoinedIs(g: Graph, info: StreamInfo, c: CCWaiting)
    requires Dense(g) && InOrder(g, info.events) && Gated(g, c)
    ensures var (g', events) := JoinedGraph(g, info, c);
            && Dense(g') && Extends(g, g') && InOrder(g', events) && info.events <= events && g'.held == g.held
            && |events| >= 2 && TakesPart(g', c.commStart, c.commEnd, events[|events| - 2], events[|events| - 1])
  {
    hide Dense, InOrder;
    GatedIsKnown(g, c);
    AppendedInOrder(g, info, {c.barrier});
    var (g1, events) := Appended(g, info, {c.barrier});
    NewestIsKnown(g1, events);
    var g2 := AddEdge(g1, c.commStart, Newest(events));
    EdgeExtends(g1, c.commStart, Newest(events));
    ExtendsInOrder(g1, g2, events);
    AppendedInOrder(g2, StreamInfo(events, []), {c.commEnd});
    var (g', events') := Appended(g2, StreamInfo(events, []), {c.commEnd});
    assert events' == events + [g2.next];
  }

  lemma GatedIsKnown(g: Graph, c: CCWaiting)
    requires Gated(g, c) && Dense(g)
    ensures c.barrier < g.next && c.commStart in g.deps && c.commEnd in g.deps && c.commStart < g.next
            && c.commEnd < g.next
  {
  }

  /** A flow of a collective runs between its common start and its common end. */
  ghost predicate Runs(g: Graph, commStart: EventId, commEnd: EventId, flow: EventId) {
    flow in g.deps && commStart in g.deps[flow] && commEnd in g.deps && flow in g.deps[commEnd]
  }

  lemma {:induction false} WithFlowsIs(g: Graph, commStart: EventId, n: nat)
    requires Dense(g) && commStart < g.next
    ensures var g' := WithFlows(g, commStart, n);
            && Dense(g') && Extends(g, g') && g'.held == g.held && g'.next == g.next + n
            && forall f: EventId :: g.next <= f < g.next + n ==> f in g'.deps && commStart in g'.deps[f]
    decreases n
  {
    if n > 0 {
      NodeExtends(g, {commStart}, false);
      WithFlowsIs(AddNode(g, {commStart}, false), commStart, n - 1);
    }
  }

  lemma {:induction false} WithFlowEndsIs(g: Graph, commEnd: EventId, first: EventId, n: nat)
    requires Dense(g) && commEnd in g.deps && first + n <= g.next
    ensures var g' := WithFlowEnds(g, commEnd, first, n);
            && Dense(g') && Extends(g, g') && g'.held == g.held && g'.next == g.next && commEnd in g'.deps
            && forall f: EventId :: first <= f < first + n ==> f in g'.deps[commEnd]
    decreases n
  {
    if n > 0 {
      EdgeExtends(g, commEnd, first);
      WithFlowEndsIs(AddEdge(g, commEnd, first), commEnd, first + 1, n - 1);
    }
  }

  lemma CompletedIs(g: Graph, c: CCWaiting)
    requires Dense(g) && Gated(g, c)
    ensures var g' := Completed(g, c);
            && Dense(g') && Extends(g, g') && g'.held == g.held - {c.barrier}
            && forall f: EventId :: g.next <= f < g.next + c.flows ==> Runs(g', c.commStart, c.commEnd, f)
  {
    GatedIsKnown(g, c);
    WithFlowsIs(g, c.commStart, c.flows);
    var g1 := WithFlows(g, c.commStart, c.flows);
    WithFlowEndsIs(g1, c.commEnd, g.next, c.flows);
    var g2 := WithFlowEnds(g1, c.commEnd, g.next, c.flows);
    UnholdExtends(g2, c.barrier);
  }

  /** What runs in a collective starts after the ranks that take part have come to it, and is over
      before their streams go on. */
  lemma RunsBetween(q: Queue, commStart: EventId, commEnd: EventId, start: EventId, end: EventId, flow: EventId)
    requires Ok(q) && Dense(GraphOf(q))
    requires TakesPart(GraphOf(q), commStart, commEnd, start, end) && Runs(GraphOf(q), commStart, commEnd, flow)
    ensures Ready(q, flow) ==> start in q.ended && q.ended[start].end <= TimeOf(q, flow)
    ensures Ready(q, end) ==> flow in q.ended && q.ended[flow].end <= TimeOf(q, end)
  {
    hide Ok, TimeOf, Ready;
    assert commStart in q.deps[flow] && commEnd in q.deps[end];
    if Ready(q, flow) {
      After(q, flow, commStart);
      After(q, commStart, start);
    }
    if Ready(q, end) {
      After(q, end, commEnd);
      After(q, commEnd, flow);
    }
  }

  /*** The collectives of an operation so far, completed or not ***/

  /** A rank's part in a collective: its two events on its stream, where they stand there, and the time of its call. */
  datatype Part = Part(stream: Stream, at: nat, start: EventId, end: EventId, time: nat)

  /** A collective: when it was opened, the ranks that have joined it, and, once all have, its flows and the time of
      the call that completed it. */
  datatype Meeting = Meeting(barrier: EventId, commStart: EventId, commEnd: EventId, openedAt: nat, wanted: nat,
      parts: map<nat, Part>, flows: seq<EventId>, closedAt: nat)

  /** The last two events of a stream as a rank's part. */
  function LastTwo(stream: Stream, events: seq<EventId>, time: nat): Part {
    var n := |events|;
    if n < 2 then Part(stream, 0, 0, 0, time) else Part(stream, n - 2, events[n - 2], events[n - 1], time)
  }

  ghost predicate Attends(g: Graph, streams: map<Stream, StreamInfo>, commStart: EventId, commEnd: EventId, p: Part) {
    Adjacent(streams, p.stream, p.at, p.start, p.end) && TakesPart(g, commStart, commEnd, p.start, p.end)
  }

  ghost predicate MeetingOk(g: Graph, streams: map<Stream, StreamInfo>, m: Meeting) {
    && (forall r :: r in m.parts ==> Attends(g, streams, m.commStart, m.commEnd, m.parts[r]))
    && (forall i :: 0 <= i < |m.flows| ==> Runs(g, m.commStart, m.commEnd, m.flows[i]))
  }

  /** All ranks have joined, and all flows have been added. */
  ghost predicate IsComplete(m: Meeting, n: nat) {
    m.parts.Keys == Ranks(n) && |m.flows| == m.wanted && forall i :: 0 <= i < |m.flows| ==> m.flows[i] == m.flows[0] + i
  }

  /** The record of a collective that waits for ranks. */
  ghost predicate Records(m: Meeting, c: CCWaiting) {
    && m.barrier == c.barrier && m.commStart == c.commStart && m.commEnd == c.commEnd && m.wanted == c.flows
    && m.parts.Keys == c.joined && m.flows == []
  }

  /** First the completed collectives, then those in the deque. */
  ghost predicate MeetingsOk(g: Graph, streams: map<Stream, StreamInfo>, waitings: seq<CCWaiting>, done: nat, n: nat,
      ms: seq<Meeting>) {
    && |ms| == done + |waitings|
    && (forall k :: 0 <= k < |ms| ==> MeetingOk(g, streams, ms[k]))
    && (forall k :: 0 <= k < done ==> IsComplete(ms[k], n))
    && (forall i :: 0 <= i < |waitings| ==> Records(ms[done + i], waitings[i]))
  }

  function Attending(ms: seq<Meeting>, k: nat, rank: nat, p: Part): seq<Meeting> {
    if k < |ms| then ms[k := ms[k].(parts := ms[k].parts[rank := p])] else ms
  }

  function WithFlowsOf(ms: seq<Meeting>, k: nat, first: EventId, n: nat, time: nat): seq<Meeting> {
    if k < |ms| then ms[k := ms[k].(flows := seq(n, i requires i >= 0 => first + i), closedAt := time)] else ms
  }

  /** Streams that only grow keep whatever stands on them. */
  ghost predicate Continues(streams: map<Stream, StreamInfo>, streams': map<Stream, StreamInfo>) {
    forall s :: s in streams ==> s in streams' && streams[s].events <= streams'[s].events
  }

  lemma MeetingStays(g: Graph, g': Graph, streams: map<Stream, StreamInfo>, streams': map<Stream, StreamInfo>,
      m: Meeting)
    requires MeetingOk(g, streams, m) && Extends(g, g') && Continues(streams, streams')
    ensures MeetingOk(g', streams', m)
  {
    forall r | r in m.parts ensures Attends(g', streams', m.commStart, m.commEnd, m.parts[r]) {
      assert Attends(g, streams, m.commStart, m.commEnd, m.parts[r]);
    }
    forall i | 0 <= i < |m.flows| ensures Runs(g', m.commStart, m.commEnd, m.flows[i]) {
      assert Runs(g, m.commStart, m.commEnd, m.flows[i]);
    }
  }

  lemma MeetingsStay(g: Graph, g': Graph, streams: map<Stream, StreamInfo>, streams': map<Stream, StreamInfo>,
      waitings: seq<CCWaiting>, done: nat, n: nat, ms: seq<Meeting>)
    requires MeetingsOk(g, streams, waitings, done, n, ms) && Extends(g, g') && Continues(streams, streams')
    ensures MeetingsOk(g', streams', waitings, done, n, ms)
  {
    hide MeetingOk, Extends, Continues;
    forall k | 0 <= k < |ms| ensures MeetingOk(g', streams', ms[k]) { MeetingStays(g, g', streams, streams', ms[k]); }
  }

  /** The first rank's call. */
  lemma MeetingOpens(g: Graph, streams: map<Stream, StreamInfo>, waitings: seq<CCWaiting>, done: nat, n: nat,
      ms: seq<Meeting>,
      c: CCWaiting, rank: nat, time: nat, p: Part)
    requires MeetingsOk(g, streams, waitings, done, n, ms) && c.joined == {rank}
    requires Adjacent(streams, p.stream, p.at, p.start, p.end) && TakesPart(g, c.commStart, c.commEnd, p.start, p.end)
    ensures MeetingsOk(g, streams, waitings + [c], done, n,
            ms + [Meeting(c.barrier, c.commStart, c.commEnd, time, c.flows, map[rank := p], [], 0)])
  {
    hide TakesPart, Adjacent, IsComplete;
    var m := Meeting(c.barrier, c.commStart, c.commEnd, time, c.flows, map[rank := p], [], 0);
    assert MeetingOk(g, streams, m);
    assert Records(m, c);
  }

  /** A further rank's call. */
  lemma MeetingJoined(g: Graph, streams: map<Stream, StreamInfo>, waitings: seq<CCWaiting>, done: nat, n: nat,
      ms: seq<Meeting>,
      i: nat, rank: nat, p: Part)
    requires MeetingsOk(g, streams, waitings, done, n, ms) && i < |waitings|
    requires Adjacent(streams, p.stream, p.at, p.start, p.end)
    requires TakesPart(g, waitings[i].commStart, waitings[i].commEnd, p.start, p.end)
    ensures MeetingsOk(g, streams, waitings[i := JoinedBy(waitings[i], rank)], done, n,
            Attending(ms, done + i, rank, p))
  {
    hide TakesPart, Adjacent, IsComplete;
    assert Records(ms[done + i], waitings[i]);
    assert MeetingOk(g, streams, ms[done + i]);
    var m := ms[done + i];
    assert MeetingOk(g, streams, m.(parts := m.parts[rank := p]));
  }

  /** The last rank's call: the collective at the front is complete. */
  lemma MeetingCompletes(g: Graph, streams: map<Stream, StreamInfo>, waitings: seq<CCWaiting>, done: nat, n: nat,
      ms: seq<Meeting>, first: EventId, time: nat)
    requires waitings != [] && MeetingsOk(g, streams, waitings, done, n, ms) && waitings[0].joined == Ranks(n)
    requires forall f: EventId :: first <= f < first + waitings[0].flows ==>
             Runs(g, waitings[0].commStart, waitings[0].commEnd, f)
    ensures MeetingsOk(g, streams, waitings[1..], done + 1, n, WithFlowsOf(ms, done, first, waitings[0].flows, time))
  {
    hide Runs, Attends;
    assert Records(ms[done], waitings[0]);
    assert MeetingOk(g, streams, ms[done]);
    var ms' := WithFlowsOf(ms, done, first, waitings[0].flows, time);
    assert MeetingOk(g, streams, ms'[done]);
    assert IsComplete(ms'[done], n);
    forall i | 0 <= i < |waitings[1..]| ensures Records(ms'[done + 1 + i], waitings[1..][i]) {
      assert Records(ms[done + (i + 1)], waitings[i + 1]);
    }
  }
}
