/** A collective call leaves every event waiting for exactly what it should. */
module ExactCalls {
  import opened Barriers
  import opened CallGraphs
  import opened Collectives
  import opened EventGraph
  import opened EventState
  import opened ExactDesk
  import opened Rendezvous
  import opened StreamOrder

  lemma DenseIsKnown(g: Graph)
    requires Dense(g)
    ensures Known(g)
  {
  }

  /** What is open has been allocated. */
  lemma OpenIsKnown(d: Desk, e: EventId)
    requires ExactOk(d) && Known(d.graph) && e >= d.graph.next
    ensures !InLine(OpenLine(d), e) && e !in Opens(d, {})
  {
    hide MeetingsExact, TransfersExact, RecordsExact, OpenLine, Apart, InLine;
  }

  /*** The call that opens a collective ***/

  /** Two lines get one event more. */
  lemma LinesOpened(d: Desk, d': Desk, op: OpKey, c: CCWaiting) returns (mid: Slot -> seq<EventId>)
    requires d'.waiting == d.waiting[op := DequeAt(d.waiting, op) + [c]]
    requires d'.sendWaiting == d.sendWaiting && d'.recvWaiting == d.recvWaiting
    ensures But(OpenLine(d), mid, StartsOf(op)) && mid(StartsOf(op)) == OpenLine(d)(StartsOf(op)) + [c.commStart]
    ensures But(mid, OpenLine(d'), EndsOf(op)) && OpenLine(d')(EndsOf(op)) == mid(EndsOf(op)) + [c.commEnd]
  {
    var was, now, w := OpenLine(d), OpenLine(d'), DequeAt(d.waiting, op);
    mid := (s: Slot) => if s == StartsOf(op) then now(s) else was(s);
    assert DequeAt(d'.waiting, op) == w + [c];
    assert CommStarts(w + [c]) == CommStarts(w) + [c.commStart] && CommEnds(w + [c]) == CommEnds(w) + [c.commEnd];
    forall s | s != EndsOf(op) ensures now(s) == mid(s) {
      if s.StartsOf? && s.op != op { assert DequeAt(d'.waiting, s.op) == DequeAt(d.waiting, s.op); }
      if s.EndsOf? { assert DequeAt(d'.waiting, s.op) == DequeAt(d.waiting, s.op); }
    }
  }

  lemma ApartOpened(d: Desk, d': Desk, op: OpKey, c: CCWaiting)
    requires ExactOk(d) && Known(d.graph) && d.graph.next <= c.commStart && c.commEnd == c.commStart + 1
    requires d'.waiting == d.waiting[op := DequeAt(d.waiting, op) + [c]]
    requires d'.sendWaiting == d.sendWaiting && d'.recvWaiting == d.recvWaiting
    requires c.commStart in d'.graph.deps && c.commEnd in d'.graph.deps && d.graph.deps.Keys <= d'.graph.deps.Keys
    ensures Apart({}, OpenLine(d')) && forall e :: InLine(OpenLine(d'), e) ==> e in d'.graph.deps
    ensures forall e :: e in Opens(d', {}) ==> e in Opens(d, {}) || e == c.commStart || e == c.commEnd
  {
    hide OpenLine, InLine, ExactBut, Apart;
    ApartHere(d, {});
    var mid := LinesOpened(d, d', op, c);
    OpenIsKnown(d, c.commStart);
    OpenIsKnown(d, c.commEnd);
    ApartPush({}, OpenLine(d), mid, StartsOf(op), c.commStart);
    ApartPush({}, mid, OpenLine(d'), EndsOf(op), c.commEnd);
    forall e | e in Opens(d', {}) ensures e in Opens(d, {}) || e == c.commStart || e == c.commEnd {
      OpensHere(d', {}, e);
      OpensHere(d, {}, e);
    }
  }

  lemma OneMoreMeeting(g: Graph, streams: map<Stream, StreamInfo>, open: set<EventId>, ms: seq<Meeting>, done: nat,
      m: Meeting)
    requires MeetingsExact(g, streams, open, ms, done) && PartsExact(g, streams, open, m) && OpenExact(g, m)
    requires done <= |ms|
    ensures MeetingsExact(g, streams, open, ms + [m], done)
  {
    hide PartsExact, OpenExact, CompleteExact;
  }

  lemma KeysGrow(g: Graph, g': Graph, changed: set<EventId>)
    requires Known(g) && SameBut(g, g', changed) && forall e :: e in changed ==> e in g'.deps
    ensures g.deps.Keys <= g'.deps.Keys
  {
  }

  lemma MovesIs(g: Graph, g': Graph, open: set<EventId>, open': set<EventId>, changed: set<EventId>)
    requires SameBut(g, g', changed) && Known(g) && changed <= open
    requires forall e :: e in open' ==> e in open || e >= g.next
    ensures Moves(g, g', open, open', changed)
  {
  }

  /** The new collective, of one rank so far. */
  lemma NewMeetingExact(g: Graph, streams: map<Stream, StreamInfo>, stream: Stream, rank: nat, time: nat, m: Meeting,
      open: set<EventId>)
    requires Known(g) && m.barrier == g.next && m.commEnd == m.commStart + 1
    requires m.commStart == g.next + |InfoAt(streams, stream).buffered| + 2
    requires m.parts == map[rank := LastTwo(stream, Opened(g, InfoAt(streams, stream)).1, time)]
    requires forall e :: e in open && e >= g.next ==> e == m.commStart || e == m.commEnd
    ensures var (g', events) := Opened(g, InfoAt(streams, stream));
            PartsExact(g', streams[stream := StreamInfo(events, [])], open, m) && OpenExact(g', m)
  {
    hide Opened, InARow, SameBut;
    var info := InfoAt(streams, stream);
    OpenedExactly(g, info);
    var (g', events) := Opened(g, info);
    var p := LastTwo(stream, events, time);
    assert events[..p.at] == info.events + Run(m.barrier + 1, |info.buffered|);
    assert m.parts[rank] == p;
    assert StartsIn(m) == {p.start};
  }

  lemma NewMeetingIs(d: Desk, op: OpKey, rank: nat, stream: Stream, flows: nat, time: nat, events: seq<EventId>)
    requires op.comm in d.groups
    ensures var m, c := NewMeeting(d, op, rank, stream, flows, time, events), NewCollective(d, op, rank, stream, flows);
            && m.barrier == c.barrier && m.commStart == c.commStart && m.commEnd == c.commEnd
            && m.parts == map[rank := LastTwo(stream, events, time)]
  {
  }

  lemma OpenedExact(d: Desk, op: OpKey, rank: nat, stream: Stream, flows: nat, time: nat)
    requires DeskOk(d) && ExactOk(d) && op.comm in d.groups && rank < d.groups[op.comm]
    requires FirstOpen(DequeAt(d.waiting, op), rank) == |DequeAt(d.waiting, op)|
    ensures ExactOk(Called(d, op, rank, stream, flows, time))
  {
    hide DeskBut, HistoryOk, ExactBut, Opened, Continues, MeetingsExact, Opens, OpenLine, Apart, InLine, FirstOpen,
        InARow, SameBut, NewMeeting, Moves, Lined, MeetingOk, IsComplete, PartsExact, OpenExact, LastTwo;
    var d', info := Called(d, op, rank, stream, flows, time), InfoAt(d.streams, stream);
    var c, w, ms := NewCollective(d, op, rank, stream, flows), DequeAt(d.waiting, op), d.meetings(op);
    DeskIsDense(d, {});
    DenseIsKnown(d.graph);
    OpenedExactly(d.graph, info);
    KeysGrow(d.graph, d'.graph, {});
    ApartOpened(d, d', op, c);
    var open, open' := Opens(d, {}), Opens(d', {});
    MovesIs(d.graph, d'.graph, open, open', {});
    MeetingsHere(d, {}, op);
    assert |ms| == d.done(op) + |w| by { HistoryHere(d, op); }
    StreamContinues(d.streams, stream, d'.streams[stream]);
    MeetingsStayExact(d.graph, d'.graph, d.streams, d'.streams, open, open', {}, ms, d.done(op));
    forall e | e in open' && e >= d.graph.next ensures e == c.commStart || e == c.commEnd { OpenIsKnown(d, e); }
    var m := NewMeeting(d, op, rank, stream, flows, time, d'.streams[stream].events);
    assert m.barrier == c.barrier && m.commStart == c.commStart && m.commEnd == c.commEnd
           && m.parts == map[rank := LastTwo(stream, d'.streams[stream].events, time)]
      by { NewMeetingIs(d, op, rank, stream, flows, time, d'.streams[stream].events); }
    NewMeetingExact(d.graph, d.streams, stream, rank, time, m, open');
    OneMoreMeeting(d'.graph, d'.streams, open', ms, d.done(op), m);
    HistoryLined(d);
    OperationExact(d, d', op, {});
  }

  /*** A call that joins one ***/

  /** The lines are as before: the collective keeps its place. */
  lemma LinesJoined(d: Desk, d': Desk, op: OpKey, i: nat, rank: nat)
    requires i < |DequeAt(d.waiting, op)|
    requires var w := DequeAt(d.waiting, op); d'.waiting == d.waiting[op := w[i := JoinedBy(w[i], rank)]]
    requires d'.sendWaiting == d.sendWaiting && d'.recvWaiting == d.recvWaiting
    ensures forall s :: OpenLine(d')(s) == OpenLine(d)(s)
  {
    var w := DequeAt(d.waiting, op);
    var w' := w[i := JoinedBy(w[i], rank)];
    assert DequeAt(d'.waiting, op) == w';
    assert CommStarts(w') == CommStarts(w) && CommEnds(w') == CommEnds(w);
    forall s ensures OpenLine(d')(s) == OpenLine(d)(s) {
      if s.StartsOf? && s.op != op { assert DequeAt(d'.waiting, s.op) == DequeAt(d.waiting, s.op); }
      if s.EndsOf? && s.op != op { assert DequeAt(d'.waiting, s.op) == DequeAt(d.waiting, s.op); }
    }
  }

  /** A rank's part in the collective that it joins; the common start waits for one more. */
  lemma PartJoins(g: Graph, g': Graph, streams: map<Stream, StreamInfo>, streams': map<Stream, StreamInfo>,
      open: set<EventId>, open': set<EventId>, m: Meeting, rank: nat, p: Part)
    requires PartsExact(g, streams, open, m) && OpenExact(g, m) && Moves(g, g', open, open', {m.commStart})
    requires Continues(streams, streams') && PartExact(g', streams', open', m, p) && rank !in m.parts
    requires m.commStart in g'.deps && g'.deps[m.commStart] == g.deps[m.commStart] + {p.start}
             && m.commEnd != m.commStart
    ensures var m' := m.(parts := m.parts[rank := p]); PartsExact(g', streams', open', m') && OpenExact(g', m')
  {
    hide Continues, Fixed, Before;
    var m' := m.(parts := m.parts[rank := p]);
    PartsStay(g, g', streams, streams', open, open', {m.commStart}, m);
    forall r | r in m'.parts ensures PartExact(g', streams', open', m', m'.parts[r]) {
      if r != rank { assert PartExact(g', streams', open', m, m.parts[r]); }
    }
    StartsGrow(m, rank, p);
  }

  lemma StartsGrow(m: Meeting, rank: nat, p: Part)
    requires rank !in m.parts
    ensures StartsIn(m.(parts := m.parts[rank := p])) == StartsIn(m) + {p.start}
  {
    var m' := m.(parts := m.parts[rank := p]);
    forall e | e in StartsIn(m) ensures e in StartsIn(m') {
      var r :| r in m.parts && m.parts[r].start == e;
      assert m'.parts[r].start == e;
    }
    assert m'.parts[rank].start == p.start;
  }

  /** The events of the part. */
  lemma JoinedPartExact(g: Graph, streams: map<Stream, StreamInfo>, stream: Stream, c: CCWaiting, time: nat,
      open: set<EventId>, m: Meeting)
    requires Known(g) && c.commStart < g.next && m.barrier == c.barrier && m.commEnd == c.commEnd
    requires forall e :: e in open ==> e < g.next
    ensures var (g', events) := JoinedGraph(g, InfoAt(streams, stream), c);
            PartExact(g', streams[stream := StreamInfo(events, [])], open, m, LastTwo(stream, events, time))
    ensures var (g', events) := JoinedGraph(g, InfoAt(streams, stream), c);
            && g'.deps[c.commStart] == g.deps[c.commStart] + {LastTwo(stream, events, time).start}
            && InfoAt(streams, stream).events <= events
  {
    hide JoinedGraph, InARow, SameBut;
    var info := InfoAt(streams, stream);
    JoinedExactly(g, info, c);
    var (g', events) := JoinedGraph(g, info, c);
    assert events[..|events| - 2] == info.events + Run(g.next, |info.buffered|);
  }

  lemma OthersStay(g: Graph, g': Graph, streams: map<Stream, StreamInfo>, streams': map<Stream, StreamInfo>,
      open: set<EventId>, open': set<EventId>, changed: set<EventId>, ms: seq<Meeting>, done: nat, k: nat, m: Meeting,
      done': nat)
    requires MeetingsExact(g, streams, open, ms, done) && Moves(g, g', open, open', changed)
    requires Continues(streams, streams') && done <= k < |ms| && PartsExact(g', streams', open', m)
    requires if done' == done then OpenExact(g', m) else done' == done + 1 && k == done && CompleteExact(g', open', m)
    requires forall j :: done <= j < |ms| && j != k ==> ms[j].commStart !in changed && ms[j].commEnd !in changed
    ensures MeetingsExact(g', streams', open', ms[k := m], done')
  {
    hide Moves, Continues, PartsExact, CompleteExact, OpenExact;
    var ms' := ms[k := m];
    forall j | 0 <= j < |ms'| ensures PartsExact(g', streams', open', ms'[j]) {
      if j != k { PartsStay(g, g', streams, streams', open, open', changed, ms[j]); }
    }
    forall j | 0 <= j < |ms'| && j < done' ensures CompleteExact(g', open', ms'[j]) {
      if j != k { CompleteStays(g, g', open, open', changed, ms[j]); }
    }
    forall j | done' <= j < |ms'| ensures OpenExact(g', ms'[j]) {
      if j != k { OpenStays(g, g', open, open', changed, ms[j]); }
    }
  }

  /** Which place a waiting collective has in the records and in the lines. */
  lemma WaitingHere(d: Desk, op: OpKey, i: nat)
    requires HistoryOk(d) && op.comm in d.groups && i < |DequeAt(d.waiting, op)|
    ensures |d.meetings(op)| == d.done(op) + |DequeAt(d.waiting, op)|
    ensures Records(d.meetings(op)[d.done(op) + i], DequeAt(d.waiting, op)[i])
    ensures OpenLine(d)(StartsOf(op)) == CommStarts(DequeAt(d.waiting, op))
    ensures OpenLine(d)(EndsOf(op)) == CommEnds(DequeAt(d.waiting, op))
  {
    hide MeetingOk, IsComplete;
    HistoryHere(d, op);
  }

  /** Open events of different collectives are different. */
  lemma OthersApart(d: Desk, op: OpKey, i: nat)
    requires HistoryOk(d) && ExactOk(d) && op.comm in d.groups && i < |DequeAt(d.waiting, op)|
    ensures var c, ms := DequeAt(d.waiting, op)[i], d.meetings(op);
            && |ms| == d.done(op) + |DequeAt(d.waiting, op)| && c.commStart != c.commEnd
            && c.commStart in Opens(d, {}) && c.commEnd in Opens(d, {})
            && forall j :: d.done(op) <= j < |ms| && j != d.done(op) + i ==>
                 ms[j].commStart !in {c.commStart, c.commEnd} && ms[j].commEnd !in {c.commStart, c.commEnd}
  {
    hide HistoryOk, ExactBut, OpenLine;
    ApartHere(d, {});
    var line, w, ms := OpenLine(d), DequeAt(d.waiting, op), d.meetings(op);
    WaitingHere(d, op, i);
    assert line(StartsOf(op))[i] == w[i].commStart && line(EndsOf(op))[i] == w[i].commEnd;
    assert w[i].commStart in line(StartsOf(op)) && w[i].commEnd in line(EndsOf(op));
    OpensHere(d, {}, w[i].commStart);
    OpensHere(d, {}, w[i].commEnd);
    forall j | d.done(op) <= j < |ms| && j != d.done(op) + i
        ensures ms[j].commStart !in {w[i].commStart, w[i].commEnd} && ms[j].commEnd !in {w[i].commStart, w[i].commEnd} {
      WaitingHere(d, op, j - d.done(op));
      assert line(StartsOf(op))[j - d.done(op)] == ms[j].commStart && line(EndsOf(op))[j - d.done(op)] == ms[j].commEnd;
    }
  }

  lemma OpensSame(d: Desk, d': Desk)
    requires ExactOk(d) && (forall s :: OpenLine(d')(s) == OpenLine(d)(s)) && d.graph.deps.Keys <= d'.graph.deps.Keys
    ensures Apart({}, OpenLine(d')) && forall e :: InLine(OpenLine(d'), e) ==> e in d'.graph.deps
    ensures Opens(d', {}) == Opens(d, {})
  {
    hide OpenLine, InLine, ExactBut, Apart;
    ApartHere(d, {});
    ApartSame({}, OpenLine(d), OpenLine(d'));
    forall e: EventId ensures e in Opens(d', {}) <==> e in Opens(d, {}) {
      OpensHere(d', {}, e);
      OpensHere(d, {}, e);
    }
  }

  lemma OneJoins(g: Graph, g': Graph, streams: map<Stream, StreamInfo>, streams': map<Stream, StreamInfo>,
      open: set<EventId>, ms: seq<Meeting>, done: nat, k: nat, rank: nat, p: Part)
    requires MeetingsExact(g, streams, open, ms, done) && done <= k < |ms| && Continues(streams, streams')
    requires Moves(g, g', open, open, {ms[k].commStart}) && PartExact(g', streams', open, ms[k], p)
    requires rank !in ms[k].parts && ms[k].commEnd != ms[k].commStart && ms[k].commStart in g'.deps
    requires ms[k].commStart in g.deps ==> g'.deps[ms[k].commStart] == g.deps[ms[k].commStart] + {p.start}
    requires forall j :: done <= j < |ms| && j != k ==>
               ms[j].commStart != ms[k].commStart && ms[j].commEnd != ms[k].commStart
    ensures MeetingsExact(g', streams', open, Attending(ms, k, rank, p), done)
  {
    hide MeetingsExact, Moves, Continues, PartsExact, PartExact;
    MeetingAt(g, streams, open, ms, done, k);
    PartJoins(g, g', streams, streams', open, open, ms[k], rank, p);
    OthersStay(g, g', streams, streams', open, open, {ms[k].commStart}, ms, done, k,
        ms[k].(parts := ms[k].parts[rank := p]), done);
  }

  /** The desk after a rank has joined, before it is looked whether the collective is complete. */
  lemma JoinedExact(d: Desk, op: OpKey, rank: nat, stream: Stream, time: nat, d2: Desk)
    requires DeskOk(d) && ExactOk(d) && op.comm in d.groups && rank < d.groups[op.comm]
    requires FirstOpen(DequeAt(d.waiting, op), rank) < |DequeAt(d.waiting, op)|
    requires var w := DequeAt(d.waiting, op); var i := FirstOpen(w, rank);
             var (g, events) := JoinedGraph(d.graph, InfoAt(d.streams, stream), w[i]);
             d2 == d.(graph := g, streams := d.streams[stream := StreamInfo(events, [])],
                      waiting := d.waiting[op := w[i := JoinedBy(w[i], rank)]],
                      meetings := Put(d.meetings, op, Attending(d.meetings(op), d.done(op) + i, rank,
                          LastTwo(stream, events, time))))
    ensures ExactOk(d2)
  {
    hide DeskBut, HistoryOk, ExactBut, JoinedGraph, Continues, MeetingsExact, Opens, OpenLine, Apart, InLine, FirstOpen,
        InARow, SameBut, Moves, LastTwo, PartExact, Lined;
    var w, ms := DequeAt(d.waiting, op), d.meetings(op);
    var i := FirstOpen(w, rank);
    var c, k := w[i], d.done(op) + i;
    DeskIsDense(d, {});
    DenseIsKnown(d.graph);
    OthersApart(d, op, i);
    NotYetThere(d, op, rank);
    WaitingHere(d, op, i);
    forall e | e in Opens(d, {}) ensures e < d.graph.next { if e >= d.graph.next { OpenIsKnown(d, e); } }
    JoinedExactly(d.graph, InfoAt(d.streams, stream), c);
    JoinedPartExact(d.graph, d.streams, stream, c, time, Opens(d, {}), ms[k]);
    KeysGrow(d.graph, d2.graph, {c.commStart});
    LinesJoined(d, d2, op, i, rank);
    OpensSame(d, d2);
    var open := Opens(d, {});
    MovesIs(d.graph, d2.graph, open, open, {c.commStart});
    MeetingsHere(d, {}, op);
    StreamContinues(d.streams, stream, d2.streams[stream]);
    var p := LastTwo(stream, d2.streams[stream].events, time);
    OneJoins(d.graph, d2.graph, d.streams, d2.streams, open, ms, d.done(op), k, rank, p);
    assert w[i].commStart in CommStarts(w) by { assert CommStarts(w)[i] == w[i].commStart; }
    HistoryLined(d);
    OperationExact(d, d2, op, {c.commStart});
  }

  lemma MeetingAt(g: Graph, streams: map<Stream, StreamInfo>, open: set<EventId>, ms: seq<Meeting>, done: nat, k: nat)
    requires MeetingsExact(g, streams, open, ms, done) && done <= k < |ms|
    ensures PartsExact(g, streams, open, ms[k]) && OpenExact(g, ms[k])
  {
    hide PartsExact, OpenExact, CompleteExact;
  }

  /*** The call that completes one ***/

  /** The first collective of an operation leaves both its lines. */
  lemma LinesLeft(d: Desk, d': Desk, op: OpKey) returns (mid: Slot -> seq<EventId>)
    requires DequeAt(d.waiting, op) != [] && d'.waiting == d.waiting[op := DequeAt(d.waiting, op)[1..]]
    requires d'.sendWaiting == d.sendWaiting && d'.recvWaiting == d.recvWaiting
    ensures OpenLine(d)(StartsOf(op)) != [] && OpenLine(d)(StartsOf(op))[0] == DequeAt(d.waiting, op)[0].commStart
    ensures But(OpenLine(d), mid, StartsOf(op)) && mid(StartsOf(op)) == OpenLine(d)(StartsOf(op))[1..]
    ensures mid(EndsOf(op)) != [] && mid(EndsOf(op))[0] == DequeAt(d.waiting, op)[0].commEnd
    ensures But(mid, OpenLine(d'), EndsOf(op)) && OpenLine(d')(EndsOf(op)) == mid(EndsOf(op))[1..]
  {
    var was, now, w := OpenLine(d), OpenLine(d'), DequeAt(d.waiting, op);
    mid := (s: Slot) => if s == StartsOf(op) then now(s) else was(s);
    assert DequeAt(d'.waiting, op) == w[1..];
    assert CommStarts(w[1..]) == CommStarts(w)[1..] && CommEnds(w[1..]) == CommEnds(w)[1..];
    forall s | s != EndsOf(op) ensures now(s) == mid(s) {
      if s.StartsOf? && s.op != op { assert DequeAt(d'.waiting, s.op) == DequeAt(d.waiting, s.op); }
      if s.EndsOf? { assert DequeAt(d'.waiting, s.op) == DequeAt(d.waiting, s.op); }
    }
  }

  lemma ApartLeft(d: Desk, d': Desk, op: OpKey)
    requires ExactOk(d) && DequeAt(d.waiting, op) != [] && d'.waiting == d.waiting[op := DequeAt(d.waiting, op)[1..]]
    requires d'.sendWaiting == d.sendWaiting && d'.recvWaiting == d.recvWaiting
    requires d.graph.deps.Keys <= d'.graph.deps.Keys
    ensures Apart({}, OpenLine(d')) && forall e :: InLine(OpenLine(d'), e) ==> e in d'.graph.deps
    ensures forall e :: e in Opens(d', {}) ==> e in Opens(d, {})
    ensures DequeAt(d.waiting, op)[0].commStart !in Opens(d', {}) && DequeAt(d.waiting, op)[0].commEnd !in Opens(d', {})
  {
    hide OpenLine, InLine, ExactBut, Apart;
    ApartHere(d, {});
    var mid := LinesLeft(d, d', op);
    ApartPop({}, OpenLine(d), mid, StartsOf(op));
    ApartPop({}, mid, OpenLine(d'), EndsOf(op));
    forall e | e in Opens(d', {}) ensures e in Opens(d, {}) {
      OpensHere(d', {}, e);
      OpensHere(d, {}, e);
    }
    OpensHere(d', {}, DequeAt(d.waiting, op)[0].commStart);
    OpensHere(d', {}, DequeAt(d.waiting, op)[0].commEnd);
  }

  /** A collective gets its flows. */
  lemma MeetingCloses(g: Graph, g': Graph, streams: map<Stream, StreamInfo>, open: set<EventId>, open': set<EventId>,
      m: Meeting, c: CCWaiting, flows: seq<EventId>, time: nat)
    requires Known(g) && PartsExact(g, streams, open, m) && OpenExact(g, m) && Moves(g, g', open, open', {m.commEnd})
    requires Records(m, c) && g' == Completed(g, c) && m.commStart != m.commEnd
    requires m.commStart !in open' && m.commEnd !in open' && forall e :: e in open' ==> e < g.next
    requires |flows| == c.flows && forall i :: 0 <= i < |flows| ==> flows[i] == g.next + i
    ensures var m' := m.(flows := flows, closedAt := time); PartsExact(g', streams, open', m')
                                                            && CompleteExact(g', open', m')
  {
    hide Completed, Before;
    var m' := m.(flows := flows, closedAt := time);
    SameContinues(streams);
    PartsStay(g, g', streams, streams, open, open', {m.commEnd}, m);
    forall r | r in m'.parts ensures PartExact(g', streams, open', m', m'.parts[r]) {
      assert PartExact(g', streams, open', m, m.parts[r]);
    }
    CompletedExactly(g, c);
    assert StartsIn(m') == StartsIn(m);
    forall e: EventId ensures e in Ids(flows) <==> e in Between(g.next, c.flows) {
      if e in Between(g.next, c.flows) { assert flows[e - g.next] == e; }
    }
  }

  /** The desk once the collective that all ranks have joined has its flows and has left. */
  lemma CompletedExact(d: Desk, d': Desk, op: OpKey, time: nat)
    requires HistoryOk(d) && ExactOk(d) && Known(d.graph) && op.comm in d.groups && DequeAt(d.waiting, op) != []
    requires var w := DequeAt(d.waiting, op);
             && d' == d.(graph := Completed(d.graph, w[0]), waiting := d.waiting[op := w[1..]], made := d'.made,
                         done := OneMoreDone(d.done, op), meetings := d'.meetings)
             && d'.meetings(op) == WithFlowsOf(d.meetings(op), d.done(op), d.graph.next, w[0].flows, time)
             && forall o: OpKey :: o != op ==> d'.meetings(o) == d.meetings(o)
    ensures ExactOk(d')
  {
    hide HistoryOk, ExactBut, Completed, Continues, MeetingsExact, Opens, OpenLine, Apart, InLine, SameBut, Moves,
        PartsExact, OpenExact, CompleteExact, Lined;
    var w, ms, k := DequeAt(d.waiting, op), d.meetings(op), d.done(op);
    var c := w[0];
    OthersApart(d, op, 0);
    WaitingHere(d, op, 0);
    forall e | e in Opens(d, {}) ensures e < d.graph.next { if e >= d.graph.next { OpenIsKnown(d, e); } }
    CompletedExactly(d.graph, c);
    KeysGrow(d.graph, d'.graph, {c.commEnd});
    ApartLeft(d, d', op);
    var open, open' := Opens(d, {}), Opens(d', {});
    MovesIs(d.graph, d'.graph, open, open', {c.commEnd});
    MeetingsHere(d, {}, op);
    SameContinues(d.streams);
    MeetingAt(d.graph, d.streams, open, ms, k, k);
    var m := WithFlowsOf(ms, k, d.graph.next, c.flows, time)[k];
    MeetingCloses(d.graph, d'.graph, d.streams, open, open', ms[k], c, m.flows, time);
    OthersStay(d.graph, d'.graph, d.streams, d.streams, open, open', {c.commEnd}, ms, k, k, m, k + 1);
    assert c.commEnd in CommEnds(w) by { assert CommEnds(w)[0] == c.commEnd; }
    HistoryLined(d);
    OperationExact(d, d', op, {c.commEnd});
  }

  /*** All together ***/

  /** Whatever the call, afterwards every event waits for exactly what it should. */
  lemma CalledExact(d: Desk, op: OpKey, rank: nat, stream: Stream, flows: nat, time: nat)
    requires DeskOk(d) && ExactOk(d) && op.comm in d.groups && rank < d.groups[op.comm]
    ensures ExactOk(Called(d, op, rank, stream, flows, time))
  {
    hide DeskBut, HistoryOk, ExactBut, JoinedGraph, Opened, Completed, FirstOpen, LastTwo, NewMeeting, Gated;
    var w := DequeAt(d.waiting, op);
    var i := FirstOpen(w, rank);
    var d' := Called(d, op, rank, stream, flows, time);
    if i == |w| {
      OpenedExact(d, op, rank, stream, flows, time);
    } else {
      var d2 := JoinedHistory(d, op, rank, stream, time);
      JoinedExact(d, op, rank, stream, time, d2);
      var c := JoinedBy(w[i], rank);
      if c.waitingFor != {} {
        SameExact(d2, d');
      } else {
        LastJoins(d, op, rank);
        DenseIsKnown(d2.graph);
        assert w[..0] + w[1..] == w[0 := c][1..];
        assert d'.waiting == d2.waiting[op := w[0 := c][1..]];
        CompletedExact(d2, d', op, time);
      }
    }
  }

  lemma SameExact(d: Desk, d': Desk)
    requires ExactOk(d) && d' == d.(made := d'.made)
    ensures ExactOk(d')
  {
    hide Apart, Opens, MeetingsExact, FusedExact, SingleExact, PairsExact, EndsWait;
    assert OpenLine(d') == OpenLine(d);
    assert Opens(d', {}) == Opens(d, {}) by { SameOpens(d, d'); }
  }

  lemma SameOpens(d: Desk, d': Desk)
    requires d'.graph == d.graph && OpenLine(d') == OpenLine(d)
    ensures forall extra :: Opens(d', extra) == Opens(d, extra)
  {
    hide OpenLine, InLine;
  }
}
