/** What the events of collectives, transfers and groups wait for, exactly: which events may still get another
    dependency, and what all the others will wait for in every later state. */
module ExactDesk {
  import opened Barriers
  import opened CallGraphs
  import opened Collectives
  import opened EventGraph
  import opened EventState
  import opened PointToPoint
  import opened Rendezvous
  import opened StreamOrder

  /** Where an event that may get another dependency stands: the common starts and ends of the collectives that wait
      for ranks, and the ends of the endpoints that wait for peers. */
  datatype Slot = StartsOf(op: OpKey) | EndsOf(op: OpKey) | SendEnds(key: P2PKey) | RecvEnds(key: P2PKey)

  ghost function OpenLines(waiting: map<OpKey, seq<CCWaiting>>, sends: map<P2PKey, seq<Endpoint>>,
      recvs: map<P2PKey, seq<Endpoint>>):
    Slot -> seq<EventId>
  {
    (s: Slot) =>
      match s
      case StartsOf(op) => CommStarts(DequeAt(waiting, op))
      case EndsOf(op) => CommEnds(DequeAt(waiting, op))
      case SendEnds(key) => FlowEnds(QueueAt(sends, key))
      case RecvEnds(key) => FlowEnds(QueueAt(recvs, key))
  }

  ghost function OpenLine(d: Desk): Slot -> seq<EventId> {
    OpenLines(d.waiting, d.sendWaiting, d.recvWaiting)
  }

  ghost function CommStarts(w: seq<CCWaiting>): seq<EventId> {
    seq(|w|, i requires 0 <= i < |w| => w[i].commStart)
  }

  ghost function CommEnds(w: seq<CCWaiting>): seq<EventId> {
    seq(|w|, i requires 0 <= i < |w| => w[i].commEnd)
  }

  /** The open events: those in `extra`, which are about to be entered, and those in the lines; each in one place. */
  ghost predicate Apart(extra: set<EventId>, line: Slot -> seq<EventId>) {
    && (forall e :: e in extra ==> !InLine(line, e))
    && (forall o, o', i, j :: 0 <= i < |line(o)| && 0 <= j < |line(o')| && line(o)[i] == line(o')[j] ==>
       o == o' && i == j)
  }

  ghost function OpenIn(g: Graph, extra: set<EventId>, line: Slot -> seq<EventId>): set<EventId> {
    extra + set e | e in g.deps && InLine(line, e)
  }

  ghost function Opens(d: Desk, extra: set<EventId>): set<EventId> {
    OpenIn(d.graph, extra, OpenLine(d))
  }

  /** Event `e` waits for exactly `ds`, and will get no other dependency. */
  ghost predicate Fixed(g: Graph, open: set<EventId>, e: EventId, ds: set<EventId>) {
    e in g.deps && g.deps[e] == ds && e !in open
  }

  /** What stands before place `at` of a stream. */
  ghost function Before(streams: map<Stream, StreamInfo>, stream: Stream, at: nat): set<EventId> {
    if stream in streams && at <= |streams[stream].events| then LastOf(streams[stream].events[..at]) else {}
  }

  ghost function Ids(s: seq<EventId>): set<EventId> {
    set e | e in s
  }

  /*** Collectives ***/

  /** A rank's start waits for the barrier and for what stands before it on the stream; its end for the common end and
      its start. */
  ghost predicate PartExact(g: Graph, streams: map<Stream, StreamInfo>, open: set<EventId>, m: Meeting, p: Part) {
    && p.stream in streams && p.at <= |streams[p.stream].events|
    && Fixed(g, open, p.start, {m.barrier} + Before(streams, p.stream, p.at))
    && Fixed(g, open, p.end, {m.commEnd, p.start})
  }

  ghost function StartsIn(m: Meeting): set<EventId> {
    set r | r in m.parts :: m.parts[r].start
  }

  ghost predicate PartsExact(g: Graph, streams: map<Stream, StreamInfo>, open: set<EventId>, m: Meeting) {
    Fixed(g, open, m.barrier, {}) && forall r :: r in m.parts ==> PartExact(g, streams, open, m, m.parts[r])
  }

  /** All ranks have joined: the common start waits for the starts of all ranks, each flow for the common start, and
      the common end for that and all flows. */
  ghost predicate CompleteExact(g: Graph, open: set<EventId>, m: Meeting) {
    && Fixed(g, open, m.commStart, StartsIn(m)) && Fixed(g, open, m.commEnd, {m.commStart} + Ids(m.flows))
    && forall i :: 0 <= i < |m.flows| ==> Fixed(g, open, m.flows[i], {m.commStart})
  }

  /** It waits for ranks: the common start waits for the starts of those that have joined, the common end for the
      common start. */
  ghost predicate OpenExact(g: Graph, m: Meeting) {
    && m.commStart in g.deps && g.deps[m.commStart] == StartsIn(m)
    && m.commEnd in g.deps && g.deps[m.commEnd] == {m.commStart}
  }

  ghost predicate MeetingsExact(g: Graph, streams: map<Stream, StreamInfo>, open: set<EventId>, ms: seq<Meeting>,
      done: nat) {
    && (forall k :: 0 <= k < |ms| ==> PartsExact(g, streams, open, ms[k]))
    && (forall k :: 0 <= k < |ms| && k < done ==> CompleteExact(g, open, ms[k]))
    && forall k :: done <= k < |ms| ==> OpenExact(g, ms[k])
  }

  /*** Transfers ***/

  /** The end of an endpoint that waits for its peer waits for its start. */
  ghost predicate EndWaits(g: Graph, ep: Endpoint) {
    ep.flowEnd in g.deps && g.deps[ep.flowEnd] == {ep.flowStart}
  }

  /** The flow waits for both starts, and each end for its start and the flow. */
  ghost predicate PairExact(g: Graph, open: set<EventId>, p: Pair) {
    && Fixed(g, open, p.flow, {p.send.flowStart, p.recv.flowStart})
    && Fixed(g, open, p.send.flowEnd, {p.send.flowStart, p.flow})
    && Fixed(g, open, p.recv.flowEnd, {p.recv.flowStart, p.flow})
  }

  ghost predicate PairsExact(g: Graph, open: set<EventId>, ps: seq<Pair>) {
    forall i :: 0 <= i < |ps| ==> PairExact(g, open, ps[i])
  }

  ghost predicate EndsWait(g: Graph, eps: seq<Endpoint>) {
    forall i :: 0 <= i < |eps| ==> EndWaits(g, eps[i])
  }

  ghost predicate TransfersExact(d: Desk, open: set<EventId>) {
    && (forall key :: PairsExact(d.graph, open, d.pairs(key)))
    && (forall key :: EndsWait(d.graph, QueueAt(d.sendWaiting, key)))
    && forall key :: EndsWait(d.graph, QueueAt(d.recvWaiting, key))
  }

  /*** Groups ***/

  /** A group's start waits for its barrier and what stands before it on the stream; each of its endpoints' starts for
      that and the endpoint's own barrier; and its end for its start and all endpoints' ends. */
  ghost predicate FusedExact(g: Graph, streams: map<Stream, StreamInfo>, open: set<EventId>, f: Fused) {
    && f.stream in streams && f.at <= |streams[f.stream].events|
    && Fixed(g, open, f.barrier, {}) && Fixed(g, open, f.start, {f.barrier} + Before(streams, f.stream, f.at))
    && Fixed(g, open, f.end, {f.start} + Ids(FlowEnds(f.eps)))
    && forall j :: 0 <= j < |f.eps| ==> EndpointInGroup(g, open, f.start, f.eps[j])
  }

  /** A single endpoint's start waits for its barrier and what stands before it on the stream. */
  ghost predicate SingleExact(g: Graph, streams: map<Stream, StreamInfo>, open: set<EventId>, s: Single) {
    && Adjacent(streams, s.stream, s.at, s.ep.flowStart, s.ep.flowEnd) && Fixed(g, open, s.ep.barrier, {})
    && Fixed(g, open, s.ep.flowStart, {s.ep.barrier} + Before(streams, s.stream, s.at))
  }

  ghost predicate EndpointInGroup(g: Graph, open: set<EventId>, start: EventId, ep: Endpoint) {
    Fixed(g, open, ep.barrier, {}) && Fixed(g, open, ep.flowStart, {start, ep.barrier})
  }

  /*** All of it ***/

  /** Everything on the desk waits for exactly what it should; `extra` are the ends of endpoints that are about to be
      entered. */
  ghost predicate ExactBut(d: Desk, extra: set<EventId>) {
    && Apart(extra, OpenLine(d)) && (forall e :: e in extra || InLine(OpenLine(d), e) ==> e in d.graph.deps)
    && (forall op: OpKey ::
          MeetingsExact(d.graph, d.streams, Opens(d, extra), d.meetings(op), d.done(op)))
    && TransfersExact(d, Opens(d, extra)) && RecordsExact(d, Opens(d, extra))
  }

  ghost predicate RecordsExact(d: Desk, open: set<EventId>) {
    && (forall i :: 0 <= i < |d.fused| ==> FusedExact(d.graph, d.streams, open, d.fused[i]))
    && forall i :: 0 <= i < |d.singles| ==> SingleExact(d.graph, d.streams, open, d.singles[i])
  }

  ghost predicate ExactOk(d: Desk) {
    ExactBut(d, {})
  }

  /*** What stays ***/

  /** Only open events, and of them only those in `changed`, have got other dependencies; and only new events have
      become open. */
  ghost predicate Moves(g: Graph, g': Graph, open: set<EventId>, open': set<EventId>, changed: set<EventId>) {
    && SameBut(g, g', changed) && Known(g) && changed <= open
    && forall e :: e in open' ==> e in open || e >= g.next
  }

  lemma FixedStays(g: Graph, g': Graph, open: set<EventId>, open': set<EventId>, changed: set<EventId>, e: EventId,
      ds: set<EventId>)
    requires Fixed(g, open, e, ds) && Moves(g, g', open, open', changed)
    ensures Fixed(g', open', e, ds)
  {
  }

  lemma BeforeStays(streams: map<Stream, StreamInfo>, streams': map<Stream, StreamInfo>, stream: Stream, at: nat)
    requires Continues(streams, streams') && stream in streams && at <= |streams[stream].events|
    ensures stream in streams' && at <= |streams'[stream].events|
    ensures Before(streams', stream, at) == Before(streams, stream, at)
  {
    assert streams'[stream].events[..at] == streams[stream].events[..at];
  }

  lemma PartsStay(g: Graph, g': Graph, streams: map<Stream, StreamInfo>, streams': map<Stream, StreamInfo>,
      open: set<EventId>, open': set<EventId>, changed: set<EventId>, m: Meeting)
    requires PartsExact(g, streams, open, m) && Moves(g, g', open, open', changed) && Continues(streams, streams')
    ensures PartsExact(g', streams', open', m)
  {
    hide Moves, Fixed, Continues, Before;
    FixedStays(g, g', open, open', changed, m.barrier, {});
    forall r | r in m.parts ensures PartExact(g', streams', open', m, m.parts[r]) {
      var p := m.parts[r];
      assert PartExact(g, streams, open, m, p);
      BeforeStays(streams, streams', p.stream, p.at);
      FixedStays(g, g', open, open', changed, p.start, {m.barrier} + Before(streams, p.stream, p.at));
      FixedStays(g, g', open, open', changed, p.end, {m.commEnd, p.start});
    }
  }

  lemma CompleteStays(g: Graph, g': Graph, open: set<EventId>, open': set<EventId>, changed: set<EventId>, m: Meeting)
    requires CompleteExact(g, open, m) && Moves(g, g', open, open', changed)
    ensures CompleteExact(g', open', m)
  {
    hide Moves, Fixed, Ids, StartsIn;
    FixedStays(g, g', open, open', changed, m.commStart, StartsIn(m));
    FixedStays(g, g', open, open', changed, m.commEnd, {m.commStart} + Ids(m.flows));
    forall i | 0 <= i < |m.flows| ensures Fixed(g', open', m.flows[i], {m.commStart}) {
      FixedStays(g, g', open, open', changed, m.flows[i], {m.commStart});
    }
  }

  lemma OpenStays(g: Graph, g': Graph, open: set<EventId>, open': set<EventId>, changed: set<EventId>, m: Meeting)
    requires OpenExact(g, m) && Moves(g, g', open, open', changed)
    requires m.commStart !in changed && m.commEnd !in changed
    ensures OpenExact(g', m)
  {
  }

  lemma PairStays(g: Graph, g': Graph, open: set<EventId>, open': set<EventId>, changed: set<EventId>, p: Pair)
    requires PairExact(g, open, p) && Moves(g, g', open, open', changed)
    ensures PairExact(g', open', p)
  {
  }

  lemma EndStays(g: Graph, g': Graph, open: set<EventId>, open': set<EventId>, changed: set<EventId>, ep: Endpoint)
    requires EndWaits(g, ep) && Moves(g, g', open, open', changed) && ep.flowEnd !in changed
    ensures EndWaits(g', ep)
  {
  }

  lemma FusedStaysExact(g: Graph, g': Graph, streams: map<Stream, StreamInfo>, streams': map<Stream, StreamInfo>,
      open: set<EventId>, open': set<EventId>, changed: set<EventId>, f: Fused)
    requires FusedExact(g, streams, open, f) && Moves(g, g', open, open', changed) && Continues(streams, streams')
    ensures FusedExact(g', streams', open', f)
  {
    hide Moves, Fixed, Continues, Before, Ids, FlowEnds;
    BeforeStays(streams, streams', f.stream, f.at);
    FixedStays(g, g', open, open', changed, f.barrier, {});
    FixedStays(g, g', open, open', changed, f.start, {f.barrier} + Before(streams, f.stream, f.at));
    FixedStays(g, g', open, open', changed, f.end, {f.start} + Ids(FlowEnds(f.eps)));
    forall j | 0 <= j < |f.eps| ensures EndpointInGroup(g', open', f.start, f.eps[j]) {
      assert EndpointInGroup(g, open, f.start, f.eps[j]);
      FixedStays(g, g', open, open', changed, f.eps[j].barrier, {});
      FixedStays(g, g', open, open', changed, f.eps[j].flowStart, {f.start, f.eps[j].barrier});
    }
  }

  lemma SingleStaysExact(g: Graph, g': Graph, streams: map<Stream, StreamInfo>, streams': map<Stream, StreamInfo>,
      open: set<EventId>, open': set<EventId>, changed: set<EventId>, s: Single)
    requires SingleExact(g, streams, open, s) && Moves(g, g', open, open', changed) && Continues(streams, streams')
    ensures SingleExact(g', streams', open', s)
  {
    hide Moves, Fixed, Before;
    BeforeStays(streams, streams', s.stream, s.at);
    FixedStays(g, g', open, open', changed, s.ep.barrier, {});
    FixedStays(g, g', open, open', changed, s.ep.flowStart, {s.ep.barrier} + Before(streams, s.stream, s.at));
  }

  lemma RecordsStayExact(d: Desk, d': Desk, open: set<EventId>, open': set<EventId>, changed: set<EventId>)
    requires RecordsExact(d, open) && Moves(d.graph, d'.graph, open, open', changed)
    requires Continues(d.streams, d'.streams) && d'.fused == d.fused && d'.singles == d.singles
    ensures RecordsExact(d', open')
  {
    hide Moves, Continues, FusedExact, SingleExact;
    forall i | 0 <= i < |d'.fused| ensures FusedExact(d'.graph, d'.streams, open', d'.fused[i]) {
      FusedStaysExact(d.graph, d'.graph, d.streams, d'.streams, open, open', changed, d.fused[i]);
    }
    forall i | 0 <= i < |d'.singles| ensures SingleExact(d'.graph, d'.streams, open', d'.singles[i]) {
      SingleStaysExact(d.graph, d'.graph, d.streams, d'.streams, open, open', changed, d.singles[i]);
    }
  }

  /** Collectives of an operation none of whose open events changes. */
  lemma MeetingsStayExact(g: Graph, g': Graph, streams: map<Stream, StreamInfo>, streams': map<Stream, StreamInfo>,
      open: set<EventId>, open': set<EventId>, changed: set<EventId>, ms: seq<Meeting>, done: nat)
    requires MeetingsExact(g, streams, open, ms, done) && Moves(g, g', open, open', changed)
    requires Continues(streams, streams')
    requires forall k :: done <= k < |ms| ==> ms[k].commStart !in changed && ms[k].commEnd !in changed
    ensures MeetingsExact(g', streams', open', ms, done)
  {
    hide Moves, Continues, PartsExact, CompleteExact, OpenExact;
    forall k | 0 <= k < |ms| ensures PartsExact(g', streams', open', ms[k]) {
      PartsStay(g, g', streams, streams', open, open', changed, ms[k]);
    }
    forall k | 0 <= k < |ms| && k < done ensures CompleteExact(g', open', ms[k]) {
      CompleteStays(g, g', open, open', changed, ms[k]);
    }
    forall k | done <= k < |ms| ensures OpenExact(g', ms[k]) { OpenStays(g, g', open, open', changed, ms[k]); }
  }

  lemma EndsStay(g: Graph, g': Graph, open: set<EventId>, open': set<EventId>, changed: set<EventId>,
      eps: seq<Endpoint>)
    requires EndsWait(g, eps) && Moves(g, g', open, open', changed)
    requires forall i :: 0 <= i < |eps| ==> eps[i].flowEnd !in changed
    ensures EndsWait(g', eps)
  {
    hide Moves, EndWaits;
    forall i | 0 <= i < |eps| ensures EndWaits(g', eps[i]) { EndStays(g, g', open, open', changed, eps[i]); }
  }

  lemma PairsStay(g: Graph, g': Graph, open: set<EventId>, open': set<EventId>, changed: set<EventId>, ps: seq<Pair>)
    requires PairsExact(g, open, ps) && Moves(g, g', open, open', changed)
    ensures PairsExact(g', open', ps)
  {
    hide Moves, PairExact;
    forall i | 0 <= i < |ps| ensures PairExact(g', open', ps[i]) { PairStays(g, g', open, open', changed, ps[i]); }
  }

  /*** The open events ***/

  lemma OpensHere(d: Desk, extra: set<EventId>, e: EventId)
    requires forall x :: x in extra || InLine(OpenLine(d), x) ==> x in d.graph.deps
    ensures e in Opens(d, extra) <==> e in extra || InLine(OpenLine(d), e)
  {
    hide OpenLine, InLine;
  }

  lemma ApartPush(extra: set<EventId>, line: Slot -> seq<EventId>, line': Slot -> seq<EventId>, o: Slot, e: EventId)
    requires Apart(extra, line) && !InLine(line, e) && e !in extra
    requires But(line, line', o) && line'(o) == line(o) + [e]
    ensures Apart(extra, line') && forall x: EventId :: InLine(line', x) <==> InLine(line, x) || x == e
  {
    forall x: EventId | InLine(line', x) ensures x == e || InLine(line, x) {
      var p :| x in line'(p);
      assert x == e || x in line(p);
    }
    forall x: EventId | InLine(line, x) ensures InLine(line', x) {
      var p :| x in line(p);
      assert x in line'(p);
    }
    assert e in line'(o);
    forall p | e in line(p) ensures false { assert InLine(line, e); }
    forall p, p', i, j | 0 <= i < |line'(p)| && 0 <= j < |line'(p')| && line'(p)[i] == line'(p')[j]
        ensures p == p' && i == j {
      PushedAt(line, line', o, e, p, i);
      PushedAt(line, line', o, e, p', j);
    }
  }

  lemma PushedAt(line: Slot -> seq<EventId>, line': Slot -> seq<EventId>, o: Slot, e: EventId, p: Slot, i: nat)
    requires But(line, line', o) && line'(o) == line(o) + [e] && i < |line'(p)|
    ensures (p == o && i == |line(o)| && line'(p)[i] == e) || (i < |line(p)| && line'(p)[i] == line(p)[i]
            && line'(p)[i] in line(p))
  {
  }

  /** The first of a line leaves it, and is in no other place. */
  lemma ApartPop(extra: set<EventId>, line: Slot -> seq<EventId>, line': Slot -> seq<EventId>, o: Slot)
    requires Apart(extra, line) && line(o) != [] && But(line, line', o) && line'(o) == line(o)[1..]
    ensures Apart(extra, line') && !InLine(line', line(o)[0])
    ensures forall x: EventId :: InLine(line', x) ==> InLine(line, x)
  {
    forall x: EventId | InLine(line', x) ensures InLine(line, x) && x != line(o)[0] {
      var p :| x in line'(p);
      var i :| 0 <= i < |line'(p)| && line'(p)[i] == x;
      assert x == line(p)[if p == o then i + 1 else i];
      assert x in line(p);
    }
    forall p, p', i, j | 0 <= i < |line'(p)| && 0 <= j < |line'(p')| && line'(p)[i] == line'(p')[j]
        ensures p == p' && i == j {
      assert line'(p)[i] == line(p)[if p == o then i + 1 else i];
      assert line'(p')[j] == line(p')[if p' == o then j + 1 else j];
    }
  }

  lemma ApartSame(extra: set<EventId>, line: Slot -> seq<EventId>, line': Slot -> seq<EventId>)
    requires Apart(extra, line) && forall o :: line'(o) == line(o)
    ensures Apart(extra, line') && forall x: EventId :: InLine(line', x) <==> InLine(line, x)
  {
    forall x: EventId | InLine(line', x) ensures InLine(line, x) {
      var p :| x in line'(p);
      assert x in line(p);
    }
    forall x: EventId | InLine(line, x) ensures InLine(line', x) {
      var p :| x in line(p);
      assert x in line'(p);
    }
  }

  /*** The desk grows ***/

  /** New events, on the streams or not, change nothing that is recorded; some of them may be ends of endpoints that
      are about to be entered. */
  lemma ExactGrows(d: Desk, d': Desk, extra: set<EventId>, extra': set<EventId>)
    requires ExactBut(d, extra) && Known(d.graph) && SameBut(d.graph, d'.graph, {}) && Continues(d.streams, d'.streams)
    requires d'.waiting == d.waiting && d'.sendWaiting == d.sendWaiting && d'.recvWaiting == d.recvWaiting
    requires d'.meetings == d.meetings && d'.done == d.done && d'.pairs == d.pairs && d'.fused == d.fused
             && d'.singles == d.singles
    requires forall e :: e in extra' ==> e in d'.graph.deps && (e in extra || e >= d.graph.next)
    ensures ExactBut(d', extra')
  {
    hide MeetingsExact, TransfersExact, RecordsExact, Continues, Opens;
    ApartGrows(d, d', extra, extra');
    var open, open' := Opens(d, extra), Opens(d', extra');
    assert Moves(d.graph, d'.graph, open, open', {}) by { OpensGrow(d, d', extra, extra'); }
    hide Moves, ExactBut;
    forall op: OpKey ensures MeetingsExact(d'.graph, d'.streams, open', d'.meetings(op), d'.done(op)) {
      assert MeetingsExact(d.graph, d.streams, open, d.meetings(op), d.done(op)) by { MeetingsHere(d, extra, op); }
      MeetingsStayExact(d.graph, d'.graph, d.streams, d'.streams, open, open', {}, d.meetings(op), d.done(op));
    }
    TransfersHere(d, extra);
    TransfersGrow(d, d', open, open');
    RecordsHere(d, extra);
    RecordsStayExact(d, d', open, open', {});
    ExactAll(d', extra');
  }

  lemma ExactAll(d: Desk, extra: set<EventId>)
    requires Apart(extra, OpenLine(d)) && (forall e :: e in extra || InLine(OpenLine(d), e) ==> e in d.graph.deps)
    requires forall op: OpKey :: MeetingsExact(d.graph, d.streams, Opens(d, extra), d.meetings(op), d.done(op))
    requires TransfersExact(d, Opens(d, extra)) && RecordsExact(d, Opens(d, extra))
    ensures ExactBut(d, extra)
  {
    hide MeetingsExact, TransfersExact, RecordsExact, Opens, OpenLine, Apart;
  }

  lemma MeetingsHere(d: Desk, extra: set<EventId>, op: OpKey)
    requires ExactBut(d, extra)
    ensures MeetingsExact(d.graph, d.streams, Opens(d, extra), d.meetings(op), d.done(op))
  {
    hide MeetingsExact, TransfersExact, RecordsExact, Opens, OpenLine, Apart;
  }

  lemma TransfersHere(d: Desk, extra: set<EventId>)
    requires ExactBut(d, extra)
    ensures TransfersExact(d, Opens(d, extra))
  {
    hide MeetingsExact, TransfersExact, RecordsExact, Opens, OpenLine, Apart;
  }

  lemma RecordsHere(d: Desk, extra: set<EventId>)
    requires ExactBut(d, extra)
    ensures RecordsExact(d, Opens(d, extra))
  {
    hide MeetingsExact, TransfersExact, RecordsExact, Opens, OpenLine, Apart;
  }

  lemma ApartHere(d: Desk, extra: set<EventId>)
    requires ExactBut(d, extra)
    ensures Apart(extra, OpenLine(d)) && (forall e :: e in extra || InLine(OpenLine(d), e) ==> e in d.graph.deps)
  {
    hide MeetingsExact, TransfersExact, RecordsExact, Opens, OpenLine, Apart;
  }

  lemma ApartGrows(d: Desk, d': Desk, extra: set<EventId>, extra': set<EventId>)
    requires ExactBut(d, extra) && Known(d.graph) && SameBut(d.graph, d'.graph, {})
    requires d'.waiting == d.waiting && d'.sendWaiting == d.sendWaiting && d'.recvWaiting == d.recvWaiting
    requires forall e :: e in extra' ==> e in d'.graph.deps && (e in extra || e >= d.graph.next)
    ensures Apart(extra', OpenLine(d')) && OpenLine(d') == OpenLine(d)
    ensures forall e :: e in extra' || InLine(OpenLine(d'), e) ==> e in d'.graph.deps
  {
    ApartHere(d, extra);
    assert OpenLine(d') == OpenLine(d);
    hide ExactBut, OpenLine;
    forall e | e in extra' ensures !InLine(OpenLine(d), e) {}
    forall e | InLine(OpenLine(d), e) ensures e in d'.graph.deps {}
  }

  lemma OpensGrow(d: Desk, d': Desk, extra: set<EventId>, extra': set<EventId>)
    requires ExactBut(d, extra) && OpenLine(d') == OpenLine(d)
    requires forall e :: e in extra' ==> e in extra || e >= d.graph.next
    ensures forall e :: e in Opens(d', extra') ==> e in Opens(d, extra) || e >= d.graph.next
  {
    ApartHere(d, extra);
    hide ExactBut, OpenLine;
    forall e | e in Opens(d', extra') ensures e in Opens(d, extra) || e >= d.graph.next { OpensHere(d, extra, e); }
  }

  lemma TransfersGrow(d: Desk, d': Desk, open: set<EventId>, open': set<EventId>)
    requires TransfersExact(d, open) && Moves(d.graph, d'.graph, open, open', {})
    requires d'.sendWaiting == d.sendWaiting && d'.recvWaiting == d.recvWaiting && d'.pairs == d.pairs
    ensures TransfersExact(d', open')
  {
    hide Moves, PairsExact, EndsWait;
    forall key: P2PKey ensures PairsExact(d'.graph, open', d'.pairs(key)) {
      PairsStay(d.graph, d'.graph, open, open', {}, d.pairs(key));
    }
    forall key: P2PKey ensures EndsWait(d'.graph, QueueAt(d'.sendWaiting, key)) {
      EndsStay(d.graph, d'.graph, open, open', {}, QueueAt(d.sendWaiting, key));
    }
    forall key: P2PKey ensures EndsWait(d'.graph, QueueAt(d'.recvWaiting, key)) {
      EndsStay(d.graph, d'.graph, open, open', {}, QueueAt(d.recvWaiting, key));
    }
  }

  /*** One operation ***/

  /** The collectives that wait are the last of the records. */
  ghost predicate Lined(waiting: map<OpKey, seq<CCWaiting>>, done: OpKey -> nat, meetings: OpKey -> seq<Meeting>) {
    forall op: OpKey ::
      && |meetings(op)| == done(op) + |DequeAt(waiting, op)|
      && forall i :: 0 <= i < |DequeAt(waiting, op)| ==>
           SameEnds(meetings(op)[done(op) + i], DequeAt(waiting, op)[i])
  }

  ghost predicate SameEnds(m: Meeting, c: CCWaiting) {
    m.commStart == c.commStart && m.commEnd == c.commEnd
  }

  lemma HistoryLined(d: Desk)
    requires HistoryOk(d)
    ensures Lined(d.waiting, d.done, d.meetings)
  {
    hide MeetingOk, IsComplete;
    forall op: OpKey, i | 0 <= i < |DequeAt(d.waiting, op)|
        ensures |d.meetings(op)| == d.done(op) + |DequeAt(d.waiting, op)|
                && SameEnds(d.meetings(op)[d.done(op) + i], DequeAt(d.waiting, op)[i]) {
      assert Records(d.meetings(op)[d.done(op) + i], DequeAt(d.waiting, op)[i]);
    }
  }

  /** The collectives of one operation change, and of the open events only some of theirs. */
  lemma OperationExact(d: Desk, d': Desk, op: OpKey, changed: set<EventId>)
    requires ExactOk(d) && Lined(d.waiting, d.done, d.meetings)
    requires Moves(d.graph, d'.graph, Opens(d, {}), Opens(d', {}), changed)
    requires Continues(d.streams, d'.streams)
    requires Apart({}, OpenLine(d')) && forall e :: InLine(OpenLine(d'), e) ==> e in d'.graph.deps
    requires forall o: OpKey :: o != op ==>
               DequeAt(d'.waiting, o) == DequeAt(d.waiting, o) && d'.meetings(o) == d.meetings(o)
                   && d'.done(o) == d.done(o)
    requires d'.sendWaiting == d.sendWaiting && d'.recvWaiting == d.recvWaiting && d'.pairs == d.pairs
             && d'.fused == d.fused && d'.singles == d.singles
    requires forall e :: e in changed ==>
               e in CommStarts(DequeAt(d.waiting, op)) || e in CommEnds(DequeAt(d.waiting, op))
    requires MeetingsExact(d'.graph, d'.streams, Opens(d', {}), d'.meetings(op), d'.done(op))
    ensures ExactOk(d')
  {
    hide Moves, MeetingsExact, TransfersExact, RecordsExact, Opens, ExactBut, Lined, Continues, OpenLine;
    var open, open' := Opens(d, {}), Opens(d', {});
    ApartHere(d, {});
    forall o: OpKey ensures MeetingsExact(d'.graph, d'.streams, open', d'.meetings(o), d'.done(o)) {
      if o != op {
        MeetingsHere(d, {}, o);
        OthersNotChanged(d, op, o, changed);
        MeetingsStayExact(d.graph, d'.graph, d.streams, d'.streams, open, open', changed, d.meetings(o), d.done(o));
      }
    }
    TransfersHere(d, {});
    EndpointsNotChanged(d, op, changed);
    TransfersMove(d, d', open, open', changed);
    RecordsHere(d, {});
    RecordsStayExact(d, d', open, open', changed);
    ExactAll(d', {});
  }

  /** What is open in another operation is not changed. */
  lemma OthersNotChanged(d: Desk, op: OpKey, o: OpKey, changed: set<EventId>)
    requires Apart({}, OpenLine(d)) && Lined(d.waiting, d.done, d.meetings) && o != op
    requires forall e :: e in changed ==>
               e in CommStarts(DequeAt(d.waiting, op)) || e in CommEnds(DequeAt(d.waiting, op))
    ensures forall k :: d.done(o) <= k < |d.meetings(o)| ==>
              d.meetings(o)[k].commStart !in changed && d.meetings(o)[k].commEnd !in changed
  {
    var line := OpenLine(d);
    forall k | d.done(o) <= k < |d.meetings(o)|
        ensures d.meetings(o)[k].commStart !in changed && d.meetings(o)[k].commEnd !in changed {
      var i := k - d.done(o);
      assert SameEnds(d.meetings(o)[d.done(o) + i], DequeAt(d.waiting, o)[i]);
      assert line(StartsOf(o))[i] == d.meetings(o)[k].commStart && line(EndsOf(o))[i] == d.meetings(o)[k].commEnd;
      NotInOther(line, StartsOf(o), i, StartsOf(op));
      NotInOther(line, StartsOf(o), i, EndsOf(op));
      NotInOther(line, EndsOf(o), i, StartsOf(op));
      NotInOther(line, EndsOf(o), i, EndsOf(op));
    }
  }

  lemma NotInOther(line: Slot -> seq<EventId>, o: Slot, i: nat, o': Slot)
    requires Apart({}, line) && i < |line(o)| && o != o'
    ensures line(o)[i] !in line(o')
  {
  }

  lemma EndpointsNotChanged(d: Desk, op: OpKey, changed: set<EventId>)
    requires Apart({}, OpenLine(d))
    requires forall e :: e in changed ==>
               e in CommStarts(DequeAt(d.waiting, op)) || e in CommEnds(DequeAt(d.waiting, op))
    ensures forall key: P2PKey, i :: 0 <= i < |QueueAt(d.sendWaiting, key)| ==>
              QueueAt(d.sendWaiting, key)[i].flowEnd !in changed
    ensures forall key: P2PKey, i :: 0 <= i < |QueueAt(d.recvWaiting, key)| ==>
              QueueAt(d.recvWaiting, key)[i].flowEnd !in changed
  {
    var line := OpenLine(d);
    assert line(StartsOf(op)) == CommStarts(DequeAt(d.waiting, op));
    assert line(EndsOf(op)) == CommEnds(DequeAt(d.waiting, op));
    forall key: P2PKey, i | 0 <= i < |QueueAt(d.sendWaiting, key)|
        ensures QueueAt(d.sendWaiting, key)[i].flowEnd !in changed {
      assert line(SendEnds(key))[i] == QueueAt(d.sendWaiting, key)[i].flowEnd;
      NotInOther(line, SendEnds(key), i, StartsOf(op));
      NotInOther(line, SendEnds(key), i, EndsOf(op));
    }
    forall key: P2PKey, i | 0 <= i < |QueueAt(d.recvWaiting, key)|
        ensures QueueAt(d.recvWaiting, key)[i].flowEnd !in changed {
      assert line(RecvEnds(key))[i] == QueueAt(d.recvWaiting, key)[i].flowEnd;
      NotInOther(line, RecvEnds(key), i, StartsOf(op));
      NotInOther(line, RecvEnds(key), i, EndsOf(op));
    }
  }

  lemma TransfersMove(d: Desk, d': Desk, open: set<EventId>, open': set<EventId>, changed: set<EventId>)
    requires TransfersExact(d, open) && Moves(d.graph, d'.graph, open, open', changed)
    requires d'.sendWaiting == d.sendWaiting && d'.recvWaiting == d.recvWaiting && d'.pairs == d.pairs
    requires forall key: P2PKey, i :: 0 <= i < |QueueAt(d.sendWaiting, key)| ==>
               QueueAt(d.sendWaiting, key)[i].flowEnd !in changed
    requires forall key: P2PKey, i :: 0 <= i < |QueueAt(d.recvWaiting, key)| ==>
               QueueAt(d.recvWaiting, key)[i].flowEnd !in changed
    ensures TransfersExact(d', open')
  {
    hide Moves, PairsExact, EndsWait;
    forall key: P2PKey ensures PairsExact(d'.graph, open', d'.pairs(key)) {
      PairsStay(d.graph, d'.graph, open, open', changed, d.pairs(key));
    }
    forall key: P2PKey ensures EndsWait(d'.graph, QueueAt(d'.sendWaiting, key)) {
      EndsStay(d.graph, d'.graph, open, open', changed, QueueAt(d.sendWaiting, key));
    }
    forall key: P2PKey ensures EndsWait(d'.graph, QueueAt(d'.recvWaiting, key)) {
      EndsStay(d.graph, d'.graph, open, open', changed, QueueAt(d.recvWaiting, key));
    }
  }
}
