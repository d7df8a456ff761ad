/** CUDA streams: each stream is a list of events, every one depending on the one before. */
module StreamOrder {
  import opened EventGraph
  import opened EventSchedule
  import opened EventState
  import opened Options

  datatype Stream = Stream(host: nat, device: nat, id: nat)

  /** A buffered kernel, with the duration the estimator gives it. */
  datatype Kernel = Kernel(time: nat, duration: nat)

  datatype StreamInfo = StreamInfo(events: seq<EventId>, buffered: seq<Kernel>)

  ghost function LastOf(events: seq<EventId>): set<EventId> {
    if events == [] then {} else {events[|events| - 1]}
  }

  ghost function Newest(events: seq<EventId>): EventId {
    if events == [] then 0 else events[|events| - 1]
  }

  /** The graph after an event that depends on `ds` and on the last event of the stream. */
  ghost function OnTop(g: Graph, events: seq<EventId>, ds: set<EventId>): Graph {
    AddNode(g, ds + LastOf(events), false)
  }

  /** The graph and the event list after `n` kernels in a row. */
  ghost function Flushed(g: Graph, events: seq<EventId>, n: nat): (Graph, seq<EventId>)
    decreases n
  {
    if n == 0 then (g, events) else Flushed(OnTop(g, events, {}), events + [g.next], n - 1)
  }

  /** The graph and the event list after buffered kernels and then an event that depends on `ds`. */
  ghost function Appended(g: Graph, info: StreamInfo, ds: set<EventId>): (Graph, seq<EventId>) {
    var (g1, events) := Flushed(g, info.events, |info.buffered|);
    (OnTop(g1, events, ds), events + [g1.next])
  }

  /** Each event on the list is allocated and depends on the one before. */
  ghost predicate InOrder(g: Graph, events: seq<EventId>) {
    && (forall i :: 0 <= i < |events| ==> events[i] < g.next && events[i] in g.deps)
    && forall i :: 0 < i < |events| ==> events[i - 1] in g.deps[events[i]]
  }

  /** `start` and `end` are next to each other on a stream, at `at`. */
  ghost predicate Adjacent(streams: map<Stream, StreamInfo>, stream: Stream, at: nat, start: EventId, end: EventId) {
    stream in streams && at + 1 < |streams[stream].events|
    && streams[stream].events[at] == start && streams[stream].events[at + 1] == end
  }

  /** Ids are allocated without gaps, and dependencies are allocated ids. */
  ghost predicate Dense(g: Graph) {
    && (forall e: EventId :: e in g.deps <==> e < g.next)
    && (forall e, d :: e in g.deps && d in g.deps[e] ==> d < g.next)
    && (forall e :: e in g.held ==> e < g.next)
  }

  /** `g'` has all nodes, edges and barriers of `g`, and perhaps more. */
  ghost predicate Extends(g: Graph, g': Graph) {
    g.next <= g'.next && forall e :: e in g.deps ==> e in g'.deps && g.deps[e] <= g'.deps[e]
  }

  lemma GraphIsDense(q: Queue)
    requires Ok(q)
    ensures Dense(GraphOf(q))
  {
    hide EventOk, HeapOk, OrderOk, RevOk;
    forall e, d | e in q.deps && d in q.deps[e] ensures d < q.counter { assert d in q.arrival; }
    forall e | e in q.held ensures e < q.counter { assert e in q.arrival; }
  }

  lemma ExtendsInOrder(g: Graph, g': Graph, events: seq<EventId>)
    requires InOrder(g, events) && Extends(g, g')
    ensures InOrder(g', events)
  {
  }

  lemma NodeExtends(g: Graph, ds: set<EventId>, hold: bool)
    requires Dense(g) && forall d :: d in ds ==> d < g.next
    ensures Extends(g, AddNode(g, ds, hold)) && Dense(AddNode(g, ds, hold))
  {
  }

  lemma EdgeExtends(g: Graph, e: EventId, d: EventId)
    requires Dense(g) && e in g.deps && d < g.next
    ensures Extends(g, AddEdge(g, e, d)) && Dense(AddEdge(g, e, d))
  {
  }

  lemma UnholdExtends(g: Graph, e: EventId)
    requires Dense(g)
    ensures Extends(g, Unhold(g, e)) && Dense(Unhold(g, e))
  {
  }

  lemma OnTopInOrder(g: Graph, events: seq<EventId>, ds: set<EventId>)
    requires Dense(g) && InOrder(g, events) && forall d :: d in ds ==> d < g.next
    ensures Dense(OnTop(g, events, ds)) && Extends(g, OnTop(g, events, ds))
    ensures InOrder(OnTop(g, events, ds), events + [g.next])
  {
  }

  lemma {:induction false} FlushedInOrder(g: Graph, events: seq<EventId>, n: nat)
    requires Dense(g) && InOrder(g, events)
    ensures var (g', events') := Flushed(g, events, n);
            && Dense(g') && Extends(g, g') && InOrder(g', events') && events <= events'
            && g'.next == g.next + n && g'.held == g.held
    decreases n
  {
    if n > 0 {
      OnTopInOrder(g, events, {});
      FlushedInOrder(OnTop(g, events, {}), events + [g.next], n - 1);
    }
  }

  lemma AppendedInOrder(g: Graph, info: StreamInfo, ds: set<EventId>)
    requires Dense(g) && InOrder(g, info.events) && forall d :: d in ds ==> d < g.next
    ensures var (g', events') := Appended(g, info, ds);
            && Dense(g') && Extends(g, g') && InOrder(g', events') && info.events <= events' && events' != []
            && g'.held == g.held && g'.next == g.next + |info.buffered| + 1
            && Newest(events') == g'.next - 1 && Newest(events') in g'.deps && ds <= g'.deps[Newest(events')]
  {
    hide InOrder, Dense;
    FlushedInOrder(g, info.events, |info.buffered|);
    var (g1, events) := Flushed(g, info.events, |info.buffered|);
    OnTopInOrder(g1, events, ds);
  }

  /*** In time ***/

  /** What an event depends on is over before it starts. */
  lemma After(q: Queue, e: EventId, d: EventId)
    requires Ok(q) && e < q.counter && e in q.deps && d in q.deps[e] && Ready(q, e)
    ensures d in q.ended && q.ended[d].end <= TimeOf(q, e) && q.ended[d].start <= q.ended[d].end
    ensures d < q.counter && Ready(q, d) && TimeOf(q, d) == q.ended[d].start
  {
    hide Ok;
    StartsExactly(q, e);
    EndedIsKnown(q, d);
    StartsExactly(q, d);
  }

  /** Along a stream, an event is over before any later one starts. */
  lemma {:induction false} StreamKeepsOrder(q: Queue, events: seq<EventId>, i: nat, j: nat)
    requires Ok(q) && InOrder(GraphOf(q), events) && i < j < |events| && Ready(q, events[j])
    ensures events[i] in q.ended && q.ended[events[i]].end <= TimeOf(q, events[j])
    decreases j - i
  {
    hide Ok;
    StartsExactly(q, events[j]);
    assert events[j - 1] in q.deps[events[j]];
    if i < j - 1 {
      StreamKeepsOrder(q, events, i, j - 1);
      StartsExactly(q, events[j - 1]);
    }
  }

  /** A point that waits for the last events of some streams is reached at the latest of their ends and its arrival. */
  lemma ReachedAtLatest(q: Queue, e: EventId)
    requires Ok(q) && e in q.ended && e in q.acts && q.acts[e] == None
    ensures e in q.deps && e in q.arrival && q.deps[e] <= q.ended.Keys
    ensures q.arrival[e] <= q.ended[e].end && forall d :: d in q.deps[e] ==> q.ended[d].end <= q.ended[e].end
    ensures q.ended[e].end == q.arrival[e] || exists d :: d in q.deps[e] && q.ended[d].end == q.ended[e].end
  {
    hide Ok;
    EndedIsKnown(q, e);
    StartsExactly(q, e);
  }
}
