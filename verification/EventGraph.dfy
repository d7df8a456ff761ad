/** What callers of the event queue rely on: the graph of dependencies and held barriers.
    Running the queue does not change it, and whatever lies behind a held barrier is pending. */
module EventGraph {
  import opened EventQueue
  import opened EventSchedule
  import opened EventState
  import opened EventSteps
  import opened Options

  /** Allocated ids, what each event depends on, and which events hold a `None` barrier. */
  datatype Graph = Graph(next: nat, deps: map<EventId, set<EventId>>, held: set<EventId>)

  ghost function GraphOf(q: Queue): Graph {
    Graph(q.counter, q.deps, q.held)
  }

  ghost function AddNode(g: Graph, ds: set<EventId>, hold: bool): Graph {
    Graph(g.next + 1, g.deps[g.next := ds], if hold then g.held + {g.next} else g.held)
  }

  ghost function AddEdge(g: Graph, e: EventId, d: EventId): Graph {
    g.(deps := g.deps[e := (if e in g.deps then g.deps[e] else {}) + {d}])
  }

  ghost function Unhold(g: Graph, e: EventId): Graph {
    g.(held := g.held - {e})
  }

  lemma GraphAdded(q: Queue, ds: set<EventId>, hold: bool, action: Option<Action>, now: nat, arrive: nat)
    ensures GraphOf(Added(q, ds, hold, action, now, arrive)) == AddNode(GraphOf(q), ds, hold)
  {
  }

  lemma GraphDependency(q: Queue, e: EventId, d: EventId)
    requires e in q.deps && e in q.pending
    ensures GraphOf(AddedDependency(q, e, Some(d))) == AddEdge(GraphOf(q), e, d)
  {
  }

  lemma GraphReleased(q: Queue, e: EventId)
    requires Ok(q) && e in q.held
    ensures GraphOf(BarrierReleased(q, e)) == Unhold(GraphOf(q), e)
  {
    hide Ok, Released;
    HeldIsPending(q, e);
    ReleasedIs(q, e);
    var q' := WithoutBarrier(q, e);
    if q'.pending[e].dependencies == {} { GraphOfReleased(q', e); }
  }

  lemma GraphOfReleased(q: Queue, e: EventId)
    requires e in q.pending
    ensures GraphOf(Released(q, e)) == GraphOf(q)
  {
  }

  lemma {:induction false} GraphAllReleased(q: Queue, ready: seq<EventId>)
    requires Releasable(q, ready)
    ensures var q' := AllReleased(q, ready); GraphOf(q') == GraphOf(q) && q'.ended == q.ended && SameRequests(q, q')
    decreases |ready|
  {
    if ready != [] { GraphAllReleased(Released(q, ready[0]), ready[1..]); }
  }

  lemma {:induction false} GraphReported(q: Queue, report: seq<FlowEnd>)
    ensures var q' := Reported(q, report);
            GraphOf(q') == GraphOf(q) && q'.ended == q.ended && q'.waiting == q.waiting && SameRequests(q, q')
    decreases |report|
  {
    if report != [] { GraphReported(Push(q, End(report[0].id), report[0].time), report[1..]); }
  }

  /** What was asked for when events were added, and which dependencies came too late. */
  ghost predicate SameRequests(q: Queue, q': Queue) {
    q'.arrival == q.arrival && q'.acts == q.acts && q'.ignored == q.ignored
  }

  /** Running the queue changes neither dependencies nor barriers. */
  lemma GraphStepped(q: Queue, q': Queue, step: QueueStep, ready: seq<EventId>)
    requires Stepped(q, q', step, ready)
    ensures GraphOf(q') == GraphOf(q) && SameRequests(q, q')
    ensures match step
            case EmptyQueue => q' == q
            case EventStarted(id, _) => q'.ended == q.ended && id in q.waiting && q'.waiting == q.waiting - {id}
            case EventEnded(id, time) =>
              id in q'.ended && q'.ended == q.ended[id := q'.ended[id]] && q'.ended[id].end == time
            case ReachedPoint(id, time) =>
              id in q'.ended && q'.ended == q.ended[id := q'.ended[id]] && q'.ended[id].end == time
  {
    match step {
      case EmptyQueue =>
      case EventStarted(id, _) =>
      case EventEnded(id, _) => GraphAllReleased(SpanEnded(q, id), ready);
      case ReachedPoint(id, _) => GraphAllReleased(PointEnded(q, id), ready);
    }
  }

  /** What ends had not ended before. */
  lemma EndsOnce(q: Queue, id: EventId)
    requires Ok(q) && (End(id) in q.heap || Point(id) in q.heap)
    ensures id !in q.ended && id < q.counter
  {
    hide EventOk, HeapOk, OrderOk, RevOk;
    assert End(id).id == Point(id).id == id;
    AlmostOkAt(q, id);
    assert PlaceOk(q, id) && RecordOk(q, id) by { PlaceAndRecord(q, id); }
  }

  /*** Behind a barrier ***/

  /** A chain of dependencies that starts at a held barrier. */
  ghost predicate Behind(g: Graph, p: seq<EventId>) {
    && p != [] && p[0] in g.held
    && forall i :: 0 < i < |p| ==> p[i] in g.deps && p[i - 1] in g.deps[p[i]]
  }

  /** Everything behind a held barrier is pending. */
  lemma {:induction false} BehindIsPending(q: Queue, p: seq<EventId>)
    requires Ok(q) && Behind(GraphOf(q), p)
    ensures p[|p| - 1] in q.pending && p[|p| - 1] !in q.ended && p[|p| - 1] < q.counter
    decreases |p|
  {
    hide Ok;
    if |p| == 1 {
      HeldIsPending(q, p[0]);
    } else {
      BehindIsPending(q, p[..|p| - 1]);
      DependentIsPending(q, p[|p| - 1], p[|p| - 2]);
    }
    PendingIsAlive(q, p[|p| - 1]);
  }

  lemma PendingIsAlive(q: Queue, e: EventId)
    requires Ok(q) && e in q.pending
    ensures e !in q.ended && e < q.counter && e in q.deps
  {
    hide EventOk, HeapOk, OrderOk, RevOk;
    AlmostOkAt(q, e);
    PendingNotEnded(q, e);
  }

  lemma DependentIsPending(q: Queue, e: EventId, d: EventId)
    requires Ok(q) && e in q.deps && d in q.deps[e] && d !in q.ended
    ensures e in q.pending
  {
    hide EventOk, HeapOk, OrderOk, RevOk;
    assert e in q.arrival;
    AlmostOkAt(q, e);
    UnmetIsPending(q, e, d);
  }

  lemma UnmetIsPending(q: Queue, e: EventId, d: EventId)
    requires e in q.arrival && e in q.deps && e in q.acts && EventOk(q, e) && d in q.deps[e] && d !in q.ended
    ensures e in q.pending
  {
    assert Some(d) in Outstanding(q, e);
  }

  /*** How much is left to run ***/

  /** Fewer events have ended than were allocated. */
  lemma EndedCount(q: Queue)
    requires Ok(q)
    ensures |q.ended| <= q.counter
  {
    hide EventOk, HeapOk, OrderOk, RevOk;
    IdCount(q.ended.Keys, q.counter);
  }

  lemma {:induction false} IdCount(s: set<EventId>, n: nat)
    requires forall e :: e in s ==> e < n
    ensures |s| <= n
  {
    if n == 0 {
      assert s == {};
    } else {
      IdCount(s - {n - 1}, n - 1);
    }
  }
}
