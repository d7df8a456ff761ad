/** The state of the dependency event queue as a value, its transitions, and the
    invariant: where every event is, what it still waits for, and that its time is
    exactly the latest of its arrival and the ends of its dependencies. */
module EventState {
  import opened Options

  type EventId = nat

  /** Durations are microseconds; a communication lasts as long as the network says. */
  datatype Action = Computation(duration: nat) | Communication

  datatype Event = Start(id: EventId) | End(id: EventId) | Point(id: EventId)

  datatype Prio = Prio(time: nat, count: nat)

  datatype Pending = Pending(dependencies: set<Option<EventId>>, arriveTime: nat, depEndTime: nat,
      action: Option<Action>)

  datatype Span = Span(start: nat, end: nat)

  /** `heap` is the priority queue; the last six fields are bookkeeping of the proof:
      what was asked for when each event was added (`arrival`, `deps`, `acts`), which events
      hold a `None` barrier, in which order events ended, and which dependencies were
      ignored because they came after their event had ended. */
  datatype Queue = Queue(
    counter: nat,
    pending: map<EventId, Pending>,
    waiting: map<EventId, Action>,
    started: map<EventId, nat>,
    ended: map<EventId, Span>,
    rev: map<EventId, set<EventId>>,
    heap: map<Event, Prio>,
    pushes: nat,
    arrival: map<EventId, nat>,
    deps: map<EventId, set<EventId>>,
    acts: map<EventId, Option<Action>>,
    held: set<EventId>,
    order: seq<EventId>,
    ignored: set<(EventId, EventId)>)

  function Max(a: nat, b: nat): nat { if a < b then b else a }

  /*** The invariant ***/

  /** Exactly one place for each event. */
  ghost predicate PlaceOk(q: Queue, e: EventId) {
    var p, s, t, r, d := e in q.pending, Start(e) in q.heap, Point(e) in q.heap, e in q.started, e in q.ended;
    && (p || s || t || r || d)
    && !(p && (s || t || r || d)) && !(s && (t || r || d)) && !(t && (r || d)) && !(r && d)
  }

  /** What an event waits for. */
  ghost function Outstanding(q: Queue, e: EventId): set<Option<EventId>>
    requires e in q.deps
  {
    Unmet(q.ended, q.deps[e], e in q.held)
  }

  /** The time at which an event starts, or will start for all that is known. */
  ghost function TimeOf(q: Queue, e: EventId): nat {
    if e in q.pending then Max(q.pending[e].depEndTime, q.pending[e].arriveTime)
    else if Start(e) in q.heap then q.heap[Start(e)].time
    else if Point(e) in q.heap then q.heap[Point(e)].time
    else if e in q.started then q.started[e]
    else if e in q.ended then q.ended[e].start
    else 0
  }

  /** `t` is the latest of `e`'s arrival and the ends of those of its dependencies that have ended. */
  ghost predicate Earliest(q: Queue, e: EventId, t: nat)
    requires e in q.arrival && e in q.deps
  {
    && q.arrival[e] <= t
    && (forall d :: d in q.deps[e] && d in q.ended ==> q.ended[d].end <= t)
    && (t == q.arrival[e] || exists d :: d in q.deps[e] && d in q.ended && q.ended[d].end == t)
  }

  /** A pending event knows exactly what it waits for; all others wait for nothing. */
  ghost predicate WaitsOk(q: Queue, e: EventId)
    requires e in q.deps && e in q.acts
  {
    if e in q.pending then
      q.pending[e].dependencies == Outstanding(q, e) && q.pending[e].action == q.acts[e]
    else
      Outstanding(q, e) == {}
  }

  /** How an event that is no longer pending is recorded. */
  ghost predicate RecordOk(q: Queue, e: EventId)
    requires e in q.acts
  {
    && (Start(e) in q.heap <==> e in q.waiting) && (e in q.waiting ==> q.acts[e] == Some(q.waiting[e]))
    && (Point(e) in q.heap ==> q.acts[e].None?)
    && (End(e) in q.heap ==> e in q.started)
    && (e in q.started ==> q.acts[e].Some?)
    && (e in q.started && q.acts[e] == Some(Communication) && End(e) in q.heap ==> q.started[e] <= q.heap[End(e)].time)
    && (e in q.started && q.acts[e].Some? && q.acts[e].value.Computation? ==>
          End(e) in q.heap && q.heap[End(e)].time == q.started[e] + q.acts[e].value.duration)
  }

  /** The end of an event that has ended. */
  ghost predicate EndOk(q: Queue, e: EventId)
    requires e in q.acts
  {
    e in q.ended ==>
      match q.acts[e]
      case None => q.ended[e].end == q.ended[e].start
      case Some(Computation(duration)) => q.ended[e].end == q.ended[e].start + duration
      case Some(Communication) => q.ended[e].start <= q.ended[e].end
  }

  ghost predicate EventOk(q: Queue, e: EventId)
    requires e in q.arrival && e in q.deps && e in q.acts
  {
    PlaceOk(q, e) && WaitsOk(q, e) && RecordOk(q, e) && EndOk(q, e) && Earliest(q, e, TimeOf(q, e))
  }

  /** All ids that occur anywhere are allocated ids. */
  ghost predicate IdsOk(q: Queue) {
    && (forall e: EventId :: e in q.arrival <==> e < q.counter)
    && q.arrival.Keys == q.deps.Keys == q.acts.Keys
    && q.pending.Keys <= q.arrival.Keys && q.waiting.Keys <= q.arrival.Keys && q.started.Keys <= q.arrival.Keys
    && q.ended.Keys <= q.arrival.Keys && q.held <= q.arrival.Keys
    && (forall x :: x in q.heap ==> x.id in q.arrival)
    && (forall e, d :: e in q.deps && d in q.deps[e] ==> d in q.arrival)
  }

  /** `e` has named `d` as a dependency, in time or too late. */
  ghost predicate Hears(q: Queue, e: EventId, d: EventId) {
    e in q.deps && (d in q.deps[e] || (e, d) in q.ignored)
  }

  /** `rev_dependencies` is the inverse of the dependencies, those that came too late included. */
  ghost predicate RevOk(q: Queue) {
    && (forall e, d :: e in q.deps && d in q.deps[e] ==> d in q.rev && e in q.rev[d])
    && (forall e, d :: (e, d) in q.ignored ==> e in q.deps && d in q.rev && e in q.rev[d])
    && (forall d, e :: d in q.rev && e in q.rev[d] ==> Hears(q, e, d))
  }

  /** Events end only after all their dependencies. */
  ghost predicate OrderOk(q: Queue) {
    && (forall i, j :: 0 <= i < j < |q.order| ==> q.order[i] != q.order[j])
    && (forall e :: e in q.ended <==> e in q.order)
    && (forall i, d :: 0 <= i < |q.order| && q.order[i] in q.deps && d in q.deps[q.order[i]] ==> d in q.order[..i])
  }

  /** Queue entries carry distinct push counts, so the next event to pop is determined. */
  ghost predicate HeapOk(q: Queue) {
    && (forall x :: x in q.heap ==> q.heap[x].count < q.pushes)
    && (forall x, y :: x in q.heap && y in q.heap && x != y ==> q.heap[x].count != q.heap[y].count)
  }

  /** The invariant, but for pending events that are about to become ready. */
  ghost predicate AlmostOk(q: Queue) {
    && IdsOk(q) && RevOk(q) && OrderOk(q) && HeapOk(q)
    && forall e :: e in q.arrival ==> EventOk(q, e)
  }

  ghost function NoLongerWaiting(q: Queue): set<EventId> {
    set e | e in q.pending && q.pending[e].dependencies == {}
  }

  /** The invariant between calls: moreover, every pending event waits for something. */
  ghost predicate Ok(q: Queue) {
    AlmostOk(q) && NoLongerWaiting(q) == {}
  }

  /*** Transitions ***/

  /** A new entry in the queue. */
  function Push(q: Queue, x: Event, time: nat): Queue {
    q.(heap := q.heap[x := Prio(time, q.pushes)], pushes := q.pushes + 1)
  }

  /** The queue entry of an event that is ready. */
  function Entry(e: EventId, action: Option<Action>): Event {
    if action.Some? then Start(e) else Point(e)
  }

  function Await(waiting: map<EventId, Action>, e: EventId, action: Option<Action>): map<EventId, Action> {
    if action.Some? then waiting[e := action.value] else waiting
  }

  ghost function DepIds(dependsOn: seq<Option<EventId>>): set<EventId> {
    set i | 0 <= i < |dependsOn| && dependsOn[i].Some? :: dependsOn[i].value
  }

  function Listed(rev: map<EventId, set<EventId>>, d: EventId): set<EventId> {
    if d in rev then rev[d] else {}
  }

  /** `e` listed under each of its dependencies `ds`. */
  ghost function ListedWith(rev: map<EventId, set<EventId>>, ds: set<EventId>, e: EventId): map<EventId, set<EventId>> {
    map d | d in rev.Keys + ds :: if d in ds then Listed(rev, d) + {e} else rev[d]
  }

  /** What an event with dependencies `ds`, and a held barrier iff `hold`, waits for. */
  ghost function Unmet(ended: map<EventId, Span>, ds: set<EventId>, hold: bool): set<Option<EventId>> {
    (set d | d in ds && d !in ended :: Some(d)) + if hold then {None} else {}
  }

  /** The latest end of the already ended dependencies, or `now`. */
  ghost predicate LatestEnd(ended: map<EventId, Span>, ds: set<EventId>, now: nat, t: nat) {
    && now <= t && (forall d :: d in ds && d in ended ==> ended[d].end <= t)
    && (t == now || exists d :: d in ds && d in ended && ended[d].end == t)
  }

  /** `add_action_or_point` with dependencies `ds`, a held barrier iff `hold`, `now` already
      raised to the latest end among the ended dependencies. */
  ghost function Added(q: Queue, ds: set<EventId>, hold: bool, action: Option<Action>, now: nat, arrive: nat): Queue {
    var e := q.counter;
    var outstanding := Unmet(q.ended, ds, hold);
    q.(counter := e + 1,
       rev := ListedWith(q.rev, ds, e),
       arrival := q.arrival[e := now], deps := q.deps[e := ds], acts := q.acts[e := action],
       held := if hold then q.held + {e} else q.held,
       pending := if outstanding == {} then q.pending else q.pending[e := Pending(outstanding, arrive, 0, action)],
       waiting := if outstanding == {} then Await(q.waiting, e, action) else q.waiting,
       heap := if outstanding == {} then q.heap[Entry(e, action) := Prio(arrive, q.pushes)] else q.heap,
       pushes := if outstanding == {} then q.pushes + 1 else q.pushes)
  }

  /** `add_dependency` for a dependency that has not ended, or a barrier. */
  function AddedDependency(q: Queue, e: EventId, dep: Option<EventId>): Queue
    requires e in q.pending && e in q.deps
  {
    var q' := q.(pending := q.pending[e := q.pending[e].(dependencies := q.pending[e].dependencies + {dep})]);
    match dep
    case None => q'.(held := q.held + {e})
    case Some(d) => q'.(rev := q.rev[d := Listed(q.rev, d) + {e}], deps := q.deps[e := q.deps[e] + {d}])
  }

  /** `add_dependency` for a dependency that has already ended: it is only listed. */
  function IgnoredDependency(q: Queue, e: EventId, d: EventId): Queue
    requires e in q.deps
  {
    q.(rev := q.rev[d := Listed(q.rev, d) + {e}],
       ignored := if d in q.deps[e] then q.ignored else q.ignored + {(e, d)})
  }

  /** A pending event becomes ready. */
  function Released(q: Queue, e: EventId): Queue
    requires e in q.pending
  {
    var p := q.pending[e];
    q.(pending := q.pending - {e}, waiting := Await(q.waiting, e, p.action),
       heap := q.heap[Entry(e, p.action) := Prio(Max(p.depEndTime, p.arriveTime), q.pushes)], pushes := q.pushes + 1)
  }

  /** `remove_none_dependency`. */
  function BarrierReleased(q: Queue, e: EventId): Queue {
    if e !in q.pending then q else
      var p := q.pending[e].(dependencies := q.pending[e].dependencies - {None});
      var q' := q.(pending := q.pending[e := p], held := q.held - {e});
      if p.dependencies == {} then Released(q', e) else q'
  }

  /** A pending event after its dependency `d` has ended at `end`. */
  function Notified(p: Pending, d: EventId, end: nat): Pending {
    if Some(d) in p.dependencies then
      p.(dependencies := p.dependencies - {Some(d)}, depEndTime := Max(p.depEndTime, end))
    else p
  }

  /** The first half of `end_event`: record the end and notify every pending event. */
  ghost function EndRecorded(q: Queue, d: EventId, start: nat, end: nat): Queue {
    q.(ended := q.ended[d := Span(start, end)], order := q.order + [d],
       pending := map e | e in q.pending :: Notified(q.pending[e], d, end))
  }

  /** Distinct pending events. */
  ghost predicate Releasable(q: Queue, ready: seq<EventId>) {
    && (forall i :: 0 <= i < |ready| ==> ready[i] in q.pending)
    && forall i, j :: 0 <= i < j < |ready| ==> ready[i] != ready[j]
  }

  /** The second half of `end_event`: the events left with no dependency become ready, in any order. */
  ghost function AllReleased(q: Queue, ready: seq<EventId>): Queue
    requires Releasable(q, ready)
    decreases |ready|
  {
    if ready == [] then q else AllReleased(Released(q, ready[0]), ready[1..])
  }

  /** A computation or communication starts: its `Start` entry leaves the queue. */
  function StartPopped(q: Queue, e: EventId): Queue
    requires Start(e) in q.heap && e in q.waiting
  {
    var t, a, rest := q.heap[Start(e)].time, q.waiting[e], q.heap - {Start(e)};
    q.(waiting := q.waiting - {e}, started := q.started[e := t],
       heap := if a.Computation? then rest[End(e) := Prio(t + a.duration, q.pushes)] else rest,
       pushes := if a.Computation? then q.pushes + 1 else q.pushes)
  }

  /** An `End` entry leaves the queue, with the event's start. */
  function EndPopped(q: Queue, e: EventId): Queue
    requires End(e) in q.heap
  {
    q.(heap := q.heap - {End(e)}, started := q.started - {e})
  }

  function PointPopped(q: Queue, e: EventId): Queue
    requires Point(e) in q.heap
  {
    q.(heap := q.heap - {Point(e)})
  }

  /** A computation or communication ends: popped and recorded. */
  ghost function SpanEnded(q: Queue, e: EventId): Queue
    requires End(e) in q.heap && e in q.started
  {
    EndRecorded(EndPopped(q, e), e, q.started[e], q.heap[End(e)].time)
  }

  /** A point is reached: popped and recorded, ending as it starts. */
  ghost function PointEnded(q: Queue, e: EventId): Queue
    requires Point(e) in q.heap
  {
    EndRecorded(PointPopped(q, e), e, q.heap[Point(e)].time, q.heap[Point(e)].time)
  }

  /** A communication that the network has completed, and when. */
  datatype FlowEnd = FlowEnd(id: EventId, time: nat)

  /** The network ends flows that have started, each once, and none before its start. */
  predicate Fits(started: map<EventId, nat>, heap: map<Event, Prio>, report: seq<FlowEnd>) {
    && (forall i :: 0 <= i < |report| ==>
          report[i].id in started && End(report[i].id) !in heap && started[report[i].id] <= report[i].time)
    && forall i, j :: 0 <= i < j < |report| ==> report[i].id != report[j].id
  }

  ghost predicate ReportFits(q: Queue, report: seq<FlowEnd>) {
    Fits(q.started, q.heap, report)
  }

  /** `try_proceed_netsim`. */
  ghost function Reported(q: Queue, report: seq<FlowEnd>): Queue
    decreases |report|
  {
    if report == [] then q else Reported(Push(q, End(report[0].id), report[0].time), report[1..])
  }

  /** The entry popped next: least time, and among equal times the one pushed first. */
  ghost predicate Next(heap: map<Event, Prio>, x: Event) {
    x in heap && forall y :: y in heap && y != x ==>
      heap[x].time < heap[y].time || (heap[x].time == heap[y].time && heap[x].count < heap[y].count)
  }
}
