/** What the invariant of the event queue means: nothing is lost, nothing starts too early
    or too late, end times are critical paths, and a queue that runs dry with events still
    pending has a held barrier or a cycle of dependencies. */
module EventSchedule {
  import opened EventState
  import opened EventSteps
  import opened Options

  /*** No lost wakeups ***/

  /** A pending event waits for something, and whatever it waits for will tell it. */
  lemma NoLostWakeup(q: Queue, e: EventId)
    requires Ok(q) && e in q.pending
    ensures q.pending[e].dependencies != {}
    ensures None in q.pending[e].dependencies <==> e in q.held
    ensures forall d :: Some(d) in q.pending[e].dependencies ==>
              d in q.arrival && d !in q.ended && d in q.rev && e in q.rev[d]
  {
    hide EventOk, HeapOk, OrderOk;
    assert e !in NoLongerWaiting(q);
    AlmostOkAt(q, e);
    PendingWaits(q, e);
  }

  lemma PendingWaits(q: Queue, e: EventId)
    requires e in q.arrival && e in q.deps && e in q.acts && EventOk(q, e) && e in q.pending
    ensures None in q.pending[e].dependencies <==> e in q.held
    ensures forall d: EventId :: Some(d) in q.pending[e].dependencies <==> d in q.deps[e] && d !in q.ended
  {
  }

  /** Every id handed out is in exactly one of: pending, queued to start, queued as a point, started, ended. */
  lemma OnePlace(q: Queue, e: EventId)
    requires Ok(q) && e < q.counter
    ensures PlaceOk(q, e)
    ensures Start(e) in q.heap <==> e in q.waiting
    ensures End(e) in q.heap ==> e in q.started
  {
    hide EventOk, HeapOk, OrderOk, RevOk;
    assert e in q.arrival;
    AlmostOkAt(q, e);
    assert PlaceOk(q, e) && RecordOk(q, e) by { PlaceAndRecord(q, e); }
  }

  lemma PlaceAndRecord(q: Queue, e: EventId)
    requires e in q.arrival && e in q.deps && e in q.acts && EventOk(q, e)
    ensures PlaceOk(q, e) && RecordOk(q, e)
  {
  }

  /*** Exact earliest schedule ***/

  ghost predicate Ready(q: Queue, e: EventId) {
    Start(e) in q.heap || Point(e) in q.heap || e in q.started || e in q.ended
  }

  /** An event that is no longer pending has all its dependencies behind it and starts at exactly
      the latest of its arrival and their ends; and it ends as its action says. */
  lemma StartsExactly(q: Queue, e: EventId)
    requires Ok(q) && e < q.counter && Ready(q, e)
    ensures e in q.arrival && e in q.deps && e in q.acts && q.deps[e] <= q.ended.Keys
    ensures q.arrival[e] <= TimeOf(q, e) && forall d :: d in q.deps[e] ==> q.ended[d].end <= TimeOf(q, e)
    ensures TimeOf(q, e) == q.arrival[e] || exists d :: d in q.deps[e] && q.ended[d].end == TimeOf(q, e)
    ensures e in q.ended ==> q.ended[e].start == TimeOf(q, e)
    ensures e in q.ended && q.acts[e].None? ==> q.ended[e].end == q.ended[e].start
    ensures e in q.ended && q.acts[e].Some? && q.acts[e].value.Computation? ==>
              q.ended[e].end == q.ended[e].start + q.acts[e].value.duration
    ensures e in q.ended ==> q.ended[e].start <= q.ended[e].end
  {
    hide EventOk, HeapOk, OrderOk, RevOk;
    assert e in q.arrival;
    AlmostOkAt(q, e);
    EarliestHere(q, e);
  }

  lemma EarliestHere(q: Queue, e: EventId)
    requires e in q.arrival && e in q.deps && e in q.acts && EventOk(q, e) && Ready(q, e)
    ensures q.deps[e] <= q.ended.Keys && Earliest(q, e, TimeOf(q, e)) && EndOk(q, e)
    ensures e in q.ended ==> q.ended[e].start == TimeOf(q, e)
  {
    NothingOutstanding(q, e);
  }

  /*** Critical paths ***/

  /** A chain of ended events, each a dependency of the next. */
  ghost predicate Chain(q: Queue, p: seq<EventId>) {
    && p != []
    && (forall i :: 0 <= i < |p| ==> p[i] in q.ended && p[i] in q.deps && p[i] in q.arrival)
    && forall i :: 0 < i < |p| ==> p[i - 1] in q.deps[p[i]]
  }

  /** How long an ended event took. */
  ghost function Took(q: Queue, e: EventId): int
    requires e in q.ended
  {
    q.ended[e].end - q.ended[e].start
  }

  /** When the chain would be over if its first event started on arrival and each next one at once. */
  ghost function ChainEnd(q: Queue, p: seq<EventId>): int
    requires Chain(q, p)
    decreases |p|
  {
    var last := |p| - 1;
    (if last == 0 then q.arrival[p[0]] else ChainEnd(q, p[..last])) + Took(q, p[last])
  }

  /** No chain is over later than the event it leads to. */
  lemma {:induction false} NoChainIsLonger(q: Queue, p: seq<EventId>)
    requires Ok(q) && Chain(q, p)
    ensures ChainEnd(q, p) <= q.ended[p[|p| - 1]].end
    decreases |p|
  {
    hide Ok;
    var last := |p| - 1;
    EndedIsKnown(q, p[last]);
    StartsExactly(q, p[last]);
    if last > 0 {
      NoChainIsLonger(q, p[..last]);
      assert p[..last][last - 1] in q.deps[p[last]];
    }
  }

  lemma EndedIsKnown(q: Queue, e: EventId)
    requires Ok(q) && e in q.ended
    ensures e < q.counter && e in q.order && forall d :: e in q.deps && d in q.deps[e] ==> d in q.arrival
  {
    hide EventOk, HeapOk, RevOk;
  }

  /** Some chain is over exactly when the event is: end times are lengths of critical paths. */
  lemma {:induction false} SomeChainIsCritical(q: Queue, e: EventId, at: nat) returns (p: seq<EventId>)
    requires Ok(q) && at < |q.order| && q.order[at] == e
    ensures Chain(q, p) && p[|p| - 1] == e && ChainEnd(q, p) == q.ended[e].end
    decreases at
  {
    hide Ok, TimeOf;
    OrderedAt(q, at);
    EndedIsKnown(q, e);
    StartsExactly(q, e);
    if TimeOf(q, e) == q.arrival[e] {
      p := [e];
    } else {
      var d :| d in q.deps[e] && q.ended[d].end == TimeOf(q, e);
      assert d in q.order[..at];
      var i :| 0 <= i < at && q.order[i] == d;
      var p0 := SomeChainIsCritical(q, d, i);
      p := p0 + [e];
      assert p[..|p| - 1] == p0;
    }
  }

  lemma OrderedAt(q: Queue, at: nat)
    requires Ok(q) && at < |q.order|
    ensures q.order[at] in q.ended && q.order[at] in q.deps
    ensures forall d :: d in q.deps[q.order[at]] ==> d in q.order[..at]
  {
    hide EventOk, HeapOk, RevOk;
  }

  /** The ends of an acyclic graph of computations and points are determined by it alone. */
  lemma {:induction false} EndsAreDetermined(q: Queue, q': Queue, at: nat)
    requires Ok(q) && Ok(q') && at < |q.order|
    requires q.deps == q'.deps && q.arrival == q'.arrival && q.acts == q'.acts && q.ended.Keys == q'.ended.Keys
    requires forall e :: e in q.acts ==> q.acts[e] != Some(Communication)
    ensures q.order[at] in q.ended && q'.ended[q.order[at]] == q.ended[q.order[at]]
    decreases at
  {
    hide Ok, TimeOf;
    var e := q.order[at];
    OrderedAt(q, at);
    EndedIsKnown(q, e);
    EndedIsKnown(q', e);
    StartsExactly(q, e);
    StartsExactly(q', e);
    forall d | d in q.deps[e] ensures q'.ended[d] == q.ended[d] {
      assert d in q.order[..at];
      var i :| 0 <= i < at && q.order[i] == d;
      EndsAreDetermined(q, q', i);
    }
  }

  /*** A queue that runs dry ***/

  /** Pending events waiting for each other in a circle. */
  ghost predicate Circle(q: Queue, c: seq<EventId>) {
    && c != [] && (forall i :: 0 <= i < |c| ==> c[i] in q.pending && c[i] in q.deps)
    && (forall i :: 0 < i < |c| ==> c[i] in q.deps[c[i - 1]]) && c[0] in q.deps[c[|c| - 1]]
  }

  /** Each waits for the next. */
  ghost predicate Waits(q: Queue, w: seq<EventId>) {
    && w != [] && (forall i :: 0 <= i < |w| ==> w[i] in q.pending && w[i] in q.deps)
    && forall i :: 0 < i < |w| ==> w[i] in q.deps[w[i - 1]]
  }

  /** With nothing queued or running and no barrier held, every pending event waits for another. */
  lemma WaitsForPending(q: Queue, e: EventId) returns (d: EventId)
    requires Ok(q) && q.heap == map[] && q.started == map[] && q.held == {} && e in q.pending
    ensures e in q.deps && d in q.deps[e] && d in q.pending && d in q.deps
  {
    hide Ok;
    NoLostWakeup(q, e);
    var o :| o in q.pending[e].dependencies;
    d := o.value;
    assert o == Some(d);
    PendingDependsOn(q, e, d);
    OnePlace(q, d);
  }

  lemma PendingDependsOn(q: Queue, e: EventId, d: EventId)
    requires Ok(q) && e in q.pending && Some(d) in q.pending[e].dependencies
    ensures e in q.deps && d in q.deps[e] && d < q.counter && d in q.deps
  {
    hide EventOk, HeapOk, OrderOk, RevOk;
    AlmostOkAt(q, e);
    PendingWaits(q, e);
    assert d in q.deps[e];
    assert d in q.arrival;
  }

  lemma {:induction false} LongWait(q: Queue, e: EventId, n: nat) returns (w: seq<EventId>)
    requires Ok(q) && q.heap == map[] && q.started == map[] && q.held == {} && e in q.pending
    ensures Waits(q, w) && |w| == n + 1
  {
    hide Ok;
    if n == 0 {
      var _ := WaitsForPending(q, e);
      w := [e];
    } else {
      w := LongWait(q, e, n - 1);
      var d := WaitsForPending(q, w[n - 1]);
      w := w + [d];
    }
  }

  /** A list longer than the set it draws from repeats an element. */
  lemma {:induction false} Repeats<T>(w: seq<T>, s: set<T>) returns (i: nat, j: nat)
    requires |w| > |s| && forall k :: 0 <= k < |w| ==> w[k] in s
    ensures i < j < |w| && w[i] == w[j]
    decreases |w|
  {
    var last := |w| - 1;
    if w[last] in w[..last] {
      i :| 0 <= i < last && w[..last][i] == w[last];
      j := last;
    } else {
      i, j := Repeats(w[..last], s - {w[last]});
    }
  }

  /** If the queue is dry, nothing runs and no barrier is held, any event still pending is stuck behind a circle. */
  lemma StuckMeansHeldOrCircle(q: Queue)
    requires Ok(q) && q.heap == map[] && q.started == map[] && q.pending != map[]
    ensures (exists e :: e in q.held && e in q.pending) || exists c :: Circle(q, c)
  {
    hide Ok;
    if q.held == {} {
      var e :| e in q.pending;
      var w := LongWait(q, e, |q.pending.Keys|);
      var i, j := Repeats(w, q.pending.Keys);
      var c := w[i..j];
      assert w[j] in q.deps[w[j - 1]];
      assert Circle(q, c);
    } else {
      var e :| e in q.held;
      HeldIsPending(q, e);
    }
  }

  lemma HeldIsPending(q: Queue, e: EventId)
    requires Ok(q) && e in q.held
    ensures e in q.pending
  {
    hide HeapOk, OrderOk, RevOk;
    AlmostOkAt(q, e);
    assert None in Outstanding(q, e);
  }

  /** `d` is below `e` in layers, or in the same layer and older. */
  ghost predicate Below(layer: map<EventId, nat>, d: EventId, e: EventId) {
    d in layer && e in layer && (layer[d] < layer[e] || (layer[d] == layer[e] && d < e))
  }

  /** If dependencies go down in layers, a dry queue with no barrier held and nothing running is finished. */
  lemma DryIsFinished(q: Queue, layer: map<EventId, nat>)
    requires Ok(q) && q.heap == map[] && q.started == map[] && q.held == {}
    requires forall e, d :: e in q.deps && d in q.deps[e] ==> Below(layer, d, e)
    ensures q.pending == map[]
    ensures forall e: EventId :: e < q.counter ==> e in q.ended
  {
    hide Ok, Below;
    if q.pending != map[] {
      StuckMeansHeldOrCircle(q);
      var c :| Circle(q, c);
      CircleFalls(q, layer, c, |c| - 1);
      NotBelowItself(layer, c[|c| - 1], c[0]);
      assert false;
    }
    forall e: EventId | e < q.counter ensures e in q.ended { OnePlace(q, e); }
  }

  lemma NotBelowItself(layer: map<EventId, nat>, d: EventId, e: EventId)
    requires Below(layer, d, e) || d == e
    ensures !Below(layer, e, d)
  {
  }

  lemma BelowTwice(layer: map<EventId, nat>, d: EventId, e: EventId, f: EventId)
    requires Below(layer, d, e) && (Below(layer, e, f) || e == f)
    ensures Below(layer, d, f)
  {
  }

  lemma {:induction false} CircleFalls(q: Queue, layer: map<EventId, nat>, c: seq<EventId>, n: nat)
    requires Circle(q, c) && n < |c|
    requires forall e, d :: e in q.deps && d in q.deps[e] ==> Below(layer, d, e)
    ensures Below(layer, c[n], c[0]) || n == 0
  {
    hide Below;
    if n > 0 {
      CircleFalls(q, layer, c, n - 1);
      assert c[n] in q.deps[c[n - 1]];
      BelowTwice(layer, c[n], c[n - 1], c[0]);
    }
  }

  /*** A dependency that comes too late ***/

  /** `add_dependency` on a dependency that has already ended leaves the schedule exact, with that
      dependency counted, if and only if it ended no later than the event is due anyway. */
  lemma LateDependencyCounts(q: Queue, e: EventId, d: EventId)
    requires Ok(q) && e in q.pending && d in q.ended && e in q.deps
    ensures var q' := IgnoredDependency(q, e, d);
            var counted := q'.(deps := q'.deps[e := q'.deps[e] + {d}]);
            e in counted.arrival && (Earliest(counted, e, TimeOf(q', e)) <==> q.ended[d].end <= TimeOf(q, e))
  {
    hide EventOk, HeapOk, OrderOk, RevOk;
    AlmostOkAt(q, e);
    var q' := IgnoredDependency(q, e, d);
    var counted := q'.(deps := q'.deps[e := q'.deps[e] + {d}]);
    assert d in counted.deps[e];
    EarliestSoFar(q, e);
    if TimeOf(q, e) != q.arrival[e] {
      var x :| x in q.deps[e] && x in q.ended && q.ended[x].end == TimeOf(q, e);
      assert x in counted.deps[e];
    }
  }

  lemma EarliestSoFar(q: Queue, e: EventId)
    requires e in q.arrival && e in q.deps && e in q.acts && EventOk(q, e)
    ensures Earliest(q, e, TimeOf(q, e))
  {
  }
}
