/** Every transition of the event queue keeps its invariant. */
module EventSteps {
  import opened EventState
  import opened Options

  /*** Events that a transition does not touch ***/

  /** Two states record event `x` alike, except that more may have ended. */
  ghost predicate SameRecord(q: Queue, q': Queue, x: EventId) {
    && (x in q.pending <==> x in q'.pending) && (x in q.pending ==> q'.pending[x] == q.pending[x])
    && (x in q.waiting <==> x in q'.waiting) && (x in q.waiting ==> q'.waiting[x] == q.waiting[x])
    && (x in q.started <==> x in q'.started) && (x in q.started ==> q'.started[x] == q.started[x])
    && (x in q.ended <==> x in q'.ended) && (x in q.ended ==> q'.ended[x] == q.ended[x])
    && (Start(x) in q.heap <==> Start(x) in q'.heap) && (Start(x) in q.heap ==> q'.heap[Start(x)] == q.heap[Start(x)])
    && (Point(x) in q.heap <==> Point(x) in q'.heap) && (Point(x) in q.heap ==> q'.heap[Point(x)] == q.heap[Point(x)])
    && (End(x) in q.heap <==> End(x) in q'.heap) && (End(x) in q.heap ==> q'.heap[End(x)] == q.heap[End(x)])
    && (x in q.arrival && x in q'.arrival && q'.arrival[x] == q.arrival[x])
    && (x in q.deps && x in q'.deps && q'.deps[x] == q.deps[x])
    && (x in q.acts && x in q'.acts && q'.acts[x] == q.acts[x])
    && (x in q.held <==> x in q'.held)
  }

  /** If in addition its dependencies have ended alike, the invariant carries over. */
  lemma Untouched(q: Queue, q': Queue, x: EventId)
    requires x in q.arrival && x in q.deps && x in q.acts && EventOk(q, x) && SameRecord(q, q', x)
    requires forall d :: d in q.deps[x] ==> (d in q.ended <==> d in q'.ended)
    requires forall d :: d in q.deps[x] && d in q.ended ==> q'.ended[d].end == q.ended[d].end
    ensures EventOk(q', x)
  {
    assert Outstanding(q', x) == Outstanding(q, x);
    if TimeOf(q, x) != q.arrival[x] {
      var d :| d in q.deps[x] && d in q.ended && q.ended[d].end == TimeOf(q, x);
      assert d in q'.ended && q'.ended[d].end == TimeOf(q, x);
    }
  }

  /*** Becoming ready ***/

  lemma PushHeapOk(q: Queue, q': Queue, x: Event, time: nat)
    requires HeapOk(q) && q'.heap == q.heap[x := Prio(time, q.pushes)] && q'.pushes == q.pushes + 1
    ensures HeapOk(q')
  {
  }

  lemma SameRevOk(q: Queue, q': Queue)
    requires RevOk(q) && q'.deps == q.deps && q'.rev == q.rev && q'.ignored == q.ignored
    ensures RevOk(q')
  {
  }

  lemma SameOrderOk(q: Queue, q': Queue)
    requires OrderOk(q) && q'.deps == q.deps && q'.order == q.order && q'.ended == q.ended
    ensures OrderOk(q')
  {
  }

  /** What becoming ready changes: the event moves from `pending` to the queue. */
  lemma ReleasedSame(q: Queue, e: EventId, x: EventId)
    requires e in q.pending && x != e && x in q.arrival && x in q.deps && x in q.acts
    ensures SameRecord(q, Released(q, e), x)
  {
  }

  lemma ReleasedKeeps(q: Queue, e: EventId)
    requires e in q.pending
    ensures Released(q, e).arrival == q.arrival && Released(q, e).deps == q.deps && Released(q, e).acts == q.acts
    ensures Released(q, e).ended == q.ended && Released(q, e).ignored == q.ignored
  {
  }

  lemma ReleasedOthers(q: Queue, e: EventId, x: EventId)
    requires e in q.pending && x in q.arrival && x in q.deps && x in q.acts && x != e && EventOk(q, x)
    ensures x in Released(q, e).arrival && x in Released(q, e).deps && x in Released(q, e).acts
            && EventOk(Released(q, e), x)
  {
    hide EventOk, Released, SameRecord;
    ReleasedKeeps(q, e);
    ReleasedSame(q, e, x);
    Untouched(q, Released(q, e), x);
  }

  lemma ReleasedSelf(q: Queue, e: EventId)
    requires e in q.pending && e in q.arrival && e in q.deps && e in q.acts && EventOk(q, e)
             && q.pending[e].dependencies == {}
    ensures e in Released(q, e).arrival && e in Released(q, e).deps && e in Released(q, e).acts
            && EventOk(Released(q, e), e)
  {
    var q' := Released(q, e);
    assert Outstanding(q', e) == Outstanding(q, e) == {};
    assert TimeOf(q', e) == TimeOf(q, e);
    if TimeOf(q, e) != q.arrival[e] {
      var d :| d in q.deps[e] && d in q.ended && q.ended[d].end == TimeOf(q, e);
      assert d in q'.deps[e] && d in q'.ended && q'.ended[d].end == TimeOf(q', e);
    }
  }

  lemma ReleasedShape(q: Queue, e: EventId)
    requires e in q.pending && IdsOk(q) && RevOk(q) && OrderOk(q) && HeapOk(q)
    ensures var q' := Released(q, e); IdsOk(q') && RevOk(q') && OrderOk(q') && HeapOk(q')
  {
    hide RevOk, OrderOk, HeapOk;
    var q', p := Released(q, e), q.pending[e];
    SameRevOk(q, q');
    SameOrderOk(q, q');
    PushHeapOk(q, q', Entry(e, p.action), Max(p.depEndTime, p.arriveTime));
  }

  lemma AlmostOkAt(q: Queue, x: EventId)
    requires AlmostOk(q) && x in q.arrival
    ensures x in q.deps && x in q.acts && EventOk(q, x)
  {
    hide EventOk;
  }

  /** A pending event with nothing left to wait for may enter the queue. */
  lemma ReleasedOk(q: Queue, e: EventId)
    requires AlmostOk(q) && e in q.pending && q.pending[e].dependencies == {}
    ensures AlmostOk(Released(q, e)) && NoLongerWaiting(Released(q, e)) == NoLongerWaiting(q) - {e}
  {
    hide EventOk, RevOk, OrderOk, HeapOk;
    ReleasedShape(q, e);
    forall x | x in Released(q, e).arrival ensures EventOk(Released(q, e), x) {
      AlmostOkAt(q, x);
      if x == e { ReleasedSelf(q, e); } else { ReleasedOthers(q, e, x); }
    }
  }

  /** Releasing all of them, in any order, restores the full invariant. */
  lemma {:induction false} AllReleasedOk(q: Queue, ready: seq<EventId>)
    requires AlmostOk(q) && (forall i, j :: 0 <= i < j < |ready| ==> ready[i] != ready[j])
    requires forall e :: e in ready <==> e in NoLongerWaiting(q)
    ensures Releasable(q, ready) && Ok(AllReleased(q, ready))
    decreases |ready|
  {
    hide EventOk, IdsOk, RevOk, OrderOk, HeapOk, AlmostOk;
    forall i | 0 <= i < |ready| ensures ready[i] in q.pending {
      assert ready[i] in NoLongerWaiting(q);
    }
    if ready != [] {
      assert ready[0] in NoLongerWaiting(q);
      ReleasedOk(q, ready[0]);
      forall e ensures e in ready[1..] <==> e in NoLongerWaiting(Released(q, ready[0])) {
        assert e in ready <==> e == ready[0] || e in ready[1..];
      }
      AllReleasedOk(Released(q, ready[0]), ready[1..]);
    } else {
      assert NoLongerWaiting(q) == {};
    }
  }

  /*** Adding events and dependencies ***/

  ghost predicate AddFits(q: Queue, ds: set<EventId>, now: nat, arrive: nat) {
    ds <= q.arrival.Keys && LatestEnd(q.ended, ds, now, arrive)
  }

  lemma AddedOthers(q: Queue, ds: set<EventId>, hold: bool, action: Option<Action>, now: nat, arrive: nat, x: EventId)
    requires x in q.arrival && x in q.deps && x in q.acts && EventOk(q, x) && x != q.counter
    ensures var q' := Added(q, ds, hold, action, now, arrive);
            x in q'.arrival && x in q'.deps && x in q'.acts && EventOk(q', x)
  {
    hide EventOk;
    var q' := Added(q, ds, hold, action, now, arrive);
    assert SameRecord(q, q', x);
    Untouched(q, q', x);
  }

  lemma AddedSelf(q: Queue, ds: set<EventId>, hold: bool, action: Option<Action>, now: nat, arrive: nat)
    requires IdsOk(q) && AddFits(q, ds, now, arrive)
    requires Start(q.counter) !in q.heap && Point(q.counter) !in q.heap && End(q.counter) !in q.heap
    ensures var q' := Added(q, ds, hold, action, now, arrive);
            && q.counter in q'.arrival && q.counter in q'.deps && q.counter in q'.acts && EventOk(q', q.counter)
            && NoLongerWaiting(q') == NoLongerWaiting(q)
  {
    hide Earliest, IdsOk, PlaceOk, WaitsOk, RecordOk, TimeOf, Added;
    NotAllocated(q);
    var e, q' := q.counter, Added(q, ds, hold, action, now, arrive);
    AddedPlace(q, ds, hold, action, now, arrive);
    AddedEarliest(q, q', e, ds, now, arrive);
  }

  lemma NotAllocated(q: Queue)
    requires IdsOk(q)
    ensures var e := q.counter;
            && e !in q.arrival && e !in q.ended && e !in q.held
            && e !in q.pending && e !in q.waiting && e !in q.started
  {
  }

  lemma AddedPlace(q: Queue, ds: set<EventId>, hold: bool, action: Option<Action>, now: nat, arrive: nat)
    requires Start(q.counter) !in q.heap && Point(q.counter) !in q.heap && End(q.counter) !in q.heap
    requires var e := q.counter;
             && e !in q.arrival && e !in q.ended && e !in q.held
             && e !in q.pending && e !in q.waiting && e !in q.started
    ensures var q', e := Added(q, ds, hold, action, now, arrive), q.counter;
            && e in q'.arrival && q'.arrival[e] == now && e in q'.deps && q'.deps[e] == ds && e in q'.acts
               && q'.ended == q.ended
            && PlaceOk(q', e) && WaitsOk(q', e) && RecordOk(q', e) && EndOk(q', e) && TimeOf(q', e) == arrive
            && NoLongerWaiting(q') == NoLongerWaiting(q)
  {
    var e, q' := q.counter, Added(q, ds, hold, action, now, arrive);
    assert Outstanding(q', e) == Unmet(q.ended, ds, hold);
    if Unmet(q.ended, ds, hold) == {} {
      assert NoLongerWaiting(q') == NoLongerWaiting(q);
    } else {
      assert q'.pending[e].dependencies != {};
      assert NoLongerWaiting(q') == NoLongerWaiting(q);
    }
  }

  lemma AddedEarliest(q: Queue, q': Queue, e: EventId, ds: set<EventId>, now: nat, arrive: nat)
    requires LatestEnd(q.ended, ds, now, arrive) && q'.ended == q.ended
    requires e in q'.arrival && q'.arrival[e] == now && e in q'.deps && q'.deps[e] == ds
    ensures Earliest(q', e, arrive)
  {
  }

  lemma AddedShape(q: Queue, ds: set<EventId>, hold: bool, action: Option<Action>, now: nat, arrive: nat)
    requires IdsOk(q) && RevOk(q) && OrderOk(q) && HeapOk(q) && AddFits(q, ds, now, arrive)
    ensures var q' := Added(q, ds, hold, action, now, arrive); IdsOk(q') && RevOk(q') && OrderOk(q') && HeapOk(q')
  {
    var q' := Added(q, ds, hold, action, now, arrive);
    AddedRevOk(q, ds, hold, action, now, arrive);
    AddedOrderOk(q, ds, hold, action, now, arrive);
    AddedIdsOk(q, ds, hold, action, now, arrive);
    if q'.pushes != q.pushes {
      PushHeapOk(q, q', Entry(q.counter, action), arrive);
    }
  }

  lemma AddedIdsOk(q: Queue, ds: set<EventId>, hold: bool, action: Option<Action>, now: nat, arrive: nat)
    requires IdsOk(q) && ds <= q.arrival.Keys
    ensures IdsOk(Added(q, ds, hold, action, now, arrive))
  {
  }

  lemma AddedRevOk(q: Queue, ds: set<EventId>, hold: bool, action: Option<Action>, now: nat, arrive: nat)
    requires RevOk(q) && q.counter !in q.deps
    ensures RevOk(Added(q, ds, hold, action, now, arrive))
  {
  }

  lemma AddedOrderOk(q: Queue, ds: set<EventId>, hold: bool, action: Option<Action>, now: nat, arrive: nat)
    requires OrderOk(q) && q.counter !in q.ended
    ensures OrderOk(Added(q, ds, hold, action, now, arrive))
  {
  }

  lemma FreshNotQueued(q: Queue)
    requires IdsOk(q)
    ensures Start(q.counter) !in q.heap && Point(q.counter) !in q.heap && End(q.counter) !in q.heap
  {
    assert Start(q.counter).id == Point(q.counter).id == End(q.counter).id == q.counter;
  }

  /** `add_action_or_point` keeps the invariant. */
  lemma AddedOk(q: Queue, ds: set<EventId>, hold: bool, action: Option<Action>, now: nat, arrive: nat)
    requires Ok(q) && AddFits(q, ds, now, arrive)
    ensures Ok(Added(q, ds, hold, action, now, arrive))
  {
    hide EventOk, RevOk, OrderOk, HeapOk;
    var q' := Added(q, ds, hold, action, now, arrive);
    AddedShape(q, ds, hold, action, now, arrive);
    FreshNotQueued(q);
    AddedSelf(q, ds, hold, action, now, arrive);
    forall x | x in q'.arrival ensures EventOk(q', x) {
      if x != q.counter {
        AlmostOkAt(q, x);
        AddedOthers(q, ds, hold, action, now, arrive, x);
      }
    }
  }

  lemma AddedDependencySelf(q: Queue, e: EventId, dep: Option<EventId>)
    requires e in q.pending && e in q.arrival && e in q.deps && e in q.acts && EventOk(q, e)
    requires dep.Some? ==> dep.value !in q.ended
    ensures EventOk(AddedDependency(q, e, dep), e)
  {
    var q' := AddedDependency(q, e, dep);
    assert Outstanding(q', e) == Outstanding(q, e) + {dep};
    if TimeOf(q, e) != q.arrival[e] {
      var d :| d in q.deps[e] && d in q.ended && q.ended[d].end == TimeOf(q, e);
      assert d in q'.deps[e];
    }
  }

  lemma AddedDependencyOthers(q: Queue, e: EventId, dep: Option<EventId>, x: EventId)
    requires e in q.pending && e in q.deps && x in q.arrival && x in q.deps && x in q.acts && EventOk(q, x) && x != e
    ensures EventOk(AddedDependency(q, e, dep), x)
  {
    hide EventOk;
    var q' := AddedDependency(q, e, dep);
    assert SameRecord(q, q', x);
    Untouched(q, q', x);
  }

  lemma AddedDependencyShape(q: Queue, e: EventId, dep: Option<EventId>)
    requires IdsOk(q) && RevOk(q) && OrderOk(q) && e in q.pending && e in q.deps && e !in q.ended
    requires dep.Some? ==> dep.value in q.arrival
    ensures var q' := AddedDependency(q, e, dep); IdsOk(q') && RevOk(q') && OrderOk(q')
  {
    hide RevOk, OrderOk;
    AddedDependencyRev(q, e, dep);
    AddedDependencyOrder(q, e, dep);
  }

  lemma AddedDependencyRev(q: Queue, e: EventId, dep: Option<EventId>)
    requires RevOk(q) && e in q.pending && e in q.deps
    ensures RevOk(AddedDependency(q, e, dep))
  {
  }

  lemma AddedDependencyOrder(q: Queue, e: EventId, dep: Option<EventId>)
    requires OrderOk(q) && e in q.pending && e in q.deps && e !in q.ended
    ensures OrderOk(AddedDependency(q, e, dep))
  {
    assert e !in q.order;
  }

  /** `add_dependency` on a pending event keeps the invariant if the dependency has not ended. */
  lemma AddedDependencyOk(q: Queue, e: EventId, dep: Option<EventId>)
    requires Ok(q) && e in q.pending && e in q.deps
    requires dep.Some? ==> dep.value in q.arrival && dep.value !in q.ended
    ensures Ok(AddedDependency(q, e, dep))
  {
    hide EventOk, RevOk, OrderOk, HeapOk;
    var q' := AddedDependency(q, e, dep);
    assert e in q.arrival && e !in q.ended by { AlmostOkAt(q, e); PendingNotEnded(q, e); }
    AddedDependencyShape(q, e, dep);
    assert HeapOk(q') by { SameHeapOk(q, q'); }
    forall x | x in q'.arrival ensures EventOk(q', x) {
      AlmostOkAt(q, x);
      if x == e { AddedDependencySelf(q, e, dep); } else { AddedDependencyOthers(q, e, dep, x); }
    }
    forall x | x in q'.pending ensures q'.pending[x].dependencies != {} {
      if x != e {
        assert x !in NoLongerWaiting(q);
      }
    }
  }

  lemma PendingNotEnded(q: Queue, e: EventId)
    requires e in q.arrival && e in q.deps && e in q.acts && EventOk(q, e) && e in q.pending
    ensures e !in q.ended && Start(e) !in q.heap && Point(e) !in q.heap && e !in q.started && End(e) !in q.heap
  {
  }

  lemma SameHeapOk(q: Queue, q': Queue)
    requires HeapOk(q) && q'.heap == q.heap && q'.pushes == q.pushes
    ensures HeapOk(q')
  {
  }

  /** `add_dependency` on an ended dependency changes nothing but the reverse index. */
  lemma IgnoredDependencyOk(q: Queue, e: EventId, d: EventId)
    requires Ok(q) && e in q.deps && d in q.arrival
    ensures Ok(IgnoredDependency(q, e, d))
  {
    hide EventOk, OrderOk, HeapOk, RevOk;
    var q' := IgnoredDependency(q, e, d);
    SameOrderOk(q, q');
    IgnoredRev(q, e, d);
    SameHeapOk(q, q');
    forall x | x in q'.arrival ensures EventOk(q', x) {
      AlmostOkAt(q, x);
      IgnoredOthers(q, e, d, x);
    }
  }

  lemma IgnoredRev(q: Queue, e: EventId, d: EventId)
    requires RevOk(q) && e in q.deps
    ensures RevOk(IgnoredDependency(q, e, d))
  {
    var q' := IgnoredDependency(q, e, d);
    forall x, y | y in q'.rev && x in q'.rev[y] ensures Hears(q', x, y) {
      assert (x == e && y == d) || (y in q.rev && x in q.rev[y]);
      assert (x == e && y == d) || Hears(q, x, y);
    }
  }

  lemma IgnoredOthers(q: Queue, e: EventId, d: EventId, x: EventId)
    requires e in q.deps && x in q.arrival && x in q.deps && x in q.acts && EventOk(q, x)
    ensures EventOk(IgnoredDependency(q, e, d), x)
  {
    hide EventOk;
    assert SameRecord(q, IgnoredDependency(q, e, d), x);
    Untouched(q, IgnoredDependency(q, e, d), x);
  }

  /*** Releasing a barrier ***/

  ghost function WithoutBarrier(q: Queue, e: EventId): Queue
    requires e in q.pending
  {
    q.(pending := q.pending[e := q.pending[e].(dependencies := q.pending[e].dependencies - {None})],
        held := q.held - {e})
  }

  lemma WithoutBarrierOk(q: Queue, e: EventId)
    requires Ok(q) && e in q.pending
    ensures var q' := WithoutBarrier(q, e);
            AlmostOk(q') && NoLongerWaiting(q') == if q'.pending[e].dependencies == {} then {e} else {}
  {
    hide EventOk, RevOk, OrderOk, HeapOk;
    var q' := WithoutBarrier(q, e);
    SameOrderOk(q, q');
    SameHeapOk(q, q');
    SameRevOk(q, q');
    forall x | x in q'.arrival ensures EventOk(q', x) {
      AlmostOkAt(q, x);
      if x == e {
        WithoutBarrierSelf(q, e);
      } else {
        WithoutBarrierOthers(q, e, x);
      }
    }
    forall x | x in q'.pending && x != e ensures q'.pending[x].dependencies != {} {
      assert x !in NoLongerWaiting(q);
    }
  }

  lemma WithoutBarrierOthers(q: Queue, e: EventId, x: EventId)
    requires e in q.pending && x != e && x in q.arrival && x in q.deps && x in q.acts && EventOk(q, x)
    ensures EventOk(WithoutBarrier(q, e), x)
  {
    hide EventOk;
    assert SameRecord(q, WithoutBarrier(q, e), x);
    Untouched(q, WithoutBarrier(q, e), x);
  }

  lemma WithoutBarrierSelf(q: Queue, e: EventId)
    requires e in q.pending && e in q.arrival && e in q.deps && e in q.acts && EventOk(q, e)
    ensures EventOk(WithoutBarrier(q, e), e)
  {
    var q' := WithoutBarrier(q, e);
    assert Outstanding(q', e) == Outstanding(q, e) - {None};
    if TimeOf(q, e) != q.arrival[e] {
      var d :| d in q.deps[e] && d in q.ended && q.ended[d].end == TimeOf(q, e);
      assert d in q'.deps[e];
    }
  }

  lemma ReleasedIs(q: Queue, e: EventId)
    requires e in q.pending
    ensures var q' := WithoutBarrier(q, e);
            BarrierReleased(q, e) == if q'.pending[e].dependencies == {} then Released(q', e) else q'
  {
    hide Released;
  }

  /** `remove_none_dependency` keeps the invariant. */
  lemma BarrierReleasedOk(q: Queue, e: EventId)
    requires Ok(q)
    ensures Ok(BarrierReleased(q, e))
  {
    hide AlmostOk;
    if e in q.pending {
      WithoutBarrierOk(q, e);
      var q' := WithoutBarrier(q, e);
      if q'.pending[e].dependencies == {} {
        ReleasedOk(q', e);
        assert BarrierReleased(q, e) == Released(q', e);
      }
    }
  }

  /*** Executing ***/

  lemma StartPoppedSelf(q: Queue, e: EventId)
    requires Start(e) in q.heap && e in q.waiting && e in q.arrival && e in q.deps && e in q.acts && EventOk(q, e)
    ensures EventOk(StartPopped(q, e), e)
  {
    var q' := StartPopped(q, e);
    assert Outstanding(q', e) == Outstanding(q, e) == {};
    assert TimeOf(q', e) == TimeOf(q, e);
    if TimeOf(q, e) != q.arrival[e] {
      var d :| d in q.deps[e] && d in q.ended && q.ended[d].end == TimeOf(q, e);
      assert d in q'.deps[e] && d in q'.ended;
    }
  }

  lemma StartPoppedOthers(q: Queue, e: EventId, x: EventId)
    requires Start(e) in q.heap && e in q.waiting && x != e
    requires x in q.arrival && x in q.deps && x in q.acts && EventOk(q, x)
    ensures EventOk(StartPopped(q, e), x)
  {
    hide EventOk;
    assert SameRecord(q, StartPopped(q, e), x);
    Untouched(q, StartPopped(q, e), x);
  }

  /** Popping a `Start` entry keeps the invariant. */
  lemma StartPoppedOk(q: Queue, e: EventId)
    requires Ok(q) && Start(e) in q.heap
    ensures e in q.waiting && Ok(StartPopped(q, e))
  {
    hide EventOk, RevOk, OrderOk, HeapOk;
    assert Start(e).id in q.arrival;
    AlmostOkAt(q, e);
    assert e in q.waiting by { assert EventOk(q, e); StartHasAction(q, e); }
    var q' := StartPopped(q, e);
    SameOrderOk(q, q');
    SameRevOk(q, q');
    StartPoppedHeapOk(q, e);
    forall x | x in q'.arrival ensures EventOk(q', x) {
      AlmostOkAt(q, x);
      if x == e {
        StartPoppedSelf(q, e);
      } else {
        StartPoppedOthers(q, e, x);
      }
    }
  }

  lemma StartHasAction(q: Queue, e: EventId)
    requires e in q.arrival && e in q.deps && e in q.acts && EventOk(q, e) && Start(e) in q.heap
    ensures e in q.waiting && q.acts[e] == Some(q.waiting[e])
  {
  }

  lemma StartPoppedHeapOk(q: Queue, e: EventId)
    requires HeapOk(q) && Start(e) in q.heap && e in q.waiting
    ensures HeapOk(StartPopped(q, e))
  {
  }

  /** The network reports the end of a running communication. */
  lemma NetworkEndOk(q: Queue, e: EventId, time: nat)
    requires Ok(q) && e in q.started && End(e) !in q.heap && q.started[e] <= time
    ensures Ok(Push(q, End(e), time))
  {
    hide EventOk, RevOk, OrderOk, HeapOk;
    var q' := Push(q, End(e), time);
    assert e in q.arrival;
    AlmostOkAt(q, e);
    SameOrderOk(q, q');
    SameRevOk(q, q');
    PushHeapOk(q, q', End(e), time);
    forall x | x in q'.arrival ensures EventOk(q', x) {
      AlmostOkAt(q, x);
      if x == e {
        NetworkEndSelf(q, e, time);
      } else {
        NetworkEndOthers(q, e, time, x);
      }
    }
  }

  lemma NetworkEndOthers(q: Queue, e: EventId, time: nat, x: EventId)
    requires x != e && x in q.arrival && x in q.deps && x in q.acts && EventOk(q, x)
    ensures EventOk(Push(q, End(e), time), x)
  {
    hide EventOk;
    assert SameRecord(q, Push(q, End(e), time), x);
    Untouched(q, Push(q, End(e), time), x);
  }

  lemma NetworkEndSelf(q: Queue, e: EventId, time: nat)
    requires e in q.arrival && e in q.deps && e in q.acts && EventOk(q, e)
    requires e in q.started && End(e) !in q.heap && q.started[e] <= time
    ensures EventOk(Push(q, End(e), time), e)
  {
    var q' := Push(q, End(e), time);
    assert Outstanding(q', e) == Outstanding(q, e);
    if TimeOf(q, e) != q.arrival[e] {
      var d :| d in q.deps[e] && d in q.ended && q.ended[d].end == TimeOf(q, e);
      assert d in q'.deps[e] && d in q'.ended;
    }
  }

  /*** Ending an event ***/

  /** `q1` is `q` with event `d` taken out of its place, ready to be recorded as ended. */
  ghost predicate TakenOut(q: Queue, q1: Queue, d: EventId, start: nat, end: nat) {
    && d in q.arrival && d in q.deps && d in q.acts && d !in q.ended && d !in q.pending && d !in q.waiting
    && q1 == q.(heap := q1.heap, started := q.started - {d})
    && (forall x :: x in q1.heap <==> x in q.heap && x.id != d) && (forall x :: x in q1.heap ==>
       q1.heap[x] == q.heap[x])
    && TimeOf(q, d) == start
    && match q.acts[d]
       case None => end == start
       case Some(Computation(duration)) => end == start + duration
       case Some(Communication) => start <= end
  }

  lemma NothingOutstanding(q: Queue, e: EventId)
    requires e in q.deps && Outstanding(q, e) == {}
    ensures q.deps[e] <= q.ended.Keys && e !in q.held
  {
    var some := set d | d in q.deps[e] && d !in q.ended :: Some(d);
    assert forall d :: d in q.deps[e] && d !in q.ended ==> Some(d) in some;
    assert some <= Outstanding(q, e);
  }

  lemma EndedSelf(q: Queue, q1: Queue, d: EventId, start: nat, end: nat)
    requires TakenOut(q, q1, d, start, end) && EventOk(q, d)
    ensures EventOk(EndRecorded(q1, d, start, end), d)
    ensures q.deps[d] <= q.ended.Keys
  {
    var q' := EndRecorded(q1, d, start, end);
    NothingOutstanding(q, d);
    assert Outstanding(q', d) == {};
    if start != q.arrival[d] {
      var x :| x in q.deps[d] && x in q.ended && q.ended[x].end == start;
      assert x in q'.deps[d] && x in q'.ended && q'.ended[x].end == start;
    }
  }

  /** A pending event learns of the end of `d`. */
  lemma EndedPending(q: Queue, q1: Queue, d: EventId, start: nat, end: nat, x: EventId)
    requires TakenOut(q, q1, d, start, end) && x in q.arrival && x in q.deps && x in q.acts && EventOk(q, x)
             && x in q.pending
    ensures EventOk(EndRecorded(q1, d, start, end), x)
  {
    var q' := EndRecorded(q1, d, start, end);
    assert x != d;
    assert Start(x).id == Point(x).id == End(x).id == x;
    assert Some(d) in q.pending[x].dependencies <==> d in q.deps[x];
    assert Outstanding(q', x) == Outstanding(q, x) - {Some(d)};
    var t, t' := TimeOf(q, x), TimeOf(q', x);
    assert t' == if d in q.deps[x] then Max(t, end) else t;
    if t' == t {
      if t != q.arrival[x] {
        var y :| y in q.deps[x] && y in q.ended && q.ended[y].end == t;
        assert y in q'.deps[x] && y in q'.ended && q'.ended[y].end == t;
      }
    } else {
      assert d in q'.deps[x] && d in q'.ended && q'.ended[d].end == t';
    }
  }

  lemma EndedOthers(q: Queue, q1: Queue, d: EventId, start: nat, end: nat, x: EventId)
    requires TakenOut(q, q1, d, start, end) && x in q.arrival && x in q.deps && x in q.acts && EventOk(q, x)
    requires x !in q.pending && x != d
    ensures EventOk(EndRecorded(q1, d, start, end), x)
  {
    var q' := EndRecorded(q1, d, start, end);
    assert Start(x).id == Point(x).id == End(x).id == x;
    NothingOutstanding(q, x);
    assert SameRecord(q, q', x);
    Untouched(q, q', x);
  }

  lemma EndedOrder(q: Queue, q1: Queue, d: EventId, start: nat, end: nat)
    requires TakenOut(q, q1, d, start, end) && OrderOk(q) && q.deps[d] <= q.ended.Keys
    ensures OrderOk(EndRecorded(q1, d, start, end))
  {
    var q' := EndRecorded(q1, d, start, end);
    forall i, x | 0 <= i < |q'.order| && q'.order[i] in q'.deps && x in q'.deps[q'.order[i]]
      ensures x in q'.order[..i]
    {
      if i < |q.order| {
        assert q'.order[..i] == q.order[..i];
      } else {
        assert q'.order[..i] == q.order;
      }
    }
  }

  lemma EndedIds(q: Queue, q1: Queue, d: EventId, start: nat, end: nat)
    requires TakenOut(q, q1, d, start, end) && IdsOk(q)
    ensures IdsOk(EndRecorded(q1, d, start, end))
  {
  }

  lemma EndedHeap(q: Queue, q1: Queue, d: EventId, start: nat, end: nat)
    requires TakenOut(q, q1, d, start, end) && HeapOk(q)
    ensures HeapOk(EndRecorded(q1, d, start, end))
  {
  }

  /** Recording an end keeps the invariant, up to the events that have become ready. */
  lemma EndRecordedOk(q: Queue, q1: Queue, d: EventId, start: nat, end: nat)
    requires Ok(q) && TakenOut(q, q1, d, start, end)
    ensures AlmostOk(EndRecorded(q1, d, start, end))
  {
    hide EventOk, RevOk, OrderOk, HeapOk, IdsOk, NoLongerWaiting;
    var q' := EndRecorded(q1, d, start, end);
    AlmostOkAt(q, d);
    EndedSelf(q, q1, d, start, end);
    EndedOrder(q, q1, d, start, end);
    EndedIds(q, q1, d, start, end);
    EndedHeap(q, q1, d, start, end);
    SameRevOk(q, q');
    forall x | x in q'.arrival ensures x in q'.deps && x in q'.acts && EventOk(q', x) {
      AlmostOkAt(q, x);
      if x in q.pending {
        EndedPending(q, q1, d, start, end, x);
      } else if x != d {
        EndedOthers(q, q1, d, start, end, x);
      }
    }
  }

  lemma SpanTakenOut(q: Queue, e: EventId)
    requires e in q.arrival && e in q.deps && e in q.acts && EventOk(q, e) && End(e) in q.heap
    ensures e in q.started && TakenOut(q, EndPopped(q, e), e, q.started[e], q.heap[End(e)].time)
  {
    forall x | x in q.heap && x.id == e ensures x == End(e) {
      match x { case Start(_) => case End(_) => case Point(_) => }
    }
  }

  lemma PointTakenOut(q: Queue, e: EventId)
    requires e in q.arrival && e in q.deps && e in q.acts && EventOk(q, e) && Point(e) in q.heap
    ensures TakenOut(q, PointPopped(q, e), e, q.heap[Point(e)].time, q.heap[Point(e)].time)
  {
    forall x | x in q.heap && x.id == e ensures x == Point(e) {
      match x { case Start(_) => case End(_) => case Point(_) => }
    }
    assert q.started - {e} == q.started;
  }

  /** Network reports keep the invariant. */
  lemma {:induction false} ReportedOk(q: Queue, report: seq<FlowEnd>)
    requires Ok(q) && ReportFits(q, report)
    ensures Ok(Reported(q, report))
    decreases |report|
  {
    hide Ok;
    if report != [] {
      NetworkEndOk(q, report[0].id, report[0].time);
      var q' := Push(q, End(report[0].id), report[0].time);
      assert forall i :: 0 <= i < |report[1..]| ==> report[1..][i] == report[i + 1];
      ReportedOk(q', report[1..]);
    }
  }
}
