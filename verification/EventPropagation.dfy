/** Moving an end time after the fact: what the recursive shift of start times keeps, and
    why it ends with exactly the schedule that a computation from scratch would give. */
module EventPropagation {
  import opened EventState
  import opened EventSteps
  import opened Options

  /** Only times differ: the same events in the same places. */
  ghost predicate SameGround(q: Queue, q': Queue) {
    && q' == q.(pending := q'.pending, heap := q'.heap, started := q'.started, ended := q'.ended)
    && q'.pending.Keys == q.pending.Keys && q'.heap.Keys == q.heap.Keys
    && q'.started.Keys == q.started.Keys && q'.ended.Keys == q.ended.Keys
  }

  /** Event `x` is as before, but perhaps later, and takes as long as before; a flow whose end the network
      has yet to report stays where it is. */
  ghost predicate Moved(q: Queue, q': Queue, x: EventId)
    requires SameGround(q, q')
  {
    && TimeOf(q, x) <= TimeOf(q', x)
    && (x in q.pending ==> q'.pending[x] == q.pending[x].(depEndTime := q'.pending[x].depEndTime))
    && (Start(x) in q.heap ==> q'.heap[Start(x)].count == q.heap[Start(x)].count)
    && (Point(x) in q.heap ==> q'.heap[Point(x)].count == q.heap[Point(x)].count)
    && (End(x) in q.heap ==> q'.heap[End(x)].count == q.heap[End(x)].count)
    && (End(x) in q.heap && x in q.started ==>
          q'.heap[End(x)].time - q'.started[x] == q.heap[End(x)].time - q.started[x])
    && (x in q.ended ==> q'.ended[x].end - q'.ended[x].start == q.ended[x].end - q.ended[x].start)
    && (x in q.started && End(x) !in q.heap ==> q'.started[x] == q.started[x])
  }

  /** `x` starts before its dependency `d` ends. */
  ghost predicate TooEarly(q: Queue, x: EventId, d: EventId) {
    Hears(q, x, d) && d in q.ended && TimeOf(q, x) < q.ended[d].end
  }

  /** `x` has a reason not to start earlier. */
  ghost predicate Backed(q: Queue, x: EventId)
    requires x in q.arrival && x in q.deps
  {
    TimeOf(q, x) <= q.arrival[x] || exists d :: Hears(q, x, d) && d in q.ended && TimeOf(q, x) <= q.ended[d].end
  }

  /** Some dependency of `x` that has ended justifies the time `v`. */
  ghost predicate Backs(q: Queue, x: EventId, v: nat)
    requires x in q.deps
  {
    exists d :: Hears(q, x, d) && d in q.ended && v <= q.ended[d].end
  }

  /** How far from the end of the order of ends an event stands; 0 if it has not ended. */
  ghost function Rank(order: seq<EventId>, e: EventId): nat {
    if order == [] then 0 else if order[0] == e then |order| else Rank(order[1..], e)
  }

  lemma {:induction false} RankAt(order: seq<EventId>, i: nat)
    requires i < |order| && forall j, k :: 0 <= j < k < |order| ==> order[j] != order[k]
    ensures Rank(order, order[i]) == |order| - i
    decreases |order|
  {
    if i > 0 {
      RankAt(order[1..], i - 1);
    }
  }

  lemma {:induction false} RankOutside(order: seq<EventId>, e: EventId)
    requires e !in order
    ensures Rank(order, e) == 0
  {
    if order != [] {
      RankOutside(order[1..], e);
    }
  }

  /** What depends on an ended event stands behind it. */
  lemma RankFalls(q: Queue, e: EventId, d: EventId)
    requires OrderOk(q) && LateInOrder(q) && d in q.ended && Hears(q, e, d)
    ensures Rank(q.order, e) < Rank(q.order, d)
  {
    var j :| 0 <= j < |q.order| && q.order[j] == d;
    RankAt(q.order, j);
    if e in q.order {
      var i :| 0 <= i < |q.order| && q.order[i] == e;
      assert d in q.order[..i];
      var k :| 0 <= k < i && q.order[k] == d;
      assert k == j;
      RankAt(q.order, i);
    } else {
      RankOutside(q.order, e);
    }
  }

  /** A dependency that came too late had ended before whatever depends on it: as long as only pending events
      are given dependencies. */
  ghost predicate LateInOrder(q: Queue) {
    forall e, d :: (e, d) in q.ignored ==>
      d in q.order && forall i :: 0 <= i < |q.order| && q.order[i] == e ==> d in q.order[..i]
  }

  /** A late dependency of a pending event keeps that; */
  lemma LateStaysInOrder(q: Queue, e: EventId, d: EventId)
    requires Ok(q) && LateInOrder(q) && e in q.pending && e in q.deps && d in q.ended
    ensures LateInOrder(IgnoredDependency(q, e, d))
  {
    hide EventOk, RevOk, HeapOk;
    AlmostOkAt(q, e);
    PendingNotEnded(q, e);
  }

  /** and so does recording an end. */
  lemma EndsStayInOrder(q: Queue, d: EventId, start: nat, end: nat)
    requires LateInOrder(q) && d !in q.order
    ensures LateInOrder(EndRecorded(q, d, start, end))
  {
    var q' := EndRecorded(q, d, start, end);
    forall e, x | (e, x) in q'.ignored
      ensures x in q'.order && forall i :: 0 <= i < |q'.order| && q'.order[i] == e ==> x in q'.order[..i]
    {
      forall i | 0 <= i < |q'.order| && q'.order[i] == e ensures x in q'.order[..i] {
        assert q'.order[..i] == if i < |q.order| then q.order[..i] else q.order;
      }
    }
  }

  /** What propagation relies on: places and indices, but no times. */
  ghost predicate Sound(q: Queue) {
    && IdsOk(q) && RevOk(q) && OrderOk(q) && LateInOrder(q)
    && forall e :: e in q.arrival ==> PlaceOk(q, e)
  }

  lemma SoundStays(q: Queue, q': Queue)
    requires Sound(q) && SameGround(q, q')
    ensures Sound(q')
  {
    hide RevOk, OrderOk, PlaceOk;
    assert RevOk(q') by { SameRevOk(q, q'); }
    assert OrderOk(q') by { KeysOrderOk(q, q'); }
    forall e | e in q'.arrival ensures PlaceOk(q', e) { PlaceStays(q, q', e); }
  }

  lemma KeysOrderOk(q: Queue, q': Queue)
    requires OrderOk(q) && q'.deps == q.deps && q'.order == q.order && q'.ended.Keys == q.ended.Keys
    ensures OrderOk(q')
  {
  }

  lemma PlaceStays(q: Queue, q': Queue, e: EventId)
    requires PlaceOk(q, e) && SameGround(q, q')
    ensures PlaceOk(q', e)
  {
  }

  /*** Flows in the network ***/

  /** How a shift of times ends: carried out, or stopped where the program's assertion fails, at a flow that the
      network has let go of or at one whose end the network has yet to report. */
  datatype Shift = Carried | FlowEmitted | EndUnreported

  /** The network, at `ts` nanoseconds, still holds the flow of `e` back: it is due later. */
  ghost predicate HeldBack(q: Queue, ts: nat, e: EventId) {
    && e in q.acts && q.acts[e] == Some(Communication)
    && ((Start(e) in q.heap && ts < 1000 * q.heap[Start(e)].time)
        || (e in q.started && End(e) !in q.heap && ts < 1000 * q.started[e]))
  }

  /** The network has been given the flow of `e`, and has let it go. */
  ghost predicate Emitted(q: Queue, ts: nat, e: EventId) {
    e in q.acts && q.acts[e] == Some(Communication) && e !in q.pending && !HeldBack(q, ts, e)
  }

  /** No emitted flow has been moved or told anything new. */
  ghost predicate Respects(q: Queue, q': Queue, ts: nat) {
    && (forall x :: x in q.arrival && Emitted(q, ts, x) ==> TimeOf(q', x) == TimeOf(q, x))
    && (forall x, d :: Hears(q, x, d) && d in q.ended && d in q'.ended && q'.ended[d] != q.ended[d] ==>
          !Emitted(q, ts, x))
  }

  /** A flow that is moved stays where it is in the network. */
  lemma EmittedBefore(q: Queue, q': Queue, ts: nat, x: EventId)
    requires SameGround(q, q') && PlaceOk(q, x) && Moved(q, q', x)
    ensures Emitted(q', ts, x) ==> Emitted(q, ts, x)
    ensures TimeOf(q', x) == TimeOf(q, x) && Emitted(q, ts, x) ==> Emitted(q', ts, x)
    ensures x in q.started && End(x) !in q.heap ==> (Emitted(q', ts, x) <==> Emitted(q, ts, x))
  {
  }

  lemma EmittedKnown(q: Queue, ts: nat, x: EventId)
    requires Sound(q) && Emitted(q, ts, x)
    ensures x in q.arrival && PlaceOk(q, x)
  {
    hide RevOk, OrderOk, PlaceOk;
  }

  lemma RespectsTwice(q: Queue, q1: Queue, q2: Queue, ts: nat)
    requires Sound(q) && SameGround(q, q1) && SameGround(q1, q2) && forall x :: x in q.arrival ==> Moved(q, q1, x)
    requires Respects(q, q1, ts) && Respects(q1, q2, ts)
    ensures Respects(q, q2, ts) && forall x :: Emitted(q, ts, x) ==> Emitted(q1, ts, x)
  {
    hide Sound, Moved, TimeOf, Emitted, PlaceOk;
    forall x | Emitted(q, ts, x) ensures x in q.arrival && Emitted(q1, ts, x) {
      EmittedKnown(q, ts, x);
      EmittedBefore(q, q1, ts, x);
    }
    forall x, d | Hears(q, x, d) && d in q.ended && d in q2.ended && q2.ended[d] != q.ended[d]
      ensures !Emitted(q, ts, x)
    {
      SameHearing(q, q1, x, d);
    }
  }

  /*** Raising the start of one event ***/

  /** The effect of `change_start_time_notless(id, v)`, the network's clock at `ts`. */
  ghost predicate Raised(q: Queue, q': Queue, ts: nat, id: EventId, v: nat) {
    && Respects(q, q', ts) && !Emitted(q, ts, id)
    && SameGround(q, q') && (forall x :: x in q.arrival ==> Moved(q, q', x))
    && (forall x :: x in q.arrival && x != id && Rank(q.order, x) >= Rank(q.order, id) ==> SameRecord(q, q', x))
    && TimeOf(q', id) == Max(TimeOf(q, id), v)
    && (forall x, d :: TooEarly(q', x, d) ==> TooEarly(q, x, d) && q'.ended[d] == q.ended[d])
    && (id in q.deps && Backs(q, id, v) ==>
          forall x :: x in q.arrival && x in q.deps && Backed(q, x) ==> Backed(q', x))
    && (v <= TimeOf(q, id) ==> q' == q.(pending := q'.pending) && forall x :: x in q.arrival ==>
       TimeOf(q', x) == TimeOf(q, x))
  }

  /** Only event `id` has moved. */
  ghost predicate OneMoved(q: Queue, q': Queue, id: EventId) {
    && SameGround(q, q') && Moved(q, q', id) && forall x :: x in q.arrival && x != id ==> SameRecord(q, q', x)
  }

  lemma SameIsMoved(q: Queue, q': Queue, x: EventId)
    requires SameGround(q, q') && SameRecord(q, q', x)
    ensures Moved(q, q', x) && TimeOf(q', x) == TimeOf(q, x)
  {
  }

  lemma StaysBacked(q: Queue, q': Queue, x: EventId)
    requires SameGround(q, q') && x in q.arrival && x in q.deps && Backed(q, x) && TimeOf(q', x) == TimeOf(q, x)
    requires forall d :: d in q.ended ==> q.ended[d].end <= q'.ended[d].end
    ensures Backed(q', x)
  {
    if TimeOf(q, x) > q.arrival[x] {
      var d :| Hears(q, x, d) && d in q.ended && TimeOf(q, x) <= q.ended[d].end;
      assert d in q'.ended;
    }
  }

  lemma BecomesBacked(q: Queue, q': Queue, x: EventId, v: nat)
    requires SameGround(q, q') && x in q.arrival && x in q.deps && Backs(q, x, v) && TimeOf(q', x) == v
    requires forall d :: d in q.ended ==> q.ended[d].end <= q'.ended[d].end
    ensures Backed(q', x)
  {
    var d :| Hears(q, x, d) && d in q.ended && v <= q.ended[d].end;
    assert d in q'.ended;
  }

  /** Moving one event that has not ended. */
  lemma OneRaised(q: Queue, q': Queue, ts: nat, id: EventId, v: nat)
    requires !Emitted(q, ts, id) && Sound(q) && id in q.arrival && OneMoved(q, q', id) && q'.ended == q.ended
    requires TimeOf(q', id) == Max(TimeOf(q, id), v)
    requires v <= TimeOf(q, id) ==> q' == q.(pending := q'.pending)
    ensures Raised(q, q', ts, id, v)
  {
    hide RevOk, OrderOk, PlaceOk, Moved, TimeOf, SameRecord, IdsOk, Backed, Backs, Emitted;
    forall x | x in q.arrival ensures Moved(q, q', x) && TimeOf(q, x) <= TimeOf(q', x)
        && (x != id ==> TimeOf(q', x) == TimeOf(q, x)) {
      if x != id { SameIsMoved(q, q', x); } else { MovedLater(q, q', x); }
    }
    forall x, d | TooEarly(q', x, d) ensures TooEarly(q, x, d) { KnownDeps(q, x, d); }
    if id in q.deps && Backs(q, id, v) {
      forall x | x in q.arrival && x in q.deps && Backed(q, x) ensures Backed(q', x) {
        if x != id || v <= TimeOf(q, id) { StaysBacked(q, q', x); } else { BecomesBacked(q, q', x, v); }
      }
    }
  }

  lemma MovedLater(q: Queue, q': Queue, x: EventId)
    requires SameGround(q, q') && Moved(q, q', x)
    ensures TimeOf(q, x) <= TimeOf(q', x)
  {
  }

  lemma KnownDeps(q: Queue, x: EventId, d: EventId)
    requires IdsOk(q) && OrderOk(q) && LateInOrder(q) && Hears(q, x, d)
    ensures x in q.arrival && d in q.arrival
  {
  }

  /*** Telling the dependents ***/

  /** From `q` on, the dependents of `id` other than those in `todo` have been told the time `v`. */
  ghost predicate Spread(q: Queue, q': Queue, ts: nat, id: EventId, v: nat, todo: set<EventId>) {
    && Respects(q, q', ts) && (forall x :: x in Listed(q.rev, id) - todo ==> !Emitted(q, ts, x))
    && SameGround(q, q') && (forall x :: x in q.arrival ==> Moved(q, q', x))
    && (id in q.ended ==> forall x :: x in q.arrival && Rank(q.order, x) >= Rank(q.order, id) ==> SameRecord(q, q', x))
    && (forall x, d :: TooEarly(q', x, d) ==>
          if d == id then x in todo else TooEarly(q, x, d) && q'.ended[d] == q.ended[d])
    && (id in q.ended ==> forall x :: x in q.arrival && x in q.deps && Backed(q, x) ==> Backed(q', x))
    && ((forall x :: x in Listed(q.rev, id) ==> v <= TimeOf(q, x)) ==>
          q' == q.(pending := q'.pending) && forall x :: x in q.arrival ==> TimeOf(q', x) == TimeOf(q, x))
  }

  lemma MovedTwice(q: Queue, q1: Queue, q2: Queue, x: EventId)
    requires SameGround(q, q1) && SameGround(q1, q2) && Moved(q, q1, x) && Moved(q1, q2, x)
    ensures SameGround(q, q2) && Moved(q, q2, x)
  {
  }

  lemma SameTwice(q: Queue, q1: Queue, q2: Queue, x: EventId)
    requires SameRecord(q, q1, x) && SameRecord(q1, q2, x)
    ensures SameRecord(q, q2, x)
  {
  }

  lemma SameEnded(q: Queue, q': Queue, x: EventId)
    requires SameRecord(q, q', x) && x in q.ended
    ensures x in q'.ended && q'.ended[x] == q.ended[x]
  {
  }

  /** Those listed under an event depend on it. */
  lemma ListedDepends(q: Queue, id: EventId, e: EventId)
    requires Sound(q) && e in Listed(q.rev, id)
    ensures Hears(q, e, id) && e in q.arrival && id in q.arrival
    ensures id in q.ended ==> Rank(q.order, e) < Rank(q.order, id)
  {
    hide PlaceOk, OrderOk;
    KnownDeps(q, e, id);
    if id in q.ended { RankFalls(q, e, id); }
  }

  lemma SameAsItself(q: Queue, x: EventId)
    requires x in q.arrival && x in q.deps && x in q.acts
    ensures SameGround(q, q) && Moved(q, q, x) && SameRecord(q, q, x)
  {
  }

  lemma SpreadFirst(q: Queue, ts: nat, id: EventId, v: nat)
    requires Sound(q)
    ensures Spread(q, q, ts, id, v, Listed(q.rev, id))
  {
    hide Emitted, PlaceOk, OrderOk, SameRecord, Moved, TimeOf, Backed;
    forall x | x in q.arrival ensures Moved(q, q, x) && SameRecord(q, q, x) { SameAsItself(q, x); }
    forall x, d | TooEarly(q, x, d) && d == id ensures x in Listed(q.rev, id) {
      assert d in q.rev && x in q.rev[d];
    }
  }

  lemma SpreadNext(q: Queue, q1: Queue, q2: Queue, ts: nat, id: EventId, v: nat, todo: set<EventId>, e: EventId)
    requires Sound(q) && Spread(q, q1, ts, id, v, todo) && e in todo && todo <= Listed(q.rev, id)
    requires id in q.ended ==> q.ended[id].end == v
    requires Raised(q1, q2, ts, e, v)
    ensures Spread(q, q2, ts, id, v, todo - {e})
  {
    hide Sound, SameRecord, Moved, Backed, Backs, TimeOf, TooEarly, Emitted, Respects;
    ListedDepends(q, id, e);
    SpreadMoves(q, q1, q2, ts, id, v, todo, e);
    RespectsTwice(q, q1, q2, ts);
    forall x, d | TooEarly(q2, x, d)
      ensures d in q.ended && d in q2.ended && if d == id then x in todo - {e}
              else TooEarly(q, x, d) && q2.ended[d] == q.ended[d]
    {
      TooEarlyEnd(q2, x, d);
      if d == id {
        SameEnded(q, q2, id);
        assert x != e;
      }
    }
    if id in q.ended {
      assert Backs(q1, e, v) by { SameEnded(q, q1, id); BackedBy(q1, e, id, v); }
    }
    if forall x :: x in Listed(q.rev, id) ==> v <= TimeOf(q, x) {
      assert v <= TimeOf(q1, e);
    }
  }

  lemma BackedBy(q: Queue, e: EventId, d: EventId, v: nat)
    requires Hears(q, e, d) && d in q.ended && q.ended[d].end == v
    ensures Backs(q, e, v)
  {
  }

  lemma SpreadMoves(q: Queue, q1: Queue, q2: Queue, ts: nat, id: EventId, v: nat, todo: set<EventId>, e: EventId)
    requires Sound(q) && Spread(q, q1, ts, id, v, todo) && e in todo && todo <= Listed(q.rev, id)
    requires Raised(q1, q2, ts, e, v)
    ensures SameGround(q, q2) && forall x :: x in q.arrival ==> Moved(q, q2, x)
    ensures id in q.ended ==>
              id in q.arrival && forall x :: x in q.arrival && Rank(q.order, x) >= Rank(q.order, id) ==>
                  SameRecord(q, q2, x)
  {
    hide Sound, SameRecord, Moved, Backed, Backs, TimeOf, TooEarly, Emitted, Respects;
    ListedDepends(q, id, e);
    forall x | x in q.arrival ensures Moved(q, q2, x) { MovedTwice(q, q1, q2, x); }
    assert SameGround(q, q2);
    if id in q.ended {
      forall x | x in q.arrival && Rank(q.order, x) >= Rank(q.order, id)
          ensures SameRecord(q, q2, x) { SameTwice(q, q1, q2, x); }
    }
  }

  lemma TooEarlyEnd(q: Queue, x: EventId, d: EventId)
    requires TooEarly(q, x, d)
    ensures d in q.ended && TimeOf(q, x) < q.ended[d].end
  {
  }

  /** Moving an ended event as a whole, with its dependents told. */
  lemma EndedRaised(q: Queue, q1: Queue, q2: Queue, ts: nat, id: EventId, v: nat)
    requires Sound(q) && id in q.ended && q.ended[id].start < v && id in q.arrival && !Emitted(q, ts, id)
    requires q1 == q.(ended := q.ended[id := Span(v, q.ended[id].end + (v - q.ended[id].start))])
    requires Spread(q1, q2, ts, id, q1.ended[id].end, {})
    ensures Raised(q, q2, ts, id, v)
  {
    hide PlaceOk, OrderOk, IdsOk, RevOk, SameRecord, Moved, Backed, Backs, TimeOf, TooEarly, Emitted, Respects;
    OneShift(q, q1, id, v);
    ShiftRespects(q, q1, q2, ts, id, v);
    forall x | x in q.arrival ensures Moved(q, q2, x) { MovedTwice(q, q1, q2, x); }
    forall x | x in q.arrival && x != id && Rank(q.order, x) >= Rank(q.order, id) ensures SameRecord(q, q2, x) {
      SameTwice(q, q1, q2, x);
    }
    SameIsMoved(q1, q2, id);
    forall x, d | TooEarly(q2, x, d) ensures d in q.ended && d in q2.ended && TooEarly(q, x, d)
        && q2.ended[d] == q.ended[d] {
      TooEarlyEnd(q2, x, d);
      assert d != id && TooEarly(q1, x, d);
      TooEarlyBefore(q, q1, x, d);
    }
    if id in q.deps && Backs(q, id, v) {
      forall x | x in q.arrival && x in q.deps && Backed(q, x) ensures Backed(q2, x) {
        if x == id { BecomesBacked(q, q1, x, v); } else { StaysBacked(q, q1, x); }
        assert Backed(q1, x);
      }
    }
  }

  lemma ShiftRespects(q: Queue, q1: Queue, q2: Queue, ts: nat, id: EventId, v: nat)
    requires Sound(q) && id in q.ended && id in q.arrival && !Emitted(q, ts, id)
    requires id in q1.ended && q1 == q.(ended := q.ended[id := q1.ended[id]])
    requires forall x :: x in q.arrival && x != id ==> TimeOf(q1, x) == TimeOf(q, x)
    requires Respects(q1, q2, ts) && SameGround(q, q2)
    requires forall x :: x in Listed(q1.rev, id) - {} ==> !Emitted(q1, ts, x)
    ensures Respects(q, q2, ts)
  {
    hide PlaceOk, OrderOk, IdsOk, TimeOf;
    forall x ensures Emitted(q1, ts, x) <==> Emitted(q, ts, x) { SameFlow(q, q1, ts, x); }
    hide Emitted;
    forall x, d | Hears(q, x, d) && d in q.ended && d in q2.ended && q2.ended[d] != q.ended[d]
      ensures !Emitted(q, ts, x)
    {
      SameHearing(q, q1, x, d);
      if d == id { assert x in Listed(q1.rev, id) - {}; }
    }
  }

  lemma SameFlow(q: Queue, q1: Queue, ts: nat, x: EventId)
    requires q1 == q.(ended := q1.ended)
    ensures Emitted(q1, ts, x) <==> Emitted(q, ts, x)
  {
  }

  lemma OneShift(q: Queue, q1: Queue, id: EventId, v: nat)
    requires Sound(q) && id in q.ended && q.ended[id].start < v && id in q.arrival
    requires q1 == q.(ended := q.ended[id := Span(v, q.ended[id].end + (v - q.ended[id].start))])
    ensures SameGround(q, q1) && (forall x :: x in q.arrival ==> Moved(q, q1, x))
    ensures TimeOf(q, id) < v == TimeOf(q1, id)
    ensures forall x :: x in q.arrival && x != id ==> SameRecord(q, q1, x) && TimeOf(q1, x) == TimeOf(q, x)
  {
    hide OrderOk, RevOk, PlaceOk, SameRecord, Moved, TimeOf;
    assert SameGround(q, q1);
    assert Moved(q, q1, id) && TimeOf(q, id) < v == TimeOf(q1, id) by { ShiftSelf(q, q1, id, v); }
    forall x | x in q.arrival && x != id ensures SameRecord(q, q1, x) && Moved(q, q1, x)
        && TimeOf(q1, x) == TimeOf(q, x) {
      ShiftOthers(q, q1, id, x);
    }
  }

  lemma ShiftSelf(q: Queue, q1: Queue, id: EventId, v: nat)
    requires PlaceOk(q, id) && id in q.ended && q.ended[id].start < v
    requires q1 == q.(ended := q.ended[id := Span(v, q.ended[id].end + (v - q.ended[id].start))]) && SameGround(q, q1)
    ensures Moved(q, q1, id) && TimeOf(q, id) < v == TimeOf(q1, id)
  {
  }

  lemma ShiftOthers(q: Queue, q1: Queue, id: EventId, x: EventId)
    requires x in q.arrival && x in q.deps && x in q.acts && x != id && id in q.ended
    requires id in q1.ended && q1 == q.(ended := q.ended[id := q1.ended[id]]) && SameGround(q, q1)
    ensures SameRecord(q, q1, x) && Moved(q, q1, x) && TimeOf(q1, x) == TimeOf(q, x)
  {
  }

  lemma TooEarlyBefore(q: Queue, q1: Queue, x: EventId, d: EventId)
    requires Sound(q) && SameGround(q, q1) && TooEarly(q1, x, d) && d in q.ended && q1.ended[d] == q.ended[d]
    requires forall y :: y in q.arrival ==> Moved(q, q1, y)
    ensures TooEarly(q, x, d)
  {
    hide PlaceOk, OrderOk, RevOk, Moved, TimeOf;
    KnownDeps(q, x, d);
    MovedLater(q, q1, x);
  }

  /*** The branches of `change_start_time_notless` ***/

  lemma OnlyThis(q: Queue, q': Queue, id: EventId)
    requires IdsOk(q) && SameGround(q, q')
    requires forall x :: x in q.pending && x != id ==> q'.pending[x] == q.pending[x]
    requires forall x :: x in q.heap && x.id != id ==> q'.heap[x] == q.heap[x]
    requires forall x :: x in q.started && x != id ==> q'.started[x] == q.started[x]
    requires forall x :: x in q.ended && x != id ==> q'.ended[x] == q.ended[x]
    ensures forall x :: x in q.arrival && x != id ==> SameRecord(q, q', x)
  {
    forall x | x in q.arrival && x != id ensures SameRecord(q, q', x) {
      assert Start(x).id == End(x).id == Point(x).id == x;
    }
  }

  lemma OnlyOnePlace(q: Queue, id: EventId)
    requires Sound(q) && id in q.arrival
    ensures IdsOk(q) && PlaceOk(q, id)
  {
    hide IdsOk, RevOk, OrderOk, PlaceOk;
  }

  lemma PendingRaised(q: Queue, q': Queue, ts: nat, id: EventId, v: nat)
    requires Sound(q) && id in q.arrival && id in q.pending
    requires q' == q.(pending := q.pending[id := q.pending[id].(depEndTime := Max(q.pending[id].depEndTime, v))])
    ensures Raised(q, q', ts, id, v)
  {
    hide Sound, Raised, SameRecord;
    OnlyOnePlace(q, id);
    OnlyThis(q, q', id);
    OneRaised(q, q', ts, id, v);
  }

  lemma QueuedRaised(q: Queue, q': Queue, ts: nat, x: Event, v: nat)
    requires !Emitted(q, ts, x.id) && Sound(q) && x.id in q.arrival && x in q.heap && !x.End?
    requires q' == q.(heap := q.heap[x := q.heap[x].(time := Max(q.heap[x].time, v))])
    ensures Raised(q, q', ts, x.id, v)
  {
    hide Sound, Raised, SameRecord;
    OnlyOnePlace(q, x.id);
    OnlyThis(q, q', x.id);
    assert v <= TimeOf(q, x.id) ==> q'.heap == q.heap;
    OneRaised(q, q', ts, x.id, v);
  }

  lemma StartedRaised(q: Queue, q': Queue, ts: nat, id: EventId, v: nat)
    requires !Emitted(q, ts, id) && Sound(q) && id in q.arrival
    requires id in q.started && (q.started[id] < v ==> End(id) in q.heap)
    requires q' == if q.started[id] < v then
               q.(started := q.started[id := v],
                  heap := q.heap[End(id) := q.heap[End(id)].(time := q.heap[End(id)].time + (v - q.started[id]))])
             else q
    ensures Raised(q, q', ts, id, v)
  {
    hide Sound, Raised, SameRecord;
    OnlyOnePlace(q, id);
    OnlyThis(q, q', id);
    OneRaised(q, q', ts, id, v);
  }

  lemma NothingRaised(q: Queue, ts: nat, id: EventId, v: nat)
    requires !Emitted(q, ts, id) && Sound(q) && id in q.arrival && id in q.ended && v <= q.ended[id].start
    ensures Raised(q, q, ts, id, v)
  {
    hide Sound, Raised, SameRecord;
    OnlyOnePlace(q, id);
    OnlyThis(q, q, id);
    OneRaised(q, q, ts, id, v);
  }

  lemma ShiftedSound(q: Queue, q1: Queue, id: EventId, v: nat)
    requires Sound(q) && id in q.ended && id in q.arrival && id in q1.ended
             && q1 == q.(ended := q.ended[id := q1.ended[id]])
    ensures Sound(q1) && forall e :: e in Listed(q.rev, id) ==> Rank(q.order, e) < Rank(q.order, id)
  {
    hide Sound;
    SoundStays(q, q1);
    forall e | e in Listed(q.rev, id) ensures Rank(q.order, e) < Rank(q.order, id) { ListedDepends(q, id, e); }
  }

  lemma SpreadSound(q: Queue, q': Queue, ts: nat, id: EventId, v: nat, todo: set<EventId>)
    requires Sound(q) && Spread(q, q', ts, id, v, todo)
    ensures Sound(q') && q'.rev == q.rev && q'.arrival == q.arrival && q'.order == q.order
  {
    hide Sound, Moved, SameRecord, TooEarly, Backed, TimeOf, Respects, Emitted;
    SoundStays(q, q');
  }

  lemma {:induction false} RankBound(order: seq<EventId>, e: EventId)
    ensures Rank(order, e) <= |order|
  {
    if order != [] { RankBound(order[1..], e); }
  }

  /*** The result ***/

  /** Every event but `id` as the invariant has it; `id` ends at `v`, its start untouched. */
  ghost predicate EndMoved(q: Queue, id: EventId, v: nat) {
    && IdsOk(q) && RevOk(q) && OrderOk(q) && HeapOk(q) && NoLongerWaiting(q) == {}
    && id in q.ended && q.ended[id].end == v
    && (forall x :: x in q.arrival && x != id ==> EventOk(q, x))
    && (id in q.arrival ==> PlaceOk(q, id) && WaitsOk(q, id) && RecordOk(q, id) && Earliest(q, id, TimeOf(q, id)))
  }

  /** Where each event stood in the invariant, less its end. */
  ghost predicate StandsOk(q: Queue, x: EventId)
    requires x in q.arrival && x in q.deps && x in q.acts
  {
    PlaceOk(q, x) && WaitsOk(q, x) && RecordOk(q, x) && Earliest(q, x, TimeOf(q, x))
  }

  /** The end of `id` set to `v`, and nothing else. */
  function EndSetTo(q: Queue, id: EventId, v: nat): Queue
    requires id in q.ended
  {
    q.(ended := q.ended[id := Span(q.ended[id].start, v)])
  }

  lemma OkIsSound(q: Queue)
    requires Ok(q) && LateInOrder(q)
    ensures Sound(q)
  {
    hide RevOk, OrderOk, HeapOk, EventOk;
    forall e | e in q.arrival ensures PlaceOk(q, e) { AlmostOkAt(q, e); OkStands(q, e); }
  }

  /** Under the invariant nothing is too early, and everything has its reason. */
  lemma OkStands(q: Queue, e: EventId)
    requires e in q.arrival && e in q.deps && e in q.acts && EventOk(q, e)
    ensures PlaceOk(q, e) && StandsOk(q, e) && Backed(q, e) && forall d: EventId :: TooEarly(q, e, d) ==>
            (e, d) in q.ignored
  {
    if TimeOf(q, e) != q.arrival[e] {
      var d :| d in q.deps[e] && d in q.ended && q.ended[d].end == TimeOf(q, e);
      assert Hears(q, e, d);
    }
  }

  /** An event that is running or a point still queued has not ended. */
  lemma NotTwice(q: Queue, id: EventId)
    requires Ok(q) && id < q.counter
    ensures id in q.arrival && !(End(id) in q.heap && Point(id) in q.heap)
    ensures End(id) in q.heap || Point(id) in q.heap ==> id !in q.ended
  {
    hide RevOk, OrderOk, HeapOk, EventOk;
    AlmostOkAt(q, id);
    assert PlaceOk(q, id) && RecordOk(q, id) by { OkStands(q, id); }
  }

  lemma EndSetSound(q: Queue, q1: Queue, id: EventId, v: nat)
    requires Sound(q) && id in q.ended && q1 == q.(ended := q.ended[id := Span(q.ended[id].start, v)])
    ensures Sound(q1) && q1 == EndSetTo(q, id, v)
  {
    hide Sound;
    SoundStays(q, q1);
  }

  /** After the move, an event that is not too early and has its reason is where it should be. */
  lemma MovedStands(q: Queue, q': Queue, x: EventId)
    requires x in q.arrival && x in q.deps && x in q.acts && SameGround(q, q') && Moved(q, q', x)
    requires PlaceOk(q, x) && WaitsOk(q, x) && RecordOk(q, x) && q.arrival[x] <= TimeOf(q, x)
    requires Backed(q', x) && (forall d :: !TooEarly(q', x, d)) && q.ignored == {}
    ensures StandsOk(q', x)
  {
    assert Outstanding(q', x) == Outstanding(q, x);
    assert PlaceOk(q', x) && WaitsOk(q', x) && RecordOk(q', x);
    forall d | d in q'.deps[x] && d in q'.ended ensures q'.ended[d].end <= TimeOf(q', x) {
      assert Hears(q', x, d) && !TooEarly(q', x, d);
    }
  }

  lemma MovedEndsOk(q: Queue, q': Queue, x: EventId)
    requires x in q.arrival && x in q.deps && x in q.acts && EventOk(q, x) && SameGround(q, q') && Moved(q, q', x)
    requires StandsOk(q', x)
    ensures EventOk(q', x)
  {
  }

  lemma MovedHeapOk(q: Queue, q': Queue)
    requires IdsOk(q) && HeapOk(q) && SameGround(q, q') && forall x :: x in q.arrival ==> Moved(q, q', x)
    ensures HeapOk(q')
  {
    hide RevOk, OrderOk, TimeOf;
    forall x | x in q.heap ensures q'.heap[x].count == q.heap[x].count {
      assert Moved(q, q', x.id);
      match x { case Start(_) => case End(_) => case Point(_) => }
    }
  }

  lemma MovedWaiting(q: Queue, q': Queue)
    requires SameGround(q, q') && q.pending.Keys <= q.arrival.Keys && forall x :: x in q.arrival ==> Moved(q, q', x)
    ensures NoLongerWaiting(q') == NoLongerWaiting(q)
  {
    hide TimeOf;
    forall e | e in q.pending ensures q'.pending[e].dependencies == q.pending[e].dependencies {
      assert Moved(q, q', e);
    }
  }

  /** Setting the end of `id`, before anyone is told. */
  lemma EndSet(q: Queue, q1: Queue, id: EventId, v: nat, x: EventId)
    requires Ok(q) && id in q.ended && q1 == EndSetTo(q, id, v) && q.ended[id].end <= v && x in q.arrival
    requires q.ignored == {}
    ensures SameGround(q, q1) && x in q.deps && x in q.acts && TimeOf(q1, x) == TimeOf(q, x)
    ensures Backed(q1, x) && PlaceOk(q1, x) && WaitsOk(q1, x) && RecordOk(q1, x) && q1.arrival[x] <= TimeOf(q1, x)
    ensures forall d :: TooEarly(q1, x, d) ==> d == id
    ensures x != id ==> Moved(q, q1, x) && Moved(q1, q, x)
  {
    hide OrderOk, RevOk, HeapOk, EventOk;
    AlmostOkAt(q, x);
    OkStands(q, x);
    StaysBacked(q, q1, x);
    assert Outstanding(q1, x) == Outstanding(q, x);
    forall d: EventId | TooEarly(q1, x, d) ensures d == id { assert (x, d) !in q.ignored; }
  }

  lemma IdSame(q1: Queue, q2: Queue, ts: nat, id: EventId, v: nat)
    requires Spread(q1, q2, ts, id, v, {}) && id in q1.ended && id in q1.arrival
    ensures id in q2.ended && q2.ended[id] == q1.ended[id]
  {
    hide Moved, TooEarly, Backed, TimeOf, Respects, Emitted;
    assert SameRecord(q1, q2, id);
  }

  lemma OneStands(q: Queue, q1: Queue, q2: Queue, ts: nat, id: EventId, v: nat, x: EventId)
    requires Ok(q) && id in q.ended && q1 == EndSetTo(q, id, v) && q.ended[id].end <= v && x in q.arrival
    requires Spread(q1, q2, ts, id, v, {}) && q.ignored == {}
    ensures x in q2.deps && x in q2.acts && StandsOk(q2, x) && (x != id ==> EventOk(q2, x))
  {
    hide EventOk, StandsOk, Moved, TooEarly, Backed, TimeOf, SameRecord, PlaceOk, WaitsOk, RecordOk, IdsOk, RevOk,
        OrderOk, HeapOk, Respects, Emitted;
    EndSet(q, q1, id, v, x);
    assert forall d :: !TooEarly(q2, x, d);
    MovedStands(q1, q2, x);
    if x != id {
      AlmostOkAt(q, x);
      MovedTwice(q, q1, q2, x);
      MovedEndsOk(q, q2, x);
    }
  }

  lemma LengthStays(q: Queue, q': Queue, x: EventId)
    requires SameGround(q, q') && Moved(q, q', x) && x in q.ended
    ensures q'.ended[x].end - q'.ended[x].start == q.ended[x].end - q.ended[x].start
  {
  }

  lemma LongerOk(q: Queue, q': Queue, id: EventId)
    requires id in q.arrival && id in q.deps && id in q.acts && EventOk(q, id)
    requires q'.arrival == q.arrival && q'.deps == q.deps && q'.acts == q.acts && StandsOk(q', id)
    requires q.acts[id] == Some(Communication)
    requires id in q.ended && id in q'.ended && q'.ended[id].start == q.ended[id].start
             && q.ended[id].end <= q'.ended[id].end
    ensures EventOk(q', id)
  {
  }

  /** Setting a later end and telling all dependents leaves everything as the invariant wants it,
      but for the length of `id` itself, whose start is untouched. */
  lemma EndMovedOk(q: Queue, q1: Queue, q2: Queue, ts: nat, id: EventId, v: nat)
    requires Ok(q) && q.ignored == {} && id in q.ended && q.ended[id].end <= v
    requires q1 == EndSetTo(q, id, v) && Spread(q1, q2, ts, id, v, {})
    ensures EndMoved(q2, id, v) && q2.ended[id].start == q.ended[id].start
    ensures id in q.acts && q.acts[id] == Some(Communication) ==> Ok(q2)
  {
    hide OrderOk, RevOk, HeapOk, EventOk, Backed, TooEarly, Moved, SameRecord, PlaceOk, TimeOf, WaitsOk, RecordOk,
        Earliest, Rank, Respects, Emitted;
    EndMovedShape(q, q1, q2, ts, id, v);
    IdSame(q1, q2, ts, id, v);
    forall x | x in q.arrival ensures x in q2.deps && x in q2.acts && (x != id ==> EventOk(q2, x)) && StandsOk(q2, x) {
      OneStands(q, q1, q2, ts, id, v, x);
    }
    AlmostOkAt(q, id);
    if q.acts[id] == Some(Communication) {
      assert EventOk(q2, id) by { LongerOk(q, q2, id); }
    }
  }

  lemma EndMovedShape(q: Queue, q1: Queue, q2: Queue, ts: nat, id: EventId, v: nat)
    requires Ok(q) && q.ignored == {} && id in q.ended
    requires q1 == EndSetTo(q, id, v) && Spread(q1, q2, ts, id, v, {})
    ensures IdsOk(q2) && RevOk(q2) && OrderOk(q2) && HeapOk(q2) && NoLongerWaiting(q2) == {}
    ensures forall x :: x in q.ended && x != id ==>
              x in q2.ended && q2.ended[x].end - q2.ended[x].start == q.ended[x].end - q.ended[x].start
  {
    hide OrderOk, RevOk, HeapOk, EventOk, Backed, TooEarly, Moved, SameRecord, PlaceOk, TimeOf, Rank, Respects, Emitted;
    OkIsSound(q);
    SoundStays(q, q1);
    SoundStays(q1, q2);
    MovedHeapOk(q1, q2) by { SameHeapOk(q, q1); }
    MovedWaiting(q1, q2);
    forall x | x in q.ended && x != id
      ensures x in q2.ended && q2.ended[x].end - q2.ended[x].start == q.ended[x].end - q.ended[x].start
    {
      LengthStays(q1, q2, x);
    }
  }

  /** Pending dependents of an event that has not ended, told a time nevertheless. */
  ghost function Told(q: Queue, id: EventId, v: nat): Queue {
    q.(pending := map e | e in q.pending ::
         if e in Listed(q.rev, id) then q.pending[e].(depEndTime := Max(q.pending[e].depEndTime, v)) else q.pending[e])
  }

  /** The effect of `add_end_time_to(id, v)`, the network's clock at `ts`. */
  ghost predicate EndTimeMoved(q: Queue, q': Queue, ts: nat, id: EventId, v: nat) {
    if End(id) in q.heap then q' == q.(heap := q.heap[End(id) := q.heap[End(id)].(time := v)])
    else if Point(id) in q.heap then q' == q.(heap := q.heap[Point(id) := q.heap[Point(id)].(time := v)])
    else if id !in q.ended then q' == Told(q, id, v)
    else
      && Spread(EndSetTo(q, id, v), q', ts, id, v, {})
      && (q.ended[id].end <= v && q.ignored == {} ==>
            && EndMoved(q', id, v) && q'.ended[id].start == q.ended[id].start
            && (forall x :: x in q.ended && x != id ==>
                  x in q'.ended && q'.ended[x].end - q'.ended[x].start == q.ended[x].end - q.ended[x].start)
            && (id in q.acts && q.acts[id] == Some(Communication) ==> Ok(q')))
  }

  lemma EndTimeMovedIs(q: Queue, q': Queue, ts: nat, id: EventId, v: nat)
    requires Ok(q) && End(id) !in q.heap && Point(id) !in q.heap
    requires if id in q.ended then Spread(EndSetTo(q, id, v), q', ts, id, v, {}) else q' == Told(q, id, v)
    ensures EndTimeMoved(q, q', ts, id, v)
  {
    hide Ok, Spread, EndMoved, EndSetTo, Told;
    if id in q.ended && q.ended[id].end <= v && q.ignored == {} {
      EndMovedOk(q, EndSetTo(q, id, v), q', ts, id, v);
      EndMovedShape(q, EndSetTo(q, id, v), q', ts, id, v);
    }
  }

  /*** Flows that are in the way ***/

  /** Where the program's assertion fails when event `e` is told the time `v`: its flow has been emitted, or it is
      held back but `e` has started, earlier, and the entry to be moved with it is not there. */
  ghost predicate Stops(q: Queue, ts: nat, e: EventId, v: int, why: Shift) {
    match why
    case Carried => false
    case FlowEmitted => Emitted(q, ts, e)
    case EndUnreported => !Emitted(q, ts, e) && e in q.started && End(e) !in q.heap && q.started[e] < v
  }

  /** Event `e` has ended and carries no flow, and the time `v` is later than its start: it is moved as a whole. */
  ghost predicate PassesOn(q: Queue, e: EventId, v: int) {
    e in q.ended && !(e in q.acts && q.acts[e] == Some(Communication)) && q.ended[e].start < v
  }

  /** Along the chain `p`, each event depending on the one before and all but the last passing it on, the time
      `v` arrives, all durations added, at an event that stops it. */
  ghost predicate Hits(q: Queue, ts: nat, p: seq<EventId>, v: int, why: Shift)
    decreases |p|
  {
    && p != []
    && if |p| == 1 then Stops(q, ts, p[0], v, why)
       else
         && PassesOn(q, p[0], v) && Hears(q, p[1], p[0])
         && Hits(q, ts, p[1..], v + (q.ended[p[0]].end - q.ended[p[0]].start), why)
  }

  ghost predicate HitsFrom(q: Queue, ts: nat, e: EventId, v: int, why: Shift) {
    exists p :: p != [] && p[0] == e && Hits(q, ts, p, v, why)
  }

  /** The shift of `id`'s end to `v` runs into a flow that stops it. */
  ghost predicate Blocked(q: Queue, ts: nat, id: EventId, v: nat, why: Shift) {
    exists e :: e in Listed(q.rev, id) && HitsFrom(q, ts, e, v, why)
  }

  /** Whatever is hit after some events have moved was to be hit before. */
  lemma {:induction false} HitsBefore(q: Queue, q': Queue, ts: nat, p: seq<EventId>, v: int, why: Shift)
    requires Sound(q) && SameGround(q, q') && Hits(q', ts, p, v, why) && forall x :: x in q.arrival ==> Moved(q, q', x)
    ensures Hits(q, ts, p, v, why)
    decreases |p|
  {
    hide RevOk, OrderOk, PlaceOk, TimeOf, Moved, LateInOrder, Hears, Emitted;
    if |p| == 1 {
      assert p[0] in q.arrival by { StoppedKnown(q, q', ts, p[0], v, why); }
      EmittedBefore(q, q', ts, p[0]);
      EarlierStart(q, q', p[0]);
    } else {
      assert p[0] in q.arrival;
      EarlierStart(q, q', p[0]);
      HitsBefore(q, q', ts, p[1..], v + (q'.ended[p[0]].end - q'.ended[p[0]].start), why);
      assert Hears(q, p[1], p[0]) by { SameHearing(q, q', p[1], p[0]); }
    }
  }

  lemma StoppedKnown(q: Queue, q': Queue, ts: nat, e: EventId, v: int, why: Shift)
    requires IdsOk(q) && SameGround(q, q') && Stops(q', ts, e, v, why)
    ensures e in q.arrival
  {
  }

  lemma EarlierStart(q: Queue, q': Queue, x: EventId)
    requires SameGround(q, q') && PlaceOk(q, x) && Moved(q, q', x)
    ensures x in q.started && End(x) !in q.heap ==> q'.started[x] == q.started[x]
    ensures x in q.ended ==>
              && q.ended[x].start <= q'.ended[x].start
              && q'.ended[x].end - q'.ended[x].start == q.ended[x].end - q.ended[x].start
  {
  }

  lemma SameHearing(q: Queue, q': Queue, e: EventId, d: EventId)
    requires SameGround(q, q')
    ensures Hears(q', e, d) <==> Hears(q, e, d)
  {
  }

  lemma StopsHere(q: Queue, ts: nat, id: EventId, v: nat, why: Shift)
    requires Stops(q, ts, id, v, why)
    ensures HitsFrom(q, ts, id, v, why)
  {
    assert Hits(q, ts, [id], v, why);
  }

  /** A flow whose end has been reported is in the way of everything, whatever the clock and the time it is told. */
  lemma ReportedIsInTheWay(q: Queue, ts: nat, e: EventId, v: nat)
    requires Ok(q) && e in q.acts && q.acts[e] == Some(Communication) && (End(e) in q.heap || e in q.ended)
    ensures HitsFrom(q, ts, e, v, FlowEmitted)
  {
    hide RevOk, OrderOk, HeapOk, EventOk, HitsFrom;
    assert e in q.arrival;
    AlmostOkAt(q, e);
    assert PlaceOk(q, e) && RecordOk(q, e) by { OkStands(q, e); }
    StopsHere(q, ts, e, v, FlowEmitted);
  }

  /** Telling one dependent was stopped, after others had been told. */
  lemma SpreadHits(q: Queue, q1: Queue, ts: nat, id: EventId, v: nat, todo: set<EventId>, e: EventId, why: Shift)
    requires Sound(q) && Spread(q, q1, ts, id, v, todo) && HitsFrom(q1, ts, e, v, why)
    ensures HitsFrom(q, ts, e, v, why)
  {
    hide Sound, Moved, SameGround, HitsFrom, TooEarly, Backed, SameRecord, TimeOf, Respects, Emitted;
    HitsFromBefore(q, q1, ts, e, v, why);
  }

  lemma HitsFromBefore(q: Queue, q': Queue, ts: nat, e: EventId, v: int, why: Shift)
    requires Sound(q) && SameGround(q, q') && HitsFrom(q', ts, e, v, why)
    requires forall x :: x in q.arrival ==> Moved(q, q', x)
    ensures HitsFrom(q, ts, e, v, why)
  {
    hide Sound, Moved, SameGround, Hits;
    var p :| p != [] && p[0] == e && Hits(q', ts, p, v, why);
    HitsBefore(q, q', ts, p, v, why);
  }

  /** A dependent of an ended event that has been moved is hit: so was the ended event to be. */
  lemma HitsThrough(q: Queue, q1: Queue, ts: nat, id: EventId, v: nat, e: EventId, why: Shift)
    requires Sound(q) && PassesOn(q, id, v) && id in q.arrival && e in Listed(q.rev, id)
    requires q1 == q.(ended := q.ended[id := Span(v, q.ended[id].end + (v - q.ended[id].start))])
    requires HitsFrom(q1, ts, e, q1.ended[id].end, why)
    ensures HitsFrom(q, ts, id, v, why)
  {
    hide Moved, Hits, Sound;
    OneShift(q, q1, id, v);
    HitsFromBefore(q, q1, ts, e, q1.ended[id].end, why);
    var p :| p != [] && p[0] == e && Hits(q, ts, p, q1.ended[id].end, why);
    ListedDepends(q, id, e);
    HitsLonger(q, ts, id, p, v, q1.ended[id].end, why);
    assert ([id] + p)[0] == id;
  }

  lemma HitsLonger(q: Queue, ts: nat, id: EventId, p: seq<EventId>, v: int, w: int, why: Shift)
    requires PassesOn(q, id, v) && p != [] && Hears(q, p[0], id)
    requires Hits(q, ts, p, w, why) && w == v + (q.ended[id].end - q.ended[id].start)
    ensures Hits(q, ts, [id] + p, v, why)
  {
    assert ([id] + p)[1..] == p;
  }

  /** A chain that starts behind `id` never comes back to it, so the end of `id` plays no part. */
  lemma {:induction false} HitsApart(q: Queue, q1: Queue, ts: nat, id: EventId, p: seq<EventId>, v: int, why: Shift)
    requires Sound(q) && id in q.ended && id in q1.ended && q1 == q.(ended := q.ended[id := q1.ended[id]])
    requires p != [] && Rank(q.order, p[0]) < Rank(q.order, id)
    ensures Hits(q1, ts, p, v, why) <==> Hits(q, ts, p, v, why)
    decreases |p|
  {
    hide RevOk, OrderOk, PlaceOk, IdsOk, Emitted;
    SameFlow(q, q1, ts, p[0]);
    if |p| > 1 && p[0] in q.ended && Hears(q, p[1], p[0]) {
      assert p[0] != id;
      RankFalls(q, p[1], p[0]) by { assert OrderOk(q); }
      HitsApart(q, q1, ts, id, p[1..], v + (q.ended[p[0]].end - q.ended[p[0]].start), why);
    }
  }

  /** What the shift from `id` was stopped by. */
  lemma StoppedIsBlocked(q: Queue, q1: Queue, ts: nat, id: EventId, v: nat, e: EventId, why: Shift)
    requires Sound(q) && id in q.ended && q1 == EndSetTo(q, id, v) && e in Listed(q.rev, id)
    requires HitsFrom(q1, ts, e, v, why)
    ensures Blocked(q, ts, id, v, why)
  {
    hide Sound, Hits;
    var p :| p != [] && p[0] == e && Hits(q1, ts, p, v, why);
    ListedDepends(q, id, e);
    HitsApart(q, q1, ts, id, p, v, why);
  }

  /** If everything that `id` bears on has made way, nothing stood in the way. */
  lemma {:induction false} MadeWay(q: Queue, q': Queue, ts: nat, id: EventId, p: seq<EventId>, v: int, end: nat,
      why: Shift)
    requires Sound(q) && Spread(q, q', ts, id, end, {}) && p != [] && !Emitted(q, ts, p[0])
    requires Rank(q.order, p[0]) < Rank(q.order, id) && v <= TimeOf(q', p[0])
    ensures !Hits(q, ts, p, v, why)
    decreases |p|
  {
    hide RevOk, OrderOk, PlaceOk, Moved, TimeOf, TooEarly, IdsOk, Backed, SameRecord, Emitted;
    if Hits(q, ts, p, v, why) {
      MovedWhere(q, q', p[0]) by { assert IdsOk(q); }
      if |p| > 1 {
        RankFalls(q, p[1], p[0]) by { assert OrderOk(q); }
        NotTooEarly(q', p[1], p[0]);
        MadeWay(q, q', ts, id, p[1..], v + (q.ended[p[0]].end - q.ended[p[0]].start), end, why);
      }
    }
  }

  lemma MovedWhere(q: Queue, q': Queue, x: EventId)
    requires Sound(q) && SameGround(q, q') && (x in q.started || x in q.ended) && forall y :: y in q.arrival ==>
             Moved(q, q', y)
    ensures x in q.arrival
    ensures x in q.started && End(x) !in q.heap ==> TimeOf(q', x) == q.started[x]
    ensures x in q.ended ==>
              && TimeOf(q', x) == q'.ended[x].start
              && q'.ended[x].end - q'.ended[x].start == q.ended[x].end - q.ended[x].start
  {
    hide RevOk, OrderOk;
    assert x in q.arrival;
    assert Moved(q, q', x) && PlaceOk(q, x);
  }

  lemma NotTooEarly(q: Queue, x: EventId, d: EventId)
    requires !TooEarly(q, x, d) && Hears(q, x, d) && d in q.ended
    ensures q.ended[d].end <= TimeOf(q, x)
  {
  }

  /** The shift was not stopped: then nothing was in its way. */
  lemma MovedIsNotBlocked(q: Queue, q1: Queue, q2: Queue, ts: nat, id: EventId, v: nat, why: Shift)
    requires Ok(q) && LateInOrder(q) && id in q.ended && q1 == EndSetTo(q, id, v) && Spread(q1, q2, ts, id, v, {})
    ensures !Blocked(q, ts, id, v, why)
  {
    hide Ok, Sound, Spread, TooEarly, Moved, TimeOf, Hits, Emitted;
    OkIsSound(q);
    EndSetSound(q, q1, id, v);
    EndedHere(q, id);
    IdSame(q1, q2, ts, id, v);
    forall e, p | e in Listed(q.rev, id) && p != [] && p[0] == e ensures !Hits(q, ts, p, v, why) {
      ListedDepends(q, id, e);
      ToldInTime(q1, q2, ts, id, v, e);
      MadeWay(q1, q2, ts, id, p, v, v, why);
      HitsApart(q, q1, ts, id, p, v, why);
    }
  }

  lemma ToldInTime(q: Queue, q': Queue, ts: nat, id: EventId, v: nat, e: EventId)
    requires Spread(q, q', ts, id, v, {}) && id in q'.ended && q'.ended[id].end == v && Hears(q, e, id)
    requires e in Listed(q.rev, id)
    ensures v <= TimeOf(q', e) && !Emitted(q, ts, e)
  {
    hide Moved, TimeOf, Backed, SameRecord, Emitted, Respects;
    assert e in Listed(q.rev, id) - {};
    assert !TooEarly(q', e, id);
    NotTooEarly(q', e, id);
  }

  lemma EndedHere(q: Queue, id: EventId)
    requires Ok(q) && id in q.ended
    ensures id in q.arrival
  {
    hide OrderOk, RevOk, HeapOk, EventOk;
  }

  /** The dependents of an event that has not ended are pending, so nothing is in the way. */
  lemma UnendedIsNotBlocked(q: Queue, ts: nat, id: EventId, v: nat)
    requires Ok(q) && LateInOrder(q) && id !in q.ended
    ensures (forall why :: !Blocked(q, ts, id, v, why)) && forall e :: e in Listed(q.rev, id) ==> e in q.pending
  {
    hide EventOk, HeapOk, RevOk;
    OkIsSound(q);
    forall e | e in Listed(q.rev, id)
      ensures e in q.pending && forall p, why :: p != [] && p[0] == e ==> !Hits(q, ts, p, v, why)
    {
      ListedDepends(q, id, e);
      AlmostOkAt(q, e);
      WaitsPending(q, e, id);
    }
  }

  lemma WaitsPending(q: Queue, e: EventId, d: EventId)
    requires e in q.arrival && e in q.deps && e in q.acts && EventOk(q, e) && d in q.deps[e] && d !in q.ended
    ensures e in q.pending && e !in q.started && e !in q.ended
  {
    assert Some(d) in Outstanding(q, e);
  }

  lemma NoneTold(q: Queue, id: EventId, v: nat, todo: set<EventId>)
    requires todo == Listed(q.rev, id)
    ensures q == ToldBut(q, id, v, todo)
  {
  }

  /** All dependents told but those in `todo`. */
  ghost function ToldBut(q: Queue, id: EventId, v: nat, todo: set<EventId>): Queue {
    q.(pending := map e | e in q.pending ::
         if e in Listed(q.rev, id) && e !in todo then q.pending[e].(depEndTime := Max(q.pending[e].depEndTime, v))
             else q.pending[e])
  }

  lemma OneMoreTold(q: Queue, q1: Queue, id: EventId, v: nat, todo: set<EventId>, e: EventId)
    requires q1 == ToldBut(q, id, v, todo) && e in todo && e in Listed(q.rev, id) && e in q.pending
    ensures e in q1.pending && q1.(pending :=
            q1.pending[e := q1.pending[e].(depEndTime := Max(q1.pending[e].depEndTime, v))]) == ToldBut(q, id, v,
            todo - {e})
  {
  }

  lemma AllTold(q: Queue, id: EventId, v: nat)
    ensures ToldBut(q, id, v, {}) == Told(q, id, v)
  {
  }

  /** An end time set back moves nothing else, unless it is still later than an event that ignored it. */
  lemma SetBackMovesNothing(q: Queue, q': Queue, ts: nat, id: EventId, v: nat)
    requires Ok(q) && LateInOrder(q) && id in q.ended && v <= q.ended[id].end
    requires forall x: EventId :: (x, id) in q.ignored ==> v <= TimeOf(q, x)
    requires End(id) !in q.heap && Point(id) !in q.heap && EndTimeMoved(q, q', ts, id, v)
    ensures q'.heap == q.heap && q'.started == q.started && q'.ended == q.ended[id := Span(q.ended[id].start, v)]
    ensures forall x :: x in q.arrival ==> TimeOf(q', x) == TimeOf(q, x)
  {
    hide TimeOf, Moved, SameRecord, EventOk, RevOk, OrderOk, HeapOk, PlaceOk, Respects, Emitted;
    OkIsSound(q);
    forall x | x in Listed(q.rev, id) ensures v <= TimeOf(EndSetTo(q, id, v), x) {
      ListedDepends(q, id, x);
      AlmostOkAt(q, x);
      OkStands(q, x);
      assert (x, id) !in q.ignored ==> !TooEarly(q, x, id);
      SetBackTime(q, id, v, x);
    }
    forall x | x in q.arrival ensures TimeOf(q', x) == TimeOf(q, x) { SetBackTime(q, id, v, x); }
  }

  lemma SetBackTime(q: Queue, id: EventId, v: nat, x: EventId)
    requires id in q.ended
    ensures TimeOf(EndSetTo(q, id, v), x) == TimeOf(q, x)
  {
  }

  /*** From scratch ***/

  /** Two states of the same events and dependencies, in which the same ones have ended. */
  ghost predicate SameGraph(q: Queue, q': Queue) {
    && q.arrival == q'.arrival && q.deps == q'.deps && q.acts == q'.acts && q.ended.Keys == q'.ended.Keys
    && q.deps.Keys == q.arrival.Keys && q.acts.Keys == q.arrival.Keys
  }

  /** Communications take equally long in both. */
  ghost predicate SameLengths(q: Queue, q': Queue, id: EventId) {
    forall x :: x in q.ended && x in q'.ended && x != id && x in q.acts && q.acts[x] == Some(Communication) ==>
      q.ended[x].end - q.ended[x].start == q'.ended[x].end - q'.ended[x].start
  }

  lemma SameEarliest(q: Queue, q': Queue, e: EventId)
    requires e in q.arrival && e in q.deps && e in q.acts && SameGraph(q, q')
    requires Earliest(q, e, TimeOf(q, e)) && Earliest(q', e, TimeOf(q', e))
    requires forall d :: d in q.deps[e] && d in q.ended ==> q'.ended[d] == q.ended[d]
    ensures TimeOf(q', e) == TimeOf(q, e)
  {
    hide TimeOf;
  }

  lemma EndMovedAt(q: Queue, id: EventId, v: nat, e: EventId)
    requires EndMoved(q, id, v) && e in q.arrival
    ensures e in q.deps && e in q.acts && Earliest(q, e, TimeOf(q, e))
    ensures e in q.ended ==> e in q.order && q.ended[e].start == TimeOf(q, e)
    ensures e in q.ended && e != id ==> EndOk(q, e)
    ensures e in q.ended ==> forall i :: 0 <= i < |q.order| && q.order[i] == e ==> q.deps[e] <= Elements(q.order[..i])
  {
    hide HeapOk, RevOk;
    assert StandsOk(q, e);
  }

  ghost function Elements(s: seq<EventId>): set<EventId> {
    set e | e in s
  }

  /** Whatever state holds the same events, with `id` ending at `v` and all others as the invariant
      has them, has the same starts and ends: the moved schedule is the one computed from scratch. */
  lemma {:induction false} SameEnds(q: Queue, q': Queue, id: EventId, v: nat, at: nat)
    requires EndMoved(q, id, v) && EndMoved(q', id, v) && SameGraph(q, q') && SameLengths(q, q', id)
    requires at < |q.order|
    ensures q.order[at] in q.ended && q'.ended[q.order[at]] == q.ended[q.order[at]]
    decreases at
  {
    hide TimeOf, Earliest, EventOk, RevOk, HeapOk, IdsOk;
    var e := q.order[at];
    assert e in q.ended && e in q.arrival by { assert OrderOk(q); EndedKnown(q, id, v, e); }
    EndMovedAt(q, id, v, e);
    EndMovedAt(q', id, v, e);
    forall d | d in q.deps[e] ensures q'.ended[d] == q.ended[d] {
      assert d in Elements(q.order[..at]);
      var i :| 0 <= i < at && q.order[i] == d;
      SameEnds(q, q', id, v, i);
    }
    SameEarliest(q, q', e);
  }

  lemma EndedKnown(q: Queue, id: EventId, v: nat, e: EventId)
    requires EndMoved(q, id, v) && e in q.ended
    ensures e in q.arrival
  {
    hide EventOk, RevOk, HeapOk, OrderOk;
  }

  lemma MovedIsRecomputed(q: Queue, q': Queue, id: EventId, v: nat)
    requires EndMoved(q, id, v) && EndMoved(q', id, v) && SameGraph(q, q') && SameLengths(q, q', id)
    ensures q'.ended == q.ended
    ensures forall e :: e in q.arrival ==> TimeOf(q', e) == TimeOf(q, e)
  {
    hide TimeOf, Earliest, EventOk, RevOk, HeapOk, IdsOk;
    forall e | e in q.ended ensures q'.ended[e] == q.ended[e] {
      EndedKnown(q, id, v, e);
      EndMovedAt(q, id, v, e);
      var at :| 0 <= at < |q.order| && q.order[at] == e;
      SameEnds(q, q', id, v, at);
    }
    forall e | e in q.arrival ensures TimeOf(q', e) == TimeOf(q, e) {
      EndMovedAt(q, id, v, e);
      EndMovedAt(q', id, v, e);
      SameEarliest(q, q', e);
    }
  }
}
