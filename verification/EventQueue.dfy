/** The dependency event queue. */
module EventQueue {
  import opened EventState
  import opened EventPropagation
  import opened EventSteps
  import opened Options

  datatype QueueStep =
    | EmptyQueue
    | EventStarted(id: EventId, time: nat)
    | EventEnded(id: EventId, time: nat)
    | ReachedPoint(id: EventId, time: nat)

  /** The pending map after the dependents in `seen` have learned of the end of `d`. */
  ghost function NotifiedIn(pending: map<EventId, Pending>, seen: set<EventId>, d: EventId, end: nat):
    map<EventId, Pending>
  {
    map e | e in pending :: if e in seen then Notified(pending[e], d, end) else pending[e]
  }

  lemma NotifiedNone(pending: map<EventId, Pending>, d: EventId, end: nat)
    ensures NotifiedIn(pending, {}, d, end) == pending
  {
  }

  lemma NotifiedNext(pending: map<EventId, Pending>, seen: set<EventId>, d: EventId, end: nat, e: EventId)
    requires e !in seen
    ensures NotifiedIn(pending, seen + {e}, d, end) ==
            if e in pending then NotifiedIn(pending, seen, d, end)[e := Notified(pending[e], d, end)]
            else NotifiedIn(pending, seen, d, end)
    ensures e in pending <==> e in NotifiedIn(pending, seen, d, end)
    ensures e in pending ==> NotifiedIn(pending, seen, d, end)[e] == pending[e]
  {
    hide Notified;
  }

  /** The state after adding an event, field by field. */
  lemma AddedIs(q: Queue, q': Queue, dependsOn: seq<Option<EventId>>, action: Option<Action>, now: nat, arrive: nat)
    requires Ok(q) && forall i :: 0 <= i < |dependsOn| && dependsOn[i].Some? ==> dependsOn[i].value < q.counter
    requires LatestEnd(q.ended, DepIds(dependsOn), now, arrive)
    requires q'.counter == q.counter + 1 && q'.rev == ListedWith(q.rev, DepIds(dependsOn), q.counter)
    requires q'.arrival == q.arrival[q.counter := now] && q'.deps == q.deps[q.counter := DepIds(dependsOn)]
    requires q'.acts == q.acts[q.counter := action]
    requires q'.held == if None in dependsOn then q.held + {q.counter} else q.held
    requires q'.started == q.started && q'.ended == q.ended && q'.order == q.order && q'.ignored == q.ignored
    requires if Live(q.ended, dependsOn) == {} then
               && q'.pending == q.pending && q'.waiting == Await(q.waiting, q.counter, action)
               && q'.heap == q.heap[Entry(q.counter, action) := Prio(arrive, q.pushes)] && q'.pushes == q.pushes + 1
             else
               && q'.pending == q.pending[q.counter := Pending(Live(q.ended, dependsOn), arrive, 0, action)]
               && q'.waiting == q.waiting && q'.heap == q.heap && q'.pushes == q.pushes
    ensures q' == Added(q, DepIds(dependsOn), None in dependsOn, action, now, arrive) && Ok(q')
  {
    hide Ok, Live, DepIds, LatestEnd, ListedWith, Unmet, Await, Entry;
    LiveOutstanding(q.ended, dependsOn);
    AllocatedIds(q, dependsOn);
    AddedOk(q, DepIds(dependsOn), None in dependsOn, action, now, arrive);
  }

  /** What an event is added with is recorded as it was said. */
  lemma AskedFor(q: Queue, dependsOn: seq<Option<EventId>>, action: Option<Action>, now: nat, arrive: nat)
    ensures var q', e := Added(q, DepIds(dependsOn), None in dependsOn, action, now, arrive), q.counter;
            && q'.deps == q.deps[e := q'.deps[e]] && (forall d :: d in q'.deps[e] <==> Some(d) in dependsOn)
            && q'.arrival == q.arrival[e := now] && q'.acts == q.acts[e := action]
            && q'.held == if None in dependsOn then q.held + {e} else q.held
  {
    forall d | Some(d) in dependsOn ensures d in DepIds(dependsOn) {
      var i :| 0 <= i < |dependsOn| && dependsOn[i] == Some(d);
      assert dependsOn[i].Some? && dependsOn[i].value == d;
    }
  }

  /** Every pending event that waits for `d` is listed under it. */
  lemma ListedUnder(q: Queue, d: EventId)
    requires Ok(q) && d !in q.ended
    ensures forall e :: e in q.pending && Some(d) in q.pending[e].dependencies ==> e in Listed(q.rev, d)
    ensures forall e :: e in q.pending ==> q.pending[e].dependencies != {}
  {
    hide EventOk, HeapOk, OrderOk;
    forall e | e in q.pending && Some(d) in q.pending[e].dependencies ensures e in Listed(q.rev, d) {
      AlmostOkAt(q, e);
      DependsOn(q, e, d);
    }
    forall e | e in q.pending ensures q.pending[e].dependencies != {} {
      assert e !in NoLongerWaiting(q);
    }
  }

  lemma DependsOn(q: Queue, e: EventId, d: EventId)
    requires e in q.arrival && e in q.deps && e in q.acts && EventOk(q, e) && e in q.pending
    requires Some(d) in q.pending[e].dependencies
    ensures d in q.deps[e]
  {
  }

  /** `ready` lists, once each, the pending events with nothing left to wait for. */
  ghost predicate Lists(ready: seq<EventId>, pending: map<EventId, Pending>) {
    && (forall i, j :: 0 <= i < j < |ready| ==> ready[i] != ready[j])
    && forall e: EventId :: e in ready <==> e in pending && pending[e].dependencies == {}
  }

  lemma ListsNext(ready: seq<EventId>, pending: map<EventId, Pending>, e: EventId, p: Pending)
    requires Lists(ready, pending) && e in pending && pending[e].dependencies != {}
    ensures Lists(if p.dependencies == {} then ready + [e] else ready, pending[e := p])
  {
    assert e !in ready;
  }

  lemma ListsReady(q: Queue, ready: seq<EventId>)
    requires Lists(ready, q.pending)
    ensures forall i, j :: 0 <= i < j < |ready| ==> ready[i] != ready[j]
    ensures forall e: EventId :: e in ready <==> e in NoLongerWaiting(q)
  {
  }

  lemma KnownIds(q: Queue, e: EventId, dep: Option<EventId>)
    requires Ok(q) && e < q.counter && (dep.Some? ==> dep.value < q.counter)
    ensures e in q.deps && (dep.Some? ==> dep.value in q.arrival)
  {
    hide EventOk, RevOk, OrderOk, HeapOk;
  }

  lemma IgnoredIs(q: Queue, q': Queue, e: EventId, d: EventId)
    requires Ok(q) && e in q.deps && d in q.arrival
    requires q' == q.(rev := q.rev[d := Listed(q.rev, d) + {e}], ignored := if d in q.deps[e] then q.ignored
             else q.ignored + {(e, d)})
    ensures q' == IgnoredDependency(q, e, d) && Ok(q')
  {
    hide Ok;
    IgnoredDependencyOk(q, e, d);
  }

  lemma DependencyIs(q: Queue, q': Queue, e: EventId, dep: Option<EventId>)
    requires Ok(q) && e in q.pending && e in q.deps && (dep.Some? ==> dep.value in q.arrival && dep.value !in q.ended)
    requires q'.pending == q.pending[e := q.pending[e].(dependencies := q.pending[e].dependencies + {dep})]
    requires q'.rev == if dep.Some? then q.rev[dep.value := Listed(q.rev, dep.value) + {e}] else q.rev
    requires q'.held == if dep.None? then q.held + {e} else q.held
    requires q'.deps == if dep.Some? then q.deps[e := q.deps[e] + {dep.value}] else q.deps
    requires q' == q.(pending := q'.pending, rev := q'.rev, held := q'.held, deps := q'.deps)
    ensures q' == AddedDependency(q, e, dep) && Ok(q')
  {
    hide Ok;
    AddedDependencyOk(q, e, dep);
  }

  /** The flow of `e` is due before the microsecond of the network's clock `ts`, so that the network rolls back. */
  ghost predicate Late(q: Queue, ts: nat, e: EventId) {
    && e in q.waiting && q.waiting[e] == Communication && Start(e) in q.heap
    && q.heap[Start(e)].time < ts / 1000
  }

  /** The network's clock stays at `ts`, unless one of the flows in `ready` is due in its past. */
  ghost predicate ClockAfter(ts: nat, ts': nat, q: Queue, ready: seq<EventId>) {
    ts' == ts || exists e :: e in ready && Late(q, ts, e)
  }

  lemma LateStays(q: Queue, e: EventId, ts: nat)
    requires e in q.pending
    ensures forall x :: Late(q, ts, x) && x != e ==> Late(Released(q, e), ts, x)
  {
  }

  lemma NoneYet(ts: nat, q: Queue)
    ensures ClockAfter(ts, ts, q, [])
  {
  }

  /** One more of the events in `ready` has become ready. */
  lemma ClockNext(q: Queue, q': Queue, ready: seq<EventId>, i: nat, ts: nat, ts1: nat, ts2: nat)
    requires i < |ready| && (forall j, k :: 0 <= j < k < |ready| ==> ready[j] != ready[k])
    requires ready[i] in q.pending && q' == Released(q, ready[i])
    requires ClockAfter(ts, ts1, q, ready[..i]) && (ts2 == ts1 || Late(q', ts1, ready[i]))
    ensures ClockAfter(ts, ts2, q', ready[..i + 1])
  {
    hide Late, Released;
    LateStays(q, ready[i], ts);
    assert ready[..i + 1] == ready[..i] + [ready[i]];
    if ts1 != ts {
      var e :| e in ready[..i] && Late(q, ts, e);
      assert e != ready[i];
    } else {
      assert ready[i] in ready[..i + 1];
    }
  }

  /** `flows` are the communications: each of them has its flow. */
  ghost predicate FlowsFit(flows: set<EventId>, acts: map<EventId, Option<Action>>) {
    forall e :: e in flows <==> e in acts && acts[e] == Some(Communication)
  }

  lemma FlowsGrow(flows: set<EventId>, acts: map<EventId, Option<Action>>, id: EventId, action: Option<Action>)
    requires FlowsFit(flows, acts) && id !in acts
    ensures FlowsFit(if action == Some(Communication) then flows + {id} else flows, acts[id := action])
  {
  }

  /** The network's clock runs up to the ends that it reports, and stands still if it has none. */
  predicate ClockFits(ts: nat, report: seq<FlowEnd>, clock: nat) {
    && ts <= clock && (report == [] ==> clock == ts)
    && forall i :: 0 <= i < |report| ==> report[i].time == clock / 1000
  }

  lemma FreshAction(q: Queue)
    requires Ok(q)
    ensures q.counter !in q.acts
  {
    hide EventOk, RevOk, OrderOk, HeapOk;
  }

  class EventQueue {
    /** The clock of the network, in nanoseconds. */
    var netTs: nat
    var eventCounter: nat
    /** The events that `event_to_flow` has a flow for. */
    var eventToFlow: set<EventId>
    var pending: map<EventId, Pending>
    var inQueueNotStarted: map<EventId, Action>
    var started: map<EventId, nat>
    var ended: map<EventId, Span>
    var revDependencies: map<EventId, set<EventId>>
    var eventQueue: map<Event, Prio>
    var queueCounter: nat

    ghost var arrival: map<EventId, nat>
    ghost var deps: map<EventId, set<EventId>>
    ghost var acts: map<EventId, Option<Action>>
    ghost var held: set<EventId>
    ghost var order: seq<EventId>
    ghost var ignored: set<(EventId, EventId)>

    ghost function View(): Queue
      reads this
    {
      Queue(eventCounter, pending, inQueueNotStarted, started, ended, revDependencies, eventQueue, queueCounter,
            arrival, deps, acts, held, order, ignored)
    }

    ghost predicate Valid()
      reads this
    {
      Ok(View()) && FlowsFit(eventToFlow, acts)
    }

    constructor ()
      ensures Valid() && netTs == 0
      ensures View() == Queue(0, map[], map[], map[], map[], map[], map[], 0, map[], map[], map[], {}, [], {})
    {
      netTs, eventCounter, eventToFlow := 0, 0, {};
      pending, inQueueNotStarted, started, ended := map[], map[], map[], map[];
      revDependencies, eventQueue, queueCounter := map[], map[], 0;
      arrival, deps, acts, held, order, ignored := map[], map[], map[], {}, [], {};
      new;
      EmptyOk();
    }

    /** `push_event` for an event that becomes ready.  A flow that is due in the network's past makes it roll back
        and then run again, to no time known here; any other leaves its clock alone. */
    method PushReady(id: EventId, action: Option<Action>, time: nat)
      modifies this`inQueueNotStarted, this`eventQueue, this`queueCounter, this`netTs
      ensures netTs == old(netTs) || Late(View(), old(netTs), id)
      ensures inQueueNotStarted == Await(old(inQueueNotStarted), id, action)
      ensures eventQueue == old(eventQueue)[Entry(id, action) := Prio(time, old(queueCounter))]
      ensures queueCounter == old(queueCounter) + 1
    {
      var prio := Prio(time, queueCounter);
      queueCounter := queueCounter + 1;
      if action == Some(Communication) && time < netTs / 1000 {
        netTs := *;
      }
      match action {
        case None => eventQueue := eventQueue[Point(id) := prio];
        case Some(a) =>
          eventQueue := eventQueue[Start(id) := prio];
          inQueueNotStarted := inQueueNotStarted[id := a];
      }
    }

    /** `push_event` for the end of an event. */
    method PushEnd(id: EventId, time: nat)
      modifies this`eventQueue, this`queueCounter
      ensures View() == Push(old(View()), End(id), time)
    {
      eventQueue := eventQueue[End(id) := Prio(time, queueCounter)];
      queueCounter := queueCounter + 1;
    }

    /** The loop of `add_action_or_point`: split the dependencies into ended ones, whose end
        times raise `now`, and outstanding ones; list the new event under all of them. */
    method CollectDependencies(dependsOn: seq<Option<EventId>>, id: EventId, currentTime: nat)
      returns (depends: set<Option<EventId>>, now: nat)
      modifies this`revDependencies
      ensures depends == Live(ended, dependsOn)
      ensures LatestEnd(ended, DepIds(dependsOn), currentTime, now)
      ensures revDependencies == ListedWith(old(revDependencies), DepIds(dependsOn), id)
    {
      hide Live, ListedWith;
      depends, now := {}, currentTime;
      NoDepIds(ended, revDependencies, id);
      assert dependsOn[..0] == [];
      for i := 0 to |dependsOn|
        invariant depends == Live(ended, dependsOn[..i])
        invariant LatestEnd(ended, DepIds(dependsOn[..i]), currentTime, now)
        invariant revDependencies == ListedWith(old(revDependencies), DepIds(dependsOn[..i]), id)
      {
        DepIdsNext(ended, dependsOn, i);
        match dependsOn[i] {
          case Some(dep) =>
            LatestNext(ended, DepIds(dependsOn[..i]), currentTime, now, dep);
            ListNext(old(revDependencies), DepIds(dependsOn[..i]), id, dep);
            if dep in ended {
              now := Max(now, ended[dep].end);
            } else {
              depends := depends + {Some(dep)};
            }
            revDependencies := revDependencies[dep := Listed(revDependencies, dep) + {id}];
          case None =>
            depends := depends + {None};
        }
      }
      assert dependsOn[..|dependsOn|] == dependsOn;
    }

    /** `add_action_or_point`.  The new event arrives at `currentTime` or at the latest end
        of its dependencies that have already ended, and waits for the others. */
    method AddActionOrPoint(dependsOn: seq<Option<EventId>>, action: Option<Action>, currentTime: nat)
      returns (id: EventId, ghost arrive: nat)
      requires Valid()
      requires forall i :: 0 <= i < |dependsOn| && dependsOn[i].Some? ==> dependsOn[i].value < eventCounter
      modifies this
      ensures Valid() && id == old(eventCounter)
      ensures LatestEnd(old(ended), DepIds(dependsOn), currentTime, arrive)
      ensures View() == Added(old(View()), DepIds(dependsOn), None in dependsOn, action, currentTime, arrive)
      ensures id in deps && deps == old(deps)[id := deps[id]] && forall d :: d in deps[id] <==> Some(d) in dependsOn
      ensures arrival == old(arrival)[id := currentTime] && acts == old(acts)[id := action]
      ensures None in dependsOn ==> held == old(held) + {id}
      ensures None !in dependsOn ==> held == old(held)
      ensures netTs == old(netTs) || Late(View(), old(netTs), id)
    {
      hide Ok, Live, DepIds, LatestEnd, ListedWith, Added, Late, FlowsFit;
      ghost var q := View();
      id := Register(action);
      var depends, now := CollectDependencies(dependsOn, id, currentTime);
      arrive := now;
      Install(q, dependsOn, depends, action, currentTime, now);
      AskedFor(q, dependsOn, action, currentTime, now);
    }

    /** The first step of `add_action_or_point`: a new id, and its flow if there is one. */
    method Register(action: Option<Action>) returns (id: EventId)
      requires Valid()
      modifies this`eventCounter, this`eventToFlow
      ensures id == old(eventCounter) && eventCounter == id + 1
      ensures FlowsFit(eventToFlow, acts[id := action])
    {
      hide Ok, FlowsFit;
      FreshAction(View());
      FlowsGrow(eventToFlow, acts, eventCounter, action);
      id := eventCounter;
      eventCounter := eventCounter + 1;
      if action == Some(Communication) {
        eventToFlow := eventToFlow + {id};
      }
    }

    /** The last step of `add_action_or_point`: queue the event, or let it wait. */
    method Install(ghost q: Queue, ghost dependsOn: seq<Option<EventId>>, depends: set<Option<EventId>>,
        action: Option<Action>,
                   ghost currentTime: nat, now: nat)
      requires Ok(q) && forall i :: 0 <= i < |dependsOn| && dependsOn[i].Some? ==> dependsOn[i].value < q.counter
      requires View() == q.(counter := q.counter + 1, rev := ListedWith(q.rev, DepIds(dependsOn), q.counter))
      requires depends == Live(q.ended, dependsOn) && LatestEnd(q.ended, DepIds(dependsOn), currentTime, now)
      modifies this`pending, this`inQueueNotStarted, this`eventQueue, this`queueCounter, this`netTs
      modifies this`arrival, this`deps, this`acts, this`held
      ensures Ok(View()) && View() == Added(q, DepIds(dependsOn), None in dependsOn, action, currentTime, now)
      ensures acts == old(acts)[q.counter := action] && (netTs == old(netTs) || Late(View(), old(netTs), q.counter))
    {
      hide Ok, Live, DepIds, LatestEnd, ListedWith, Added, Await, Entry, Late;
      Record(q.counter, currentTime, DepIds(dependsOn), action, None in dependsOn);
      if depends == {} {
        PushReady(eventCounter - 1, action, now);
      } else {
        pending := pending[eventCounter - 1 := Pending(depends, now, 0, action)];
      }
      AddedIs(q, View(), dependsOn, action, currentTime, now);
    }

    ghost method Record(id: EventId, now: nat, ds: set<EventId>, action: Option<Action>, hold: bool)
      modifies this`arrival, this`deps, this`acts, this`held
      ensures arrival == old(arrival)[id := now] && deps == old(deps)[id := ds] && acts == old(acts)[id := action]
      ensures held == if hold then old(held) + {id} else old(held)
    {
      arrival, deps, acts := arrival[id := now], deps[id := ds], acts[id := action];
      held := if hold then held + {id} else held;
    }

    /** `add_dependency`.  On a dependency that has already ended it only updates the reverse
        index; otherwise the event must still be pending, and now waits for that one too. */
    method AddDependency(id: EventId, dep: Option<EventId>)
      requires Valid() && id < eventCounter
      requires dep.Some? ==> dep.value < eventCounter
      requires dep.None? || dep.value !in ended ==> id in pending
      modifies this`pending, this`revDependencies, this`deps, this`held, this`ignored
      ensures Valid()
      ensures View() == DependencyAdded(old(View()), id, dep)
    {
      hide Ok, EventOk, RevOk, OrderOk, HeapOk, AddedDependency, IgnoredDependency;
      ghost var q := View();
      KnownIds(q, id, dep);
      if dep.Some? {
        revDependencies := revDependencies[dep.value := Listed(revDependencies, dep.value) + {id}];
        if dep.value in ended {
          NoteIgnored(id, dep.value);
          IgnoredIs(q, View(), id, dep.value);
          return;
        }
      }
      AwaitToo(id, dep);
      DependencyIs(q, View(), id, dep);
    }

    /** The pending event waits for one more. */
    method AwaitToo(id: EventId, dep: Option<EventId>)
      requires id in pending && id in deps
      modifies this`pending, this`held, this`deps
      ensures pending == old(pending)[id := old(pending)[id].(dependencies := old(pending)[id].dependencies + {dep})]
      ensures held == if dep.None? then old(held) + {id} else old(held)
      ensures deps == if dep.Some? then old(deps)[id := old(deps)[id] + {dep.value}] else old(deps)
    {
      var p := pending[id];
      pending := pending[id := p.(dependencies := p.dependencies + {dep})];
      NoteDependency(id, dep);
    }

    ghost method NoteIgnored(id: EventId, d: EventId)
      requires id in deps
      modifies this`ignored
      ensures ignored == if d in deps[id] then old(ignored) else old(ignored) + {(id, d)}
    {
      ignored := if d in deps[id] then ignored else ignored + {(id, d)};
    }

    ghost method NoteDependency(id: EventId, dep: Option<EventId>)
      requires id in deps
      modifies this`held, this`deps
      ensures held == if dep.None? then old(held) + {id} else old(held)
      ensures deps == if dep.Some? then old(deps)[id := old(deps)[id] + {dep.value}] else old(deps)
    {
      match dep {
        case None => held := held + {id};
        case Some(d) => deps := deps[id := deps[id] + {d}];
      }
    }

    /** `remove_none_dependency`. */
    method RemoveNoneDependency(id: EventId)
      requires Valid()
      modifies this`pending, this`inQueueNotStarted, this`eventQueue, this`queueCounter, this`netTs, this`held
      ensures Valid()
      ensures View() == BarrierReleased(old(View()), id)
      ensures netTs == old(netTs) || Late(View(), old(netTs), id)
    {
      hide Ok, Released, Late;
      BarrierReleasedOk(View(), id);
      var noDep := false;
      if id in pending {
        var p := pending[id];
        pending := pending[id := p.(dependencies := p.dependencies - {None})];
        noDep := pending[id].dependencies == {};
        held := held - {id};
      }
      if noDep {
        ReleaseOne(id);
      }
    }

    /** The first loop of `end_event`: tell the dependents, and collect those left with nothing to wait for. */
    method NotifyDependents(id: EventId, end: nat) returns (ready: seq<EventId>)
      requires forall e :: e in pending && Some(id) in pending[e].dependencies ==> e in Listed(revDependencies, id)
      requires forall e :: e in pending ==> pending[e].dependencies != {}
      modifies this`pending
      ensures pending == AllNotified(old(pending), id, end)
      ensures Lists(ready, pending)
    {
      hide Notified, Lists, NotifiedIn, AllNotified, Listed;
      ready := [];
      ghost var before := pending;
      var todo := Listed(revDependencies, id);
      ghost var seen: set<EventId> := {};
      NotifiedNone(pending, id, end);
      ListsNone(pending);
      while todo != {}
        invariant seen !! todo && seen + todo == Listed(revDependencies, id)
        invariant pending == NotifiedIn(before, seen, id, end)
        invariant Lists(ready, pending)
        decreases |todo|
      {
        var e :| e in todo;
        NotifiedNext(before, seen, id, end, e);
        if e in pending {
          ready := NotifyOne(id, end, e, ready);
        }
        todo, seen := todo - {e}, seen + {e};
      }
      NotifiedEnough(before, seen, id, end);
    }

    /** The body of that loop for one dependent. */
    method NotifyOne(id: EventId, end: nat, e: EventId, ready: seq<EventId>) returns (ready': seq<EventId>)
      requires Lists(ready, pending) && e in pending
      modifies this`pending
      ensures pending == old(pending)[e := Notified(old(pending)[e], id, end)] && Lists(ready', pending)
    {
      hide Lists;
      ready' := ready;
      var p := pending[e];
      if Some(id) in p.dependencies {
        p := p.(dependencies := p.dependencies - {Some(id)}, depEndTime := Max(p.depEndTime, end));
        if p.dependencies == {} {
          ready' := ready' + [e];
        }
        ListsNext(ready, pending, e, p) by { ListsWaiting(ready, pending, e, id); }
        pending := pending[e := p];
      } else {
        assert pending[e := p] == pending;
      }
    }

    /** `end_event`, for an event just taken out of the queue `q`. */
    method EndEvent(ghost q: Queue, id: EventId, start: nat, end: nat) returns (ghost ready: seq<EventId>)
      requires Ok(q) && TakenOut(q, View(), id, start, end)
      modifies this`pending, this`inQueueNotStarted, this`eventQueue, this`queueCounter, this`netTs
      modifies this`ended, this`order
      ensures Ok(View()) && ReleasedAs(EndRecorded(old(View()), id, start, end), View(), ready)
      ensures ClockAfter(old(netTs), netTs, View(), ready)
    {
      hide Ok, AlmostOk, TakenOut, AllNotified, Lists, ReleasedAs, Late;
      EndingIs(q, View(), id, start, end);
      ended := ended[id := Span(start, end)];
      order := order + [id];
      var noDep := NotifyDependents(id, end);
      ready := noDep;
      ReleaseAll(noDep);
    }

    /** The second loop of `end_event`. */
    method ReleaseAll(noDep: seq<EventId>)
      requires AlmostOk(View()) && Lists(noDep, pending)
      modifies this`pending, this`inQueueNotStarted, this`eventQueue, this`queueCounter, this`netTs
      ensures Ok(View()) && ReleasedAs(old(View()), View(), noDep)
      ensures ClockAfter(old(netTs), netTs, View(), noDep)
    {
      hide Ok, AlmostOk, Lists, Releasable, Released, AllReleased, Late, ClockAfter;
      ghost var q1 := View();
      NoneYet(netTs, q1);
      ListsReady(q1, noDep);
      ReleasableFirst(q1, noDep);
      for i := 0 to |noDep|
        invariant Releasable(View(), noDep[i..]) && AllReleased(View(), noDep[i..]) == AllReleased(q1, noDep)
        invariant ClockAfter(old(netTs), netTs, View(), noDep[..i])
      {
        ReleasableNext(View(), noDep, i);
        ghost var q2, ts := View(), netTs;
        ReleaseOne(noDep[i]);
        ClockNext(q2, View(), noDep, i, old(netTs), ts, netTs);
      }
      assert noDep[|noDep|..] == [] && noDep[..|noDep|] == noDep;
      ReleasableLast(View());
      AllReleasedOk(q1, noDep);
    }

    method ReleaseOne(e: EventId)
      requires e in pending
      modifies this`pending, this`inQueueNotStarted, this`eventQueue, this`queueCounter, this`netTs
      ensures View() == Released(old(View()), e) && (netTs == old(netTs) || Late(View(), old(netTs), e))
    {
      hide Await, Entry, Late;
      var p := pending[e];
      pending := pending - {e};
      PushReady(e, p.action, Max(p.depEndTime, p.arriveTime));
    }

    /** The entry with the least time, and among equal times the one pushed first. */
    method Least() returns (least: Event)
      requires eventQueue != map[] && HeapOk(View())
      ensures least in eventQueue && Next(eventQueue, least)
    {
      hide HeapOk;
      var todo := eventQueue.Keys;
      least :| least in todo;
      todo := todo - {least};
      while todo != {}
        invariant todo <= eventQueue.Keys && least in eventQueue && least !in todo
        invariant forall y :: y in eventQueue && y !in todo && y != least ==> Sooner(eventQueue, least, y)
        decreases |todo|
      {
        var x :| x in todo;
        todo := todo - {x};
        SoonerOrLater(View(), least, x);
        if Sooner(eventQueue, x, least) {
          least := x;
        }
      }
    }

    /** `try_proceed_netsim`: queue the ends that the network reports when its clock reaches `clock`. */
    method TryProceedNetsim(report: seq<FlowEnd>, clock: nat) returns (any: bool)
      requires Valid() && ReportFits(View(), report) && ClockFits(netTs, report, clock)
      modifies this`eventQueue, this`queueCounter, this`netTs
      ensures any == (report != []) && Valid() && View() == Reported(old(View()), report) && netTs == clock
    {
      hide Ok, ReportFits, Reported;
      ghost var q := View();
      ReportedOk(q, report);
      ReportedAll(q, report);
      for i := 0 to |report|
        invariant Reported(View(), report[i..]) == Reported(q, report)
      {
        ReportedNext(View(), report, i);
        PushEnd(report[i].id, report[i].time);
      }
      assert report[|report|..] == [];
      ReportedAll(View(), []);
      netTs := clock;
      any := report != [];
    }

    /** `peek_next_time`; `report` is what the network would report if asked, its clock then at `clock`. */
    method PeekNextTime(report: seq<FlowEnd>, clock: nat) returns (time: Option<nat>)
      requires Valid() && (eventQueue == map[] ==> ReportFits(View(), report) && ClockFits(netTs, report, clock))
      modifies this`eventQueue, this`queueCounter, this`netTs
      ensures Valid() && View() == Refilled(old(View()), report)
      ensures netTs == if old(eventQueue) == map[] then clock else old(netTs)
      ensures time.None? <==> eventQueue == map[]
      ensures time.Some? ==> && (exists x :: x in eventQueue && eventQueue[x].time == time.value)
                             && forall x :: x in eventQueue ==> time.value <= eventQueue[x].time
    {
      hide Ok, ReportFits, Reported;
      if eventQueue == map[] {
        var any := TryProceedNetsim(report, clock);
        ReportedAny(old(View()), report);
      }
      if eventQueue == map[] {
        return None;
      }
      OkHeap(View());
      var least := Least();
      return Some(eventQueue[least].time);
    }

    /** `execute`; `report` is what the network would report if asked, its clock then at `clock`. */
    method Execute(report: seq<FlowEnd>, clock: nat) returns (step: QueueStep, ghost ready: seq<EventId>)
      requires Valid() && (eventQueue == map[] ==> ReportFits(View(), report) && ClockFits(netTs, report, clock))
      modifies this`pending, this`inQueueNotStarted, this`started, this`ended, this`eventQueue, this`queueCounter
      modifies this`netTs, this`order
      ensures Valid() && Stepped(Refilled(old(View()), report), View(), step, ready)
      ensures step.EmptyQueue? <==> Refilled(old(View()), report).heap == map[]
      ensures !step.EmptyQueue? ==>
                var heap := Refilled(old(View()), report).heap;
                && EntryOf(step) in heap && heap[EntryOf(step)].time == step.time
                && (forall y :: y in heap ==> step.time <= heap[y].time)
                && forall y :: y in heap && heap[y].time == step.time ==> heap[EntryOf(step)].count <= heap[y].count
      ensures ClockAfter(if old(eventQueue) == map[] then clock else old(netTs), netTs, View(), ready)
    {
      hide Ok, ReportFits, Reported, Next, SpanEnded, PointEnded, StartPopped, ReleasedAs, Late;
      ready := [];
      if eventQueue == map[] {
        var any := TryProceedNetsim(report, clock);
        ReportedAny(old(View()), report);
        if !any {
          return EmptyQueue, [];
        }
      }
      OkHeap(View());
      var least := Least();
      NextIsFirst(eventQueue, least);
      var time := eventQueue[least].time;
      match least {
        case Point(id) =>
          ready := ReachPoint(id, time);
          step := ReachedPoint(id, time);
        case End(id) =>
          ready := Finish(id, time);
          step := EventEnded(id, time);
        case Start(id) =>
          Begin(id, time);
          step := EventStarted(id, time);
      }
    }

    method ReachPoint(id: EventId, time: nat) returns (ghost ready: seq<EventId>)
      requires Valid() && Point(id) in eventQueue && time == eventQueue[Point(id)].time
      modifies this`pending, this`inQueueNotStarted, this`eventQueue, this`queueCounter, this`netTs
      modifies this`ended, this`order
      ensures Valid() && ReleasedAs(PointEnded(old(View()), id), View(), ready)
      ensures ClockAfter(old(netTs), netTs, View(), ready)
    {
      hide Ok, TakenOut, ReleasedAs, EndRecorded, Late;
      ghost var q := View();
      PointTaken(q, id);
      eventQueue := eventQueue - {Point(id)};
      ready := EndEvent(q, id, time, time);
    }

    method Finish(id: EventId, time: nat) returns (ghost ready: seq<EventId>)
      requires Valid() && End(id) in eventQueue && time == eventQueue[End(id)].time
      modifies this`pending, this`inQueueNotStarted, this`eventQueue, this`queueCounter, this`netTs
      modifies this`started, this`ended, this`order
      ensures id in old(started)
      ensures Valid() && ReleasedAs(SpanEnded(old(View()), id), View(), ready)
      ensures ClockAfter(old(netTs), netTs, View(), ready)
    {
      hide Ok, TakenOut, ReleasedAs, EndRecorded, Late;
      ghost var q := View();
      SpanTaken(q, id);
      eventQueue := eventQueue - {End(id)};
      var start := started[id];
      started := started - {id};
      ready := EndEvent(q, id, start, time);
    }

    method Begin(id: EventId, time: nat)
      requires Valid() && Start(id) in eventQueue && time == eventQueue[Start(id)].time
      modifies this`inQueueNotStarted, this`started, this`eventQueue, this`queueCounter
      ensures id in old(inQueueNotStarted) && Valid() && View() == StartPopped(old(View()), id)
    {
      hide Ok, StartPopped;
      ghost var q := View();
      StartPoppedOk(q, id);
      eventQueue := eventQueue - {Start(id)};
      var action := inQueueNotStarted[id];
      inQueueNotStarted := inQueueNotStarted - {id};
      started := started[id := time];
      StartPoppedIs(q, View(), id);
      if action.Computation? {
        PushEnd(id, time + action.duration);
      }
    }

    /** What `update_flow_start_ts` asserts: the network still holds the flow back. */
    predicate FlowBuffered(id: EventId)
      reads this
    {
      if Start(id) in eventQueue then netTs < 1000 * eventQueue[Start(id)].time
      else id in started && End(id) !in eventQueue && netTs < 1000 * started[id]
    }

    /** `change_start_time_notless`.  It stops where one of the program's assertions fails: at a flow that the
        network has emitted, or at one that is held back but would have to be moved without its end. */
    method ChangeStartTimeNotless(id: EventId, time: nat) returns (shift: Shift)
      requires Sound(View()) && FlowsFit(eventToFlow, acts) && id in arrival
      modifies this`pending, this`eventQueue, this`started, this`ended
      ensures if shift.Carried? then Raised(old(View()), View(), netTs, id, time)
              else HitsFrom(old(View()), netTs, id, time, shift)
      ensures id in old(pending) ==>
                shift.Carried? && View() == old(View()).(pending :=
                    old(pending)[id := old(pending)[id].(depEndTime := Max(old(pending)[id].depEndTime, time))])
      decreases Rank(order, id), 2
    {
      hide Sound, Raised, Spread, Hits, HitsFrom;
      ghost var q := View();
      OnlyOnePlace(q, id);
      if id in pending {
        pending := pending[id := pending[id].(depEndTime := Max(pending[id].depEndTime, time))];
        PendingRaised(q, View(), netTs, id, time);
        return Carried;
      }
      if id in eventToFlow && !FlowBuffered(id) {
        StopsHere(q, netTs, id, time, FlowEmitted);
        return FlowEmitted;
      }
      var isInQueueNotStarted, isUnreachedPoint := Start(id) in eventQueue, Point(id) in eventQueue;
      if isInQueueNotStarted {
        RaiseQueued(Start(id), time);
      }
      if isUnreachedPoint {
        RaiseQueued(Point(id), time);
      }
      if isInQueueNotStarted || isUnreachedPoint {
        return Carried;
      }
      if id in started {
        shift := ShiftStarted(id, time);
      } else {
        shift := ShiftEnded(id, time);
      }
    }

    method RaiseQueued(x: Event, time: nat)
      requires Sound(View()) && x in eventQueue && !x.End? && x.id in arrival && !Emitted(View(), netTs, x.id)
      modifies this`eventQueue
      ensures Raised(old(View()), View(), netTs, x.id, time)
    {
      hide Sound, Raised, Emitted;
      eventQueue := eventQueue[x := eventQueue[x].(time := Max(eventQueue[x].time, time))];
      QueuedRaised(old(View()), View(), netTs, x, time);
    }

    /** A running event is moved as a whole. */
    method ShiftStarted(id: EventId, time: nat) returns (shift: Shift)
      requires Sound(View()) && id in started && id in arrival && !Emitted(View(), netTs, id)
      modifies this`eventQueue, this`started
      ensures if shift.Carried? then Raised(old(View()), View(), netTs, id, time)
              else HitsFrom(old(View()), netTs, id, time, shift)
    {
      hide Sound, Raised, Emitted, HitsFrom;
      if started[id] < time {
        var delta := time - started[id];
        if End(id) !in eventQueue {
          StopsHere(View(), netTs, id, time, EndUnreported);
          return EndUnreported;
        }
        started := started[id := time];
        eventQueue := eventQueue[End(id) := eventQueue[End(id)].(time := eventQueue[End(id)].time + delta)];
      }
      StartedRaised(old(View()), View(), netTs, id, time);
      return Carried;
    }

    /** An ended event is moved as a whole, and its dependents are told. */
    method ShiftEnded(id: EventId, time: nat) returns (shift: Shift)
      requires Sound(View()) && FlowsFit(eventToFlow, acts) && id in ended && id in arrival && id !in eventToFlow
      modifies this`pending, this`eventQueue, this`started, this`ended
      ensures if shift.Carried? then Raised(old(View()), View(), netTs, id, time)
              else HitsFrom(old(View()), netTs, id, time, shift)
      decreases Rank(order, id), 1
    {
      hide Sound, Raised, Spread, Hits, HitsFrom;
      ghost var q := View();
      if ended[id].start < time {
        var delta := time - ended[id].start;
        var newEnd := ended[id].end + delta;
        ended := ended[id := Span(time, newEnd)];
        ghost var q1 := View();
        ShiftedSound(q, q1, id, time);
        ghost var e;
        shift, e := TellDependents(id, newEnd, Rank(order, id));
        if shift.Carried? {
          EndedRaised(q, q1, View(), netTs, id, time);
        } else {
          HitsThrough(q, q1, netTs, id, time, e, shift);
        }
      } else {
        NothingRaised(q, netTs, id, time);
        shift := Carried;
      }
    }

    /** Pass a changed end time on to all dependents. */
    method TellDependents(id: EventId, time: nat, ghost rank: nat) returns (shift: Shift, ghost at: EventId)
      requires Sound(View()) && FlowsFit(eventToFlow, acts) && (id in ended ==> ended[id].end == time)
      requires forall e :: e in Listed(revDependencies, id) ==> Rank(order, e) < rank
      modifies this`pending, this`eventQueue, this`started, this`ended
      ensures if shift.Carried? then Spread(old(View()), View(), netTs, id, time, {})
              else at in Listed(old(revDependencies), id) && HitsFrom(old(View()), netTs, at, time, shift)
      ensures (forall e :: e in Listed(old(revDependencies), id) ==> e in old(pending)) ==>
              shift.Carried? && View() == Told(old(View()), id, time)
      decreases rank, 0
    {
      hide Sound, Raised, Spread, SameGround, Listed, Hits, Told, ToldBut, HitsFrom;
      ghost var q := View();
      SpreadFirst(q, netTs, id, time);
      SpreadSound(q, q, netTs, id, time, Listed(revDependencies, id));
      var todo := Listed(revDependencies, id);
      NoneTold(q, id, time, todo);
      while todo != {}
        invariant todo <= Listed(revDependencies, id)
        invariant Sound(View()) && Spread(q, View(), netTs, id, time, todo)
        invariant (forall e :: e in Listed(q.rev, id) ==> e in q.pending) ==> View() == ToldBut(q, id, time, todo)
        decreases |todo|
      {
        var e :| e in todo;
        ListedDepends(q, id, e);
        ghost var q1 := View();
        shift := ChangeStartTimeNotless(e, time);
        if forall e :: e in Listed(q.rev, id) ==> e in q.pending { OneMoreTold(q, q1, id, time, todo, e); }
        if !shift.Carried? {
          SpreadHits(q, q1, netTs, id, time, todo, e, shift);
          return shift, e;
        }
        SpreadNext(q, q1, View(), netTs, id, time, todo, e);
        todo := todo - {e};
        SpreadSound(q, View(), netTs, id, time, todo);
      }
      AllTold(q, id, time);
      return Carried, 0;
    }

    /** `add_end_time_to`.  It is carried out if and only if no flow is in the way; otherwise it has stopped at one
        that is. */
    method AddEndTimeTo(id: EventId, time: nat) returns (shift: Shift)
      requires Valid() && id < eventCounter && LateInOrder(View())
      modifies this`pending, this`eventQueue, this`started, this`ended
      ensures shift.Carried? <==> forall why :: !Blocked(old(View()), netTs, id, time, why)
      ensures if shift.Carried? then EndTimeMoved(old(View()), View(), netTs, id, time)
              else Blocked(old(View()), netTs, id, time, shift)
    {
      hide Ok, EndTimeMoved, Blocked;
      ghost var q := View();
      NotTwice(q, id);
      var isExecuting, isUnreachedPoint := End(id) in eventQueue, Point(id) in eventQueue;
      if isExecuting {
        SetPriority(End(id), time);
      }
      if isUnreachedPoint {
        SetPriority(Point(id), time);
      }
      if isExecuting || isUnreachedPoint {
        QueuedEndMoved(q, View(), netTs, id, time);
        UnendedIsNotBlocked(q, netTs, id, time);
        shift := Carried;
      } else {
        shift := SetEnd(id, time);
      }
    }

    method SetPriority(x: Event, time: nat)
      requires x in eventQueue
      modifies this`eventQueue
      ensures View() == old(View()).(heap := old(eventQueue)[x := old(eventQueue)[x].(time := time)])
    {
      eventQueue := eventQueue[x := eventQueue[x].(time := time)];
    }

    /** The event has ended, if at all: set its end and tell the dependents. */
    method SetEnd(id: EventId, time: nat) returns (shift: Shift)
      requires Valid() && LateInOrder(View()) && End(id) !in eventQueue && Point(id) !in eventQueue
      modifies this`pending, this`eventQueue, this`started, this`ended
      ensures shift.Carried? <==> forall why :: !Blocked(old(View()), netTs, id, time, why)
      ensures if shift.Carried? then EndTimeMoved(old(View()), View(), netTs, id, time)
              else Blocked(old(View()), netTs, id, time, shift)
    {
      hide Ok, Sound, Spread, EndTimeMoved, EndSetTo, Blocked, HitsFrom, Told;
      ghost var q := View();
      OkIsSound(q);
      if id in ended {
        ended := ended[id := Span(ended[id].start, time)];
        EndSetSound(q, View(), id, time);
      } else {
        UnendedIsNotBlocked(q, netTs, id, time);
      }
      ghost var q1, e := View(), id;
      RanksBounded(order);
      shift, e := TellDependents(id, time, |order| + 1);
      if !shift.Carried? {
        StoppedIsBlocked(q, q1, netTs, id, time, e, shift);
      } else {
        if id in q.ended {
          forall why ensures !Blocked(q, netTs, id, time, why) {
            MovedIsNotBlocked(q, q1, View(), netTs, id, time, why);
          }
        }
        EndTimeMovedIs(q, View(), netTs, id, time);
      }
    }
  }

  /** A point that is reached at `time`, and a flow that waits for it and starts.  Then the point's end is put off:
      too late for a flow that the network has emitted at once, and for one that it still holds back. */
  method PutOffTooLate(time: nat) returns (queue: EventQueue, shift: Shift)
    ensures shift == if time == 0 then FlowEmitted else EndUnreported
  {
    hide Ok, Blocked, EndTimeMoved, FlowWaits;
    queue := FlowOnPoint(time);
    Run(queue, time, time + 1);
    assert Blocked(queue.View(), 0, 0, time + 1, if time == 0 then FlowEmitted else EndUnreported);
    shift := queue.AddEndTimeTo(0, time + 1);
  }

  method FlowOnPoint(time: nat) returns (queue: EventQueue)
    ensures fresh(queue) && queue.Valid() && queue.netTs == 0 && FlowWaits(queue.View(), time)
  {
    hide Ok, Added, LatestEnd, DepIds, Late, FlowWaits;
    queue := new EventQueue();
    ghost var q0 := queue.View();
    ghost var arrive0, arrive1;
    var point, flow;
    var nothing: seq<Option<EventId>> := [];
    point, arrive0 := queue.AddActionOrPoint(nothing, None, time);
    ghost var q1 := queue.View();
    PointAdded(q0, q1, nothing, time, arrive0);
    NeverLate(0, 0, q1, []);
    var onPoint: seq<Option<EventId>> := [Some(0)];
    flow, arrive1 := queue.AddActionOrPoint(onPoint, Some(Communication), 0);
    FlowAdded(q1, queue.View(), onPoint, time, arrive1);
    NeverLate(0, 0, queue.View(), []);
  }

  /** The point is reached, and the flow starts. */
  method Run(queue: EventQueue, time: nat, ghost end: nat)
    requires queue.Valid() && queue.netTs == 0 && FlowWaits(queue.View(), time) && time < end
    modifies queue
    ensures queue.Valid() && queue.netTs == 0 && queue.eventCounter == 2 && queue.ignored == {}
    ensures forall why :: Blocked(queue.View(), 0, 0, end, why) <==>
                          why == if time == 0 then FlowEmitted else EndUnreported
  {
    hide Ok, Blocked, Stepped, ReportFits, ClockFits, ClockAfter, Late, FlowWaits, FlowQueued;
    ghost var q1 := queue.View();
    assert queue.eventQueue != map[] by { assert Point(0) in q1.heap by { PointQueued(q1, time); } }
    var step1, ready1 := queue.Execute([], 0);
    ghost var q2 := queue.View();
    PointReached(q1, q2, time, step1, ready1);
    NeverLate(0, queue.netTs, q2, ready1);
    assert queue.eventQueue != map[] by { assert Start(1) in q2.heap by { FlowIsQueued(q2, time); } }
    var step2, ready2 := queue.Execute([], 0);
    FlowStarted(q2, queue.View(), time, end, step2, ready2);
    NeverLate(0, queue.netTs, queue.View(), ready2);
  }

  lemma PointQueued(q: Queue, time: nat)
    requires FlowWaits(q, time)
    ensures Point(0) in q.heap
  {
  }

  lemma FlowIsQueued(q: Queue, time: nat)
    requires FlowQueued(q, time)
    ensures Start(1) in q.heap
  {
  }

  lemma NeverLate(ts: nat, ts': nat, q: Queue, ready: seq<EventId>)
    requires ts < 1000
    ensures (forall e :: !Late(q, ts, e)) && (ClockAfter(ts, ts', q, ready) ==> ts' == ts)
  {
  }

  lemma PointAdded(q0: Queue, q1: Queue, dependsOn: seq<Option<EventId>>, time: nat, arrive: nat)
    requires q0 == Queue(0, map[], map[], map[], map[], map[], map[], 0, map[], map[], map[], {}, [], {})
    requires dependsOn == [] && LatestEnd(q0.ended, DepIds(dependsOn), time, arrive)
    requires q1 == Added(q0, DepIds(dependsOn), None in dependsOn, None, time, arrive)
    ensures q1.counter == 1 && q1.pending == map[] && q1.heap == map[Point(0) := Prio(time, 0)] && q1.ended == map[]
    ensures q1.started == map[] && q1.waiting == map[] && q1.ignored == {} && q1.rev == map[]
  {
    assert DepIds(dependsOn) == {};
    assert Unmet(q0.ended, {}, false) == {};
  }

  /** The point is queued, and the flow waits for it. */
  ghost predicate FlowWaits(q: Queue, time: nat) {
    && q.counter == 2 && q.heap == map[Point(0) := Prio(time, 0)] && q.ended == map[]
    && q.pending == map[1 := Pending({Some(0)}, 0, 0, Some(Communication))]
    && q.started == map[] && q.waiting == map[] && q.ignored == {}
    && Listed(q.rev, 0) == {1} && 1 in q.acts && q.acts[1] == Some(Communication)
  }

  lemma FlowAdded(q1: Queue, q2: Queue, dependsOn: seq<Option<EventId>>, time: nat, arrive: nat)
    requires q1.counter == 1 && q1.pending == map[] && q1.heap == map[Point(0) := Prio(time, 0)] && q1.ended == map[]
    requires q1.started == map[] && q1.waiting == map[] && q1.ignored == {} && q1.rev == map[]
    requires dependsOn == [Some(0)] && LatestEnd(q1.ended, DepIds(dependsOn), 0, arrive)
    requires q2 == Added(q1, DepIds(dependsOn), None in dependsOn, Some(Communication), 0, arrive)
    ensures FlowWaits(q2, time)
  {
    assert dependsOn[0] == Some(0);
    assert DepIds(dependsOn) == {0};
    assert Unmet(q1.ended, {0}, false) == {Some(0)};
  }

  /** The point has been reached, and the flow is queued in its turn. */
  ghost predicate FlowQueued(q: Queue, time: nat) {
    && q.counter == 2 && q.heap.Keys == {Start(1)} && q.heap[Start(1)].time == time && q.pending == map[]
    && q.waiting == map[1 := Communication] && q.started == map[] && q.ignored == {} && q.ended.Keys == {0}
    && Listed(q.rev, 0) == {1} && 1 in q.acts && q.acts[1] == Some(Communication)
  }

  lemma PointReached(q: Queue, q': Queue, time: nat, step: QueueStep, ready: seq<EventId>)
    requires FlowWaits(q, time) && Stepped(q, q', step, ready)
    ensures FlowQueued(q', time)
  {
    assert Point(0) in q.heap && step == ReachedPoint(0, time);
    var q1 := PointEnded(q, 0);
    assert q1.heap == map[] && q1.pending == map[1 := Pending({}, 0, time, Some(Communication))];
    assert 1 in q1.pending && 1 in ready;
    OnlyOne(ready, 1);
    assert AllReleased(q1, ready) == AllReleased(Released(q1, 1), []);
    assert q1.pending - {1} == map[];
  }

  lemma OnlyOne(s: seq<EventId>, e: EventId)
    requires e in s && (forall x :: x in s ==> x == e) && (|s| >= 2 ==> s[0] != s[1])
    ensures s == [e]
  {
    forall i | 0 <= i < |s| ensures s[i] == e { assert s[i] in s; }
  }

  /** The flow has started; the clock of the network still shows 0. */
  lemma FlowStarted(q: Queue, q': Queue, time: nat, end: nat, step: QueueStep, ready: seq<EventId>)
    requires FlowQueued(q, time) && Stepped(q, q', step, ready) && time < end
    ensures q'.counter == 2 && q'.ignored == {}
    ensures forall why :: Blocked(q', 0, 0, end, why) <==> why == if time == 0 then FlowEmitted else EndUnreported
  {
    assert Start(1) in q.heap && step == EventStarted(1, time);
    assert q' == StartPopped(q, 1);
    assert q'.started == map[1 := time] && End(1) !in q'.heap && Start(1) !in q'.heap;
    assert Emitted(q', 0, 1) <==> time == 0;
    forall why: Shift ensures HitsFrom(q', 0, 1, end, why) <==> Stops(q', 0, 1, end, why) {
      if Stops(q', 0, 1, end, why) { StopsHere(q', 0, 1, end, why); }
    }
  }

  /** The queue entry that a step takes. */
  function EntryOf(step: QueueStep): Event
    requires !step.EmptyQueue?
  {
    match step
    case EventStarted(id, _) => Start(id)
    case EventEnded(id, _) => End(id)
    case ReachedPoint(id, _) => Point(id)
  }

  /** The next entry is due first, and was pushed first among those due then. */
  lemma NextIsFirst(heap: map<Event, Prio>, x: Event)
    requires Next(heap, x)
    ensures x in heap && forall y :: y in heap ==>
              && heap[x].time <= heap[y].time && (heap[y].time == heap[x].time ==> heap[x].count <= heap[y].count)
  {
  }

  predicate Sooner(heap: map<Event, Prio>, x: Event, y: Event)
    requires x in heap && y in heap
  {
    heap[x].time < heap[y].time || (heap[x].time == heap[y].time && heap[x].count < heap[y].count)
  }

  lemma SoonerOrLater(q: Queue, x: Event, y: Event)
    requires HeapOk(q) && x in q.heap && y in q.heap && x != y
    ensures Sooner(q.heap, x, y) || Sooner(q.heap, y, x)
  {
  }

  lemma OkHeap(q: Queue)
    requires Ok(q)
    ensures HeapOk(q)
  {
    hide EventOk, RevOk, OrderOk, HeapOk, IdsOk;
  }

  lemma ReportedAll(q: Queue, report: seq<FlowEnd>)
    ensures report[0..] == report && Reported(q, []) == q
  {
  }

  lemma ReportedNext(q: Queue, report: seq<FlowEnd>, i: nat)
    requires i < |report|
    ensures Reported(q, report[i..]) == Reported(Push(q, End(report[i].id), report[i].time), report[i + 1..])
  {
    assert report[i..][0] == report[i] && report[i..][1..] == report[i + 1..];
  }

  /** The network was asked only if the queue is empty. */
  ghost function Refilled(q: Queue, report: seq<FlowEnd>): Queue {
    if q.heap == map[] then Reported(q, report) else q
  }

  lemma {:induction false} ReportedAny(q: Queue, report: seq<FlowEnd>)
    ensures report == [] ==> Reported(q, report) == q
    ensures report != [] || q.heap != map[] ==> Reported(q, report).heap != map[]
    decreases |report|
  {
    if report != [] {
      assert End(report[0].id) in Push(q, End(report[0].id), report[0].time).heap;
      ReportedAny(Push(q, End(report[0].id), report[0].time), report[1..]);
    }
  }

  lemma RanksBounded(order: seq<EventId>)
    ensures forall e :: Rank(order, e) < |order| + 1
  {
    forall e ensures Rank(order, e) < |order| + 1 { RankBound(order, e); }
  }

  lemma QueuedEndMoved(q: Queue, q': Queue, ts: nat, id: EventId, v: nat)
    requires !(End(id) in q.heap && Point(id) in q.heap) && (End(id) in q.heap || Point(id) in q.heap)
    requires q' == if End(id) in q.heap then q.(heap := q.heap[End(id) := q.heap[End(id)].(time := v)])
                   else q.(heap := q.heap[Point(id) := q.heap[Point(id)].(time := v)])
    ensures EndTimeMoved(q, q', ts, id, v)
  {
  }

  lemma StartPoppedIs(q: Queue, q1: Queue, e: EventId)
    requires Start(e) in q.heap && e in q.waiting
    requires q1 == q.(heap := q.heap - {Start(e)}, waiting := q.waiting - {e},
             started := q.started[e := q.heap[Start(e)].time])
    ensures StartPopped(q, e)
         == if q.waiting[e].Computation? then Push(q1, End(e), q.heap[Start(e)].time + q.waiting[e].duration) else q1
  {
  }

  lemma PointTaken(q: Queue, e: EventId)
    requires Ok(q) && Point(e) in q.heap
    ensures TakenOut(q, PointPopped(q, e), e, q.heap[Point(e)].time, q.heap[Point(e)].time)
  {
    hide EventOk, RevOk, OrderOk, HeapOk, TakenOut;
    assert Point(e).id in q.arrival;
    AlmostOkAt(q, e);
    PointTakenOut(q, e);
  }

  lemma SpanTaken(q: Queue, e: EventId)
    requires Ok(q) && End(e) in q.heap
    ensures e in q.started && TakenOut(q, EndPopped(q, e), e, q.started[e], q.heap[End(e)].time)
  {
    hide EventOk, RevOk, OrderOk, HeapOk, TakenOut;
    assert End(e).id in q.arrival;
    AlmostOkAt(q, e);
    SpanTakenOut(q, e);
  }

  /** What one call of `execute` does: the entry that is next in the queue takes its effect. */
  ghost predicate Stepped(q: Queue, q': Queue, step: QueueStep, ready: seq<EventId>) {
    match step
    case EmptyQueue => q.heap == map[] && q' == q
    case EventStarted(id, time) =>
      && Next(q.heap, Start(id)) && time == q.heap[Start(id)].time
      && id in q.waiting && q' == StartPopped(q, id)
    case EventEnded(id, time) =>
      && Next(q.heap, End(id)) && time == q.heap[End(id)].time
      && id in q.started && ReleasedAs(SpanEnded(q, id), q', ready)
    case ReachedPoint(id, time) =>
      && Next(q.heap, Point(id)) && time == q.heap[Point(id)].time
      && ReleasedAs(PointEnded(q, id), q', ready)
  }

  lemma ListsNone(pending: map<EventId, Pending>)
    requires forall e :: e in pending ==> pending[e].dependencies != {}
    ensures Lists([], pending)
  {
  }

  lemma ListsWaiting(ready: seq<EventId>, pending: map<EventId, Pending>, e: EventId, d: EventId)
    requires e in pending && Some(d) in pending[e].dependencies
    ensures pending[e].dependencies != {}
  {
  }

  ghost function AllNotified(pending: map<EventId, Pending>, d: EventId, end: nat): map<EventId, Pending> {
    map e | e in pending :: Notified(pending[e], d, end)
  }

  lemma NotifiedEnough(pending: map<EventId, Pending>, seen: set<EventId>, d: EventId, end: nat)
    requires forall e :: e in pending && Some(d) in pending[e].dependencies ==> e in seen
    ensures NotifiedIn(pending, seen, d, end) == AllNotified(pending, d, end)
  {
  }

  /** `ready` lists what is left with nothing to wait for in `q`, and `q'` is `q` with these made ready. */
  ghost predicate ReleasedAs(q: Queue, q': Queue, ready: seq<EventId>) {
    Lists(ready, q.pending) && Releasable(q, ready) && q' == AllReleased(q, ready)
  }

  /** What `end_event` relies on once the event has been taken out of the queue. */
  lemma EndingIs(q: Queue, q1: Queue, d: EventId, start: nat, end: nat)
    requires Ok(q) && TakenOut(q, q1, d, start, end)
    ensures q1.pending == q.pending && q1.rev == q.rev
    ensures forall e :: e in q.pending && Some(d) in q.pending[e].dependencies ==> e in Listed(q.rev, d)
    ensures forall e :: e in q.pending ==> q.pending[e].dependencies != {}
    ensures AlmostOk(EndRecorded(q1, d, start, end))
    ensures EndRecorded(q1, d, start, end)
         == q1.(ended := q1.ended[d := Span(start, end)], order := q1.order + [d],
             pending := AllNotified(q1.pending, d, end))
  {
    hide Ok, AlmostOk;
    ListedUnder(q, d);
    EndRecordedOk(q, q1, d, start, end);
  }

  lemma ReleasableFirst(q: Queue, ready: seq<EventId>)
    requires Lists(ready, q.pending)
    ensures ready[0..] == ready && Releasable(q, ready)
  {
  }

  lemma ReleasableLast(q: Queue)
    ensures AllReleased(q, []) == q
  {
  }

  lemma ReleasableNext(q: Queue, ready: seq<EventId>, i: nat)
    requires i < |ready| && Releasable(q, ready[i..])
    ensures ready[i] in q.pending && Releasable(Released(q, ready[i]), ready[i + 1..])
    ensures AllReleased(q, ready[i..]) == AllReleased(Released(q, ready[i]), ready[i + 1..])
  {
    assert ready[i..][0] == ready[i] && ready[i..][1..] == ready[i + 1..];
    var rest := ready[i + 1..];
    forall j | 0 <= j < |rest| ensures rest[j] in Released(q, ready[i]).pending {
      assert rest[j] == ready[i..][j + 1] && ready[i..][0] != ready[i..][j + 1];
    }
  }

  ghost function DependencyAdded(q: Queue, e: EventId, dep: Option<EventId>): Queue
    requires e in q.deps && (dep.None? || dep.value !in q.ended ==> e in q.pending)
  {
    if dep.Some? && dep.value in q.ended then IgnoredDependency(q, e, dep.value) else AddedDependency(q, e, dep)
  }

  lemma EmptyOk()
    ensures Ok(Queue(0, map[], map[], map[], map[], map[], map[], 0, map[], map[], map[], {}, [], {}))
  {
    var q := Queue(0, map[], map[], map[], map[], map[], map[], 0, map[], map[], map[], {}, [], {});
    assert q.arrival.Keys == {} && q.deps.Keys == {} && q.acts.Keys == {};
    assert NoLongerWaiting(q) == {};
  }

  lemma ListNext(rev: map<EventId, set<EventId>>, ds: set<EventId>, id: EventId, d: EventId)
    ensures ListedWith(rev, ds + {d}, id) == ListedWith(rev, ds, id)[d := Listed(ListedWith(rev, ds, id), d) + {id}]
  {
  }

  lemma LatestNext(ended: map<EventId, Span>, ds: set<EventId>, now: nat, t: nat, d: EventId)
    requires LatestEnd(ended, ds, now, t)
    ensures LatestEnd(ended, ds + {d}, now, if d in ended then Max(t, ended[d].end) else t)
  {
    if t != now {
      var x :| x in ds && x in ended && ended[x].end == t;
      assert x in ds + {d};
    }
    assert d in ds + {d};
  }

  lemma NoDepIds(ended: map<EventId, Span>, rev: map<EventId, set<EventId>>, id: EventId)
    ensures Live(ended, []) == {} && DepIds([]) == {} && ListedWith(rev, {}, id) == rev
  {
  }

  /** The dependencies that have not ended. */
  ghost function Live(ended: map<EventId, Span>, dependsOn: seq<Option<EventId>>): set<Option<EventId>> {
    set o | o in dependsOn && (o.None? || o.value !in ended)
  }

  lemma LiveOutstanding(ended: map<EventId, Span>, dependsOn: seq<Option<EventId>>)
    ensures Live(ended, dependsOn)
         == Unmet(ended, DepIds(dependsOn), None in dependsOn)
  {
    var unmet := Unmet(ended, DepIds(dependsOn), None in dependsOn);
    forall o | o in Live(ended, dependsOn) ensures o in unmet {
      var i :| 0 <= i < |dependsOn| && dependsOn[i] == o;
      assert o.Some? ==> o.value in DepIds(dependsOn);
    }
    forall o | o in unmet ensures o in Live(ended, dependsOn) {
      if o.Some? {
        var i :| 0 <= i < |dependsOn| && dependsOn[i].Some? && dependsOn[i].value == o.value;
        assert dependsOn[i] == o;
      }
    }
  }

  lemma AllocatedIds(q: Queue, dependsOn: seq<Option<EventId>>)
    requires Ok(q) && forall i :: 0 <= i < |dependsOn| && dependsOn[i].Some? ==> dependsOn[i].value < q.counter
    ensures DepIds(dependsOn) <= q.arrival.Keys
  {
    hide EventOk, RevOk, OrderOk, HeapOk;
  }

  lemma DepIdsNext(ended: map<EventId, Span>, dependsOn: seq<Option<EventId>>, i: nat)
    requires i < |dependsOn|
    ensures dependsOn[i].None? ==> DepIds(dependsOn[..i + 1]) == DepIds(dependsOn[..i])
    ensures dependsOn[i].Some? ==> DepIds(dependsOn[..i + 1]) == DepIds(dependsOn[..i]) + {dependsOn[i].value}
    ensures Live(ended, dependsOn[..i + 1])
         == if dependsOn[i].None? || dependsOn[i].value !in ended then Live(ended, dependsOn[..i]) + {dependsOn[i]}
            else Live(ended, dependsOn[..i])
  {
    var part, next := dependsOn[..i], dependsOn[..i + 1];
    assert next == part + [dependsOn[i]];
    forall d | d in DepIds(part) ensures d in DepIds(next) {
      var j :| 0 <= j < i && part[j].Some? && part[j].value == d;
      assert next[j] == part[j];
    }
    forall d | d in DepIds(next) ensures d in DepIds(part) || dependsOn[i] == Some(d) {
      var j :| 0 <= j <= i && next[j].Some? && next[j].value == d;
      assert j < i ==> part[j] == next[j];
    }
    assert dependsOn[i].Some? ==> next[i].value in DepIds(next);
  }
}
