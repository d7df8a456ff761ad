/** The simulator of GPUs and their communication, as its ranks call it. */
module GpuSimulator {
  import EQ = EventQueue
  import opened Barriers
  import opened CallGraphs
  import opened Collectives
  import opened EventGraph
  import opened EventSchedule
  import opened EventState
  import opened EventSteps
  import opened ExactCalls
  import opened ExactDesk
  import opened ExactGroups
  import opened ExactSteps
  import opened ExactTransfers
  import opened KernelSequences
  import opened Options
  import opened PointToPoint
  import opened Rendezvous
  import opened Requests
  import opened StreamOrder

  /** The answer to a synchronize call: to whom, for which event, at what time. */
  datatype Answer = Answer(host: nat, event: EventId, time: nat)

  /** One call of a grouped operation. */
  datatype P2PCall = P2PCall(side: Side, comm: nat, rank: nat, peer: nat, stream: Stream) {
    /** The call is one of this side of this transfer. */
    predicate Concerns(side: Side, key: P2PKey) {
      && this.side == side && comm == key.comm
      && if side == Send then rank == key.sender && peer == key.receiver else rank == key.receiver && peer == key.sender
    }

    function Key(): (key: P2PKey)
      ensures forall k :: Concerns(side, k) <==> k == key
    {
      KeyOf(side, comm, rank, peer)
    }
  }

  /** A synchronize call: who asked, when, and what was last on each stream that it covers. */
  datatype Sync = Sync(host: nat, time: nat, covered: set<EventId>)

  /** The event of a synchronize call is a point that waits for what the call covers, from the time of the call on. */
  ghost predicate SyncEvent(q: Queue, e: EventId, s: Sync) {
    && e in q.acts && q.acts[e] == None && e in q.arrival && q.arrival[e] == s.time
    && e in q.deps && q.deps[e] == s.covered && e !in q.held
  }

  /** Every synchronize call is answered once its event has ended, with that end, and only then; until
      then it waits. */
  ghost predicate SyncOk(q: Queue, syncing: map<EventId, nat>, answered: seq<Answer>, asked: map<EventId, Sync>) {
    && (forall e :: e in asked ==> SyncEvent(q, e, asked[e]))
    && (forall e :: e in syncing <==> e in asked && e !in q.ended)
    && (forall e :: e in syncing ==> syncing[e] == asked[e].host)
    && (forall e :: e in asked && e in q.ended ==> AnsweredWith(answered, asked[e].host, q, e))
    && (forall i :: 0 <= i < |answered| ==>
          && answered[i].event in asked && answered[i].host == asked[answered[i].event].host
          && answered[i].event in q.ended && q.ended[answered[i].event].end == answered[i].time)
    && forall i, j :: 0 <= i < j < |answered| ==> answered[i].event != answered[j].event
  }

  ghost predicate AnsweredWith(answered: seq<Answer>, host: nat, q: Queue, e: EventId) {
    e in q.ended && exists i :: 0 <= i < |answered| && answered[i] == Answer(host, e, q.ended[e].end)
  }

  /** Nothing has ended, what was asked for is unchanged, and the events `es` wait for what they did. */
  ghost predicate Kept(q: Queue, q': Queue, es: set<EventId>) {
    && q'.ended == q.ended && q'.ignored == q.ignored && MoreAsked(q, q')
    && forall e :: e in es && e in q.deps ==> e in q'.deps && q'.deps[e] == q.deps[e]
                                              && (e !in q.held ==> e !in q'.held)
  }

  ghost function SetOf(ids: seq<EventId>): set<EventId> {
    set e | e in ids
  }

  class Simulator {
    const queue: EQ.EventQueue
    var streamInfo: map<Stream, StreamInfo>
    var syncing: map<EventId, nat>
    var answered: seq<Answer>
    var commGroups: map<nat, nat>
    var waiting: map<OpKey, seq<CCWaiting>>
    var sendWaiting: map<P2PKey, seq<Endpoint>>
    var recvWaiting: map<P2PKey, seq<Endpoint>>

    ghost var made: OpKey -> Calls
    ghost var done: OpKey -> nat
    ghost var meetings: OpKey -> seq<Meeting>
    ghost var sends: P2PKey -> seq<Endpoint>
    ghost var recvs: P2PKey -> seq<Endpoint>
    ghost var pairs: P2PKey -> seq<Pair>
    ghost var fused: seq<Fused>
    ghost var singles: seq<Single>
    ghost var asked: map<EventId, Sync>

    ghost function TheGraph(): Graph
      reads queue
    {
      GraphOf(queue.View())
    }

    ghost function TheDesk(): Desk
      reads this, queue
    {
      Desk(TheGraph(), streamInfo, commGroups, waiting, sendWaiting, recvWaiting, made, done, meetings, sends, recvs,
          pairs, fused, singles)
    }

    ghost predicate Valid()
      reads this, queue
    {
      && queue.Valid() && queue.ignored == {} && DeskOk(TheDesk())
      && SyncOk(queue.View(), syncing, answered, asked) && LeftAlone(TheDesk(), asked.Keys)
      && AskedOk(queue.View(), TheDesk()) && ExactOk(TheDesk()) && RecordedOk(sends, recvs, fused, singles)
    }

    ghost predicate KeptSince(q: Queue)
      reads this`asked, queue
    {
      Kept(q, queue.View(), asked.Keys)
    }

    constructor ()
      ensures Valid() && fresh(queue) && queue.eventCounter == 0
      ensures TheGraph() == Graph(0, map[], {}) && streamInfo == map[] && commGroups == map[]
      ensures waiting == map[] && sendWaiting == map[] && recvWaiting == map[]
      ensures forall op: OpKey, r: nat :: made(op)(r) == 0
      ensures syncing == map[] && answered == [] && asked == map[]
    {
      queue := new EQ.EventQueue();
      streamInfo, syncing, answered, commGroups := map[], map[], [], map[];
      waiting, sendWaiting, recvWaiting := map[], map[], map[];
      ghost var d := NoDesk();
      made, done, meetings := d.made, d.done, d.meetings;
      sends, recvs, pairs, fused, singles, asked := d.sends, d.recvs, d.pairs, [], [], map[];
      new;
      hide Ok, DeskOk, SyncOk, LeftAlone, ExactBut, AskedOk, RecordedOk;
      assert TheDesk() == NoDesk();
      hide NoDesk;
      EmptyDesk();
      EmptyRecords(queue.View());
      NothingAsked(queue.View(), TheDesk(), asked);
    }

    /*** Events ***/

    /** `add_action_or_point` with dependencies on events only. */
    method Node(ids: seq<EventId>, action: Option<Action>, time: nat) returns (id: EventId)
      requires queue.Valid() && forall i :: 0 <= i < |ids| ==> ids[i] < queue.eventCounter
      modifies queue
      ensures queue.Valid() && id == old(TheGraph().next) && KeptSince(old(queue.View()))
      ensures TheGraph() == AddNode(old(TheGraph()), SetOf(ids), false)
      ensures SameRequestsBut(old(queue.View()), queue.View(), id, action, time)
      ensures action == None ==> PointAt(queue.View(), id, time)
      ensures action == Some(Communication) ==> FlowAt(queue.View(), id, time)
    {
      hide Ok, DepIds, Added, LatestEnd;
      ghost var q := queue.View();
      var dependsOn := AsOptions(ids);
      ghost var arrive;
      id, arrive := queue.AddActionOrPoint(dependsOn, action, time);
      GraphAdded(q, DepIds(dependsOn), false, action, time, arrive);
      RequestAdded(q, DepIds(dependsOn), false, action, time, arrive);
      AddedKeeps(q, DepIds(dependsOn), false, action, time, arrive, asked.Keys);
    }

    /** A point that waits for `None`. */
    method Barrier(time: nat) returns (id: EventId)
      requires queue.Valid()
      modifies queue
      ensures queue.Valid() && id == old(TheGraph().next) && KeptSince(old(queue.View()))
      ensures TheGraph() == AddNode(old(TheGraph()), {}, true) && PointAt(queue.View(), id, time)
    {
      hide Ok, DepIds, Added, LatestEnd;
      ghost var q := queue.View();
      ghost var arrive;
      id, arrive := queue.AddActionOrPoint([None], None, time);
      NoneIsNoId();
      GraphAdded(q, {}, true, None, time, arrive);
      RequestAdded(q, {}, true, None, time, arrive);
      AddedKeeps(q, {}, true, None, time, arrive, asked.Keys);
    }

    /** `add_dependency` where both events lie behind held barriers: the first is still pending,
        the second has not ended. */
    method Link(e: EventId, d: EventId, ghost pe: seq<EventId>, ghost pd: seq<EventId>)
      requires queue.Valid() && Behind(TheGraph(), pe) && Newest(pe) == e && Behind(TheGraph(), pd) && Newest(pd) == d
      requires e !in asked
      modifies queue
      ensures queue.Valid() && TheGraph() == AddEdge(old(TheGraph()), e, d) && KeptSince(old(queue.View()))
    {
      hide Ok, Behind;
      ghost var q := queue.View();
      NewestIsPending(q, pe);
      NewestIsPending(q, pd);
      queue.AddDependency(e, Some(d));
      GraphDependency(q, e, d);
      DependencyKeeps(q, e, d, asked.Keys);
    }

    /** `remove_none_dependency` on a held barrier. */
    method Release(e: EventId)
      requires queue.Valid() && e in queue.held
      modifies queue
      ensures queue.Valid() && TheGraph() == Unhold(old(TheGraph()), e) && KeptSince(old(queue.View()))
    {
      hide Ok, BarrierReleased;
      ghost var q := queue.View();
      GraphReleased(q, e);
      HeldIsPending(q, e);
      ReleaseEndsNothing(q, e);
      queue.RemoveNoneDependency(e);
      assert KeptSince(q);
    }

    /*** Streams ***/

    /** `clear_compute_buffer_on`: the buffered kernels are cut into sequences, and become one event each, after
        the one before, from the time of the call on.  A kernel alone in its sequence takes what it was said to take;
        how long the others take is up to the estimator. */
    method ClearComputeBuffer(stream: Stream) returns (ghost callSeqs: seq<seq<Kernel>>)
      requires queue.Valid() && InOrder(TheGraph(), InfoAt(streamInfo, stream).events)
      modifies queue, this`streamInfo
      ensures queue.Valid() && KeptSince(old(queue.View()))
      ensures var info := InfoAt(old(streamInfo), stream);
              var (g, events) := Flushed(old(TheGraph()), info.events, |info.buffered|);
              TheGraph() == g && streamInfo == old(streamInfo)[stream := StreamInfo(events, [])]
      ensures Launched(queue.View(), old(TheGraph()).next, InfoAt(old(streamInfo), stream).buffered)
      ensures Flatten(callSeqs) == InfoAt(old(streamInfo), stream).buffered
              && (Cut(callSeqs) || forall i :: 0 <= i < |callSeqs| ==> |callSeqs[i]| == 1)
      ensures forall i :: 0 <= i < |callSeqs| && |callSeqs[i]| == 1 ==>
                var e := old(TheGraph()).next + |Flatten(callSeqs[..i])|;
                e in queue.acts && queue.acts[e] == Some(Computation(callSeqs[i][0].duration))
      ensures var first, calls := old(TheGraph()).next, InfoAt(old(streamInfo), stream).buffered;
              forall e: EventId :: first <= e < first + |calls| ==>
                && e in queue.arrival && queue.arrival[e] == calls[e - first].time
                && e in queue.acts && queue.acts[e].Some? && queue.acts[e].value.Computation?
    {
      hide Ok, Flushed, InOrder, Kept, Flatten, Cut, Launched, Timed, Takes;
      KeptFirst(queue.View(), asked.Keys);
      ghost var q, g := queue.View(), TheGraph();
      var info := InfoAt(streamInfo, stream);
      var disabled := *;
      var cutSeqs := SplitSequences(disabled, info.buffered);
      callSeqs := cutSeqs;
      var events := info.events;
      ghost var calls: seq<Kernel> := [];
      FlushDone(g, events);
      NoneLaunched(q);
      NothingCut();
      assert callSeqs[..0] == [];
      NoneTimed(q, g.next);
      for i := 0 to |cutSeqs|
        invariant queue.Valid() && KeptSince(q) && InOrder(TheGraph(), events) && streamInfo == old(streamInfo)
        invariant calls == Flatten(callSeqs[..i]) && (TheGraph(), events) == Flushed(g, info.events, |calls|)
        invariant TheGraph().next == g.next + |calls| && Launched(queue.View(), g.next, calls)
        invariant Timed(queue.View(), g.next, callSeqs[..i])
      {
        ghost var q1, g1, events1 := queue.View(), TheGraph(), events;
        GraphIsDense(q1);
        FlushedInOrder(g1, events1, |callSeqs[i]|);
        events := AddSequence(events, cutSeqs[i]);
        OneMoreTimed(q1, queue.View(), asked.Keys, g.next, callSeqs, i);
        KeptTwice(q, q1, queue.View(), asked.Keys);
        FlushedTwice(g, info.events, |calls|, |callSeqs[i]|);
        FlattenNext(callSeqs, i);
        MoreLaunched(q1, queue.View(), asked.Keys, g.next, calls, callSeqs[i]);
        calls := calls + callSeqs[i];
      }
      assert callSeqs[..|callSeqs|] == callSeqs;
      LaunchedAll(queue.View(), g.next, calls);
      TimedAll(queue.View(), g.next, callSeqs);
      streamInfo := streamInfo[stream := StreamInfo(events, [])];
    }

    /** One sequence of kernels, each after the one before. */
    method AddSequence(last: seq<EventId>, calls: seq<Kernel>) returns (events: seq<EventId>)
      requires queue.Valid() && InOrder(TheGraph(), last)
      modifies queue
      ensures queue.Valid() && KeptSince(old(queue.View()))
              && (TheGraph(), events) == Flushed(old(TheGraph()), last, |calls|)
      ensures Launched(queue.View(), old(TheGraph()).next, calls)
      ensures |calls| == 1 ==> Takes(queue.View(), old(TheGraph()).next, calls[0].duration)
    {
      hide Ok, Flushed, InOrder, SameRequestsBut, Kept, Launched, LaunchedAs, Takes;
      KeptFirst(queue.View(), asked.Keys);
      var durations := Estimate(calls);
      events := last;
      NoneLaunched(queue.View());
      for i := 0 to |calls|
        invariant queue.Valid() && KeptSince(old(queue.View())) && InOrder(TheGraph(), events)
        invariant Flushed(TheGraph(), events, |calls| - i) == Flushed(old(TheGraph()), last, |calls|)
        invariant TheGraph().next == old(TheGraph()).next + i
                  && Launched(queue.View(), old(TheGraph()).next, calls[..i])
        invariant i == 1 ==> Takes(queue.View(), old(TheGraph()).next, durations[0])
      {
        ghost var g, q := TheGraph(), queue.View();
        GraphIsDense(q);
        FlushNext(g, events, |calls| - i);
        OnTopInOrder(g, events, {});
        LastIsKnown(g, events);
        OnTopPlain(g, events);
        var id := Node(LastList(events), Some(Computation(durations[i])), calls[i].time);
        KeptTwice(old(queue.View()), q, queue.View(), asked.Keys);
        OneLaunched(queue.View(), id, calls[i], durations[i], q);
        assert i == 0 ==> Takes(queue.View(), id, durations[0]);
        assert calls[..i + 1] == calls[..i] + [calls[i]];
        MoreLaunched(q, queue.View(), asked.Keys, old(TheGraph()).next, calls[..i], [calls[i]]);
        events := events + [id];
      }
      FlushDone(TheGraph(), events);
      assert calls[..|calls|] == calls;
    }

    /** A single kernel takes what it was said to take; a sequence, whatever the estimator makes of it. */
    method Estimate(calls: seq<Kernel>) returns (durations: seq<nat>)
      ensures |durations| == |calls| && (|calls| == 1 ==> durations == [calls[0].duration])
    {
      if |calls| == 1 {
        return [calls[0].duration];
      }
      NoDurations(|calls|);
      durations :| |durations| == |calls|;
    }

    /** `add_event`: buffered kernels first, then an event after the last one on the stream. */
    method AddEvent(stream: Stream, dependsOn: seq<EventId>, action: Option<Action>, time: nat) returns (id: EventId)
      requires queue.Valid() && InOrder(TheGraph(), InfoAt(streamInfo, stream).events)
      requires forall i :: 0 <= i < |dependsOn| ==> dependsOn[i] < queue.eventCounter
      modifies queue, this`streamInfo
      ensures queue.Valid() && KeptSince(old(queue.View()))
      ensures var (g, events) := Appended(old(TheGraph()), InfoAt(old(streamInfo), stream), SetOf(dependsOn));
              && TheGraph() == g && streamInfo == old(streamInfo)[stream := StreamInfo(events, [])]
                 && id == Newest(events)
      ensures id in queue.acts && queue.acts[id] == action && id in queue.arrival && queue.arrival[id] == time
      ensures action == None ==> PointAt(queue.View(), id, time)
    {
      hide Ok, Flushed, InOrder, Dense, Extends, Kept, Appended;
      GraphIsDense(queue.View());
      AppendedUnfolds(TheGraph(), InfoAt(streamInfo, stream), SetOf(dependsOn));
      FlushedInOrder(TheGraph(), InfoAt(streamInfo, stream).events, |InfoAt(streamInfo, stream).buffered|);
      ghost var _ := ClearComputeBuffer(stream);
      ghost var q := queue.View();
      var events := streamInfo[stream].events;
      LastIsKnown(TheGraph(), events);
      id := Node(dependsOn + LastList(events), action, time);
      KeptTwice(old(queue.View()), q, queue.View(), asked.Keys);
      SetOfBoth(dependsOn, events);
      streamInfo := streamInfo[stream := StreamInfo(events + [id], [])];
    }

    /** A kernel that is estimated later, together with others: `handle_torch_call`. */
    method Launch(stream: Stream, kernel: Kernel)
      requires Valid()
      modifies this`streamInfo
      ensures Valid()
      ensures TheDesk() == old(TheDesk()).(streams := streamInfo)
      ensures var info := InfoAt(old(streamInfo), stream);
              streamInfo == old(streamInfo)[stream := info.(buffered := info.buffered + [kernel])]
    {
      hide Ok, DeskBut, SyncOk, HistoryOk, Continues, LeftAlone, AskedOk, ExactBut, RecordedOk;
      ghost var d := TheDesk();
      var info := InfoAt(streamInfo, stream);
      streamInfo := streamInfo[stream := info.(buffered := info.buffered + [kernel])];
      InfoInOrder(d, {}, stream);
      StreamGrows(d, {}, stream, info.(buffered := info.buffered + [kernel]));
      StreamContinues(d.streams, stream, info.(buffered := info.buffered + [kernel]));
      SelfExtends(d.graph);
      GrownHistory(d, d.graph, streamInfo);
      StreamsExact(d, TheDesk());
      LeftAloneStays(d, TheDesk(), asked.Keys);
      NothingMoreAsked(queue.View(), d, TheDesk());
    }

    /** Any other operation that puts one event on a stream: copies, latencies, recorded and awaited events. */
    method Enqueue(stream: Stream, dependsOn: seq<EventId>, action: Option<Action>, time: nat) returns (id: EventId)
      requires Valid() && forall i :: 0 <= i < |dependsOn| ==> dependsOn[i] < queue.eventCounter
      modifies queue, this`streamInfo
      ensures Valid() && KeptSince(old(queue.View()))
      ensures TheDesk() == OnStream(old(TheDesk()), stream, SetOf(dependsOn)) && id == Newest(streamInfo[stream].events)
      ensures id in queue.acts && queue.acts[id] == action && id in queue.arrival && queue.arrival[id] == time
      ensures old(queue.eventCounter) <= id < queue.eventCounter == id + 1
    {
      hide Ok, DeskBut, Appended, SyncOk, InOrder, HistoryOk, LeftAlone, Kept, AskedOk, ExactBut, RecordedOk;
      InfoInOrder(TheDesk(), {}, stream);
      GraphIsDense(queue.View());
      ghost var d := TheDesk();
      OnStreamExact(d, stream, SetOf(dependsOn));
      OnStreamOk(d, {}, stream, SetOf(dependsOn));
      OnStreamRecords(d, stream, SetOf(dependsOn));
      id := AddEvent(stream, dependsOn, action, time);
      LeftAloneStays(d, TheDesk(), asked.Keys);
      KeptSync(old(queue.View()), queue.View(), syncing, answered, asked);
      KeptAsked(old(queue.View()), queue.View(), asked.Keys, d, TheDesk());
    }

    /*** Synchronizing ***/

    /** One step of the queue, answering whoever waits for the event that ends with it.  If the
        queue is empty the network may report any ends that fit. */
    method Step() returns (step: EQ.QueueStep)
      requires Valid()
      modifies queue, this`syncing, this`answered
      ensures Valid() && TheDesk() == old(TheDesk()) && SameRequests(old(queue.View()), queue.View())
      ensures StepTaken(step, old(queue.ended), queue.ended, old(syncing), syncing, old(answered), answered)
      ensures step.EmptyQueue? ==> queue.eventQueue == map[]
      ensures step.EventStarted? ==> |queue.inQueueNotStarted| < |old(queue.inQueueNotStarted)|
    {
      hide Ok, DeskBut, SyncOk, Fits, EQ.Stepped, EQ.Refilled, HistoryOk, LeftAlone, EQ.ClockFits,
          EQ.ClockAfter, EQ.FlowsFit, AskedOk, ExactBut, RecordedOk;
      ghost var q := queue.View();
      NothingFits(q, queue.netTs);
      var report: seq<FlowEnd>, clock: nat :|
        Fits(queue.started, queue.eventQueue, report) && EQ.ClockFits(queue.netTs, report, clock);
      ghost var ready;
      step, ready := queue.Execute(report, clock);
      SteppedIs(q, report, queue.View(), step, ready);
      SteppedAsked(q, queue.View(), TheDesk(), old(TheDesk()));
      if step.EventEnded? || step.ReachedPoint? {
        AnswerTo(step.id, step.time, q);
      } else {
        KeptSync(q, queue.View(), syncing, answered, asked);
      }
    }

    /** Whoever waits for event `id` is told when it ended. */
    method AnswerTo(id: EventId, time: nat, ghost q: Queue)
      requires id !in q.ended && id in queue.ended && queue.ended == q.ended[id := queue.ended[id]]
               && queue.ended[id].end == time
      requires GraphOf(queue.View()) == GraphOf(q) && SameRequests(q, queue.View())
               && SyncOk(q, syncing, answered, asked)
      modifies this`syncing, this`answered
      ensures SyncOk(queue.View(), syncing, answered, asked)
      ensures syncing == old(syncing) - {id}
      ensures answered == if id in old(syncing) then old(answered) + [Answer(old(syncing)[id], id, time)]
              else old(answered)
    {
      hide SyncEvent;
      if id in syncing {
        var host := syncing[id];
        syncing := syncing - {id};
        answered := answered + [Answer(host, id, time)];
      } else {
        assert syncing - {id} == syncing;
      }
      AnswersGrow(q, queue.View(), old(syncing), old(answered), asked, id, answered);
    }

    /** `execute_to_event`: run the queue until event `until` has ended or nothing is left to run,
        answering whoever waits for an event that ends on the way.  The network may report any ends
        that fit. */
    method ExecuteToEvent(until: EventId) returns (reached: bool)
      requires Valid() && until !in queue.ended
      modifies queue, this`syncing, this`answered
      ensures Valid() && TheDesk() == old(TheDesk()) && SameRequests(old(queue.View()), queue.View())
      ensures reached <==> until in queue.ended
      ensures reached && until in old(syncing) ==> AnsweredWith(answered, old(syncing)[until], queue.View(), until)
      ensures !reached ==> queue.eventQueue == map[]
      ensures old(answered) <= answered
    {
      hide Ok, DeskBut, SyncOk, Fits, HistoryOk, LeftAlone, AskedOk, ExactBut, RecordedOk;
      while true
        invariant Valid() && TheDesk() == old(TheDesk()) && SameRequests(old(queue.View()), queue.View())
        invariant until !in queue.ended && old(answered) <= answered
        invariant until in old(syncing) ==> until in syncing && syncing[until] == old(syncing)[until]
        decreases queue.eventCounter - |queue.ended|, |queue.inQueueNotStarted|
      {
        ghost var was, q := syncing, queue.View();
        EndedCount(q);
        var step := Step();
        StepCounts(step, q, queue.View(), was, syncing);
        match step {
          case EmptyQueue => return false;
          case EventStarted(_, _) =>
          case EventEnded(id, time) =>
            if id == until {
              assert until in was ==> answered[|answered| - 1] == Answer(was[until], until, time);
              return true;
            }
          case ReachedPoint(id, time) =>
            if id == until {
              assert until in was ==> answered[|answered| - 1] == Answer(was[until], until, time);
              return true;
            }
        }
      }
      return false;
    }

    /** Wait for the new event `event` on behalf of `host`. */
    method WaitFor(host: nat, event: EventId, ghost time: nat) returns (reached: bool)
      requires Valid() && event < queue.eventCounter && event !in queue.ended && event !in asked
      requires event in queue.acts && queue.acts[event] == None && event in queue.arrival
               && queue.arrival[event] == time
      requires event in queue.deps && event !in queue.held && LeftAlone(TheDesk(), asked.Keys + {event})
      modifies queue, this`syncing, this`answered, this`asked
      ensures Valid() && TheDesk() == old(TheDesk())
              && asked == old(asked)[event := Sync(host, time, queue.deps[event])]
      ensures reached <==> event in queue.ended
      ensures reached ==> Synced(queue.View(), event, time) && AnsweredWith(answered, host, queue.View(), event)
      ensures !reached ==> event in syncing && syncing[event] == host && queue.eventQueue == map[]
    {
      hide Ok, DeskBut, SyncOk, HistoryOk, LeftAlone, AskedOk, ExactBut, RecordedOk;
      StartsWaiting(queue.View(), syncing, answered, asked, event, host, time);
      syncing := syncing[event := host];
      asked := asked[event := Sync(host, time, queue.deps[event])];
      assert asked.Keys == old(asked.Keys) + {event};
      reached := ExecuteToEvent(event);
      AskedWaits(queue.View(), syncing, answered, asked, event);
      if reached {
        SyncedIs(queue.View(), event, time);
      }
    }

    /** `cuda_stream_synchronize`: a point on the stream that waits for what was last there.  If it is not
        reached in this call the caller goes on waiting, and `Valid()` promises the answer. */
    method StreamSynchronize(host: nat, stream: Stream, time: nat) returns (event: EventId, reached: bool)
      requires Valid()
      modifies queue, this`streamInfo, this`syncing, this`answered, this`asked
      ensures Valid() && TheDesk() == OnStream(old(TheDesk()), stream, {}) && event == Newest(streamInfo[stream].events)
      ensures event in queue.deps && asked == old(asked)[event := Sync(host, time, queue.deps[event])]
      ensures var events := streamInfo[stream].events;
              && events != [] && queue.deps[event] == LastOf(events[..|events| - 1])
              && queue.deps[event] == if |events| == 1 then {} else {events[|events| - 2]}
      ensures reached <==> event in queue.ended
      ensures reached ==> Synced(queue.View(), event, time) && AnsweredWith(answered, host, queue.View(), event)
      ensures !reached ==> event in syncing && syncing[event] == host && queue.eventQueue == map[]
    {
      hide Ok, DeskBut, SyncOk, OnStream, Synced, AnsweredWith, HistoryOk, LeftAlone, Kept, LastOf, AskedOk, ExactBut,
          RecordedOk;
      ghost var q, d := queue.View(), TheDesk();
      assert SetOf([]) == {};
      event := Enqueue(stream, [], None, time);
      OnTopOfLast(d, stream);
      LastBefore(streamInfo[stream].events);
      OneMoreLeftAlone(d, TheDesk(), asked.Keys, event);
      NewIsFresh(q, queue.View(), asked, event) by { AskedKnown(q, syncing, answered, asked); }
      reached := WaitFor(host, event, time);
    }

    /** `cuda_device_synchronize`: the same for all streams of a device together; they are visited in
        any order. */
    method DeviceSynchronize(host: nat, device: nat, time: nat) returns (event: EventId, reached: bool)
      requires Valid()
      modifies queue, this`streamInfo, this`syncing, this`answered, this`asked
      ensures Valid() && event in queue.deps && asked == old(asked)[event := Sync(host, time, queue.deps[event])]
      ensures queue.deps[event] == LastsOf(streamInfo, StreamsOn(streamInfo, host, device))
      ensures forall e :: e in queue.deps[event] <==>
                exists s: Stream :: s.host == host && s.device == device && EndsWith(streamInfo, s, e)
      ensures streamInfo.Keys == old(streamInfo).Keys
      ensures Cleared(streamInfo, StreamsOn(streamInfo, host, device))
      ensures reached <==> event in queue.ended
      ensures reached ==> Synced(queue.View(), event, time) && AnsweredWith(answered, host, queue.View(), event)
      ensures !reached ==> event in syncing && syncing[event] == host && queue.eventQueue == map[]
    {
      hide Ok, DeskBut, SyncOk, Synced, AnsweredWith, LastsOf, SetOf, HistoryOk, LeftAlone, Kept, Continues, Extends,
          AskedOk, EndsWith, ExactBut;
      var lasts := ClearDevice(host, device);
      ghost var q, d := queue.View(), TheDesk();
      NodeExact(d, SetOf(lasts));
      DeskIsDense(d, {});
      NotYetHeld(d.graph);
      SetOfKnown(lasts, d.graph.next);
      NodeOk(d, {}, SetOf(lasts));
      SameContinues(d.streams);
      GrownHistory(d, AddNode(d.graph, SetOf(lasts), false), d.streams);
      event := Node(lasts, None, time);
      KeptSync(q, queue.View(), syncing, answered, asked);
      KeptAsked(q, queue.View(), asked.Keys, d, TheDesk());
      LeftAloneStays(d, TheDesk(), asked.Keys);
      OneMoreLeftAlone(d, TheDesk(), asked.Keys, event);
      NewIsFresh(q, queue.View(), asked, event) by { AskedKnown(q, syncing, answered, asked); }
      LastsAre(streamInfo, host, device);
      reached := WaitFor(host, event, time);
    }

    method ClearDevice(host: nat, device: nat) returns (lasts: seq<EventId>)
      requires Valid()
      modifies queue, this`streamInfo
      ensures Valid() && KeptSince(old(queue.View())) && streamInfo.Keys == old(streamInfo).Keys
      ensures SetOf(lasts) == LastsOf(streamInfo, StreamsOn(streamInfo, host, device))
      ensures Cleared(streamInfo, StreamsOn(streamInfo, host, device))
      ensures forall i :: 0 <= i < |lasts| ==> lasts[i] < queue.eventCounter
    {
      hide Ok, DeskBut, DeskOk, SyncOk, LastsOf, SetOf, StreamsOn, Cleared, LeftAlone, Kept, AskedOk, ExactBut,
          RecordedOk;
      KeptFirst(queue.View(), asked.Keys);
      lasts := [];
      var todo := StreamsOn(streamInfo, host, device);
      ghost var all, seen: set<Stream> := todo, {};
      NoLasts(streamInfo);
      while todo != {}
        invariant Valid() && KeptSince(old(queue.View())) && streamInfo.Keys == old(streamInfo).Keys
        invariant seen !! todo && seen + todo == all
        invariant Cleared(streamInfo, seen) && SetOf(lasts) == LastsOf(streamInfo, seen)
        invariant forall i :: 0 <= i < |lasts| ==> lasts[i] < queue.eventCounter
        decreases |todo|
      {
        var s :| s in todo;
        ghost var infoBefore, q := streamInfo, queue.View();
        StreamKnown(infoBefore, old(streamInfo), host, device, s);
        var last := ClearOne(s);
        KeptTwice(old(queue.View()), q, queue.View(), asked.Keys);
        MoreLasts(infoBefore, streamInfo, seen, s, lasts);
        todo, seen := todo - {s}, seen + {s};
        lasts := lasts + last;
      }
      SameStreams(streamInfo, old(streamInfo), host, device);
      assert seen == all;
    }

    method ClearOne(s: Stream) returns (last: seq<EventId>)
      requires Valid() && s in streamInfo
      modifies queue, this`streamInfo
      ensures Valid() && KeptSince(old(queue.View())) && old(queue.eventCounter) <= queue.eventCounter
      ensures s in streamInfo && streamInfo == old(streamInfo)[s := streamInfo[s]] && streamInfo[s].buffered == []
      ensures last == LastList(streamInfo[s].events) && forall i :: 0 <= i < |last| ==> last[i] < queue.eventCounter
    {
      hide Ok, DeskBut, SyncOk, Flushed, InOrder, HistoryOk, LeftAlone, Kept, AskedOk, ExactBut, RecordedOk;
      ghost var before := TheDesk();
      FlushedExact(before, s);
      InfoInOrder(before, {}, s);
      FlushedOk(before, s);
      ghost var _ := ClearComputeBuffer(s);
      KeptSync(old(queue.View()), queue.View(), syncing, answered, asked);
      LeftAloneStays(before, TheDesk(), asked.Keys);
      KeptAsked(old(queue.View()), queue.View(), asked.Keys, before, TheDesk());
      last := LastList(streamInfo[s].events);
      InfoInOrder(TheDesk(), {}, s);
      LastIsKnown(TheGraph(), streamInfo[s].events);
    }

    /*** Collectives ***/

    /** A communicator of `n` ranks is ready: the end of `nccl_comm_init_rank`. */
    method AddGroup(comm: nat, n: nat)
      requires Valid() && comm !in commGroups
      modifies this`commGroups
      ensures Valid() && TheDesk() == old(TheDesk()).(groups := old(commGroups)[comm := n])
    {
      hide Ok, SyncOk, LeftAlone, AskedOk, ExactBut, RecordedOk, DeskBut, HistoryOk;
      ghost var d := TheDesk();
      SameContinues(d.streams);
      StreamsExact(d, d.(groups := d.groups[comm := n]));
      GroupAddedOk(d, comm, n);
      commGroups := commGroups[comm := n];
      LeftAloneStays(d, TheDesk(), asked.Keys);
      NothingMoreAsked(queue.View(), d, TheDesk());
    }

    /** `nccl_call`: the rank joins the first collective of the operation that it has not joined yet,
        or opens a new one. */
    method NcclCall(op: OpKey, rank: nat, stream: Stream, flows: nat, time: nat)
      requires Valid() && op.comm in commGroups && rank < commGroups[op.comm]
      modifies queue, this`streamInfo, this`waiting, this`made, this`done, this`meetings
      ensures Valid() && KeptSince(old(queue.View()))
      ensures TheDesk() == Called(old(TheDesk()), op, rank, stream, flows, time)
    {
      hide Ok, DeskBut, SyncOk, Called, InOrder, HistoryOk, Kept, LeftAlone, AskedOk, ExactBut, RecordedOk;
      ghost var d := TheDesk();
      InfoInOrder(d, {}, stream);
      CalledExact(d, op, rank, stream, flows, time);
      CalledOk(d, op, rank, stream, flows, time);
      CalledGrows(d, op, rank, stream, flows, time);
      CalledLeavesAlone(d, op, rank, stream, flows, time, asked.Keys);
      var idx := FirstOpen(DequeAt(waiting, op), rank);
      if idx == |DequeAt(waiting, op)| {
        OpenNew(op, rank, stream, flows, time);
      } else {
        DeskGated(d, op, idx);
        IsLeftAlone(d, asked.Keys, op, idx);
        JoinAt(op, idx, rank, stream, flows, time);
      }
      KeptSync(old(queue.View()), queue.View(), syncing, answered, asked);
    }

    /** A call that finds no open collective. */
    method OpenNew(op: OpKey, rank: nat, stream: Stream, flows: nat, time: nat)
      requires queue.Valid() && InOrder(TheGraph(), InfoAt(streamInfo, stream).events)
      requires op.comm in commGroups && FirstOpen(DequeAt(waiting, op), rank) == |DequeAt(waiting, op)|
      requires AskedOk(queue.View(), TheDesk())
      modifies queue, this`streamInfo, this`waiting, this`made, this`meetings
      ensures queue.Valid() && KeptSince(old(queue.View())) && AskedOk(queue.View(), TheDesk())
              && TheDesk() == Called(old(TheDesk()), op, rank, stream, flows, time)
    {
      hide Ok, Opened, InOrder, Gated, Kept, Called, Put, NewMeeting, FirstOpen, AskedOk, PointAt, PartAsked;
      ghost var q, d := queue.View(), TheDesk();
      var c := Open(commGroups[op.comm], rank, stream, flows, time);
      ghost var d1, events := TheDesk(), streamInfo[stream].events;
      OpenedRecords(q, queue.View(), asked.Keys, d, d1, op, rank, stream, flows, time, events, c);
      ghost var ms := meetings(op) + [NewMeeting(d, op, rank, stream, flows, time, events)];
      NoteCall(op, rank, DequeAt(waiting, op) + [c], ms);
      OpenedIsCalled(d, d1, TheDesk(), op, rank, stream, flows, time, events, c);
      OperationAsked(queue.View(), d1, TheDesk(), op) by { PutElsewhere(d1.meetings, op, ms); }
    }

    /** A call that joins the collective at `idx` of its deque. */
    method JoinAt(op: OpKey, idx: nat, rank: nat, stream: Stream, flows: nat, time: nat)
      requires queue.Valid() && InOrder(TheGraph(), InfoAt(streamInfo, stream).events)
      requires op.comm in commGroups && idx == FirstOpen(DequeAt(waiting, op), rank) < |DequeAt(waiting, op)|
      requires Gated(TheGraph(), DequeAt(waiting, op)[idx])
      requires DequeAt(waiting, op)[idx].commStart !in asked && DequeAt(waiting, op)[idx].commEnd !in asked
      requires AskedOk(queue.View(), TheDesk())
      modifies queue, this`streamInfo, this`waiting, this`made, this`done, this`meetings
      ensures queue.Valid() && KeptSince(old(queue.View())) && AskedOk(queue.View(), TheDesk())
              && TheDesk() == Called(old(TheDesk()), op, rank, stream, flows, time)
    {
      hide Ok, JoinedGraph, Completed, InOrder, Gated, Kept, Called, Put, Attending, WithFlowsOf, LastTwo, FirstOpen,
          OneMoreCall, OneMoreDone, AskedOk, PartAsked;
      ghost var q0, d := queue.View(), TheDesk();
      var waitings := DequeAt(waiting, op);
      var c := JoinedBy(waitings[idx], rank);
      Join(waitings[idx], stream, time);
      ghost var q, d1, events := queue.View(), TheDesk(), streamInfo[stream].events;
      ghost var ms := Attending(meetings(op), done(op) + idx, rank, LastTwo(stream, events, time));
      JoinedRecords(q0, q, asked.Keys, d, d1, op, done(op) + idx, rank, LastTwo(stream, events, time));
      if c.waitingFor == {} {
        ghost var k := done(op) + idx;
        NoteCall(op, rank, waitings[..idx] + waitings[idx + 1..], WithFlowsOf(ms, done(op) + idx, d1.graph.next,
            c.flows, time));
        NoteDone(op);
        ghost var d2 := TheDesk();
        JoinedByGated(d1.graph, waitings[idx], rank);
        Complete(c, time);
        KeptTwice(old(queue.View()), q, queue.View(), asked.Keys);
        FlowRecords(q, queue.View(), asked.Keys, d1, TheDesk(), op, ms, k, d1.graph.next, c.flows, time);
        LastIsCalled(d, d1, d2, TheDesk(), op, idx, rank, stream, flows, time, events, c, ms);
      } else {
        NoteCall(op, rank, waitings[idx := c], ms);
        OperationAsked(q, d1, TheDesk(), op) by { PutElsewhere(d1.meetings, op, ms); }
        JoinedIsCalled(d, d1, TheDesk(), op, idx, rank, stream, flows, time, events);
      }
    }

    /** The deque after a call, and the records of the call. */
    method NoteCall(op: OpKey, rank: nat, waitings: seq<CCWaiting>, ghost ms: seq<Meeting>)
      modifies this`waiting, this`made, this`meetings
      ensures TheDesk() == old(TheDesk()).(waiting := old(waiting)[op := waitings],
              made := OneMoreCall(old(made), op, rank),
                                           meetings := Put(old(meetings), op, ms))
    {
      waiting := waiting[op := waitings];
      made := OneMoreCall(made, op, rank);
      meetings := Put(meetings, op, ms);
    }

    ghost method NoteDone(op: OpKey)
      modifies this`done
      ensures TheDesk() == old(TheDesk()).(done := OneMoreDone(old(done), op))
    {
      done := OneMoreDone(done, op);
    }

    /** The ranks of a communicator other than `rank`. */
    method OthersThan(n: nat, rank: nat) returns (others: set<nat>)
      ensures others == Ranks(n) - {rank}
    {
      others := {};
      for i := 0 to n
        invariant others == Ranks(i) - {rank}
      {
        if i != rank {
          others := others + {i};
        }
      }
    }

    /** `new_cc_waiting`: the first rank's call. */
    method Open(n: nat, rank: nat, stream: Stream, flows: nat, time: nat) returns (c: CCWaiting)
      requires queue.Valid() && InOrder(TheGraph(), InfoAt(streamInfo, stream).events)
      modifies queue, this`streamInfo
      ensures queue.Valid() && KeptSince(old(queue.View()))
      ensures var (g, events) := Opened(old(TheGraph()), InfoAt(old(streamInfo), stream));
              TheGraph() == g && streamInfo == old(streamInfo)[stream := StreamInfo(events, [])]
      ensures var first := old(TheGraph()).next + |InfoAt(old(streamInfo), stream).buffered| + 2;
              c == CCWaiting(flows, first, first + 1, old(TheGraph()).next, {rank}, Ranks(n) - {rank})
      ensures PointAt(queue.View(), c.barrier, time) && PointAt(queue.View(), c.commStart, time)
              && PointAt(queue.View(), c.commEnd, time)
      ensures PartAsked(queue.View(), LastTwo(stream, streamInfo[stream].events, time))
    {
      hide Ok, InOrder, Appended, SetOf, Opened, AddNode, Dense, Extends, Kept, PointAt;
      var others := OthersThan(n, rank);
      ghost var g, info := TheGraph(), InfoAt(streamInfo, stream);
      OpenedUnfolds(g, info);
      var commBarrier, streamStart := OpenStart(stream, time);
      ghost var g1, events := TheGraph(), streamInfo[stream].events;
      MetaNodes(g1, events);
      ghost var q1 := queue.View();
      var commStart, commEnd := MetaPoints(streamStart, time);
      KeptTwice(old(queue.View()), q1, queue.View(), asked.Keys);
      KeptPoint(q1, queue.View(), asked.Keys, commBarrier, time);
      KeptPoint(q1, queue.View(), asked.Keys, streamStart, time);
      ghost var q2 := queue.View();
      SetOfOne(commEnd);
      AppendedAlone(TheGraph(), events, {commEnd});
      var streamEnd := AddEvent(stream, [commEnd], None, time);
      KeptTwice(old(queue.View()), q2, queue.View(), asked.Keys);
      KeptPoint(q2, queue.View(), asked.Keys, commBarrier, time);
      KeptPoint(q2, queue.View(), asked.Keys, streamStart, time);
      KeptPoint(q2, queue.View(), asked.Keys, commStart, time);
      KeptPoint(q2, queue.View(), asked.Keys, commEnd, time);
      LastTwoAre(stream, events, streamEnd, time);
      c := CCWaiting(flows, commStart, commEnd, commBarrier, {rank}, others);
    }

    /** The barrier of a new collective, and the start of its first rank's stream behind it. */
    method OpenStart(stream: Stream, time: nat) returns (commBarrier: EventId, streamStart: EventId)
      requires queue.Valid() && InOrder(TheGraph(), InfoAt(streamInfo, stream).events)
      modifies queue, this`streamInfo
      ensures queue.Valid() && KeptSince(old(queue.View()))
      ensures commBarrier == old(TheGraph()).next
      ensures var g, info := old(TheGraph()), InfoAt(old(streamInfo), stream);
              var (g1, events) := Appended(AddNode(g, {}, true), info, {g.next});
              && TheGraph() == g1 && streamInfo == old(streamInfo)[stream := StreamInfo(events, [])]
              && events != [] && streamStart == Newest(events) && streamStart + 1 == g1.next == g.next
                 + |info.buffered| + 2
              && InOrder(g1, events) && Dense(g1)
      ensures PointAt(queue.View(), commBarrier, time) && PointAt(queue.View(), streamStart, time)
    {
      hide Ok, InOrder, Appended, Dense, Extends, SetOf, Kept, PointAt;
      ghost var g, info := TheGraph(), InfoAt(streamInfo, stream);
      GraphIsDense(queue.View());
      NodeExtends(g, {}, true);
      ExtendsInOrder(g, AddNode(g, {}, true), info.events);
      commBarrier := Barrier(time);
      SetOfOne(commBarrier);
      AppendedInOrder(TheGraph(), info, {commBarrier});
      ghost var q := queue.View();
      streamStart := AddEvent(stream, [commBarrier], None, time);
      KeptTwice(old(queue.View()), q, queue.View(), asked.Keys);
      KeptPoint(q, queue.View(), asked.Keys, commBarrier, time);
      NewestIsKnown(TheGraph(), streamInfo[stream].events);
    }

    /** The common start after `streamStart`, and the common end after that. */
    method MetaPoints(streamStart: EventId, time: nat) returns (commStart: EventId, commEnd: EventId)
      requires queue.Valid() && streamStart < queue.eventCounter
      modifies queue
      ensures queue.Valid() && KeptSince(old(queue.View()))
      ensures commStart == old(TheGraph()).next && queue.eventCounter - 1 == commEnd == commStart + 1
      ensures TheGraph() == AddNode(AddNode(old(TheGraph()), {streamStart}, false), {commStart}, false)
      ensures PointAt(queue.View(), commStart, time) && PointAt(queue.View(), commEnd, time)
    {
      hide Ok, SetOf, SameRequestsBut, Kept, PointAt;
      SetOfOne(streamStart);
      commStart := Node([streamStart], None, time);
      SetOfOne(commStart);
      ghost var q := queue.View();
      commEnd := Node([commStart], None, time);
      KeptTwice(old(queue.View()), q, queue.View(), asked.Keys);
      KeptPoint(q, queue.View(), asked.Keys, commStart, time);
    }

    /** A further rank's call, up to the point where the collective may be complete. */
    method Join(c: CCWaiting, stream: Stream, time: nat)
      requires queue.Valid() && InOrder(TheGraph(), InfoAt(streamInfo, stream).events) && Gated(TheGraph(), c)
      requires c.commStart !in asked
      modifies queue, this`streamInfo
      ensures queue.Valid() && KeptSince(old(queue.View())) && Gated(TheGraph(), c)
      ensures var (g, events) := JoinedGraph(old(TheGraph()), InfoAt(old(streamInfo), stream), c);
              TheGraph() == g && streamInfo == old(streamInfo)[stream := StreamInfo(events, [])]
      ensures PartAsked(queue.View(), LastTwo(stream, streamInfo[stream].events, time))
    {
      hide Ok, InOrder, Appended, Dense, Extends, SetOf, Gated, Kept, JoinedGraph, PointAt;
      JoinedUnfolds(TheGraph(), InfoAt(streamInfo, stream), c);
      JoinStart(c, stream, time);
      ghost var q, g, events := queue.View(), TheGraph(), streamInfo[stream].events;
      GatedIsKnown(g, c);
      SetOfOne(c.commEnd);
      AppendedInOrder(g, StreamInfo(events, []), {c.commEnd});
      AppendedAlone(g, events, {c.commEnd});
      var streamEnd := AddEvent(stream, [c.commEnd], None, time);
      KeptTwice(old(queue.View()), q, queue.View(), asked.Keys);
      KeptPoint(q, queue.View(), asked.Keys, Newest(events), time);
      LastTwoAre(stream, events, streamEnd, time);
      GatedIsHeld(g, c);
      GatedStays(g, TheGraph(), c);
    }

    /** The start of a further rank's stream, which the common start now waits for. */
    method JoinStart(c: CCWaiting, stream: Stream, time: nat)
      requires queue.Valid() && InOrder(TheGraph(), InfoAt(streamInfo, stream).events) && Gated(TheGraph(), c)
      requires c.commStart !in asked
      modifies queue, this`streamInfo
      ensures queue.Valid() && KeptSince(old(queue.View())) && Gated(TheGraph(), c) && Dense(TheGraph())
      ensures var (g1, events) := Appended(old(TheGraph()), InfoAt(old(streamInfo), stream), {c.barrier});
              && TheGraph() == AddEdge(g1, c.commStart, Newest(events)) && InOrder(TheGraph(), events)
              && streamInfo == old(streamInfo)[stream := StreamInfo(events, [])]
              && events != [] && PointAt(queue.View(), Newest(events), time)
    {
      hide Ok, InOrder, Appended, Dense, Extends, SetOf, Gated, Kept, PointAt;
      ghost var g, info := TheGraph(), InfoAt(streamInfo, stream);
      GraphIsDense(queue.View());
      GatedIsKnown(g, c);
      SetOfOne(c.barrier);
      AppendedInOrder(g, info, {c.barrier});
      var streamStart := AddEvent(stream, [c.barrier], None, time);
      ghost var q1 := queue.View();
      ghost var g1, events := TheGraph(), streamInfo[stream].events;
      ghost var pe := StillGated(g, g1, c);
      NewestIsKnown(g1, events);
      GatedIsHeld(g, c);
      BehindBarrier(g1, c.barrier, streamStart);
      GatedIsKnown(g1, c);
      EdgeExtends(g1, c.commStart, streamStart);
      Link(c.commStart, streamStart, pe[..3], [c.barrier, streamStart]);
      KeptTwice(old(queue.View()), q1, queue.View(), asked.Keys);
      KeptPoint(q1, queue.View(), asked.Keys, streamStart, time);
      ExtendsInOrder(g1, TheGraph(), events);
      GatedStays(g1, TheGraph(), c);
    }

    /** The flows of a collective that all ranks have joined, and the release of its barrier. */
    method Complete(c: CCWaiting, time: nat)
      requires queue.Valid() && Gated(TheGraph(), c) && c.commEnd !in asked
      modifies queue
      ensures queue.Valid() && KeptSince(old(queue.View())) && TheGraph() == Completed(old(TheGraph()), c)
      ensures var first := old(TheGraph()).next;
              forall f: EventId :: first <= f < first + c.flows ==> FlowAt(queue.View(), f, time)
    {
      hide Ok, WithFlows, WithFlowEnds, Gated, SetOf, Kept, FlowAt;
      ghost var g := TheGraph();
      var commEvents := AddFlows(c, time);
      ghost var q1 := queue.View();
      LinkFlows(c, commEvents, g.next);
      KeptFlows(q1, queue.View(), asked.Keys, g.next, c.flows, time);
      KeptTwice(old(queue.View()), q1, queue.View(), asked.Keys);
      assert c.barrier in queue.held by { GatedIsHeld(TheGraph(), c); }
      ghost var q2 := queue.View();
      Release(c.barrier);
      KeptFlows(q2, queue.View(), asked.Keys, g.next, c.flows, time);
      KeptTwice(old(queue.View()), q2, queue.View(), asked.Keys);
    }

    method AddFlows(c: CCWaiting, time: nat) returns (commEvents: seq<EventId>)
      requires queue.Valid() && Gated(TheGraph(), c)
      modifies queue
      ensures queue.Valid() && KeptSince(old(queue.View())) && Gated(TheGraph(), c)
      ensures TheGraph() == WithFlows(old(TheGraph()), c.commStart, c.flows)
      ensures |commEvents| == c.flows
      ensures forall i :: 0 <= i < |commEvents| ==> commEvents[i] == old(TheGraph()).next + i
                                                    && Follows(TheGraph(), c, commEvents[i])
      ensures var first := old(TheGraph()).next;
              forall f: EventId :: first <= f < first + c.flows ==> FlowAt(queue.View(), f, time)
    {
      hide Ok, WithFlows, Gated, SameRequestsBut, SetOf, Extends, Dense, Follows, Kept, FlowAt;
      ghost var g := TheGraph();
      KeptFirst(queue.View(), asked.Keys);
      commEvents := [];
      for i := 0 to c.flows
        invariant queue.Valid() && KeptSince(old(queue.View())) && Gated(TheGraph(), c) && TheGraph().next == g.next + i
        invariant WithFlows(TheGraph(), c.commStart, c.flows - i) == WithFlows(g, c.commStart, c.flows)
        invariant |commEvents| == i && forall f: EventId :: g.next <= f < g.next + i ==> FlowAt(queue.View(), f, time)
        invariant forall j :: 0 <= j < i ==> commEvents[j] == g.next + j && Follows(TheGraph(), c, commEvents[j])
      {
        ghost var g1, q := TheGraph(), queue.View();
        GraphIsDense(q);
        GatedIsKnown(g1, c);
        SetOfOne(c.commStart);
        FlowAdded(g1, c, c.flows - i);
        forall j | 0 <= j < i ensures Follows(AddNode(g1, {c.commStart}, false), c, commEvents[j]) {
            FollowsStays(g1, AddNode(g1, {c.commStart}, false), c, commEvents[j]); }
        var id := Node([c.commStart], Some(Communication), time);
        KeptTwice(old(queue.View()), q, queue.View(), asked.Keys);
        KeptFlows(q, queue.View(), asked.Keys, g.next, i, time);
        commEvents := commEvents + [id];
      }
      NoFlowsLeft(TheGraph(), c);
    }

    method LinkFlows(c: CCWaiting, commEvents: seq<EventId>, ghost first: EventId)
      requires queue.Valid() && Gated(TheGraph(), c) && c.commEnd !in asked
      requires forall i :: 0 <= i < |commEvents| ==> commEvents[i] == first + i && Follows(TheGraph(), c, commEvents[i])
      modifies queue
      ensures queue.Valid() && KeptSince(old(queue.View())) && Gated(TheGraph(), c)
      ensures TheGraph() == WithFlowEnds(old(TheGraph()), c.commEnd, first, |commEvents|)
    {
      hide Ok, WithFlowEnds, Gated, Extends, Dense, Follows, Kept;
      ghost var g := TheGraph();
      KeptFirst(queue.View(), asked.Keys);
      NoFlowsLeft(g, c);
      for i := 0 to |commEvents|
        invariant queue.Valid() && KeptSince(old(queue.View())) && Gated(TheGraph(), c)
        invariant WithFlowEnds(TheGraph(), c.commEnd, first + i, |commEvents| - i) == WithFlowEnds(g, c.commEnd,
                  first, |commEvents|)
        invariant forall j :: i <= j < |commEvents| ==> Follows(TheGraph(), c, commEvents[j])
      {
        ghost var g1, q := TheGraph(), queue.View();
        GraphIsDense(q);
        ghost var pe := GatedIsBehind(g1, c);
        ghost var pd := FollowsIsBehind(g1, c, commEvents[i]);
        FlowLinked(g1, c, commEvents[i], |commEvents| - i);
        forall j | i < j < |commEvents| ensures Follows(AddEdge(g1, c.commEnd, commEvents[i]), c, commEvents[j]) {
          FollowsStays(g1, AddEdge(g1, c.commEnd, commEvents[i]), c, commEvents[j]);
        }
        Link(c.commEnd, commEvents[i], pe, pd);
        KeptTwice(old(queue.View()), q, queue.View(), asked.Keys);
      }
      NoFlowsLeft(TheGraph(), c);
    }

    /*** Point to point ***/

    /** `pop_matching_peer_endpoint`: the first endpoint waiting on the other side, if any; an emptied
        queue is removed. */
    method PopMatchingPeer(side: Side, key: P2PKey) returns (peer: Option<Endpoint>)
      requires forall k :: k in sendWaiting ==> sendWaiting[k] != []
      requires forall k :: k in recvWaiting ==> recvWaiting[k] != []
      modifies this`sendWaiting, this`recvWaiting
      ensures var before, after := WaitingOn(old(TheDesk()), Other(side)), WaitingOn(TheDesk(), Other(side));
              if QueueAt(before, key) == [] then peer == None && after == before
              else peer == Some(QueueAt(before, key)[0]) && after == Popped(before, key)
      ensures WaitingOn(TheDesk(), side) == WaitingOn(old(TheDesk()), side)
    {
      var m := if side == Send then recvWaiting else sendWaiting;
      if key !in m {
        return None;
      }
      peer := Some(m[key][0]);
      m := m[key := m[key][1..]];
      if m[key] == [] {
        m := m - {key};
      }
      assert m == Popped(if side == Send then recvWaiting else sendWaiting, key);
      if side == Send {
        recvWaiting := m;
      } else {
        sendWaiting := m;
      }
    }

    /** `schedule_p2p_flow`. */
    method ScheduleFlow(send: Endpoint, recv: Endpoint)
      requires queue.Valid() && Strung(TheGraph(), send) && Strung(TheGraph(), recv)
      requires send.barrier in queue.held && recv.barrier in queue.held && send.barrier != recv.barrier
      requires send.flowEnd !in asked && recv.flowEnd !in asked
      modifies queue
      ensures queue.Valid() && KeptSince(old(queue.View())) && TheGraph() == Transfer(old(TheGraph()), send, recv)
      ensures PairAsked(queue.View(), Pair(send, recv, old(TheGraph()).next))
    {
      hide Ok, Strung, Behind, SetOf, SameRequestsBut, Extends, Dense, Kept, PairAsked;
      ghost var g := TheGraph();
      GraphIsDense(queue.View());
      StrungIsKnown(g, send);
      StrungIsKnown(g, recv);
      SetOfTwo(send.flowStart, recv.flowStart);
      var flow := Node([send.flowStart, recv.flowStart], Some(Communication), Max(send.time, recv.time));
      TransferPaths(g, send, recv);
      ghost var q := queue.View();
      ghost var q0, pair := q, Pair(send, recv, flow);
      FlowOfPair(q, pair);
      Link(send.flowEnd, flow, [send.barrier, send.flowStart, send.flowEnd], [send.barrier, send.flowStart, flow]);
      KeptTwice(old(queue.View()), q, queue.View(), asked.Keys);
      q := queue.View();
      Link(recv.flowEnd, flow, [recv.barrier, recv.flowStart, recv.flowEnd], [send.barrier, send.flowStart, flow]);
      KeptTwice(old(queue.View()), q, queue.View(), asked.Keys);
      KeptTwice(q0, q, queue.View(), asked.Keys);
      q := queue.View();
      Release(send.barrier);
      KeptTwice(old(queue.View()), q, queue.View(), asked.Keys);
      KeptTwice(q0, q, queue.View(), asked.Keys);
      q := queue.View();
      KeptPair(q0, q, asked.Keys, pair);
      Release(recv.barrier);
      KeptTwice(old(queue.View()), q, queue.View(), asked.Keys);
      KeptPair(q, queue.View(), asked.Keys, pair);
    }

    /** `match_or_enqueue_p2p_endpoint`. */
    method MatchOrEnqueue(side: Side, key: P2PKey, ep: Endpoint, ghost extra: set<EventId>)
      requires queue.Valid() && DeskBut(TheDesk(), extra) && Strung(TheGraph(), ep) && ep.barrier in extra
      requires LeftAlone(TheDesk(), asked.Keys) && ep.flowEnd !in asked
      requires AskedOk(queue.View(), TheDesk()) && EndpointAsked(queue.View(), ep)
      modifies queue, this`sendWaiting, this`recvWaiting, this`sends, this`recvs, this`pairs
      ensures queue.Valid() && KeptSince(old(queue.View())) && TheDesk() == Processed(old(TheDesk()), side, key, ep)
      ensures AskedOk(queue.View(), TheDesk())
    {
      hide Ok, DeskBut, Strung, Enqueued, Matched, Kept, LeftAlone, Processed, AskedOk, EndpointAsked, PairAsked;
      ghost var d := TheDesk();
      ProcessedCases(d, side, key, ep);
      NoEmptyQueues(d, extra);
      var peer := PopMatchingPeer(side, key);
      ghost var d1 := TheDesk();
      match peer {
        case None =>
          KeptFirst(queue.View(), asked.Keys);
          EnqueueUnmatched(side, key, ep);
        case Some(peerEndpoint) =>
          PeerIsFit(d, extra, side, key, ep);
          PeerIsLeftAlone(d, asked.Keys, side, key);
          ScheduleMatched(side, key, ep, peerEndpoint);
          MatchedIs(d, d1, TheDesk(), side, key, ep);
      }
      EnteredRecords(old(queue.View()), queue.View(), asked.Keys, d, side, key, ep);
    }

    /** `enqueue_unmatched_p2p_endpoint`. */
    method EnqueueUnmatched(side: Side, key: P2PKey, ep: Endpoint)
      modifies this`sendWaiting, this`recvWaiting, this`sends, this`recvs
      ensures TheDesk() == Enqueued(old(TheDesk()), side, key, ep)
    {
      NoteEndpoint(side, key, ep);
      if side == Send {
        sendWaiting := sendWaiting[key := QueueAt(sendWaiting, key) + [ep]];
      } else {
        recvWaiting := recvWaiting[key := QueueAt(recvWaiting, key) + [ep]];
      }
    }

    /** `schedule_matched_p2p_flow`. */
    method ScheduleMatched(side: Side, key: P2PKey, ep: Endpoint, peer: Endpoint)
      requires queue.Valid() && Strung(TheGraph(), ep) && Strung(TheGraph(), peer)
      requires ep.barrier in queue.held && peer.barrier in queue.held && ep.barrier != peer.barrier
      requires ep.flowEnd !in asked && peer.flowEnd !in asked
      modifies queue, this`sends, this`recvs, this`pairs
      ensures queue.Valid() && KeptSince(old(queue.View()))
      ensures TheDesk() == PairedUp(old(TheDesk()), side, key, ep, PairOf(side, ep, peer, old(TheGraph()).next))
      ensures PairAsked(queue.View(), PairOf(side, ep, peer, old(TheGraph()).next))
    {
      hide Ok, Transfer, Strung, Kept, PairAsked;
      NoteEndpoint(side, key, ep);
      NotePair(key, PairOf(side, ep, peer, TheGraph().next));
      if side == Send {
        ScheduleFlow(ep, peer);
      } else {
        ScheduleFlow(peer, ep);
      }
    }

    ghost method NoteEndpoint(side: Side, key: P2PKey, ep: Endpoint)
      modifies this`sends, this`recvs
      ensures sends == if side == Send then Append(old(sends), key, ep) else old(sends)
      ensures recvs == if side == Recv then Append(old(recvs), key, ep) else old(recvs)
    {
      if side == Send {
        sends := Append(sends, key, ep);
      } else {
        recvs := Append(recvs, key, ep);
      }
    }

    ghost method NotePair(key: P2PKey, pair: Pair)
      modifies this`pairs
      ensures pairs == Append(old(pairs), key, pair)
    {
      pairs := Append(pairs, key, pair);
    }

    /** `nccl_ungrouped_p2p`: one send or receive occupies its stream until the matched flow is over. */
    method UngroupedP2P(side: Side, comm: nat, rank: nat, peer: nat, stream: Stream, time: nat)
      requires Valid()
      modifies queue, this`streamInfo, this`sendWaiting, this`recvWaiting, this`sends, this`recvs, this`pairs,
          this`singles
      ensures Valid() && KeptSince(old(queue.View()))
      ensures side == Send ==> TheDesk() == Entered(old(TheDesk()), Send, P2PKey(comm, rank, peer), stream, time)
      ensures side == Recv ==> TheDesk() == Entered(old(TheDesk()), Recv, P2PKey(comm, peer, rank), stream, time)
    {
      hide Ok, DeskBut, Processed, SyncOk, Strung, Extends, Appended, SetOf, Ungrouped, EndpointOn, InOrder,
          HistoryOk, LeftAlone, Kept, AskedOk, EndpointAsked, ExactBut, RecordedOk;
      ghost var d := TheDesk();
      UngroupedOk(d, stream, time);
      UngroupedIs(d, stream);
      var key := KeyOf(side, comm, rank, peer);
      EnteredExact(d, side, key, stream, time);
      EnteredRecorded(d, side, key, stream, time);
      InfoInOrder(d, {}, stream);
      var unmatchedBarrier, flowStart, flowEnd := CreateEndpoint(stream, time);
      var ep := Endpoint(time, flowStart, flowEnd, unmatchedBarrier);
      ghost var q, d1 := queue.View(), TheDesk();
      KeptAsked(old(queue.View()), q, asked.Keys, d, d1);
      LeftAloneStays(d, d1, asked.Keys);
      NewIsNotAsked(d, asked.Keys, ep.flowEnd);
      ProcessedOk(d1, {unmatchedBarrier}, side, key, ep);
      ProcessedRecords(d1, side, key, ep);
      ProcessedGrows(d1, {unmatchedBarrier}, side, key, ep);
      ProcessedLeavesAlone(d1, side, key, ep, asked.Keys);
      MatchOrEnqueue(side, key, ep, {unmatchedBarrier});
      KeptTwice(old(queue.View()), q, queue.View(), asked.Keys);
      assert {unmatchedBarrier} - {unmatchedBarrier} == {};
      ghost var d2 := TheDesk();
      singles := singles + [LastSingle(d1, stream, ep)];
      SameProcessed(d1, d1, side, key, ep);
      OneMoreSingle(queue.View(), d2, TheDesk(), asked.Keys);
      KeptSync(old(queue.View()), queue.View(), syncing, answered, asked);
    }

    /** The barrier of an ungrouped endpoint and its two stream events. */
    method CreateEndpoint(stream: Stream, time: nat)
        returns (unmatchedBarrier: EventId, flowStart: EventId, flowEnd: EventId)
      requires queue.Valid() && InOrder(TheGraph(), InfoAt(streamInfo, stream).events)
      modifies queue, this`streamInfo
      ensures queue.Valid() && KeptSince(old(queue.View()))
      ensures var (g, events) := EndpointOn(old(TheGraph()), InfoAt(old(streamInfo), stream));
              TheGraph() == g && streamInfo == old(streamInfo)[stream := StreamInfo(events, [])]
      ensures unmatchedBarrier == old(TheGraph()).next && flowEnd == flowStart + 1
      ensures flowStart == unmatchedBarrier + |InfoAt(old(streamInfo), stream).buffered| + 1
      ensures EndpointAsked(queue.View(), Endpoint(time, flowStart, flowEnd, unmatchedBarrier))
    {
      hide Ok, InOrder, Appended, Dense, SetOf, AddNode, Extends, Kept, EndpointOn, PointAt;
      EndpointUnfolds(TheGraph(), InfoAt(streamInfo, stream));
      unmatchedBarrier, flowStart := OpenStart(stream, time);
      ghost var q := queue.View();
      ghost var events := streamInfo[stream].events;
      SetOfOne(flowStart);
      AppendedInOrder(TheGraph(), StreamInfo(events, []), {flowStart});
      flowEnd := AddEvent(stream, [flowStart], None, time);
      KeptTwice(old(queue.View()), q, queue.View(), asked.Keys);
      KeptPoint(q, queue.View(), asked.Keys, unmatchedBarrier, time);
      KeptPoint(q, queue.View(), asked.Keys, flowStart, time);
    }

    /** `nccl_grouped_p2p`: one fused operation on each stream that the calls mention; the streams are
        visited in any order.  `groups` are the operations in that order. */
    method GroupedP2P(calls: seq<P2PCall>, time: nat) returns (ghost groups: seq<Fused>)
      requires Valid()
      modifies queue, this`streamInfo, this`sendWaiting, this`recvWaiting, this`sends, this`recvs, this`pairs,
          this`fused
      ensures Valid() && KeptSince(old(queue.View()))
      ensures GroupsAdded(old(TheDesk()), TheDesk(), calls, groups, Mentioned(calls))
      ensures forall i :: 0 <= i < |groups| ==> CalledAt(groups[i], time)
    {
      hide Ok, DeskOk, SyncOk, LeftAlone, Kept, GroupsAdded, GroupAdded, CallsOn, Mentioned, AskedOk, CalledAt,
          ExactBut, RecordedOk;
      var callsByStream := ByStream(calls);
      var todo := callsByStream.Keys;
      ghost var all, q, d := todo, queue.View(), TheDesk();
      groups := [];
      StreamsMentioned(calls, all);
      NoGroups(d, calls);
      assert all - todo == {};
      KeptFirst(q, asked.Keys);
      while todo != {}
        invariant Valid() && KeptSince(q) && todo <= all == callsByStream.Keys
        invariant GroupsAdded(d, TheDesk(), calls, groups, all - todo)
        invariant forall i :: 0 <= i < |groups| ==> CalledAt(groups[i], time)
        decreases |todo|
      {
        var stream :| stream in todo;
        ghost var q1, d1 := queue.View(), TheDesk();
        ghost var group := GroupOnStream(stream, callsByStream[stream], time);
        KeptTwice(q, q1, queue.View(), asked.Keys);
        MoreGroups(d, d1, TheDesk(), calls, groups, group, all - todo, stream);
        assert all - todo + {stream} == all - (todo - {stream});
        todo := todo - {stream};
        groups := groups + [group];
      }
      assert all - todo == all;
    }

    /** The calls of a group by stream, in their order. */
    method ByStream(calls: seq<P2PCall>) returns (m: map<Stream, seq<P2PCall>>)
      ensures forall s: Stream :: (if s in m then m[s] else []) == CallsOn(calls, s)
      ensures forall s: Stream :: s in m ==> m[s] != []
    {
      m := map[];
      for i := 0 to |calls|
        invariant forall s: Stream :: (if s in m then m[s] else []) == CallsOn(calls[..i], s)
        invariant forall s: Stream :: s in m ==> m[s] != []
      {
        assert calls[..i + 1][..i] == calls[..i];
        var s := calls[i].stream;
        m := m[s := (if s in m then m[s] else []) + [calls[i]]];
      }
      assert calls[..|calls|] == calls;
    }

    /** The part of a group on one stream: all endpoints start behind its start, its end waits for all of
        them, and they are matched in the order of the calls. */
    method GroupOnStream(stream: Stream, calls: seq<P2PCall>, time: nat) returns (ghost group: Fused)
      requires Valid()
      modifies queue, this`streamInfo, this`sendWaiting, this`recvWaiting, this`sends, this`recvs, this`pairs,
          this`fused
      ensures Valid() && KeptSince(old(queue.View())) && GroupAdded(old(TheDesk()), TheDesk(), stream, calls, group)
      ensures CalledAt(group, time)
    {
      hide Ok, DeskBut, SyncOk, Extends, Grouped, Noted, Adjacent, HistoryOk, LeftAlone, Kept, Continues, AskedOk,
          FusedAsked, CalledAt, ExactBut, Lined, StreamGot, RecordedOk;
      ghost var q, d := queue.View(), TheDesk();
      HistoryLined(d);
      group := FillGroup(stream, calls, time);
      ghost var d1 := TheDesk();
      fused := fused + [group];
      NotedRecorded(d, TheDesk(), calls, group);
      GroupHistory(d, TheDesk(), group);
      SameDesk(d1, TheDesk(), {});
      GroupAsked(queue.View(), d1, TheDesk(), group);
      LeftAloneStays(d1, TheDesk(), asked.Keys);
      KeptSync(q, queue.View(), syncing, answered, asked);
    }

    /** The events of a group, its endpoints matched, and its barrier released. */
    method FillGroup(stream: Stream, calls: seq<P2PCall>, time: nat) returns (ghost group: Fused)
      requires queue.Valid() && DeskBut(TheDesk(), {}) && LeftAlone(TheDesk(), asked.Keys)
      requires AskedOk(queue.View(), TheDesk()) && ExactOk(TheDesk()) && Lined(waiting, done, meetings)
      modifies queue, this`streamInfo, this`sendWaiting, this`recvWaiting, this`sends, this`recvs, this`pairs
      ensures queue.Valid() && DeskBut(TheDesk(), {}) && LeftAlone(TheDesk(), asked.Keys)
      ensures ExactOk(WithGroup(TheDesk(), group))
      ensures StreamGot(old(TheGraph()).next, old(streamInfo), streamInfo, group)
      ensures AskedOk(queue.View(), TheDesk()) && FusedAsked(queue.View(), group) && CalledAt(group, time)
      ensures KeptSince(old(queue.View())) && Extends(old(TheGraph()), TheGraph())
              && Continues(old(streamInfo), streamInfo)
      ensures group.stream == stream && |group.eps| == |calls|
      ensures stream in streamInfo && group.at + 2 == |streamInfo[stream].events|
      ensures Adjacent(streamInfo, stream, group.at, group.start, group.end)
              && Grouped(TheGraph(), group.start, group.end, group.eps)
      ensures Noted(old(sends), sends, calls, group.eps, Send) && Noted(old(recvs), recvs, calls, group.eps, Recv)
    {
      hide Ok, DeskBut, SyncOk, GroupReady, Extends, Remaining, Grouped, Noted, Adjacent, HistoryOk, LeftAlone, Kept,
          Continues, AskedOk, FusedAsked, EndpointsAsked, AllCalledAt, ExactBut, GroupIs, Entering, Lined, Known,
          StreamGot;
      ghost var q, d, g := queue.View(), TheDesk(), TheGraph();
      GraphIsKnown(q);
      var groupBarrier, groupStart, groupEnd, endpoints := OpenGroup(stream, calls, time);
      group := Fused(stream, |streamInfo[stream].events| - 2, groupStart, groupEnd, endpoints,
          groupBarrier, time);
      ghost var q1, g1 := queue.View(), TheGraph();
      KeptAsked(q, q1, asked.Keys, d, TheDesk());
      EventsOfGroup(q1, group);
      LeftAloneStays(d, TheDesk(), asked.Keys) by { ExtendsNext(g, g1); }
      GroupEnters(d, TheDesk(), group);
      StreamIsAs(g, d.streams, g1, streamInfo, group);
      forall i | 0 <= i < |endpoints|
          ensures endpoints[i].flowEnd !in asked { NewIsNotAsked(d, asked.Keys, endpoints[i].flowEnd); }
      ProcessAll(calls, endpoints, group);
      AllEntered(TheDesk(), group);
      KeptTwice(q, q1, queue.View(), asked.Keys);
      KeptFused(q1, queue.View(), asked.Keys, group);
      ExtendsTwice(g, g1, TheGraph());
      GroupedStays(g1, TheGraph(), groupStart, groupEnd, endpoints);
      ReleaseGroup(groupBarrier, q, g, group);
    }

    /** The barrier of a group is released. */
    method ReleaseGroup(groupBarrier: EventId, ghost q: Queue, ghost g: Graph, ghost group: Fused)
      requires queue.Valid() && DeskBut(TheDesk(), {groupBarrier}) && LeftAlone(TheDesk(), asked.Keys)
      requires ExactOk(WithGroup(TheDesk(), group))
      requires KeptSince(q) && Extends(g, TheGraph()) && Grouped(TheGraph(), group.start, group.end, group.eps)
      requires AskedOk(queue.View(), TheDesk()) && FusedAsked(queue.View(), group)
      modifies queue
      ensures AskedOk(queue.View(), TheDesk()) && FusedAsked(queue.View(), group)
      ensures ExactOk(WithGroup(TheDesk(), group))
      ensures queue.Valid() && DeskBut(TheDesk(), {}) && LeftAlone(TheDesk(), asked.Keys)
      ensures KeptSince(q) && Extends(g, TheGraph()) && Grouped(TheGraph(), group.start, group.end, group.eps)
    {
      hide Ok, DeskBut, Extends, Grouped, LeftAlone, Kept, AskedOk, FusedAsked, ExactBut;
      ghost var q1, d1 := queue.View(), TheDesk();
      LetGroupGo(d1, groupBarrier);
      Release(groupBarrier);
      UnheldExact(q1, d1, groupBarrier, group);
      KeptAsked(q1, queue.View(), asked.Keys, d1, TheDesk());
      KeptFused(q1, queue.View(), asked.Keys, group);
      KeptTwice(q, q1, queue.View(), asked.Keys);
      GroupedStays(d1.graph, TheGraph(), group.start, group.end, group.eps);
      ExtendsTwice(g, d1.graph, TheGraph());
      LeftAloneStays(d1, TheDesk(), asked.Keys);
    }

    /** All events of a group: its barrier, its start and end on the stream, and its endpoints. */
    method OpenGroup(stream: Stream, calls: seq<P2PCall>, time: nat)
      returns (groupBarrier: EventId, groupStart: EventId, groupEnd: EventId, eps: seq<Endpoint>)
      requires queue.Valid() && DeskBut(TheDesk(), {})
      modifies queue, this`streamInfo
      ensures queue.Valid() && KeptSince(old(queue.View())) && Extends(old(TheGraph()), TheGraph())
      ensures |eps| == |calls| && GroupReady(TheGraph(), groupBarrier, groupStart, eps)
      ensures forall i :: 0 <= i < |eps| ==> old(TheGraph()).next <= eps[i].flowEnd
      ensures stream in streamInfo && |streamInfo[stream].events| >= 2 && Continues(old(streamInfo), streamInfo)
      ensures Grouped(TheGraph(), groupStart, groupEnd, eps)
      ensures Adjacent(streamInfo, stream, |streamInfo[stream].events| - 2, groupStart, groupEnd)
      ensures DeskBut(TheDesk(), Remaining(groupBarrier, eps, 0))
      ensures PointAt(queue.View(), groupBarrier, time) && PointAt(queue.View(), groupStart, time)
              && PointAt(queue.View(), groupEnd, time)
      ensures EndpointsAsked(queue.View(), eps) && AllCalledAt(eps, time)
      ensures var events := streamInfo[stream].events;
              && streamInfo == old(streamInfo)[stream := StreamInfo(events, [])]
              && GroupIs(old(TheGraph()), InfoAt(old(streamInfo), stream), TheGraph(), events,
                   Fused(stream, |events| - 2, groupStart, groupEnd, eps, groupBarrier, time))
    {
      hide Ok, DeskBut, SyncOk, GroupReady, Extends, Remaining, Grouped, SetOf, AddNode, Kept, Continues, EQ.FlowsFit,
          PointAt, EndpointsAsked, AllCalledAt, GroupIs, SetUp, Appended, Known, Dense;
      ghost var g, streams := TheGraph(), streamInfo;
      GraphIsKnown(queue.View());
      groupBarrier, groupStart, eps := StartAndSetUp(stream, calls, time);
      ghost var q2, g2, streams1 := queue.View(), TheGraph(), streamInfo;
      groupEnd := StreamPoint(stream, [groupStart] + FlowEnds(eps), time, Remaining(groupBarrier, eps, 0));
      KeptTwice(old(queue.View()), q2, queue.View(), asked.Keys);
      KeptPoint(q2, queue.View(), asked.Keys, groupBarrier, time);
      KeptPoint(q2, queue.View(), asked.Keys, groupStart, time);
      KeptEndpoints(q2, queue.View(), asked.Keys, eps);
      ExtendsTwice(g, g2, TheGraph());
      ContinuesTwice(streams, streams1, streamInfo);
      ReadyStays(g2, TheGraph(), groupBarrier, groupStart, eps);
      ReadyGrouped(TheGraph(), groupBarrier, groupStart, groupEnd, eps);
      GraphIsKnown(q2);
      GroupIsThere(g, InfoAt(streams, stream), g2,
          Fused(stream, |streamInfo[stream].events| - 2, groupStart, groupEnd, eps, groupBarrier, time));
    }

    /** All but the group's end. */
    method StartAndSetUp(stream: Stream, calls: seq<P2PCall>, time: nat)
      returns (groupBarrier: EventId, groupStart: EventId, eps: seq<Endpoint>)
      requires queue.Valid() && DeskBut(TheDesk(), {})
      modifies queue, this`streamInfo
      ensures queue.Valid() && KeptSince(old(queue.View())) && Extends(old(TheGraph()), TheGraph())
      ensures |eps| == |calls| && GroupReady(TheGraph(), groupBarrier, groupStart, eps)
      ensures forall i :: 0 <= i < |eps| ==> old(TheGraph()).next <= eps[i].flowEnd
      ensures stream in streamInfo && streamInfo[stream].buffered == [] && streamInfo[stream].events != []
      ensures Newest(streamInfo[stream].events) == groupStart && Continues(old(streamInfo), streamInfo)
      ensures DeskBut(TheDesk(), Remaining(groupBarrier, eps, 0))
      ensures PointAt(queue.View(), groupBarrier, time) && PointAt(queue.View(), groupStart, time)
      ensures EndpointsAsked(queue.View(), eps) && AllCalledAt(eps, time)
      ensures forall i :: 0 <= i < |[groupStart] + FlowEnds(eps)| ==>
                ([groupStart] + FlowEnds(eps))[i] < queue.eventCounter
      ensures var g, info := old(TheGraph()), InfoAt(old(streamInfo), stream);
              var (g1, events) := Appended(AddNode(g, {}, true), info, {g.next});
              && SetUp(g1, TheGraph(), groupStart, eps)
              && streamInfo == old(streamInfo)[stream := StreamInfo(events, [])]
              && groupBarrier == g.next && groupStart == g.next + |info.buffered| + 1
    {
      hide Ok, DeskBut, SyncOk, GroupReady, Extends, Remaining, SetOf, AddNode, Kept, Continues, EQ.FlowsFit, PointAt,
          EndpointsAsked, AllCalledAt, SetUp, Appended, Known;
      ghost var g := TheGraph();
      groupBarrier, groupStart := StartGroup(stream, time);
      ghost var q1, g1 := queue.View(), TheGraph();
      eps := Setups(calls, groupStart, groupBarrier, time);
      KeptTwice(old(queue.View()), q1, queue.View(), asked.Keys);
      ghost var q2, g2 := queue.View(), TheGraph();
      KeptPoint(q1, q2, asked.Keys, groupBarrier, time);
      KeptPoint(q1, q2, asked.Keys, groupStart, time);
      ExtendsTwice(g, g1, g2);
      GraphIsDense(q2);
      ReadyEnds(g2, groupStart, eps, groupBarrier);
    }

    /** The barrier of a group, and its start on the stream behind it. */
    method StartGroup(stream: Stream, time: nat) returns (groupBarrier: EventId, groupStart: EventId)
      requires queue.Valid() && DeskBut(TheDesk(), {})
      modifies queue, this`streamInfo
      ensures queue.Valid() && KeptSince(old(queue.View())) && Extends(old(TheGraph()), TheGraph())
      ensures DeskBut(TheDesk(), {groupBarrier}) && Continues(old(streamInfo), streamInfo)
      ensures old(TheGraph()).next <= groupBarrier <= groupStart && groupStart + 1 == TheGraph().next
      ensures stream in streamInfo && streamInfo[stream].buffered == [] && streamInfo[stream].events != []
      ensures Newest(streamInfo[stream].events) == groupStart
      ensures PointAt(queue.View(), groupBarrier, time) && PointAt(queue.View(), groupStart, time)
      ensures var g, info := old(TheGraph()), InfoAt(old(streamInfo), stream);
              var (g1, events) := Appended(AddNode(g, {}, true), info, {g.next});
              && TheGraph() == g1 && streamInfo == old(streamInfo)[stream := StreamInfo(events, [])]
              && groupBarrier == g.next && groupStart == g.next + |info.buffered| + 1
    {
      hide Ok, DeskBut, SyncOk, Extends, SetOf, AddNode, Kept, Continues, EQ.FlowsFit, PointAt, Appended, InARow,
          SameBut;
      ghost var g, info := TheGraph(), InfoAt(streamInfo, stream);
      StartIsAt(g, info) by { DeskIsDense(TheDesk(), {}); }
      groupBarrier := NewBarrier(time, {});
      SetOfOne(groupBarrier);
      assert {} + {groupBarrier} == {groupBarrier};
      ghost var q0, g0 := queue.View(), TheGraph();
      groupStart := StreamPoint(stream, [groupBarrier], time, {groupBarrier});
      KeptPoint(q0, queue.View(), asked.Keys, groupBarrier, time);
      KeptTwice(old(queue.View()), q0, queue.View(), asked.Keys);
      ExtendsTwice(g, g0, TheGraph());
      ExtendsNext(g0, TheGraph());
    }

    /** A barrier that waits in no line yet. */
    method NewBarrier(time: nat, ghost extra: set<EventId>) returns (id: EventId)
      requires queue.Valid() && DeskBut(TheDesk(), extra)
      modifies queue
      ensures queue.Valid() && KeptSince(old(queue.View())) && id == old(TheGraph()).next < queue.eventCounter
      ensures TheGraph() == AddNode(old(TheGraph()), {}, true) && DeskBut(TheDesk(), extra + {id})
      ensures Extends(old(TheGraph()), AddNode(old(TheGraph()), {}, true)) && PointAt(queue.View(), id, time)
    {
      hide Ok, DeskBut, Extends, PointAt;
      BarrierOk(TheDesk(), extra);
      id := Barrier(time);
    }

    /** A point on a stream. */
    method StreamPoint(stream: Stream, dependsOn: seq<EventId>, time: nat, ghost extra: set<EventId>)
        returns (id: EventId)
      requires queue.Valid() && DeskBut(TheDesk(), extra) && forall i :: 0 <= i < |dependsOn| ==>
               dependsOn[i] < queue.eventCounter
      modifies queue, this`streamInfo
      ensures queue.Valid() && KeptSince(old(queue.View())) && DeskBut(TheDesk(), extra)
              && Extends(old(TheGraph()), TheGraph())
      ensures id + 1 == TheGraph().next && id in TheGraph().deps && SetOf(dependsOn) <= TheGraph().deps[id]
      ensures stream in streamInfo && streamInfo[stream].buffered == [] && streamInfo[stream].events != []
      ensures Newest(streamInfo[stream].events) == id
      ensures InfoAt(old(streamInfo), stream).buffered == [] ==>
                streamInfo[stream].events == InfoAt(old(streamInfo), stream).events + [id]
      ensures Continues(old(streamInfo), streamInfo) && PointAt(queue.View(), id, time)
      ensures var (g, events) := Appended(old(TheGraph()), InfoAt(old(streamInfo), stream), SetOf(dependsOn));
              TheGraph() == g && streamInfo == old(streamInfo)[stream := StreamInfo(events, [])]
      ensures id == old(TheGraph()).next + |InfoAt(old(streamInfo), stream).buffered|
    {
      hide Ok, DeskBut, InOrder, Dense, Extends, SetOf, Appended, OnStream, Kept, Continues, PointAt;
      ghost var d := TheDesk();
      InfoInOrder(d, extra, stream);
      SetOfKnown(dependsOn, d.graph.next);
      OnStreamOk(d, extra, stream, SetOf(dependsOn));
      GraphIsDense(queue.View());
      AppendedNext(d.graph, InfoAt(streamInfo, stream), SetOf(dependsOn));
      AppendedInOrder(d.graph, InfoAt(streamInfo, stream), SetOf(dependsOn));
      AppendedPlain(d, stream, SetOf(dependsOn));
      StreamContinues(streamInfo, stream,
          StreamInfo(Appended(d.graph, InfoAt(streamInfo, stream), SetOf(dependsOn)).1, []));
      id := AddEvent(stream, dependsOn, None, time);
    }

    /** The endpoints of a group, none of them on the stream. */
    method Setups(calls: seq<P2PCall>, groupStart: EventId, ghost groupBarrier: EventId, time: nat)
        returns (eps: seq<Endpoint>)
      requires queue.Valid() && DeskBut(TheDesk(), {groupBarrier}) && groupStart < queue.eventCounter
               && groupBarrier < queue.eventCounter
      modifies queue
      ensures queue.Valid() && KeptSince(old(queue.View())) && Extends(old(TheGraph()), TheGraph())
      ensures |eps| == |calls| && GroupReady(TheGraph(), groupBarrier, groupStart, eps)
      ensures forall i :: 0 <= i < |eps| ==> old(TheGraph()).next <= eps[i].flowEnd
      ensures DeskBut(TheDesk(), Remaining(groupBarrier, eps, 0))
      ensures EndpointsAsked(queue.View(), eps) && AllCalledAt(eps, time)
      ensures SetUp(old(TheGraph()), TheGraph(), groupStart, eps)
    {
      hide Ok, DeskBut, Extends, GroupReady, Remaining, Kept, EndpointAsked, SetUp, SetUpAt, SameBut;
      KeptFirst(queue.View(), asked.Keys);
      NoneSetUp(TheGraph(), groupStart) by { GraphIsKnown(queue.View()); }
      eps := [];
      SelfExtends(TheGraph());
      NoneRemain(groupBarrier);
      NoneReady(TheGraph(), groupBarrier, groupStart);
      for i := 0 to |calls|
        invariant queue.Valid() && KeptSince(old(queue.View())) && Extends(old(TheGraph()), TheGraph())
        invariant |eps| == i && GroupReady(TheGraph(), groupBarrier, groupStart, eps)
        invariant forall j :: 0 <= j < i ==> old(TheGraph()).next <= eps[j].flowEnd
        invariant DeskBut(TheDesk(), Remaining(groupBarrier, eps, 0))
        invariant EndpointsAsked(queue.View(), eps) && AllCalledAt(eps, time)
        invariant SetUp(old(TheGraph()), TheGraph(), groupStart, eps)
      {
        ghost var g, q := TheGraph(), queue.View();
        ExtendsNext(old(TheGraph()), g);
        ReadyStart(g, groupBarrier, groupStart, eps);
        var ep := SetupOne(groupStart, time, Remaining(groupBarrier, eps, 0));
        KeptTwice(old(queue.View()), q, queue.View(), asked.Keys);
        KeptEndpoints(q, queue.View(), asked.Keys, eps);
        MoreRemain(groupBarrier, eps, ep);
        ExtendsTwice(old(TheGraph()), g, TheGraph());
        MoreReady(g, TheGraph(), groupBarrier, groupStart, eps, ep);
        OneMoreSetUp(old(TheGraph()), g, TheGraph(), groupStart, eps, ep);
        eps := eps + [ep];
      }
    }

    method SetupOne(groupStart: EventId, time: nat, ghost extra: set<EventId>) returns (ep: Endpoint)
      requires queue.Valid() && DeskBut(TheDesk(), extra) && groupStart < queue.eventCounter
      modifies queue
      ensures queue.Valid() && KeptSince(old(queue.View())) && Extends(old(TheGraph()), TheGraph())
      ensures ep.barrier == old(TheGraph()).next && ep.barrier < TheGraph().next
              && DeskBut(TheDesk(), extra + {ep.barrier})
      ensures Strung(TheGraph(), ep) && groupStart in TheGraph().deps[ep.flowStart]
              && old(TheGraph()).next <= ep.flowEnd
      ensures EndpointAsked(queue.View(), ep) && ep.time == time
      ensures SameBut(old(TheGraph()), TheGraph(), {}) && TheGraph().next == old(TheGraph()).next + 3
      ensures SetUpAt(TheGraph(), groupStart, ep, old(TheGraph()).next)
    {
      hide Ok, DeskBut, Extends, SetOf, SameRequestsBut, Kept, PointAt, SameBut, SetUpAt;
      ghost var g := TheGraph();
      var unmatchedBarrier := NewBarrier(time, extra);
      ghost var q1, d1 := queue.View(), TheDesk();
      SetOfTwo(groupStart, unmatchedBarrier);
      NodeOk(d1, extra + {unmatchedBarrier}, {groupStart, unmatchedBarrier});
      var flowStart := Node([groupStart, unmatchedBarrier], None, time);
      KeptTwice(old(queue.View()), q1, queue.View(), asked.Keys);
      KeptPoint(q1, queue.View(), asked.Keys, unmatchedBarrier, time);
      ExtendsTwice(g, d1.graph, TheGraph());
      ghost var q2, d2 := queue.View(), TheDesk();
      SetOfOne(flowStart);
      NodeOk(d2, extra + {unmatchedBarrier}, {flowStart});
      var flowEnd := Node([flowStart], None, time);
      KeptTwice(old(queue.View()), q2, queue.View(), asked.Keys);
      KeptPoint(q2, queue.View(), asked.Keys, unmatchedBarrier, time);
      KeptPoint(q2, queue.View(), asked.Keys, flowStart, time);
      ExtendsTwice(g, d2.graph, TheGraph());
      ep := Endpoint(time, flowStart, flowEnd, unmatchedBarrier);
      SetUpExactly(g, groupStart, ep) by { GraphIsKnown(old(queue.View())); }
    }

    /** Match or enqueue the endpoints of a group, in order. */
    method ProcessAll(calls: seq<P2PCall>, eps: seq<Endpoint>, ghost group: Fused)
      requires queue.Valid() && |eps| == |calls| && GroupReady(TheGraph(), group.barrier, group.start, eps)
      requires DeskBut(TheDesk(), Remaining(group.barrier, eps, 0))
      requires group.eps == eps && Entering(TheDesk(), group, 0) && Lined(waiting, done, meetings)
      requires LeftAlone(TheDesk(), asked.Keys) && forall i :: 0 <= i < |eps| ==> eps[i].flowEnd !in asked
      requires AskedOk(queue.View(), TheDesk()) && EndpointsAsked(queue.View(), eps)
      modifies queue, this`sendWaiting, this`recvWaiting, this`sends, this`recvs, this`pairs
      ensures queue.Valid() && KeptSince(old(queue.View())) && Extends(old(TheGraph()), TheGraph())
      ensures DeskBut(TheDesk(), {group.barrier}) && LeftAlone(TheDesk(), asked.Keys)
      ensures Noted(old(sends), sends, calls, eps, Send) && Noted(old(recvs), recvs, calls, eps, Recv)
      ensures AskedOk(queue.View(), TheDesk()) && Entering(TheDesk(), group, |eps|)
    {
      hide Ok, DeskBut, Extends, GroupReady, Remaining, Processed, Noted, Strung, LeftAlone, Kept, AskedOk,
          EndpointsAsked, EndpointAsked, Entering, Lined;
      ghost var groupBarrier, groupStart := group.barrier, group.start;
      KeptFirst(queue.View(), asked.Keys);
      SelfExtends(TheGraph());
      NothingNoted(sends);
      NothingNoted(recvs);
      for i := 0 to |calls|
        invariant queue.Valid() && KeptSince(old(queue.View())) && Extends(old(TheGraph()), TheGraph())
        invariant GroupReady(TheGraph(), groupBarrier, groupStart, eps)
                  && DeskBut(TheDesk(), Remaining(groupBarrier, eps, i))
        invariant LeftAlone(TheDesk(), asked.Keys)
        invariant Noted(old(sends), sends, calls[..i], eps[..i], Send)
                  && Noted(old(recvs), recvs, calls[..i], eps[..i], Recv)
        invariant AskedOk(queue.View(), TheDesk()) && EndpointsAsked(queue.View(), eps)
        invariant Entering(TheDesk(), group, i)
      {
        ghost var d, q := TheDesk(), queue.View();
        GraphIsKnown(q);
        ProcessedEnters(d, group, i, calls[i].side, calls[i].Key());
        NextReady(d.graph, groupBarrier, groupStart, eps, i);
        ProcessedOk(d, Remaining(groupBarrier, eps, i), calls[i].side, calls[i].Key(), eps[i]);
        ReadyStays(d.graph, Processed(d, calls[i].side, calls[i].Key(), eps[i]).graph, groupBarrier, groupStart, eps);
        ExtendsTwice(old(TheGraph()), d.graph, Processed(d, calls[i].side, calls[i].Key(), eps[i]).graph);
        ProcessedNotes(old(sends), old(recvs), d, calls, eps, i);
        ProcessedGrows(d, Remaining(groupBarrier, eps, i), calls[i].side, calls[i].Key(), eps[i]);
        ProcessedLeavesAlone(d, calls[i].side, calls[i].Key(), eps[i], asked.Keys);
        OneEndpoint(q, eps, i);
        MatchOrEnqueue(calls[i].side, calls[i].Key(), eps[i], Remaining(groupBarrier, eps, i));
        KeptEndpoints(q, queue.View(), asked.Keys, eps);
        KeptTwice(old(queue.View()), q, queue.View(), asked.Keys);
      }
      AllChosen(calls, eps);
      NoneLeft(groupBarrier, eps);
    }
  }

  /** What a step does to the ends, to the pending synchronize calls and to the answers. */
  ghost predicate StepTaken(step: EQ.QueueStep, ended: map<EventId, Span>, ended': map<EventId, Span>,
      syncing: map<EventId, nat>, syncing': map<EventId, nat>, answered: seq<Answer>, answered': seq<Answer>)
  {
    if step.EventEnded? || step.ReachedPoint? then
      && step.id !in ended && step.id in ended' && ended' == ended[step.id := ended'[step.id]]
         && ended'[step.id].end == step.time
      && syncing' == syncing - {step.id}
      && answered' == if step.id in syncing then answered + [Answer(syncing[step.id], step.id, step.time)] else answered
    else
      ended' == ended && syncing' == syncing && answered' == answered
  }

  lemma NothingFits(q: Queue, ts: nat)
    ensures Fits(q.started, q.heap, []) && EQ.ClockFits(ts, [], ts)
  {
  }

  lemma SteppedIs(q: Queue, report: seq<FlowEnd>, q': Queue, step: EQ.QueueStep, ready: seq<EventId>)
    requires Ok(q) && (q.heap == map[] ==> ReportFits(q, report)) && EQ.Stepped(EQ.Refilled(q, report), q', step, ready)
    ensures GraphOf(q') == GraphOf(q) && SameRequests(q, q')
    ensures if step.EventEnded? || step.ReachedPoint? then
              step.id !in q.ended && step.id in q'.ended && q'.ended == q.ended[step.id := q'.ended[step.id]]
                  && q'.ended[step.id].end == step.time
            else q'.ended == q.ended
    ensures step.EmptyQueue? ==> q'.heap == map[]
    ensures step.EventStarted? ==> |q'.waiting| < |q.waiting|
  {
    hide Ok, ReportFits, StartPopped, SpanEnded, PointEnded, EQ.ReleasedAs, Next;
    var q1 := EQ.Refilled(q, report);
    if q.heap == map[] {
      ReportedOk(q, report);
      GraphReported(q, report);
    }
    GraphStepped(q1, q', step, ready);
    match step {
      case EmptyQueue =>
      case EventStarted(id, _) => assert q'.waiting.Keys == q1.waiting.Keys - {id};
      case EventEnded(id, _) => NextIsThere(q1, End(id)); EndsOnce(q1, id);
      case ReachedPoint(id, _) => NextIsThere(q1, Point(id)); EndsOnce(q1, id);
    }
  }

  lemma NextIsThere(q: Queue, x: Event)
    requires Next(q.heap, x)
    ensures x in q.heap
  {
  }

  function AsOptions(ids: seq<EventId>): (o: seq<Option<EventId>>)
    ensures |o| == |ids| && forall i :: 0 <= i < |ids| ==> o[i] == Some(ids[i])
    ensures DepIds(o) == SetOf(ids) && None !in o
  {
    var o := seq(|ids|, i requires 0 <= i < |ids| => Some(ids[i]));
    AsOptionsIds(ids, o);
    o
  }

  lemma AsOptionsIds(ids: seq<EventId>, o: seq<Option<EventId>>)
    requires |o| == |ids| && forall i :: 0 <= i < |ids| ==> o[i] == Some(ids[i])
    ensures DepIds(o) == SetOf(ids) && None !in o
  {
    forall e | e in SetOf(ids) ensures e in DepIds(o) {
      var i :| 0 <= i < |ids| && ids[i] == e;
      assert o[i].Some? && o[i].value == e;
    }
  }

  lemma NewestIsPending(q: Queue, p: seq<EventId>)
    requires Ok(q) && Behind(GraphOf(q), p)
    ensures Newest(p) in q.pending && Newest(p) !in q.ended && Newest(p) < q.counter && Newest(p) in q.deps
  {
    hide Ok;
    BehindIsPending(q, p);
    PendingIsAlive(q, Newest(p));
  }

  lemma ReleaseEndsNothing(q: Queue, e: EventId)
    requires e in q.pending
    ensures BarrierReleased(q, e).ended == q.ended && SameRequests(q, BarrierReleased(q, e))
  {
    hide Released;
    ReleasedIs(q, e);
    var q' := WithoutBarrier(q, e);
    if q'.pending[e].dependencies == {} { ReleasedKeeps(q', e); }
  }

  /** Event `e` is a computation asked for at the time of the call. */
  ghost predicate LaunchedAs(q: Queue, e: EventId, call: Kernel) {
    e in q.arrival && q.arrival[e] == call.time && e in q.acts && q.acts[e].Some? && q.acts[e].value.Computation?
  }

  /** The kernels `calls` are the events from `first` on. */
  ghost predicate Launched(q: Queue, first: EventId, calls: seq<Kernel>) {
    forall k :: 0 <= k < |calls| ==> LaunchedAs(q, first + k, calls[k])
  }

  lemma LaunchedAll(q: Queue, first: EventId, calls: seq<Kernel>)
    requires Launched(q, first, calls)
    ensures forall e: EventId :: first <= e < first + |calls| ==>
              && e in q.arrival && q.arrival[e] == calls[e - first].time
              && e in q.acts && q.acts[e].Some? && q.acts[e].value.Computation?
  {
    forall e: EventId | first <= e < first + |calls|
      ensures e in q.arrival && q.arrival[e] == calls[e - first].time
      ensures e in q.acts && q.acts[e].Some? && q.acts[e].value.Computation?
    {
      var k := e - first;
      assert LaunchedAs(q, first + k, calls[k]);
    }
  }

  lemma NoneLaunched(q: Queue)
    ensures forall first :: Launched(q, first, [])
  {
  }

  lemma OneLaunched(q: Queue, id: EventId, call: Kernel, duration: nat, before: Queue)
    requires SameRequestsBut(before, q, id, Some(Computation(duration)), call.time)
    ensures Launched(q, id, [call]) && Takes(q, id, duration)
  {
  }

  /** Event `e` is a computation of this duration. */
  ghost predicate Takes(q: Queue, e: EventId, duration: nat) {
    e in q.acts && q.acts[e] == Some(Computation(duration))
  }

  /** Every kernel that is alone in its sequence takes its own duration. */
  ghost predicate Timed(q: Queue, first: EventId, seqs: seq<seq<Kernel>>) {
    forall i :: 0 <= i < |seqs| && |seqs[i]| == 1 ==> Takes(q, first + |Flatten(seqs[..i])|, seqs[i][0].duration)
  }

  lemma TimedAll(q: Queue, first: EventId, seqs: seq<seq<Kernel>>)
    requires Timed(q, first, seqs)
    ensures forall i :: 0 <= i < |seqs| && |seqs[i]| == 1 ==>
              var e := first + |Flatten(seqs[..i])|;
              e in q.acts && q.acts[e] == Some(Computation(seqs[i][0].duration))
  {
    hide Flatten;
    forall i | 0 <= i < |seqs| && |seqs[i]| == 1
        ensures Takes(q, first + |Flatten(seqs[..i])|, seqs[i][0].duration) {}
  }

  lemma NoneTimed(q: Queue, first: EventId)
    ensures Timed(q, first, [])
  {
  }

  lemma OneMoreTimed(q: Queue, q': Queue, es: set<EventId>, first: EventId, seqs: seq<seq<Kernel>>, i: nat)
    requires i < |seqs| && Timed(q, first, seqs[..i]) && Kept(q, q', es)
    requires |seqs[i]| == 1 ==> Takes(q', first + |Flatten(seqs[..i])|, seqs[i][0].duration)
    ensures Timed(q', first, seqs[..i + 1])
  {
    hide Flatten;
    forall j | 0 <= j < i + 1 && |seqs[j]| == 1
        ensures Takes(q', first + |Flatten(seqs[..i + 1][..j])|, seqs[j][0].duration) {
      assert seqs[..i + 1][..j] == seqs[..j];
      if j < i {
        assert seqs[..i][j] == seqs[j] && seqs[..i][..j] == seqs[..j];
        assert Takes(q, first + |Flatten(seqs[..i][..j])|, seqs[..i][j][0].duration);
      }
    }
  }

  lemma MoreLaunched(q: Queue, q': Queue, es: set<EventId>, first: EventId, calls: seq<Kernel>, more: seq<Kernel>)
    requires Launched(q, first, calls) && Kept(q, q', es) && Launched(q', first + |calls|, more)
    ensures Launched(q', first, calls + more)
  {
    forall k | 0 <= k < |calls + more| ensures LaunchedAs(q', first + k, (calls + more)[k]) {
      if k < |calls| {
        assert LaunchedAs(q, first + k, calls[k]);
      } else {
        assert LaunchedAs(q', first + |calls| + (k - |calls|), more[k - |calls|]);
      }
    }
  }

  lemma NoDurations(n: nat)
    ensures exists durations: seq<nat> :: |durations| == n
  {
    assert |seq(n, _ => 0)| == n;
  }

  lemma FlattenNext(seqs: seq<seq<Kernel>>, i: nat)
    requires i < |seqs|
    ensures Flatten(seqs[..i + 1]) == Flatten(seqs[..i]) + seqs[i]
  {
    assert seqs[..i + 1][..i] == seqs[..i];
  }

  lemma {:induction false} FlushedTwice(g: Graph, events: seq<EventId>, m: nat, n: nat)
    ensures var (g1, events1) := Flushed(g, events, m); Flushed(g, events, m + n) == Flushed(g1, events1, n)
    decreases m
  {
    if m > 0 { FlushedTwice(OnTop(g, events, {}), events + [g.next], m - 1, n); }
  }

  lemma NoneIsNoId()
    ensures var none: seq<Option<EventId>> := [None]; DepIds(none) == {} && None in none
  {
  }

  /** One more event has been asked for. */
  ghost predicate SameRequestsBut(q: Queue, q': Queue, id: EventId, action: Option<Action>, time: nat) {
    q'.arrival == q.arrival[id := time] && q'.acts == q.acts[id := action]
  }

  lemma RequestAdded(q: Queue, ds: set<EventId>, hold: bool, action: Option<Action>, now: nat, arrive: nat)
    ensures SameRequestsBut(q, Added(q, ds, hold, action, now, arrive), q.counter, action, now)
    ensures Added(q, ds, hold, action, now, arrive).ended == q.ended
  {
  }

  /** Before anything has happened. */
  ghost function NoDesk(): Desk {
    Desk(Graph(0, map[], {}), map[], map[], map[], map[], map[], _ => _ => 0, _ => 0, _ => [], _ => [], _ => [],
        _ => [], [], [])
  }

  lemma EmptyRecords(q: Queue)
    ensures var d := NoDesk(); ExactOk(d) && AskedOk(q, d) && RecordedOk(d.sends, d.recvs, d.fused, d.singles)
  {
    var d := NoDesk();
    forall o ensures OpenLine(d)(o) == [] {
      match o { case StartsOf(_) => case EndsOf(_) => case SendEnds(_) => case RecvEnds(_) => }
    }
  }

  lemma EmptyDesk()
    ensures DeskOk(NoDesk()) && forall op: OpKey, r: nat :: NoDesk().made(op)(r) == 0
  {
    var d := NoDesk();
    forall o ensures Line(d)(o) == [] {
      match o { case OfCollective(_) => case OfSend(_) => case OfRecv(_) => }
    }
  }

  lemma NothingAsked(q: Queue, d: Desk, asked: map<EventId, Sync>)
    requires asked == map[] && d.waiting == map[] && d.sendWaiting == map[] && d.recvWaiting == map[]
    ensures SyncOk(q, map[], [], asked) && LeftAlone(d, asked.Keys)
  {
  }

  function LastList(events: seq<EventId>): seq<EventId> {
    if events == [] then [] else [events[|events| - 1]]
  }

  lemma LastIsKnown(g: Graph, events: seq<EventId>)
    requires InOrder(g, events)
    ensures SetOf(LastList(events)) == LastOf(events) && forall i :: 0 <= i < |LastList(events)| ==>
            LastList(events)[i] < g.next
  {
  }

  lemma OnTopPlain(g: Graph, events: seq<EventId>)
    ensures OnTop(g, events, {}) == AddNode(g, LastOf(events), false)
  {
    assert {} + LastOf(events) == LastOf(events);
  }

  lemma AppendedUnfolds(g: Graph, info: StreamInfo, ds: set<EventId>)
    ensures var (g1, events) := Flushed(g, info.events, |info.buffered|);
            Appended(g, info, ds) == (OnTop(g1, events, ds), events + [g1.next])
  {
    hide Flushed, OnTop;
  }

  lemma SetOfBoth(ids: seq<EventId>, events: seq<EventId>)
    ensures SetOf(ids + LastList(events)) == SetOf(ids) + LastOf(events)
  {
  }

  lemma FlushNext(g: Graph, events: seq<EventId>, n: nat)
    requires n > 0
    ensures Flushed(g, events, n) == Flushed(OnTop(g, events, {}), events + [g.next], n - 1)
  {
  }

  lemma FlushDone(g: Graph, events: seq<EventId>)
    ensures Flushed(g, events, 0) == (g, events)
  {
  }

  /** Each step ends one more event, or starts one. */
  lemma StepCounts(step: EQ.QueueStep, q: Queue, q': Queue, syncing: map<EventId, nat>, syncing': map<EventId, nat>)
    requires GraphOf(q') == GraphOf(q)
    requires if step.EventEnded? || step.ReachedPoint? then
               step.id !in q.ended && step.id in q'.ended && q'.ended == q.ended[step.id := q'.ended[step.id]]
             else q'.ended == q.ended
    ensures if step.EventEnded? || step.ReachedPoint? then |q'.ended| == |q.ended| + 1 else |q'.ended| == |q.ended|
  {
    if step.EventEnded? || step.ReachedPoint? {
      assert q'.ended.Keys == q.ended.Keys + {step.id};
    }
  }

  /*** Synchronizing ***/

  /** The streams of a host on a device. */
  function StreamsOn(streams: map<Stream, StreamInfo>, host: nat, device: nat): set<Stream> {
    set s | s in streams && s.host == host && s.device == device
  }

  /** The last events of some streams. */
  ghost function LastsOf(streams: map<Stream, StreamInfo>, some: set<Stream>): set<EventId> {
    set s | s in some && s in streams && streams[s].events != [] :: Newest(streams[s].events)
  }

  /** Event `e` is the last one on stream `s`. */
  ghost predicate EndsWith(streams: map<Stream, StreamInfo>, s: Stream, e: EventId) {
    s in streams && streams[s].events != [] && streams[s].events[|streams[s].events| - 1] == e
  }

  lemma LastsAre(streams: map<Stream, StreamInfo>, host: nat, device: nat)
    ensures forall e :: e in LastsOf(streams, StreamsOn(streams, host, device)) <==>
              exists s: Stream :: s.host == host && s.device == device && EndsWith(streams, s, e)
  {
    forall e | e in LastsOf(streams, StreamsOn(streams, host, device))
        ensures exists s: Stream :: s.host == host && s.device == device && EndsWith(streams, s, e) {
      var s :| s in StreamsOn(streams, host, device) && s in streams && streams[s].events != []
          && Newest(streams[s].events) == e;
      assert EndsWith(streams, s, e);
    }
    forall e, s: Stream | s.host == host && s.device == device && EndsWith(streams, s, e)
        ensures e in LastsOf(streams, StreamsOn(streams, host, device)) {
      assert s in StreamsOn(streams, host, device);
    }
  }

  /** Event `e` has ended at the latest of `time` and the ends of all it depends on, each of which is over. */
  ghost predicate Synced(q: Queue, e: EventId, time: nat) {
    e in q.deps && e in q.ended && q.deps[e] <= q.ended.Keys && LatestEnd(q.ended, q.deps[e], time, q.ended[e].end)
  }

  lemma SyncedIs(q: Queue, e: EventId, time: nat)
    requires Ok(q) && e in q.ended && e in q.acts && q.acts[e] == None && e in q.arrival && q.arrival[e] == time
    ensures Synced(q, e, time)
  {
    hide Ok;
    ReachedAtLatest(q, e);
  }

  /** Every answer is the latest of the caller's time and the ends of the last events of all streams
      that the call covers, and goes to the caller. */
  lemma AnsweredAtLatest(q: Queue, syncing: map<EventId, nat>, answered: seq<Answer>, asked: map<EventId, Sync>, i: nat)
    requires Ok(q) && SyncOk(q, syncing, answered, asked) && i < |answered|
    ensures answered[i].event in asked
    ensures var s := asked[answered[i].event];
            && answered[i].host == s.host && s.covered <= q.ended.Keys
               && LatestEnd(q.ended, s.covered, s.time, answered[i].time)
  {
    hide Ok, AnsweredWith;
    assert SyncEvent(q, answered[i].event, asked[answered[i].event]);
    SyncedIs(q, answered[i].event, asked[answered[i].event].time);
  }

  /** Nobody waits for nothing: once the queue is dry, whoever still waits covers an event that has not ended. */
  lemma WaitsForSomething(q: Queue, syncing: map<EventId, nat>, answered: seq<Answer>, asked: map<EventId, Sync>,
      e: EventId)
    requires Ok(q) && SyncOk(q, syncing, answered, asked) && e in syncing && q.heap == map[]
    ensures e in asked && !(asked[e].covered <= q.ended.Keys)
  {
    hide IdsOk, RevOk, OrderOk, HeapOk, EventOk, AnsweredWith;
    assert SyncEvent(q, e, asked[e]);
    AlmostOkAt(q, e);
    DryPointWaits(q, e);
  }

  lemma DryPointWaits(q: Queue, e: EventId)
    requires e in q.arrival && e in q.deps && e in q.acts && EventOk(q, e) && q.heap == map[] && q.acts[e] == None
    requires e !in q.ended && e !in q.held && NoLongerWaiting(q) == {}
    ensures !(q.deps[e] <= q.ended.Keys)
  {
    assert e in q.pending;
    assert e !in NoLongerWaiting(q);
  }

  lemma StartsWaiting(q: Queue, syncing: map<EventId, nat>, answered: seq<Answer>, asked: map<EventId, Sync>,
      e: EventId, host: nat, time: nat)
    requires SyncOk(q, syncing, answered, asked) && e !in q.ended && e !in asked
    requires e in q.deps && SyncEvent(q, e, Sync(host, time, q.deps[e]))
    ensures SyncOk(q, syncing[e := host], answered, asked[e := Sync(host, time, q.deps[e])])
  {
    hide SyncEvent, AnsweredWith;
  }

  lemma AskedWaits(q: Queue, syncing: map<EventId, nat>, answered: seq<Answer>, asked: map<EventId, Sync>, e: EventId)
    requires SyncOk(q, syncing, answered, asked) && e in asked
    ensures if e in q.ended then AnsweredWith(answered, asked[e].host, q, e)
            else e in syncing && syncing[e] == asked[e].host
  {
    hide SyncEvent, AnsweredWith;
  }

  /** Event `id` has ended, and whoever waited for it has been told. */
  lemma AnswersGrow(q: Queue, q': Queue, syncing: map<EventId, nat>, answered: seq<Answer>, asked: map<EventId, Sync>,
      id: EventId, answered': seq<Answer>)
    requires SyncOk(q, syncing, answered, asked) && GraphOf(q') == GraphOf(q) && SameRequests(q, q')
    requires id !in q.ended && id in q'.ended && q'.ended == q.ended[id := q'.ended[id]]
    requires answered' == if id in syncing then answered + [Answer(syncing[id], id, q'.ended[id].end)] else answered
    ensures SyncOk(q', syncing - {id}, answered', asked)
  {
    hide AnsweredWith;
    forall e | e in asked ensures SyncEvent(q', e, asked[e]) { assert SyncEvent(q, e, asked[e]); }
    hide SyncEvent, SameRequests;
    forall e | e in asked && e in q'.ended ensures AnsweredWith(answered', asked[e].host, q', e) {
      if e == id {
        assert answered'[|answered|] == Answer(asked[e].host, e, q'.ended[e].end);
        NewAnswer(answered', asked[e].host, q', e, |answered|);
      } else {
        OldAnswer(answered, answered', asked[e].host, q, q', e);
      }
    }
  }

  lemma NewAnswer(answered: seq<Answer>, host: nat, q: Queue, e: EventId, i: nat)
    requires e in q.ended && i < |answered| && answered[i] == Answer(host, e, q.ended[e].end)
    ensures AnsweredWith(answered, host, q, e)
  {
  }

  lemma OldAnswer(answered: seq<Answer>, answered': seq<Answer>, host: nat, q: Queue, q': Queue, e: EventId)
    requires AnsweredWith(answered, host, q, e) && answered <= answered' && e in q'.ended && q'.ended[e] == q.ended[e]
    ensures AnsweredWith(answered', host, q', e)
  {
    var i :| 0 <= i < |answered| && answered[i] == Answer(host, e, q.ended[e].end);
    assert answered'[i] == answered[i];
  }

  lemma KeptFirst(q: Queue, es: set<EventId>)
    ensures Kept(q, q, es)
  {
  }

  lemma KeptTwice(q: Queue, q1: Queue, q2: Queue, es: set<EventId>)
    requires Kept(q, q1, es) && Kept(q1, q2, es)
    ensures Kept(q, q2, es)
  {
  }

  lemma KeptPoint(q: Queue, q': Queue, es: set<EventId>, e: EventId, t: nat)
    requires PointAt(q, e, t) && Kept(q, q', es)
    ensures PointAt(q', e, t)
  {
    PointStays(q, q', e, t);
  }

  lemma KeptFlows(q: Queue, q': Queue, es: set<EventId>, first: EventId, n: nat, t: nat)
    requires Kept(q, q', es) && forall f: EventId :: first <= f < first + n ==> FlowAt(q, f, t)
    ensures forall f: EventId :: first <= f < first + n ==> FlowAt(q', f, t)
  {
    hide FlowAt, MoreAsked;
    FlowsStay(q, q', first, n, t);
  }

  lemma FlowOfPair(q: Queue, p: Pair)
    requires FlowAt(q, p.flow, Max(p.send.time, p.recv.time))
    ensures PairAsked(q, p)
  {
  }

  lemma EventsOfGroup(q: Queue, f: Fused)
    requires PointAt(q, f.barrier, f.time) && PointAt(q, f.start, f.time) && PointAt(q, f.end, f.time)
    ensures FusedAsked(q, f)
  {
  }

  lemma KeptPair(q: Queue, q': Queue, es: set<EventId>, p: Pair)
    requires PairAsked(q, p) && Kept(q, q', es)
    ensures PairAsked(q', p)
  {
    hide MoreAsked, PairAsked;
    PairStaysAsked(q, q', p);
  }

  lemma KeptFused(q: Queue, q': Queue, es: set<EventId>, f: Fused)
    requires FusedAsked(q, f) && Kept(q, q', es)
    ensures FusedAsked(q', f)
  {
    hide MoreAsked, FusedAsked;
    FusedStaysAsked(q, q', f);
  }

  lemma KeptEndpoints(q: Queue, q': Queue, es: set<EventId>, eps: seq<Endpoint>)
    requires EndpointsAsked(q, eps) && Kept(q, q', es)
    ensures EndpointsAsked(q', eps)
  {
    hide MoreAsked, EndpointsAsked;
    EndpointsStayAsked(q, q', eps);
  }

  lemma OneEndpoint(q: Queue, eps: seq<Endpoint>, i: nat)
    requires EndpointsAsked(q, eps) && i < |eps|
    ensures EndpointAsked(q, eps[i])
  {
  }

  lemma EnteredRecords(q: Queue, q': Queue, es: set<EventId>, d: Desk, side: Side, key: P2PKey, ep: Endpoint)
    requires AskedOk(q, d) && Kept(q, q', es) && EndpointAsked(q, ep)
    requires QueueAt(WaitingOn(d, Other(side)), key) != [] ==>
               PairAsked(q', PairOf(side, ep, QueueAt(WaitingOn(d, Other(side)), key)[0], d.graph.next))
    ensures AskedOk(q', Processed(d, side, key, ep))
  {
    hide AskedOk, MoreAsked, PairAsked, EndpointAsked, Processed, PairOf;
    ProcessedAsked(q, q', d, side, key, ep);
  }

  lemma KeptAsked(q: Queue, q': Queue, es: set<EventId>, d: Desk, d': Desk)
    requires AskedOk(q, d) && Kept(q, q', es) && SameRecords(d, d')
    ensures AskedOk(q', d')
  {
    hide AskedOk, MoreAsked;
    AskedStays(q, q', d, d');
  }

  lemma SteppedAsked(q: Queue, q': Queue, d: Desk, d': Desk)
    requires AskedOk(q, d) && SameRequests(q, q') && SameRecords(d, d')
    ensures AskedOk(q', d')
  {
    hide AskedOk;
    AskedStays(q, q', d, d');
  }

  lemma NothingMoreAsked(q: Queue, d: Desk, d': Desk)
    requires AskedOk(q, d) && SameRecords(d, d')
    ensures AskedOk(q, d')
  {
    hide AskedOk;
    AskedStays(q, q, d, d');
  }

  lemma KeptSync(q: Queue, q': Queue, syncing: map<EventId, nat>, answered: seq<Answer>, asked: map<EventId, Sync>)
    requires SyncOk(q, syncing, answered, asked) && Kept(q, q', asked.Keys)
    ensures SyncOk(q', syncing, answered, asked) && q'.ignored == q.ignored
  {
    forall e | e in asked ensures SyncEvent(q', e, asked[e]) { assert SyncEvent(q, e, asked[e]); }
    hide SyncEvent;
    forall e | e in asked && e in q'.ended ensures AnsweredWith(answered, asked[e].host, q', e) {
      assert AnsweredWith(answered, asked[e].host, q, e);
    }
  }

  lemma AddedKeeps(q: Queue, ds: set<EventId>, hold: bool, action: Option<Action>, now: nat, arrive: nat,
      es: set<EventId>)
    requires Ok(q)
    ensures Kept(q, Added(q, ds, hold, action, now, arrive), es)
  {
    hide EventOk, HeapOk, OrderOk, RevOk;
  }

  lemma DependencyKeeps(q: Queue, e: EventId, d: EventId, es: set<EventId>)
    requires e in q.pending && e in q.deps && e !in es
    ensures Kept(q, AddedDependency(q, e, Some(d)), es)
  {
  }

  lemma AskedKnown(q: Queue, syncing: map<EventId, nat>, answered: seq<Answer>, asked: map<EventId, Sync>)
    requires Ok(q) && SyncOk(q, syncing, answered, asked)
    ensures (forall e :: e in asked ==> e < q.counter) && (forall e :: e in q.ended ==> e < q.counter)
  {
    hide EventOk, HeapOk, OrderOk, RevOk, AnsweredWith;
    forall e | e in asked ensures e < q.counter { assert SyncEvent(q, e, asked[e]); }
    forall e | e in q.ended ensures e < q.counter { assert e in q.arrival; }
  }

  /** An event that was just allocated has not ended, and nobody has asked about it. */
  lemma NewIsFresh(q: Queue, q': Queue, asked: map<EventId, Sync>, e: EventId)
    requires Kept(q, q', asked.Keys) && e >= q.counter
    requires (forall x :: x in asked ==> x < q.counter) && (forall x :: x in q.ended ==> x < q.counter)
    ensures e !in q'.ended && e !in asked
  {
  }

  lemma IsLeftAlone(d: Desk, es: set<EventId>, op: OpKey, i: nat)
    requires LeftAlone(d, es) && i < |DequeAt(d.waiting, op)|
    ensures DequeAt(d.waiting, op)[i].commStart !in es && DequeAt(d.waiting, op)[i].commEnd !in es
  {
  }

  lemma PeerIsLeftAlone(d: Desk, es: set<EventId>, side: Side, key: P2PKey)
    requires LeftAlone(d, es) && QueueAt(WaitingOn(d, Other(side)), key) != []
    ensures QueueAt(WaitingOn(d, Other(side)), key)[0].flowEnd !in es
  {
  }

  lemma NewIsNotAsked(d: Desk, es: set<EventId>, e: EventId)
    requires LeftAlone(d, es) && d.graph.next <= e
    ensures e !in es
  {
  }

  lemma LastBefore(events: seq<EventId>)
    requires events != []
    ensures LastOf(events[..|events| - 1]) == if |events| == 1 then {} else {events[|events| - 2]}
  {
  }

  /** The new event on top of a stream waits for the one before. */
  lemma OnTopOfLast(d: Desk, stream: Stream)
    requires DeskOk(d)
    ensures var d' := OnStream(d, stream, {});
            && stream in d'.streams && d'.streams[stream].events != []
            && var events := d'.streams[stream].events;
            Newest(events) in d'.graph.deps && d'.graph.deps[Newest(events)] == LastOf(events[..|events| - 1])
            && Newest(events) !in d'.graph.held
  {
    hide DeskBut, HistoryOk, InOrder, Flushed;
    DeskIsDense(d, {});
    InfoInOrder(d, {}, stream);
    var info := InfoAt(d.streams, stream);
    FlushedInOrder(d.graph, info.events, |info.buffered|);
    var (g1, events) := Flushed(d.graph, info.events, |info.buffered|);
    assert (events + [g1.next])[..|events|] == events && {} + LastOf(events) == LastOf(events);
  }

  lemma OnStreamRecords(d: Desk, stream: Stream, ds: set<EventId>)
    requires DeskOk(d) && forall e :: e in ds ==> e < d.graph.next
    ensures HistoryOk(OnStream(d, stream, ds))
  {
    hide DeskBut, HistoryOk, InOrder, Appended, Extends, Continues, Dense;
    DeskIsDense(d, {});
    InfoInOrder(d, {}, stream);
    AppendedInOrder(d.graph, InfoAt(d.streams, stream), ds);
    var (g, events) := Appended(d.graph, InfoAt(d.streams, stream), ds);
    StreamContinues(d.streams, stream, StreamInfo(events, []));
    GrownHistory(d, g, d.streams[stream := StreamInfo(events, [])]);
  }

  lemma SetOfKnown(ids: seq<EventId>, n: nat)
    requires forall i :: 0 <= i < |ids| ==> ids[i] < n
    ensures forall e :: e in SetOf(ids) ==> e < n
  {
  }

  lemma NoLasts(streams: map<Stream, StreamInfo>)
    ensures SetOf([]) == LastsOf(streams, {}) && Cleared(streams, {})
  {
  }

  /** No kernels are buffered on these streams. */
  ghost predicate Cleared(streams: map<Stream, StreamInfo>, some: set<Stream>) {
    forall s :: s in some ==> s in streams && streams[s].buffered == []
  }

  lemma StreamKnown(streams: map<Stream, StreamInfo>, was: map<Stream, StreamInfo>, host: nat, device: nat, s: Stream)
    requires s in StreamsOn(was, host, device) && streams.Keys == was.Keys
    ensures s in streams
  {
  }

  lemma SameStreams(streams: map<Stream, StreamInfo>, was: map<Stream, StreamInfo>, host: nat, device: nat)
    requires streams.Keys == was.Keys
    ensures StreamsOn(streams, host, device) == StreamsOn(was, host, device)
  {
  }

  lemma MoreLasts(streams: map<Stream, StreamInfo>, streams': map<Stream, StreamInfo>, seen: set<Stream>, s: Stream,
      lasts: seq<EventId>)
    requires SetOf(lasts) == LastsOf(streams, seen) && s !in seen && s in streams'
             && streams' == streams[s := streams'[s]]
    requires Cleared(streams, seen) && streams'[s].buffered == []
    ensures SetOf(lasts + LastList(streams'[s].events)) == LastsOf(streams', seen + {s})
            && Cleared(streams', seen + {s})
  {
    var events := streams'[s].events;
    forall e | e in LastsOf(streams', seen + {s}) ensures e in SetOf(lasts + LastList(events)) {
      var x :| x in seen + {s} && x in streams' && streams'[x].events != [] && Newest(streams'[x].events) == e;
      if x != s {
        assert e in LastsOf(streams, seen);
        assert e in lasts;
      }
    }
    forall e | e in SetOf(lasts + LastList(events)) ensures e in LastsOf(streams', seen + {s}) {
      if e in lasts {
        assert e in LastsOf(streams, seen);
        var x :| x in seen && x in streams && streams[x].events != [] && Newest(streams[x].events) == e;
        assert streams'[x] == streams[x];
      } else {
        assert e in LastList(events);
      }
    }
  }

  /** Flushing a stream keeps the invariant. */
  lemma FlushedOk(d: Desk, stream: Stream)
    requires DeskOk(d)
    ensures var info := InfoAt(d.streams, stream);
            var (g, events) := Flushed(d.graph, info.events, |info.buffered|);
            DeskOk(d.(graph := g, streams := d.streams[stream := StreamInfo(events, [])])) && d.graph.next <= g.next
  {
    hide DequeOk, Fifo, Strung, InOrder, Dense, HeldIn, Extends, Gated, TransfersOk, CollectivesOk, StreamsOk, Line,
        Flushed, HistoryOk, Continues;
    var info := InfoAt(d.streams, stream);
    InfoInOrder(d, {}, stream);
    FlushedInOrder(d.graph, info.events, |info.buffered|);
    var (g, events) := Flushed(d.graph, info.events, |info.buffered|);
    GraphGrows(d, g, {}, {});
    StreamGrows(d.(graph := g), {}, stream, StreamInfo(events, []));
    StreamContinues(d.streams, stream, StreamInfo(events, []));
    GrownHistory(d, g, d.streams[stream := StreamInfo(events, [])]);
  }

  /*** Collectives ***/

  lemma JoinedUnfolds(g: Graph, info: StreamInfo, c: CCWaiting)
    ensures var (g1, events) := Appended(g, info, {c.barrier});
            JoinedGraph(g, info, c) == Appended(AddEdge(g1, c.commStart, Newest(events)), StreamInfo(events, []),
                {c.commEnd})
  {
    hide Appended;
  }

  lemma AppendedAlone(g: Graph, events: seq<EventId>, ds: set<EventId>)
    ensures Appended(g, StreamInfo(events, []), ds).1 == events + [g.next]
  {
  }

  lemma LastTwoAre(stream: Stream, events: seq<EventId>, end: EventId, time: nat)
    requires events != []
    ensures var p := LastTwo(stream, events + [end], time);
            p.start == Newest(events) && p.end == end && p.time == time
  {
  }

  lemma PutElsewhere<T>(f: OpKey -> T, op: OpKey, x: T)
    ensures Put(f, op, x)(op) == x && forall o: OpKey :: o != op ==> Put(f, op, x)(o) == f(o)
  {
  }

  lemma OpenedRecords(q: Queue, q': Queue, es: set<EventId>, d: Desk, d1: Desk, op: OpKey, rank: nat, stream: Stream,
      flows: nat, time: nat, events: seq<EventId>, c: CCWaiting)
    requires AskedOk(q, d) && Kept(q, q', es) && SameRecords(d, d1) && op.comm in d.groups
    requires c == NewCollective(d, op, rank, stream, flows)
    requires PointAt(q', c.barrier, time) && PointAt(q', c.commStart, time) && PointAt(q', c.commEnd, time)
    requires PartAsked(q', LastTwo(stream, events, time))
    ensures AskedOk(q', d1)
    ensures MeetingsAsked(q', d.meetings(op) + [NewMeeting(d, op, rank, stream, flows, time, events)])
  {
    hide PartAsked, PointAt, MoreAsked, TransfersAsked, FusedAsked, MeetingsAsked, LastTwo, NewCollective;
    KeptAsked(q, q', es, d, d1);
    assert MeetingsAsked(q', d1.meetings(op));
    OpenedAsked(q', d.meetings(op), NewMeeting(d, op, rank, stream, flows, time, events), LastTwo(stream, events, time),
        rank);
  }

  lemma JoinedRecords(q: Queue, q': Queue, es: set<EventId>, d: Desk, d1: Desk, op: OpKey, k: nat, rank: nat, p: Part)
    requires AskedOk(q, d) && Kept(q, q', es) && SameRecords(d, d1) && PartAsked(q', p)
    ensures AskedOk(q', d1) && MeetingsAsked(q', Attending(d.meetings(op), k, rank, p))
  {
    hide PartAsked, MoreAsked, TransfersAsked, FusedAsked, MeetingsAsked, Attending;
    KeptAsked(q, q', es, d, d1);
    assert MeetingsAsked(q', d1.meetings(op));
    AttendingAsked(q', d.meetings(op), k, rank, p);
  }

  lemma FlowRecords(q: Queue, q': Queue, es: set<EventId>, d1: Desk, d3: Desk, op: OpKey, ms: seq<Meeting>, k: nat,
      first: EventId, n: nat, time: nat)
    requires AskedOk(q, d1) && MeetingsAsked(q, ms) && Kept(q, q', es)
    requires forall f: EventId :: first <= f < first + n ==> FlowAt(q', f, time)
    requires d3.meetings == Put(d1.meetings, op, WithFlowsOf(ms, k, first, n, time))
    requires d3.sends == d1.sends && d3.recvs == d1.recvs && d3.pairs == d1.pairs && d3.fused == d1.fused
    ensures AskedOk(q', d3)
  {
    hide AskedOk, MoreAsked, FlowAt, MeetingsAsked, WithFlowsOf, Put;
    KeptAsked(q, q', es, d1, d1);
    MeetingsStayAsked(q, q', ms);
    WithFlowsAsked(q', ms, k, first, n, time);
    PutElsewhere(d1.meetings, op, WithFlowsOf(ms, k, first, n, time));
    OperationAsked(q', d1, d3, op);
  }

  /** The parts of a call's effect put together: the collective is opened, */
  lemma OpenedIsCalled(d: Desk, d1: Desk, d2: Desk, op: OpKey, rank: nat, stream: Stream, flows: nat,
      time: nat, events: seq<EventId>, c: CCWaiting)
    requires op.comm in d.groups && FirstOpen(DequeAt(d.waiting, op), rank) == |DequeAt(d.waiting, op)|
    requires Opened(d.graph, InfoAt(d.streams, stream)) == (d1.graph, events)
             && c == NewCollective(d, op, rank, stream, flows)
    requires d1 == d.(graph := d1.graph, streams := d.streams[stream := StreamInfo(events, [])])
    requires d2 == d1.(waiting := d1.waiting[op := DequeAt(d1.waiting, op) + [c]],
             made := OneMoreCall(d1.made, op, rank),
                       meetings := Put(d1.meetings, op,
                           d1.meetings(op) + [NewMeeting(d, op, rank, stream, flows, time, events)]))
    ensures d2 == Called(d, op, rank, stream, flows, time)
  {
    hide Opened, JoinedGraph, Completed, Put, NewMeeting, NewCollective, FirstOpen;
  }

  /** or joined, */
  lemma JoinedIsCalled(d: Desk, d1: Desk, d2: Desk, op: OpKey, i: nat, rank: nat, stream: Stream, flows: nat,
      time: nat, events: seq<EventId>)
    requires op.comm in d.groups && i == FirstOpen(DequeAt(d.waiting, op), rank) < |DequeAt(d.waiting, op)|
    requires JoinedGraph(d.graph, InfoAt(d.streams, stream), DequeAt(d.waiting, op)[i]) == (d1.graph, events)
    requires JoinedBy(DequeAt(d.waiting, op)[i], rank).waitingFor != {}
    requires d1 == d.(graph := d1.graph, streams := d.streams[stream := StreamInfo(events, [])])
    requires d2 == d1.(waiting :=
             d1.waiting[op := DequeAt(d1.waiting, op)[i := JoinedBy(DequeAt(d1.waiting, op)[i], rank)]],
                       made := OneMoreCall(d1.made, op, rank),
                       meetings := Put(d1.meetings, op, Attending(d1.meetings(op), d1.done(op) + i, rank,
                           LastTwo(stream, events, time))))
    ensures d2 == Called(d, op, rank, stream, flows, time)
  {
    hide Opened, JoinedGraph, Completed, Put, NewMeeting, FirstOpen, Attending, WithFlowsOf, LastTwo, JoinedBy;
  }

  /** or joined and complete. */
  lemma LastIsCalled(d: Desk, d1: Desk, d2: Desk, d3: Desk, op: OpKey, i: nat, rank: nat, stream: Stream, flows: nat,
      time: nat, events: seq<EventId>, c: CCWaiting, ms: seq<Meeting>)
    requires op.comm in d.groups && i == FirstOpen(DequeAt(d.waiting, op), rank) < |DequeAt(d.waiting, op)|
    requires JoinedGraph(d.graph, InfoAt(d.streams, stream), DequeAt(d.waiting, op)[i]) == (d1.graph, events)
    requires c == JoinedBy(DequeAt(d.waiting, op)[i], rank) && c.waitingFor == {}
    requires ms == Attending(d.meetings(op), d.done(op) + i, rank, LastTwo(stream, events, time))
    requires d1 == d.(graph := d1.graph, streams := d.streams[stream := StreamInfo(events, [])])
    requires d2 == d1.(waiting := d1.waiting[op := DequeAt(d1.waiting, op)[..i] + DequeAt(d1.waiting, op)[i + 1..]],
                       made := OneMoreCall(d1.made, op, rank), done := OneMoreDone(d1.done, op),
                       meetings := Put(d1.meetings, op, WithFlowsOf(ms, d1.done(op) + i, d1.graph.next, c.flows, time)))
    requires d3 == d2.(graph := Completed(d2.graph, c))
    ensures d3 == Called(d, op, rank, stream, flows, time)
  {
    hide Opened, JoinedGraph, Completed, Put, NewMeeting, FirstOpen, Attending, WithFlowsOf, LastTwo, JoinedBy;
  }

  lemma OpenedUnfolds(g: Graph, info: StreamInfo)
    ensures var (g1, events) := Appended(AddNode(g, {}, true), info, {g.next});
            Opened(g, info) == Appended(AddNode(AddNode(g1, {Newest(events)}, false), {g1.next}, false),
                StreamInfo(events, []), {g1.next + 1})
  {
    hide Appended;
  }

  lemma GroupAddedOk(d: Desk, comm: nat, n: nat)
    requires DeskOk(d) && comm !in d.groups
    ensures DeskOk(d.(groups := d.groups[comm := n]))
  {
    hide Fifo, Strung, InOrder, Dense, HeldIn, Gated, TransfersOk, MeetingOk;
    SameTransfers(d, d.(groups := d.groups[comm := n]));
  }

  lemma SetOfOne(e: EventId)
    ensures SetOf([e]) == {e}
  {
  }

  lemma DeskGated(d: Desk, op: OpKey, i: nat)
    requires DeskOk(d) && i < |DequeAt(d.waiting, op)|
    ensures Gated(d.graph, DequeAt(d.waiting, op)[i])
  {
    hide Fifo, Strung, InOrder, Dense, HeldIn, Gated, TransfersOk, DequeOk;
  }

  lemma CalledGrows(d: Desk, op: OpKey, rank: nat, stream: Stream, flows: nat, time: nat)
    requires DeskOk(d) && op.comm in d.groups && rank < d.groups[op.comm]
    ensures d.graph.next <= Called(d, op, rank, stream, flows, time).graph.next
  {
    hide Fifo, Strung, InOrder, Dense, HeldIn, Gated, TransfersOk, DequeOk, Opened, JoinedGraph, Completed, StreamsOk,
        CollectivesOk;
    var w, info := DequeAt(d.waiting, op), InfoAt(d.streams, stream);
    var i := FirstOpen(w, rank);
    InfoInOrder(d, {}, stream);
    if i == |w| {
      OpenedIs(d.graph, info, NewCollective(d, op, rank, stream, flows));
    } else {
      AllGated(d, op);
      JoinedIs(d.graph, info, w[i]);
      var (g, _) := JoinedGraph(d.graph, info, w[i]);
      assert Gated(g, w[i]) by {
          assert w[i].barrier in d.graph.held by { GatedIsHeld(d.graph, w[i]); } GatedStays(d.graph, g, w[i]); }
      JoinedByGated(g, w[i], rank);
      CompletedIs(g, JoinedBy(w[i], rank));
    }
  }

  lemma GatedIsHeld(g: Graph, c: CCWaiting)
    requires Gated(g, c)
    ensures c.barrier in g.held
  {
  }

  lemma StillGated(g: Graph, g': Graph, c: CCWaiting) returns (p: seq<EventId>)
    requires Gated(g, c) && Extends(g, g') && g'.held == g.held
    ensures Gated(g', c) && |p| == 4 && p[2] == c.commStart && Newest(p[..3]) == c.commStart && Behind(g', p[..3])
  {
    hide Gated, Extends, Behind;
    GatedIsHeld(g, c);
    GatedStays(g, g', c);
    p := GatedIsBehind(g', c);
  }

  lemma BehindBarrier(g: Graph, b: EventId, e: EventId)
    requires b in g.held && e in g.deps && b in g.deps[e]
    ensures Behind(g, [b, e])
  {
  }

  /** Event `f` waits for the common start. */
  ghost predicate Follows(g: Graph, c: CCWaiting, f: EventId) {
    f in g.deps && c.commStart in g.deps[f]
  }

  lemma FollowsStays(g: Graph, g': Graph, c: CCWaiting, f: EventId)
    requires Follows(g, c, f) && Extends(g, g')
    ensures Follows(g', c, f)
  {
  }

  lemma FollowsIsBehind(g: Graph, c: CCWaiting, f: EventId) returns (p: seq<EventId>)
    requires Gated(g, c) && Follows(g, c, f)
    ensures Behind(g, p) && Newest(p) == f
  {
    var q := GatedIsBehind(g, c);
    p := q[..3] + [f];
  }

  lemma FlowAdded(g: Graph, c: CCWaiting, n: nat)
    requires Dense(g) && Gated(g, c) && c.commStart < g.next && n > 0
    ensures var g' := AddNode(g, {c.commStart}, false);
            && Extends(g, g') && Gated(g', c) && Follows(g', c, g.next)
            && WithFlows(g, c.commStart, n) == WithFlows(g', c.commStart, n - 1)
  {
    hide Gated, Dense;
    NodeExtends(g, {c.commStart}, false);
    GatedIsHeld(g, c);
    GatedStays(g, AddNode(g, {c.commStart}, false), c);
  }

  lemma FlowLinked(g: Graph, c: CCWaiting, f: EventId, n: nat)
    requires Dense(g) && Gated(g, c) && Follows(g, c, f) && n > 0
    ensures var g' := AddEdge(g, c.commEnd, f);
            && Extends(g, g') && Gated(g', c)
            && WithFlowEnds(g, c.commEnd, f, n) == WithFlowEnds(g', c.commEnd, f + 1, n - 1)
  {
    hide Gated;
    GatedIsKnown(g, c);
    EdgeExtends(g, c.commEnd, f);
    GatedIsHeld(g, c);
    GatedStays(g, AddEdge(g, c.commEnd, f), c);
  }

  lemma NoFlowsLeft(g: Graph, c: CCWaiting)
    ensures WithFlows(g, c.commStart, 0) == g && forall f: EventId :: WithFlowEnds(g, c.commEnd, f, 0) == g
  {
  }

  /*** Point to point ***/

  lemma UngroupedIs(d: Desk, stream: Stream)
    ensures var (g, events) := EndpointOn(d.graph, InfoAt(d.streams, stream));
            Ungrouped(d, stream) == d.(graph := g, streams := d.streams[stream := StreamInfo(events, [])])
  {
    hide EndpointOn;
  }

  lemma EndpointUnfolds(g: Graph, info: StreamInfo)
    ensures var (g1, events) := Appended(AddNode(g, {}, true), info, {g.next});
            EndpointOn(g, info) == Appended(g1, StreamInfo(events, []), {Newest(events)})
  {
    hide Appended;
  }

  lemma SetOfTwo(e: EventId, e': EventId)
    ensures SetOf([e, e']) == {e, e'}
  {
  }

  lemma ProcessedCases(d: Desk, side: Side, key: P2PKey, ep: Endpoint)
    ensures QueueAt(WaitingOn(d, Other(side)), key) == [] ==> Processed(d, side, key, ep) == Enqueued(d, side, key, ep)
    ensures QueueAt(WaitingOn(d, Other(side)), key) != [] ==> Processed(d, side, key, ep) == Matched(d, side, key, ep)
  {
  }

  /** The flow of a pair scheduled, and the endpoint that completes the pair entered into the history. */
  ghost function PairedUp(d: Desk, side: Side, key: P2PKey, ep: Endpoint, pair: Pair): Desk {
    d.(graph := Transfer(d.graph, pair.send, pair.recv), pairs := Append(d.pairs, key, pair),
       sends := if side == Send then Append(d.sends, key, ep) else d.sends,
       recvs := if side == Recv then Append(d.recvs, key, ep) else d.recvs)
  }

  lemma MatchedIs(d: Desk, d1: Desk, d2: Desk, side: Side, key: P2PKey, ep: Endpoint)
    requires QueueAt(WaitingOn(d, Other(side)), key) != []
    requires WaitingOn(d1, side) == WaitingOn(d, side)
             && WaitingOn(d1, Other(side)) == Popped(WaitingOn(d, Other(side)), key)
    requires d1 == d.(sendWaiting := d1.sendWaiting, recvWaiting := d1.recvWaiting)
    requires d2 == PairedUp(d1, side, key, ep, PairOf(side, ep, QueueAt(WaitingOn(d, Other(side)), key)[0],
             d1.graph.next))
    ensures d2 == Matched(d, side, key, ep)
  {
    hide Transfer, Popped, Append;
  }

  lemma NoEmptyQueues(d: Desk, extra: set<EventId>)
    requires DeskBut(d, extra)
    ensures forall k :: k in d.sendWaiting ==> d.sendWaiting[k] != []
    ensures forall k :: k in d.recvWaiting ==> d.recvWaiting[k] != []
  {
    hide Fifo, Strung, InOrder, Dense, HeldIn, CollectivesOk;
  }

  /** Whoever waits on the other side is strung up behind a barrier of its own. */
  lemma PeerIsFit(d: Desk, extra: set<EventId>, side: Side, key: P2PKey, ep: Endpoint)
    requires DeskBut(d, extra) && ep.barrier in extra && QueueAt(WaitingOn(d, Other(side)), key) != []
    ensures var peer := QueueAt(WaitingOn(d, Other(side)), key)[0];
            Strung(d.graph, peer) && peer.barrier in d.graph.held && peer.barrier != ep.barrier
                && ep.barrier in d.graph.held
  {
    hide Fifo, Strung, InOrder, Dense, CollectivesOk, StreamsOk;
    PeerIsStrung(d, side, key);
    var o := OwnerOn(Other(side), key);
    assert Line(d)(o)[0] == QueueAt(WaitingOn(d, Other(side)), key)[0].barrier;
    WaitingIsHeld(d, extra, o, 0);
  }

  /** While both barriers are held, the flow and both ends lie behind them, also once edges are added. */
  lemma TransferPaths(g: Graph, send: Endpoint, recv: Endpoint)
    requires Dense(g) && Strung(g, send) && Strung(g, recv) && send.barrier in g.held && recv.barrier in g.held
    ensures var f, g1 := g.next, AddNode(g, {send.flowStart, recv.flowStart}, false);
            var g2 := AddEdge(g1, send.flowEnd, f);
            && Behind(g1, [send.barrier, send.flowStart, send.flowEnd]) && Behind(g1, [send.barrier, send.flowStart, f])
            && Behind(g2, [recv.barrier, recv.flowStart, recv.flowEnd]) && Behind(g2, [send.barrier, send.flowStart, f])
  {
    hide Extends;
    StrungIsKnown(g, send);
    StrungIsKnown(g, recv);
    var f, g1 := g.next, AddNode(g, {send.flowStart, recv.flowStart}, false);
    NodeExtends(g, {send.flowStart, recv.flowStart}, false);
    var g2 := AddEdge(g1, send.flowEnd, f);
    EdgeExtends(g1, send.flowEnd, f);
    StrungStays(g, g1, send);
    StrungStays(g, g1, recv);
    StrungStays(g1, g2, send);
    StrungStays(g1, g2, recv);
    FlowIsBehind(g1, send, f);
    FlowIsBehind(g2, send, f);
    StrungIsBehind(g1, send);
    StrungIsBehind(g2, recv);
  }

  lemma FlowIsBehind(g: Graph, send: Endpoint, f: EventId)
    requires Strung(g, send) && send.barrier in g.held && f in g.deps && send.flowStart in g.deps[f]
    ensures Behind(g, [send.barrier, send.flowStart, f])
  {
  }

  lemma ProcessedGrows(d: Desk, extra: set<EventId>, side: Side, key: P2PKey, ep: Endpoint)
    requires DeskBut(d, extra) && Strung(d.graph, ep) && ep.barrier in extra
    ensures d.graph.next <= Processed(d, side, key, ep).graph.next
  {
    hide DeskBut, Strung, Processed;
    ProcessedOk(d, extra, side, key, ep);
  }

  /*** Groups ***/

  ghost predicate AllCalledAt(eps: seq<Endpoint>, time: nat) {
    forall i :: 0 <= i < |eps| ==> eps[i].time == time
  }

  /** The group and all its endpoints are of one call. */
  ghost predicate CalledAt(f: Fused, time: nat) {
    f.time == time && AllCalledAt(f.eps, time)
  }

  function CallsOn(calls: seq<P2PCall>, stream: Stream): seq<P2PCall> {
    if calls == [] then []
    else
      var last := |calls| - 1;
      CallsOn(calls[..last], stream) + if calls[last].stream == stream then [calls[last]] else []
  }

  /** The endpoints of the calls for one side of one key, in order. */
  ghost function Chosen(calls: seq<P2PCall>, eps: seq<Endpoint>, side: Side, key: P2PKey): seq<Endpoint> {
    if calls == [] || |eps| != |calls| then []
    else
      var last := |calls| - 1;
      Chosen(calls[..last], eps[..last], side, key) + if calls[last].Concerns(side, key) then [eps[last]] else []
  }

  /** The history of one side has grown by the endpoints of the calls, in their order. */
  ghost predicate Noted(before: P2PKey -> seq<Endpoint>, now: P2PKey -> seq<Endpoint>, calls: seq<P2PCall>,
      eps: seq<Endpoint>, side: Side) {
    forall key :: now(key) == before(key) + Chosen(calls, eps, side, key)
  }

  /** The calls on a stream are those of the calls that name it, each once and in their order. */
  lemma {:induction false} CallsOnBoth(calls: seq<P2PCall>, more: seq<P2PCall>, stream: Stream)
    ensures CallsOn(calls + more, stream) == CallsOn(calls, stream) + CallsOn(more, stream)
    ensures |calls| == 1 ==> CallsOn(calls, stream) == if calls[0].stream == stream then calls else []
    decreases |more|
  {
    if |calls| == 1 { assert calls[..0] == [] && calls == [calls[0]]; }
    if more == [] {
      assert calls + more == calls;
    } else {
      var last := |more| - 1;
      assert (calls + more)[..|calls| + last] == calls + more[..last];
      CallsOnBoth(calls, more[..last], stream);
    }
  }

  /** The endpoints for a key are those of the calls that concern it, each once and in their order. */
  lemma {:induction false} ChosenBoth(calls: seq<P2PCall>, eps: seq<Endpoint>, more: seq<P2PCall>,
      moreEps: seq<Endpoint>, side: Side, key: P2PKey)
    requires |calls| == |eps| && |more| == |moreEps|
    ensures Chosen(calls + more, eps + moreEps, side, key)
         == Chosen(calls, eps, side, key) + Chosen(more, moreEps, side, key)
    ensures |calls| == 1 ==> Chosen(calls, eps, side, key) == if calls[0].Concerns(side, key) then eps else []
    decreases |more|
  {
    if |calls| == 1 { assert calls[..0] == [] && eps == [eps[0]]; }
    if more == [] {
      assert calls + more == calls && eps + moreEps == eps;
    } else {
      var last := |more| - 1;
      assert (calls + more)[..|calls| + last] == calls + more[..last];
      assert (eps + moreEps)[..|calls| + last] == eps + moreEps[..last];
      ChosenBoth(calls, eps, more[..last], moreEps[..last], side, key);
    }
  }

  lemma NothingNoted(now: P2PKey -> seq<Endpoint>)
    ensures forall side :: Noted(now, now, [], [], side)
  {
  }

  lemma AllChosen(calls: seq<P2PCall>, eps: seq<Endpoint>)
    requires |eps| == |calls|
    ensures calls[..|calls|] == calls && eps[..|calls|] == eps
  {
  }

  /** The endpoints of a group: each behind a barrier of its own and behind the group's start. */
  ghost predicate GroupReady(g: Graph, groupBarrier: EventId, start: EventId, eps: seq<Endpoint>) {
    && start < g.next && groupBarrier < g.next
    && (forall i :: 0 <= i < |eps| ==>
          Strung(g, eps[i]) && start in g.deps[eps[i].flowStart] && groupBarrier < eps[i].barrier < g.next)
    && forall i, j :: 0 <= i < j < |eps| ==> eps[i].barrier != eps[j].barrier
  }

  /** The barriers of the group that wait in no line once the first `from` endpoints have been processed. */
  ghost function Remaining(groupBarrier: EventId, eps: seq<Endpoint>, from: nat): set<EventId> {
    {groupBarrier} + set i | from <= i < |eps| :: eps[i].barrier
  }

  lemma NoneRemain(groupBarrier: EventId)
    ensures Remaining(groupBarrier, [], 0) == {groupBarrier}
  {
  }

  lemma NoneLeft(groupBarrier: EventId, eps: seq<Endpoint>)
    ensures Remaining(groupBarrier, eps, |eps|) == {groupBarrier}
  {
  }

  lemma MoreRemain(groupBarrier: EventId, eps: seq<Endpoint>, ep: Endpoint)
    ensures Remaining(groupBarrier, eps + [ep], 0) == Remaining(groupBarrier, eps, 0) + {ep.barrier}
  {
    forall b | b in Remaining(groupBarrier, eps, 0) && b != groupBarrier
        ensures b in Remaining(groupBarrier, eps + [ep], 0) {
      var i :| 0 <= i < |eps| && eps[i].barrier == b;
      assert (eps + [ep])[i].barrier == b;
    }
    assert (eps + [ep])[|eps|] == ep;
  }

  lemma NoneReady(g: Graph, groupBarrier: EventId, start: EventId)
    requires start < g.next && groupBarrier < g.next
    ensures GroupReady(g, groupBarrier, start, [])
  {
  }

  lemma ReadyStart(g: Graph, groupBarrier: EventId, start: EventId, eps: seq<Endpoint>)
    requires GroupReady(g, groupBarrier, start, eps)
    ensures start < g.next
  {
  }

  lemma MoreReady(g: Graph, g': Graph, groupBarrier: EventId, start: EventId, eps: seq<Endpoint>, ep: Endpoint)
    requires GroupReady(g, groupBarrier, start, eps) && Extends(g, g') && ep.barrier == g.next < g'.next
    requires Strung(g', ep) && start in g'.deps[ep.flowStart]
    ensures GroupReady(g', groupBarrier, start, eps + [ep])
  {
    forall i | 0 <= i < |eps| ensures Strung(g', eps[i]) && start in g'.deps[eps[i].flowStart] {
        StrungStays(g, g', eps[i]); }
  }

  lemma ReadyStays(g: Graph, g': Graph, groupBarrier: EventId, start: EventId, eps: seq<Endpoint>)
    requires GroupReady(g, groupBarrier, start, eps) && Extends(g, g')
    ensures GroupReady(g', groupBarrier, start, eps)
  {
    forall i | 0 <= i < |eps| ensures Strung(g', eps[i]) && start in g'.deps[eps[i].flowStart] {
        StrungStays(g, g', eps[i]); }
  }

  lemma NextReady(g: Graph, groupBarrier: EventId, start: EventId, eps: seq<Endpoint>, i: nat)
    requires GroupReady(g, groupBarrier, start, eps) && i < |eps|
    ensures Strung(g, eps[i]) && eps[i].barrier in Remaining(groupBarrier, eps, i)
    ensures Remaining(groupBarrier, eps, i) - {eps[i].barrier} == Remaining(groupBarrier, eps, i + 1)
  {
  }

  /** What a group does to its stream, its first event being `next`: the buffered kernels come first, then the
      group's start and end.  Other streams are as before. */
  ghost predicate StreamGot(next: EventId, streams: map<Stream, StreamInfo>, streams': map<Stream, StreamInfo>,
      f: Fused) {
    var info := InfoAt(streams, f.stream);
    && f.barrier == next
    && streams' == streams[f.stream := StreamInfo(info.events + Run(next + 1, |info.buffered|) + [f.start] + [f.end],
       [])]
  }

  lemma StreamIsAs(g: Graph, streams: map<Stream, StreamInfo>, g': Graph, streams': map<Stream, StreamInfo>, f: Fused)
    requires f.stream in streams' && streams' == streams[f.stream := StreamInfo(streams'[f.stream].events, [])]
    requires GroupIs(g, InfoAt(streams, f.stream), g', streams'[f.stream].events, f)
    ensures StreamGot(g.next, streams, streams', f)
  {
    hide InARow, SameBut, SetUpAt;
  }

  lemma UnheldExact(q: Queue, d: Desk, b: EventId, f: Fused)
    requires Ok(q) && d.graph == GraphOf(q) && ExactOk(WithGroup(d, f))
    ensures ExactOk(WithGroup(d.(graph := Unhold(d.graph, b)), f))
  {
    hide Ok, ExactBut;
    GraphIsKnown(q);
    SameContinues(d.streams);
    ExactGrows(WithGroup(d, f), WithGroup(d.(graph := Unhold(d.graph, b)), f), {}, {});
  }

  lemma GraphIsKnown(q: Queue)
    requires Ok(q)
    ensures Known(GraphOf(q))
  {
    hide Ok;
    GraphIsDense(q);
  }

  lemma AppendedNext(g: Graph, info: StreamInfo, ds: set<EventId>)
    requires Dense(g)
    ensures Appended(g, info, ds).0.next == g.next + |info.buffered| + 1
  {
    hide Appended;
    AppendedExactly(g, info, ds);
  }

  lemma StartIsAt(g: Graph, info: StreamInfo)
    requires Dense(g)
    ensures var (g1, events) := Appended(AddNode(g, {}, true), info, {g.next});
            Newest(events) == g.next + |info.buffered| + 1
  {
    hide Appended;
    StartExactly(g, info);
  }

  lemma GroupIsThere(g: Graph, info: StreamInfo, g2: Graph, f: Fused)
    requires Known(g) && Known(g2) && f.barrier == g.next && f.start == g.next + |info.buffered| + 1 && f.end == g2.next
    requires var (g1, events) := Appended(AddNode(g, {}, true), info, {g.next}); SetUp(g1, g2, f.start, f.eps)
    ensures var (g1, events1) := Appended(AddNode(g, {}, true), info, {g.next});
            var (g', events) := Appended(g2, StreamInfo(events1, []), SetOf([f.start] + FlowEnds(f.eps)));
            GroupIs(g, info, g', events, f)
  {
    hide Appended, SetUp, Known, GroupIs, AddNode, SetOf;
    EndsAndStart(f.start, f.eps);
    GroupExactly(g, info, g2, SetOf([f.start] + FlowEnds(f.eps)), f);
  }

  lemma EndsAndStart(start: EventId, eps: seq<Endpoint>)
    ensures forall e :: e in SetOf([start] + FlowEnds(eps)) <==>
              e == start || exists i :: 0 <= i < |eps| && e == eps[i].flowEnd
  {
    var ends := [start] + FlowEnds(eps);
    forall i | 0 <= i < |eps| ensures eps[i].flowEnd in ends { assert ends[i + 1] == eps[i].flowEnd; }
    assert ends[0] == start;
  }

  lemma ReadyEnds(g: Graph, start: EventId, eps: seq<Endpoint>, groupBarrier: EventId)
    requires GroupReady(g, groupBarrier, start, eps) && Dense(g)
    ensures forall i :: 0 <= i < |[start] + FlowEnds(eps)| ==> ([start] + FlowEnds(eps))[i] < g.next
  {
  }

  lemma ReadyGrouped(g: Graph, groupBarrier: EventId, start: EventId, end: EventId, eps: seq<Endpoint>)
    requires GroupReady(g, groupBarrier, start, eps) && end in g.deps && SetOf([start] + FlowEnds(eps)) <= g.deps[end]
    ensures Grouped(g, start, end, eps)
  {
    forall i | 0 <= i < |eps| ensures eps[i].flowEnd in g.deps[end] {
      assert ([start] + FlowEnds(eps))[i + 1] == eps[i].flowEnd;
      assert eps[i].flowEnd in [start] + FlowEnds(eps);
    }
  }

  lemma ExtendsNext(g: Graph, g': Graph)
    requires Extends(g, g')
    ensures g.next <= g'.next
  {
  }

  lemma GroupedStays(g: Graph, g': Graph, start: EventId, end: EventId, eps: seq<Endpoint>)
    requires Grouped(g, start, end, eps) && Extends(g, g')
    ensures Grouped(g', start, end, eps)
  {
  }

  /** The group's own barrier is released. */
  lemma LetGroupGo(d: Desk, groupBarrier: EventId)
    requires DeskBut(d, {groupBarrier})
    ensures groupBarrier in d.graph.held
    ensures var g := Unhold(d.graph, groupBarrier); DeskBut(d.(graph := g), {}) && Extends(d.graph, g)
  {
    hide DequeOk, Fifo, Strung, InOrder, Dense, Extends, Gated, TransfersOk, CollectivesOk, StreamsOk, Line;
    UnholdExtends(d.graph, groupBarrier);
    LetGo(d.graph.held, {groupBarrier}, Line(d), groupBarrier);
    assert {groupBarrier} - {groupBarrier} == {};
    GraphGrows(d, Unhold(d.graph, groupBarrier), {groupBarrier}, {});
  }

  lemma AppendedPlain(d: Desk, stream: Stream, ds: set<EventId>)
    ensures var info := InfoAt(d.streams, stream);
            && OnStream(d, stream, ds) == d.(graph := Appended(d.graph, info, ds).0,
                                           streams := d.streams[stream :=
                                               StreamInfo(Appended(d.graph, info, ds).1, [])])
            && (info.buffered == [] ==> Appended(d.graph, info, ds).1 == info.events + [d.graph.next])
  {
  }

  /** What processing one endpoint adds to the history. */
  lemma ProcessedNotes(sends: P2PKey -> seq<Endpoint>, recvs: P2PKey -> seq<Endpoint>, d: Desk, calls: seq<P2PCall>,
      eps: seq<Endpoint>, i: nat)
    requires i < |calls| == |eps|
    requires Noted(sends, d.sends, calls[..i], eps[..i], Send) && Noted(recvs, d.recvs, calls[..i], eps[..i], Recv)
    ensures var d' := Processed(d, calls[i].side, calls[i].Key(), eps[i]);
            Noted(sends, d'.sends, calls[..i + 1], eps[..i + 1], Send)
                && Noted(recvs, d'.recvs, calls[..i + 1], eps[..i + 1], Recv)
  {
    hide Chosen, Processed;
    var d' := Processed(d, calls[i].side, calls[i].Key(), eps[i]);
    ProcessedHistory(d, calls[i].side, calls[i].Key(), eps[i]);
    forall key: P2PKey
      ensures d'.sends(key) == sends(key) + Chosen(calls[..i + 1], eps[..i + 1], Send, key)
      ensures d'.recvs(key) == recvs(key) + Chosen(calls[..i + 1], eps[..i + 1], Recv, key)
    {
      ChosenNext(calls, eps, i, Send, key);
      ChosenNext(calls, eps, i, Recv, key);
    }
  }

  lemma ProcessedHistory(d: Desk, side: Side, key: P2PKey, ep: Endpoint)
    ensures var d' := Processed(d, side, key, ep);
            && d'.sends == (if side == Send then Append(d.sends, key, ep) else d.sends)
            && d'.recvs == (if side == Recv then Append(d.recvs, key, ep) else d.recvs)
  {
    hide Transfer, Append, Popped;
  }

  lemma ChosenNext(calls: seq<P2PCall>, eps: seq<Endpoint>, i: nat, side: Side, key: P2PKey)
    requires i < |calls| == |eps|
    ensures Chosen(calls[..i + 1], eps[..i + 1], side, key)
         == Chosen(calls[..i], eps[..i], side, key) + if calls[i].Concerns(side, key) then [eps[i]] else []
  {
    assert calls[..i + 1][..i] == calls[..i] && eps[..i + 1][..i] == eps[..i];
  }

  /** Processing an endpoint leaves all records true. */
  lemma ProcessedRecords(d: Desk, side: Side, key: P2PKey, ep: Endpoint)
    requires DeskBut(d, {ep.barrier}) && Strung(d.graph, ep) && HistoryOk(d)
    ensures HistoryOk(Processed(d, side, key, ep))
  {
    hide DeskBut, Strung, HistoryOk, Extends, Continues, Transfer, Popped;
    var d' := Processed(d, side, key, ep);
    ProcessedOk(d, {ep.barrier}, side, key, ep);
    SameContinues(d.streams);
    GrownHistory(d, d'.graph, d.streams);
    SameHistory(d.(graph := d'.graph), d');
  }

  lemma ContinuesTwice(streams: map<Stream, StreamInfo>, streams1: map<Stream, StreamInfo>,
      streams2: map<Stream, StreamInfo>)
    requires Continues(streams, streams1) && Continues(streams1, streams2)
    ensures Continues(streams, streams2)
  {
  }

  lemma GroupHistory(d: Desk, d': Desk, group: Fused)
    requires HistoryOk(d) && Extends(d.graph, d'.graph) && Continues(d.streams, d'.streams)
             && d'.fused == d.fused + [group]
    requires d'.waiting == d.waiting && d'.done == d.done && d'.groups == d.groups && d'.meetings == d.meetings
    requires Adjacent(d'.streams, group.stream, group.at, group.start, group.end)
             && Grouped(d'.graph, group.start, group.end, group.eps)
    ensures HistoryOk(d')
  {
    hide MeetingsOk, Extends, Continues;
    GrownHistory(d, d'.graph, d'.streams);
    assert FusedOk(d'.graph, d'.streams, group);
  }

  lemma {:induction false} ChosenAmong(calls: seq<P2PCall>, eps: seq<Endpoint>, side: Side, key: P2PKey)
    ensures Among(Chosen(calls, eps, side, key), eps)
  {
    if calls != [] && |eps| == |calls| {
      var last := |calls| - 1;
      ChosenAmong(calls[..last], eps[..last], side, key);
    }
  }

  lemma NotedRecorded(d: Desk, d': Desk, calls: seq<P2PCall>, group: Fused)
    requires RecordedOk(d.sends, d.recvs, d.fused, d.singles) && d'.fused == d.fused + [group]
             && d'.singles == d.singles
    requires Noted(d.sends, d'.sends, calls, group.eps, Send) && Noted(d.recvs, d'.recvs, calls, group.eps, Recv)
    ensures RecordedOk(d'.sends, d'.recvs, d'.fused, d'.singles)
  {
    hide Chosen, RecordedOk;
    forall k: P2PKey
      ensures d.sends(k) <= d'.sends(k) && Among(d'.sends(k)[|d.sends(k)|..], group.eps)
      ensures d.recvs(k) <= d'.recvs(k) && Among(d'.recvs(k)[|d.recvs(k)|..], group.eps)
    {
      ChosenAmong(calls, group.eps, Send, k);
      ChosenAmong(calls, group.eps, Recv, k);
      assert d'.sends(k)[|d.sends(k)|..] == Chosen(calls, group.eps, Send, k);
      assert d'.recvs(k)[|d.recvs(k)|..] == Chosen(calls, group.eps, Recv, k);
    }
    GroupRecorded(d.sends, d.recvs, d.fused, d.singles, group, d'.sends, d'.recvs);
  }

  /** A single endpoint is recorded. */
  lemma OneMoreSingle(q: Queue, d: Desk, d': Desk, es: set<EventId>)
    requires DeskOk(d) && AskedOk(q, d) && LeftAlone(d, es) && d' == d.(singles := d'.singles)
    ensures DeskOk(d') && AskedOk(q, d') && LeftAlone(d', es)
  {
    hide DeskBut, HistoryOk, AskedOk, LeftAlone;
    SameDesk(d, d', {});
    SameHistory(d, d');
    LeftAloneStays(d, d', es);
    NothingMoreAsked(q, d, d');
  }

  lemma SameDesk(d: Desk, d': Desk, extra: set<EventId>)
    requires DeskBut(d, extra) && d' == d.(fused := d'.fused, singles := d'.singles)
    ensures DeskBut(d', extra)
  {
    hide DequeOk, Fifo, Strung, InOrder, Dense, Extends, Gated, TransfersOk, CollectivesOk, StreamsOk, HeldIn;
    SameTransfers(d, d');
    SameCollectives(d, d');
    assert Line(d') == Line(d);
  }

  /*** All streams of a group ***/

  ghost function Mentioned(calls: seq<P2PCall>): set<Stream> {
    set c | c in calls :: c.stream
  }

  /** One group for each of these streams, with an endpoint for each call on it. */
  ghost predicate GroupsOf(calls: seq<P2PCall>, groups: seq<Fused>, streams: set<Stream>) {
    && (forall i :: 0 <= i < |groups| ==>
       groups[i].stream in streams && |groups[i].eps| == |CallsOn(calls, groups[i].stream)|)
    && (forall s :: s in streams ==> exists i :: 0 <= i < |groups| && groups[i].stream == s)
    && forall i, j :: 0 <= i < j < |groups| ==> groups[i].stream != groups[j].stream
  }

  /** The endpoints for one side of one key, group by group. */
  ghost function ChosenAlong(calls: seq<P2PCall>, groups: seq<Fused>, side: Side, key: P2PKey): seq<Endpoint> {
    if groups == [] then []
    else
      var last := |groups| - 1;
      ChosenAlong(calls, groups[..last], side, key) + Chosen(CallsOn(calls, groups[last].stream), groups[last].eps,
          side, key)
  }

  /** The history of one side has grown by exactly the endpoints of the calls, on each stream in their order. */
  ghost predicate NotedAlong(before: P2PKey -> seq<Endpoint>, now: P2PKey -> seq<Endpoint>, calls: seq<P2PCall>,
      groups: seq<Fused>, side: Side) {
    forall key :: now(key) == before(key) + ChosenAlong(calls, groups, side, key)
  }

  lemma {:induction false} OnSomeStream(calls: seq<P2PCall>, s: Stream)
    ensures CallsOn(calls, s) != [] <==> s in Mentioned(calls)
  {
    if calls != [] {
      var last := |calls| - 1;
      OnSomeStream(calls[..last], s);
      assert calls == calls[..last] + [calls[last]];
      if s in Mentioned(calls) && calls[last].stream != s {
        var c :| c in calls && c.stream == s;
        assert c in calls[..last];
      }
      if s in Mentioned(calls[..last]) {
        var c :| c in calls[..last] && c.stream == s;
        assert c in calls;
      }
    }
  }

  lemma StreamsMentioned(calls: seq<P2PCall>, all: set<Stream>)
    requires forall s: Stream :: s in all <==> CallsOn(calls, s) != []
    ensures all == Mentioned(calls)
  {
    hide CallsOn;
    forall s: Stream ensures s in all <==> s in Mentioned(calls) { OnSomeStream(calls, s); }
  }

  /** One more grouped operation, the last two events of its stream, with an endpoint for each call. */
  ghost predicate GroupAdded(d: Desk, d': Desk, stream: Stream, calls: seq<P2PCall>, group: Fused) {
    && Extends(d.graph, d'.graph) && Continues(d.streams, d'.streams) && d'.fused == d.fused + [group]
    && StreamGot(d.graph.next, d.streams, d'.streams, group)
    && group.stream == stream && stream in d'.streams && group.at + 2 == |d'.streams[stream].events|
       && |group.eps| == |calls|
    && Noted(d.sends, d'.sends, calls, group.eps, Send) && Noted(d.recvs, d'.recvs, calls, group.eps, Recv)
  }

  /** The grouped operations of some streams, and every endpoint of the calls on them entered into the
      history of its side and key. */
  ghost predicate GroupsAdded(d: Desk, d': Desk, calls: seq<P2PCall>, groups: seq<Fused>, streams: set<Stream>) {
    && Extends(d.graph, d'.graph) && Continues(d.streams, d'.streams) && d'.fused == d.fused + groups
    && GroupsOf(calls, groups, streams) && StreamsGot(d.streams, d'.streams, groups, streams)
    && NotedAlong(d.sends, d'.sends, calls, groups, Send) && NotedAlong(d.recvs, d'.recvs, calls, groups, Recv)
  }

  /** Each of these streams has got its group and nothing else, and no other stream has got anything. */
  ghost predicate StreamsGot(streams: map<Stream, StreamInfo>, streams': map<Stream, StreamInfo>, groups: seq<Fused>,
      touched: set<Stream>)
  {
    && (forall i :: 0 <= i < |groups| ==> HasGot(streams, streams', groups[i]))
    && forall s :: s !in touched ==> InfoAt(streams', s) == InfoAt(streams, s)
  }

  ghost predicate HasGot(streams: map<Stream, StreamInfo>, streams': map<Stream, StreamInfo>, f: Fused) {
    var info := InfoAt(streams, f.stream);
    InfoAt(streams', f.stream) == StreamInfo(info.events + Run(f.barrier + 1, |info.buffered|) + [f.start] + [f.end],
        [])
  }

  lemma MoreGot(streams: map<Stream, StreamInfo>, streams1: map<Stream, StreamInfo>,
      streams2: map<Stream, StreamInfo>, next: EventId, groups: seq<Fused>, group: Fused, touched: set<Stream>)
    requires StreamsGot(streams, streams1, groups, touched) && StreamGot(next, streams1, streams2, group)
    requires group.stream !in touched && forall i :: 0 <= i < |groups| ==> groups[i].stream in touched
    ensures StreamsGot(streams, streams2, groups + [group], touched + {group.stream})
  {
    forall i | 0 <= i < |groups + [group]| ensures HasGot(streams, streams2, (groups + [group])[i]) {
      if i < |groups| { assert HasGot(streams, streams1, groups[i]); }
    }
  }

  lemma NoGroups(d: Desk, calls: seq<P2PCall>)
    ensures GroupsAdded(d, d, calls, [], {})
  {
  }

  lemma MoreGroups(d: Desk, d1: Desk, d2: Desk, calls: seq<P2PCall>, groups: seq<Fused>, group: Fused,
      streams: set<Stream>, stream: Stream)
    requires GroupsAdded(d, d1, calls, groups, streams) && stream !in streams
    requires GroupAdded(d1, d2, stream, CallsOn(calls, stream), group)
    ensures GroupsAdded(d, d2, calls, groups + [group], streams + {stream})
  {
    hide CallsOn, Chosen, Extends, Continues, GroupsOf, Noted, NotedAlong, StreamsGot, StreamGot;
    ExtendsTwice(d.graph, d1.graph, d2.graph);
    ContinuesTwice(d.streams, d1.streams, d2.streams);
    MoreOf(calls, groups, group, streams);
    assert forall i :: 0 <= i < |groups| ==> groups[i].stream in streams by { GroupsTouch(calls, groups, streams); }
    MoreGot(d.streams, d1.streams, d2.streams, d1.graph.next, groups, group, streams);
    MoreNoted(calls, groups, group, d.sends, d1.sends, d2.sends, Send);
    MoreNoted(calls, groups, group, d.recvs, d1.recvs, d2.recvs, Recv);
  }

  lemma GroupsTouch(calls: seq<P2PCall>, groups: seq<Fused>, streams: set<Stream>)
    requires GroupsOf(calls, groups, streams)
    ensures forall i :: 0 <= i < |groups| ==> groups[i].stream in streams
  {
    hide CallsOn;
  }

  lemma MoreOf(calls: seq<P2PCall>, groups: seq<Fused>, group: Fused, streams: set<Stream>)
    requires GroupsOf(calls, groups, streams) && group.stream !in streams
             && |group.eps| == |CallsOn(calls, group.stream)|
    ensures GroupsOf(calls, groups + [group], streams + {group.stream})
  {
    hide CallsOn;
    var groups' := groups + [group];
    forall s | s in streams + {group.stream} ensures exists i :: 0 <= i < |groups'| && groups'[i].stream == s {
      if s == group.stream {
        assert groups'[|groups|].stream == s;
      } else {
        var i :| 0 <= i < |groups| && groups[i].stream == s;
        assert groups'[i].stream == s;
      }
    }
  }

  lemma MoreNoted(calls: seq<P2PCall>, groups: seq<Fused>, group: Fused,
      before: P2PKey -> seq<Endpoint>, mid: P2PKey -> seq<Endpoint>, now: P2PKey -> seq<Endpoint>, side: Side)
    requires NotedAlong(before, mid, calls, groups, side)
             && Noted(mid, now, CallsOn(calls, group.stream), group.eps, side)
    ensures NotedAlong(before, now, calls, groups + [group], side)
  {
    hide CallsOn, Chosen;
    assert (groups + [group])[..|groups|] == groups;
    forall key ensures now(key) == before(key) + ChosenAlong(calls, groups + [group], side, key) {
      assert now(key) == mid(key) + Chosen(CallsOn(calls, group.stream), group.eps, side, key);
    }
  }
}
