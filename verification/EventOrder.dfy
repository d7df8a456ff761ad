/** In which order events are taken out of the queue: by their times. */
module EventOrder {
  import opened EventQueue
  import opened EventState

  /** Nothing in the queue is due before `t`. */
  ghost predicate NothingBefore(q: Queue, t: nat) {
    forall x :: x in q.heap ==> t <= q.heap[x].time
  }

  lemma {:induction false} ReleasedLater(q: Queue, ready: seq<EventId>, t: nat)
    requires Releasable(q, ready) && NothingBefore(q, t)
    requires forall i :: 0 <= i < |ready| ==> t <= q.pending[ready[i]].depEndTime
    ensures NothingBefore(AllReleased(q, ready), t)
    decreases |ready|
  {
    if ready != [] {
      var q' := Released(q, ready[0]);
      forall i | 0 <= i < |ready[1..]|
          ensures ready[1..][i] in q'.pending && t <= q'.pending[ready[1..][i]].depEndTime {
        assert ready[1..][i] == ready[i + 1];
      }
      ReleasedLater(q', ready[1..], t);
    }
  }

  /** Whoever an ended event was the last to keep waiting starts no earlier than that end. */
  lemma ToldOfTheEnd(q: Queue, d: EventId, start: nat, end: nat, e: EventId)
    requires e in q.pending && q.pending[e].dependencies != {}
    requires EndRecorded(q, d, start, end).pending[e].dependencies == {}
    ensures end <= EndRecorded(q, d, start, end).pending[e].depEndTime
  {
  }

  lemma EndLeavesLater(q: Queue, d: EventId, start: nat, end: nat, q': Queue, ready: seq<EventId>)
    requires NothingBefore(q, end) && (forall e :: e in q.pending ==> q.pending[e].dependencies != {})
    requires ReleasedAs(EndRecorded(q, d, start, end), q', ready)
    ensures NothingBefore(q', end)
  {
    var q1 := EndRecorded(q, d, start, end);
    forall i | 0 <= i < |ready| ensures end <= q1.pending[ready[i]].depEndTime {
      assert ready[i] in ready;
      ToldOfTheEnd(q, d, start, end, ready[i]);
    }
    ReleasedLater(q1, ready, end);
  }

  lemma AllWait(q: Queue)
    requires Ok(q)
    ensures forall e :: e in q.pending ==> q.pending[e].dependencies != {}
  {
    hide AlmostOk;
    forall e | e in q.pending ensures q.pending[e].dependencies != {} { assert e !in NoLongerWaiting(q); }
  }

  /** After a step nothing in the queue is due before the time of the step: neither what was there already, nor
      what the step has queued. */
  lemma StepLeavesLater(q: Queue, q': Queue, step: QueueStep, ready: seq<EventId>)
    requires Ok(q) && Stepped(q, q', step, ready) && !step.EmptyQueue?
    ensures NothingBefore(q', step.time)
  {
    hide Ok, ReleasedAs;
    AllWait(q);
    match step {
      case EmptyQueue =>
      case EventStarted(_, _) =>
      case EventEnded(id, time) => EndLeavesLater(EndPopped(q, id), id, q.started[id], time, q', ready);
      case ReachedPoint(id, time) => EndLeavesLater(PointPopped(q, id), id, time, time, q', ready);
    }
  }

  /** Successive steps with nothing added in between, none of which had to ask the network. */
  ghost predicate Runs(qs: seq<Queue>, steps: seq<QueueStep>, released: seq<seq<EventId>>) {
    && |qs| == |steps| + 1 == |released| + 1
    && forall i :: 0 <= i < |steps| ==>
         Ok(qs[i]) && qs[i].heap != map[] && Stepped(qs[i], qs[i + 1], steps[i], released[i])
  }

  /** Their times never decrease. */
  lemma {:induction false} TimesNeverDecrease(qs: seq<Queue>, steps: seq<QueueStep>, released: seq<seq<EventId>>,
      i: nat, j: nat)
    requires Runs(qs, steps, released) && i <= j < |steps|
    ensures !steps[i].EmptyQueue? && !steps[j].EmptyQueue? && steps[i].time <= steps[j].time
    decreases j
  {
    hide Ok, ReleasedAs, SpanEnded, PointEnded, StartPopped;
    assert Stepped(qs[i], qs[i + 1], steps[i], released[i]) && Stepped(qs[j], qs[j + 1], steps[j], released[j]);
    if i < j {
      TimesNeverDecrease(qs, steps, released, i, j - 1);
      StepLeavesLater(qs[j - 1], qs[j], steps[j - 1], released[j - 1]);
    }
  }
}
