/** Per-flow speed histories, the integral they record, and how a rollback undoes them. */
module SpeedHistory {

  /** From `start` on, the flow sends at `speed` (until the next entry starts). */
  datatype Span = Span(start: nat, speed: nat)

  /** How much a flow with history `h` had sent at time `t`: the integral of `h` up to `t`. */
  ghost function SentBy(h: seq<Span>, t: nat): nat {
    if |h| == 0 then 0 else
      var rest, last := h[..|h| - 1], h[|h| - 1];
      if t <= last.start then SentBy(rest, t)
      else SentBy(rest, last.start) + (t - last.start) * last.speed
  }

  /** Entries are in time order and lie between `lo` and `hi`. */
  ghost predicate Ordered(h: seq<Span>, lo: nat, hi: nat) {
    && (forall i, j :: 0 <= i < j < |h| ==> h[i].start <= h[j].start)
    && forall i :: 0 <= i < |h| ==> lo <= h[i].start <= hi
  }

  lemma SentByPush(h: seq<Span>, e: Span, t: nat)
    ensures SentBy(h + [e], t) == if t <= e.start then SentBy(h, t) else SentBy(h, e.start) + (t - e.start) * e.speed
  {
    assert (h + [e])[..|h|] == h;
  }

  lemma SentByPop(h: seq<Span>, t: nat)
    requires 0 < |h| && t <= h[|h| - 1].start
    ensures SentBy(h[..|h| - 1], t) == SentBy(h, t)
  {
  }

  /** The integral only grows. */
  lemma {:induction false} SentByMonotone(h: seq<Span>, t: nat, u: nat)
    requires t <= u
    ensures SentBy(h, t) <= SentBy(h, u)
  {
    if |h| != 0 {
      var rest, last := h[..|h| - 1], h[|h| - 1];
      if u <= last.start {
        SentByMonotone(rest, t, u);
      } else if t <= last.start {
        SentByMonotone(rest, t, last.start);
        assert (u - last.start) * last.speed >= 0;
      } else {
        assert (t - last.start) * last.speed <= (u - last.start) * last.speed;
      }
    }
  }

  /** The integral of entries that all start at or after `t` is nothing. */
  lemma {:induction false} NothingBefore(h: seq<Span>, lo: nat, hi: nat, t: nat)
    requires Ordered(h, lo, hi) && t <= lo
    ensures SentBy(h, t) == 0
  {
    if |h| != 0 {
      NothingBefore(h[..|h| - 1], lo, hi, t);
    }
  }

  /** What is left of a history at `past`: the entries that start before it. */
  ghost function Before(h: seq<Span>, past: nat): seq<Span> {
    if |h| == 0 || h[|h| - 1].start < past then h else Before(h[..|h| - 1], past)
  }

  lemma {:induction false} BeforeKeepsThePast(h: seq<Span>, past: nat, t: nat)
    requires t <= past
    ensures SentBy(Before(h, past), t) == SentBy(h, t)
  {
    if |h| != 0 && past <= h[|h| - 1].start {
      SentByPop(h, t);
      BeforeKeepsThePast(h[..|h| - 1], past, t);
    }
  }

  lemma {:induction false} BeforeOrdered(h: seq<Span>, lo: nat, hi: nat, past: nat)
    requires Ordered(h, lo, hi)
    ensures Ordered(Before(h, past), lo, past)
    ensures past <= lo ==> Before(h, past) == []
  {
    if |h| != 0 && past <= h[|h| - 1].start {
      BeforeOrdered(h[..|h| - 1], lo, hi, past);
    }
  }

  /** When a completed flow is revived, its last entry is `(end, 0)`. */
  ghost predicate Terminated(h: seq<Span>) {
    0 < |h| && h[|h| - 1].speed == 0
  }

  ghost function EndOf(h: seq<Span>): nat
    requires Terminated(h)
  {
    h[|h| - 1].start
  }

  /** `sent` is the byte integral of `h`: up to the clock for a flow still running, up
      to its end for a completed one that is being revived. */
  ghost predicate Integrated(h: seq<Span>, sent: nat, now: nat, past: nat) {
    || (past <= now && Ordered(h, 0, now) && sent == SentBy(h, now))
    || (Terminated(h) && past <= EndOf(h) && Ordered(h, 0, EndOf(h)) && sent == SentBy(h, EndOf(h)))
  }

  /** Undo one flow's history back to `past`: pop the entries that start at or after it
      and take back what they sent.  `now` is the clock. */
  method Undo(h: seq<Span>, sent: nat, now: nat, past: nat) returns (h': seq<Span>, sent': nat)
    requires Integrated(h, sent, now, past)
    ensures h' == Before(h, past)
    ensures sent' == SentBy(h, past) == SentBy(h', past)
  {
    h' := h;
    var lastTs: int := now;
    var reverted: int := 0;
    ghost var upTo := if past <= now && Ordered(h, 0, now) && sent == SentBy(h, now) then now else EndOf(h);
    while |h'| != 0
      invariant Before(h', past) == Before(h, past) && SentBy(h', past) == SentBy(h, past)
      invariant past <= upTo && Ordered(h', 0, upTo)
      invariant reverted == sent - SentBy(h', upTo)
      invariant lastTs == upTo || (h' == h && Terminated(h) && upTo == EndOf(h))
      decreases |h'|
    {
      var entry := h'[|h'| - 1];
      var from := if entry.start < past then past else entry.start;
      TakenBack(h', upTo, past, from);
      assert lastTs == upTo || entry.speed == 0;
      reverted := reverted + (lastTs - from) * entry.speed;
      assert reverted == sent - SentBy(h', from);
      lastTs := entry.start;
      if entry.start < past {
        break;
      }
      upTo := entry.start;
      SentByPop(h', past);
      SentByPop(h', entry.start);
      h' := h'[..|h'| - 1];
    }
    BeforeKeepsThePast(h, past, past);
    if |h'| == 0 {
      assert SentBy(h', upTo) == 0;
    }
    if reverted > sent {
      // The clamp of the floating-point code has nothing to do in exact arithmetic.
      assert false;
    }
    sent' := sent - reverted;
  }

  /** What the last entry contributes to the integral between `from` and `upTo`. */
  lemma TakenBack(h: seq<Span>, upTo: nat, past: nat, from: nat)
    requires 0 < |h| && Ordered(h, 0, upTo) && past <= upTo
    requires from == if h[|h| - 1].start < past then past else h[|h| - 1].start
    ensures SentBy(h, from) == SentBy(h, upTo) - (upTo - from) * h[|h| - 1].speed
  {
    var last := h[|h| - 1];
    assert (upTo - last.start) * last.speed == (upTo - from) * last.speed + (from - last.start) * last.speed;
  }
}
