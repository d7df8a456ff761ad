/** Which events hold a `None` barrier: one for each collective and each point-to-point endpoint
    that is waiting, kept in lines (one per key), oldest first. */
module Barriers {
  import opened EventState

  /** Held barriers are exactly those in `extra` and in the lines, each in one place. */
  ghost predicate HeldIn<T(!new)>(held: set<EventId>, extra: set<EventId>, line: T -> seq<EventId>) {
    && (forall b: EventId :: b in held <==> b in extra || InLine(line, b))
    && (forall b: EventId :: b in extra ==> !InLine(line, b))
    && (forall o, o', i, j :: 0 <= i < |line(o)| && 0 <= j < |line(o')| && line(o)[i] == line(o')[j] ==>
       o == o' && i == j)
  }

  ghost predicate InLine<T(!new)>(line: T -> seq<EventId>, b: EventId) {
    exists o :: b in line(o)
  }

  /** The lines agree but at `o`. */
  ghost predicate But<T(!new)>(line: T -> seq<EventId>, line': T -> seq<EventId>, o: T) {
    forall x :: x != o ==> line'(x) == line(x)
  }

  /** A new barrier, not yet in a line. */
  lemma HoldOne<T(!new)>(held: set<EventId>, extra: set<EventId>, line: T -> seq<EventId>, b: EventId)
    requires HeldIn(held, extra, line) && b !in held
    ensures HeldIn(held + {b}, extra + {b}, line)
  {
  }

  /** A barrier that is in no line is released. */
  lemma LetGo<T(!new)>(held: set<EventId>, extra: set<EventId>, line: T -> seq<EventId>, b: EventId)
    requires HeldIn(held, extra, line) && b in extra
    ensures HeldIn(held - {b}, extra - {b}, line)
  {
  }

  /** A barrier joins the end of a line. */
  lemma Enqueue<T(!new)>(held: set<EventId>, extra: set<EventId>, line: T -> seq<EventId>, line': T -> seq<EventId>,
      o: T, b: EventId)
    requires HeldIn(held, extra, line) && b in extra && But(line, line', o) && line'(o) == line(o) + [b]
    ensures HeldIn(held, extra - {b}, line')
  {
    forall x: EventId | InLine(line', x) ensures x == b || InLine(line, x) {
      var p :| x in line'(p);
      assert x == b || x in line(p);
    }
    forall x: EventId | InLine(line, x) ensures InLine(line', x) {
      var p :| x in line(p);
      assert x in line'(p);
    }
    assert b in line'(o);
    forall p | b in line(p) ensures false { assert InLine(line, b); }
    forall p, p', i, j | 0 <= i < |line'(p)| && 0 <= j < |line'(p')| && line'(p)[i] == line'(p')[j]
        ensures p == p' && i == j {
      Placed(line, line', o, b, p, i);
      Placed(line, line', o, b, p', j);
    }
  }

  lemma Placed<T(!new)>(line: T -> seq<EventId>, line': T -> seq<EventId>, o: T, b: EventId, p: T, i: nat)
    requires But(line, line', o) && line'(o) == line(o) + [b] && i < |line'(p)|
    ensures (p == o && i == |line(o)| && line'(p)[i] == b) || (i < |line(p)| && line'(p)[i] == line(p)[i]
            && line'(p)[i] in line(p))
  {
  }

  /** The first barrier of a line leaves it. */
  lemma Dequeue<T(!new)>(held: set<EventId>, extra: set<EventId>, line: T -> seq<EventId>, line': T -> seq<EventId>,
      o: T)
    requires HeldIn(held, extra, line) && line(o) != [] && But(line, line', o) && line'(o) == line(o)[1..]
    ensures HeldIn(held, extra + {line(o)[0]}, line')
  {
    var b := line(o)[0];
    assert b in line(o);
    assert InLine(line, b);
    forall x: EventId | InLine(line', x) ensures x != b && InLine(line, x) {
      var p :| x in line'(p);
      var i :| 0 <= i < |line'(p)| && line'(p)[i] == x;
      assert x == line(p)[if p == o then i + 1 else i];
      assert x in line(p);
    }
    forall x: EventId | InLine(line, x) && x != b ensures InLine(line', x) {
      var p :| x in line(p);
      assert x in line'(p);
    }
    forall p, p', i, j | 0 <= i < |line'(p)| && 0 <= j < |line'(p')| && line'(p)[i] == line'(p')[j]
        ensures p == p' && i == j {
      assert line'(p)[i] == line(p)[if p == o then i + 1 else i];
      assert line'(p')[j] == line(p')[if p' == o then j + 1 else j];
    }
  }

  lemma SameLines<T(!new)>(held: set<EventId>, extra: set<EventId>, line: T -> seq<EventId>, line': T -> seq<EventId>)
    requires HeldIn(held, extra, line) && forall o :: line'(o) == line(o)
    ensures HeldIn(held, extra, line')
  {
    forall x: EventId | InLine(line', x) ensures InLine(line, x) {
      var p :| x in line'(p);
      assert x in line(p);
    }
    forall x: EventId | InLine(line, x) ensures InLine(line', x) {
      var p :| x in line(p);
      assert x in line'(p);
    }
  }
}
