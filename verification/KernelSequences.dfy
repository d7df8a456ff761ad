/** Cutting the buffered kernels of a stream into back-to-back sequences. */
module KernelSequences {
  import opened StreamOrder

  function Flatten(seqs: seq<seq<Kernel>>): seq<Kernel> {
    if seqs == [] then [] else Flatten(seqs[..|seqs| - 1]) + seqs[|seqs| - 1]
  }

  /** When the kernels would be over if they ran back to back from the first one's time. */
  function Busy(s: seq<Kernel>): nat
    requires s != []
    decreases |s|
  {
    (if |s| == 1 then s[0].time else Busy(s[..|s| - 1])) + s[|s| - 1].duration
  }

  /** Every kernel but the first is launched before those ahead of it are over. */
  ghost predicate BackToBack(s: seq<Kernel>) {
    s != [] && forall i :: 0 < i < |s| ==> s[i].time <= Busy(s[..i])
  }

  /** Sequences in order, each back to back, and each cut where the next kernel comes later. */
  ghost predicate Cut(seqs: seq<seq<Kernel>>) {
    && (forall i :: 0 <= i < |seqs| ==> BackToBack(seqs[i]))
    && forall i, j :: 0 <= i < |seqs| && j == i + 1 < |seqs| ==> Gap(seqs[i], seqs[j])
  }

  /** The next sequence begins after this one is over. */
  ghost predicate Gap(s: seq<Kernel>, next: seq<Kernel>) {
    s != [] && next != [] && next[0].time > Busy(s)
  }

  /** `split_sequences`. */
  method SplitSequences(disabled: bool, calls: seq<Kernel>) returns (seqs: seq<seq<Kernel>>)
    ensures Flatten(seqs) == calls
    ensures disabled ==> forall i :: 0 <= i < |seqs| ==> |seqs[i]| == 1
    ensures !disabled ==> Cut(seqs)
  {
    seqs := [];
    if calls == [] {
      return;
    }
    if disabled {
      seqs := Singles(calls);
      return;
    }
    hide Cut, BackToBack, Busy, Flatten;
    var lastSeq: seq<Kernel> := [];
    var currEndTime := calls[0].time;
    NothingCut();
    for i := 0 to |calls|
      invariant Flatten(seqs) + lastSeq == calls[..i]
                && (lastSeq == [] ==> i == 0 && seqs == [] && currEndTime == calls[0].time)
      invariant lastSeq != [] ==> BackToBack(lastSeq) && currEndTime == Busy(lastSeq) && Cut(seqs + [lastSeq])
    {
      var call := calls[i];
      assert calls[..i + 1] == calls[..i] + [call];
      if call.time <= currEndTime {
        RunsOn(seqs, lastSeq, call);
        lastSeq := lastSeq + [call];
        currEndTime := currEndTime + call.duration;
      } else {
        currEndTime := call.time + call.duration;
        StartsNext(seqs, lastSeq, call);
        seqs := seqs + [lastSeq];
        lastSeq := [call];
      }
    }
    FlattenMore(seqs, lastSeq);
    seqs := seqs + [lastSeq];
    assert calls[..|calls|] == calls;
  }

  method Singles(calls: seq<Kernel>) returns (seqs: seq<seq<Kernel>>)
    ensures Flatten(seqs) == calls && forall i :: 0 <= i < |seqs| ==> |seqs[i]| == 1
  {
    hide Flatten;
    seqs := [];
    NothingCut();
    for i := 0 to |calls|
      invariant Flatten(seqs) == calls[..i] && forall j :: 0 <= j < |seqs| ==> |seqs[j]| == 1
    {
      FlattenMore(seqs, [calls[i]]);
      assert calls[..i + 1] == calls[..i] + [calls[i]];
      seqs := seqs + [[calls[i]]];
    }
    assert calls[..|calls|] == calls;
  }

  lemma NothingCut()
    ensures Flatten([]) == []
  {
  }

  lemma FlattenMore(seqs: seq<seq<Kernel>>, s: seq<Kernel>)
    ensures Flatten(seqs + [s]) == Flatten(seqs) + s
  {
    assert (seqs + [s])[..|seqs|] == seqs;
  }

  /** One more kernel in the last sequence. */
  lemma RunsOn(seqs: seq<seq<Kernel>>, last: seq<Kernel>, call: Kernel)
    requires last == [] ==> seqs == []
    requires last != [] ==> BackToBack(last) && call.time <= Busy(last) && Cut(seqs + [last])
    ensures BackToBack(last + [call]) && Cut(seqs + [last + [call]])
    ensures Busy(last + [call]) == (if last == [] then call.time else Busy(last)) + call.duration
  {
    hide Gap;
    var s := last + [call];
    MoreBackToBack(last, call);
    var a, b := seqs + [last], seqs + [s];
    forall i | 0 <= i < |b| ensures BackToBack(b[i]) { if i < |seqs| { assert b[i] == a[i]; } }
    forall i, j | 0 <= i < |b| && j == i + 1 < |b| ensures Gap(b[i], b[j]) {
      assert Gap(a[i], a[j]);
      if j == |seqs| { GapFirst(a[i], last, s); } else { assert b[j] == a[j]; }
    }
  }

  lemma GapFirst(s: seq<Kernel>, next: seq<Kernel>, next': seq<Kernel>)
    requires Gap(s, next) && next' != [] && next'[0] == next[0]
    ensures Gap(s, next')
  {
  }

  lemma MoreBackToBack(last: seq<Kernel>, call: Kernel)
    requires last != [] ==> BackToBack(last) && call.time <= Busy(last)
    ensures BackToBack(last + [call])
    ensures Busy(last + [call]) == (if last == [] then call.time else Busy(last)) + call.duration
  {
    var s := last + [call];
    assert s[..|last|] == last;
    forall i | 0 < i < |s| ensures s[i].time <= Busy(s[..i]) {
      assert s[..i] == last[..i];
      if i == |last| { assert last[..i] == last; }
    }
  }

  /** The last sequence is complete, and a new one begins. */
  lemma StartsNext(seqs: seq<seq<Kernel>>, last: seq<Kernel>, call: Kernel)
    requires last != [] && Cut(seqs + [last]) && call.time > Busy(last)
    ensures Flatten(seqs + [last]) == Flatten(seqs) + last
    ensures BackToBack([call]) && Busy([call]) == call.time + call.duration && Cut(seqs + [last] + [[call]])
  {
    assert (seqs + [last])[..|seqs|] == seqs;
    var a, b := seqs + [last], seqs + [last] + [[call]];
    forall i | 0 <= i < |b| ensures BackToBack(b[i]) { if i < |a| { assert b[i] == a[i]; } }
    forall i, j | 0 <= i < |b| && j == i + 1 < |b| ensures Gap(b[i], b[j]) {
      if j < |a| { assert Gap(a[i], a[j]); }
    }
  }

  lemma {:induction false} CutIsUnique(a: seq<seq<Kernel>>, b: seq<seq<Kernel>>)
    requires Cut(a) && Cut(b) && FlattenFront(a) == FlattenFront(b)
    ensures a == b
    decreases |a|
  {
    if a == [] {
      if b != [] { NotEmpty(b); }
    } else if b == [] {
      NotEmpty(a);
    } else {
      SameFirst(a, b);
      SameFirst(b, a);
      var whole := FlattenFront(a);
      assert whole[..|a[0]|] == a[0] && whole[..|b[0]|] == b[0];
      assert whole[|a[0]|..] == FlattenFront(a[1..]) && whole[|b[0]|..] == FlattenFront(b[1..]);
      CutTail(a);
      CutTail(b);
      CutIsUnique(a[1..], b[1..]);
      assert a == [a[0]] + a[1..] && b == [b[0]] + b[1..];
    }
  }

  /** The same concatenation, from the front. */
  function FlattenFront(seqs: seq<seq<Kernel>>): seq<Kernel> {
    if seqs == [] then [] else seqs[0] + FlattenFront(seqs[1..])
  }

  lemma {:induction false} FlattenBoth(seqs: seq<seq<Kernel>>)
    ensures Flatten(seqs) == FlattenFront(seqs)
    decreases |seqs|
  {
    if |seqs| > 1 {
      FlattenBoth(seqs[1..]);
      FlattenBoth(seqs[..|seqs| - 1]);
      FlattenBoth(seqs[1..|seqs| - 1]);
      assert seqs[1..][..|seqs| - 2] == seqs[1..|seqs| - 1] && seqs[..|seqs| - 1][1..] == seqs[1..|seqs| - 1];
      assert seqs[1..][|seqs| - 2] == seqs[|seqs| - 1] && seqs[..|seqs| - 1][0] == seqs[0];
    } else if |seqs| == 1 {
      assert seqs[..0] == [] && seqs[1..] == [];
    }
  }

  lemma CutTail(a: seq<seq<Kernel>>)
    requires Cut(a) && a != []
    ensures Cut(a[1..])
  {
    var t := a[1..];
    forall i | 0 <= i < |t| ensures BackToBack(t[i]) { assert t[i] == a[i + 1]; }
    forall i, j | 0 <= i < |t| && j == i + 1 < |t| ensures Gap(t[i], t[j]) { assert Gap(a[i + 1], a[j + 1]); }
  }

  lemma NotEmpty(a: seq<seq<Kernel>>)
    requires Cut(a) && a != []
    ensures FlattenFront(a) != []
  {
    assert BackToBack(a[0]);
  }

  /** Where the first sequence ends, either nothing follows, or something that comes later. */
  lemma FirstStops(b: seq<seq<Kernel>>)
    requires Cut(b) && b != []
    ensures b[0] != [] && |b[0]| <= |FlattenFront(b)| && FlattenFront(b)[..|b[0]|] == b[0]
    ensures |FlattenFront(b)| == |b[0]| || FlattenFront(b)[|b[0]|].time > Busy(b[0])
  {
    assert BackToBack(b[0]);
    if |b| > 1 {
      assert Gap(b[0], b[1]);
      assert FlattenFront(b[1..])[0] == b[1][0];
    } else {
      assert b[1..] == [];
    }
  }

  /** Inside the first sequence, nothing comes later. */
  lemma FirstRuns(a: seq<seq<Kernel>>, n: nat)
    requires Cut(a) && a != [] && 0 < n < |a[0]|
    ensures n < |FlattenFront(a)| && FlattenFront(a)[n].time <= Busy(FlattenFront(a)[..n])
  {
    assert BackToBack(a[0]);
    assert FlattenFront(a)[..n] == a[0][..n] && FlattenFront(a)[n] == a[0][n];
  }

  /** The first sequence of one cut is no longer than that of another. */
  lemma SameFirst(a: seq<seq<Kernel>>, b: seq<seq<Kernel>>)
    requires Cut(a) && Cut(b) && a != [] && b != [] && FlattenFront(a) == FlattenFront(b)
    ensures |a[0]| <= |b[0]|
  {
    hide Cut, Busy, FlattenFront;
    FirstStops(b);
    if |b[0]| < |a[0]| {
      FirstRuns(a, |b[0]|);
      assert false;
    }
  }

  /** There is only one way to cut a list of kernels. */
  lemma OnlyOneCut(a: seq<seq<Kernel>>, b: seq<seq<Kernel>>)
    requires Cut(a) && Cut(b) && Flatten(a) == Flatten(b)
    ensures a == b
  {
    hide Cut;
    FlattenBoth(a);
    FlattenBoth(b);
    CutIsUnique(a, b);
  }

  /** What cutting means for one kernel more: it joins the last sequence if it is launched no later than that one is
      over, and starts a sequence of its own otherwise. */
  lemma OneKernelMore(seqs: seq<seq<Kernel>>, last: seq<Kernel>, call: Kernel)
    requires last != [] && Cut(seqs + [last])
    ensures if call.time <= Busy(last) then Cut(seqs + [last + [call]]) else Cut(seqs + [last] + [[call]])
    ensures Busy([call]) == call.time + call.duration && Busy(last + [call]) == Busy(last) + call.duration
  {
    assert BackToBack((seqs + [last])[|seqs|]);
    assert (last + [call])[..|last|] == last;
    if call.time <= Busy(last) { RunsOn(seqs, last, call); } else { StartsNext(seqs, last, call); }
  }

  lemma CutOfTwo(a: Kernel, b: Kernel)
    ensures Cut([[a, b]]) <==> b.time <= a.time + a.duration
    ensures Cut([[a], [b]]) <==> b.time > a.time + a.duration
  {
    var one, two := [[a, b]], [[a], [b]];
    assert [a, b][..1] == [a] && Busy([a]) == a.time + a.duration;
    assert BackToBack([a]) && BackToBack([b]);
    if Cut(one) { assert BackToBack(one[0]) && [a, b][1].time <= Busy([a, b][..1]); }
    if b.time <= a.time + a.duration {
      assert BackToBack([a, b]);
    }
    if Cut(two) { assert Gap(two[0], two[1]); }
  }
}
