/** The permutation that groups the tokens of a mixture of experts by local expert, each expert's
    segment padded to an alignment. */
module MoeLayout {

  /** Tokens come from `ranks` ranks, each with `perExpert` rows for each of `experts` local experts. */
  datatype Shape = Shape(ranks: nat, experts: nat, perExpert: nat, align: nat)

  function Max(a: nat, b: nat): nat { if a < b then b else a }

  function Min(a: nat, b: nat): nat { if a < b then a else b }

  /** `_round_up`. */
  function RoundUp(x: nat, m: nat): (r: nat)
    requires m > 0
    ensures x <= r < x + m && r % m == 0
  {
    RoundUpIs(x, m);
    ((x + m - 1) / m) * m
  }

  lemma RoundUpIs(x: nat, m: nat)
    requires m > 0
    ensures x <= ((x + m - 1) / m) * m < x + m && (((x + m - 1) / m) * m) % m == 0
  {
    var q := (x + m - 1) / m;
    assert q * m + (x + m - 1) % m == x + m - 1;
    TimesMod(q, m);
  }

  lemma TimesMod(q: nat, m: nat)
    requires m > 0
    ensures (q * m) % m == 0
  {
    var x := q * m;
    assert Join(x / m, m, x % m) == Join(q, m, 0);
    JoinIsUnique(x / m, q, m, x % m, 0);
  }

  /** Two-digit numbers: `q` groups of `d`, and `r` more. */
  function Join(q: nat, d: nat, r: nat): nat { q * d + r }

  lemma JoinIsUnique(q: nat, q': nat, d: nat, r: nat, r': nat)
    requires Join(q, d, r) == Join(q', d, r') && r < d && r' < d
    ensures q == q' && r == r'
  {
    if q < q' { TimesAtMost(q + 1, q', d); }
    if q' < q { TimesAtMost(q' + 1, q, d); }
  }

  lemma JoinBelow(q: nat, n: nat, d: nat, r: nat)
    requires q < n && r < d
    ensures Join(q, d, r) < n * d
  {
    TimesAtMost(q + 1, n, d);
    assert (q + 1) * d == q * d + d;
  }

  lemma JoinSplit(x: nat, n: nat, d: nat) returns (q: nat, r: nat)
    requires x < n * d
    ensures q < n && r < d && Join(q, d, r) == x
  {
    assert d > 0;
    q, r := x / d, x % d;
    assert q * d + r == x;
    if q >= n { TimesAtMost(n, q, d); }
  }

  function Rows(s: Shape): nat { s.ranks * s.experts * s.perExpert }

  /** The rows of all ranks for one local expert. */
  function PerLocal(s: Shape): nat { s.ranks * s.perExpert }

  /** The length of a segment. */
  function SegmentSize(s: Shape): (m: nat)
    requires s.align > 0
    ensures PerLocal(s) <= m <= PerLocal(s) + s.align
  {
    RoundUpSelf(s.align);
    RoundUp(Max(PerLocal(s), s.align), s.align)
  }

  lemma RoundUpSelf(m: nat)
    requires m > 0
    ensures RoundUp(m, m) == m
  {
    assert (m + m - 1) / m == 1;
  }

  function PaddedLength(s: Shape): nat
    requires s.align > 0
  {
    RoundUp(Rows(s) + s.experts * s.align, s.align)
  }

  /** All segments fit. */
  lemma SegmentsFit(s: Shape)
    requires s.align > 0
    ensures s.experts * SegmentSize(s) <= PaddedLength(s)
  {
    TimesAtMost(SegmentSize(s), PerLocal(s) + s.align, s.experts);
    calc {
      s.experts * (PerLocal(s) + s.align);
      s.experts * PerLocal(s) + s.experts * s.align;
      { assert s.experts * (s.ranks * s.perExpert) == s.ranks * s.experts * s.perExpert; }
      Rows(s) + s.experts * s.align;
    }
  }

  lemma TimesAtMost(a: nat, b: nat, c: nat)
    requires a <= b
    ensures c * a <= c * b && a * c <= b * c
  {
  }

  /*** The layout ***/

  /** The input row of token `t` from rank `r` for local expert `e`. */
  function InputRow(s: Shape, e: nat, r: nat, t: nat): nat {
    Join(Join(r, s.experts, e), s.perExpert, t)
  }

  function Block(s: Shape, e: nat, r: nat): seq<int> {
    seq(s.perExpert, t requires 0 <= t < s.perExpert => InputRow(s, e, r, t))
  }

  function Padding(n: nat): seq<int> {
    seq(n, _ => -1)
  }

  /** The rows of the first `r` ranks for local expert `e`. */
  function Blocks(s: Shape, e: nat, r: nat): seq<int> {
    if r == 0 then [] else Blocks(s, e, r - 1) + Block(s, e, r - 1)
  }

  lemma {:induction false} BlocksLength(s: Shape, e: nat, r: nat)
    ensures |Blocks(s, e, r)| == r * s.perExpert
  {
    if r > 0 {
      BlocksLength(s, e, r - 1);
      assert r * s.perExpert == (r - 1) * s.perExpert + s.perExpert;
    }
  }

  function Segment(s: Shape, e: nat): (seg: seq<int>)
    requires s.align > 0
    ensures |seg| == SegmentSize(s)
  {
    BlocksLength(s, e, s.ranks);
    Blocks(s, e, s.ranks) + Padding(SegmentSize(s) - PerLocal(s))
  }

  function Segments(s: Shape, e: nat): seq<int>
    requires s.align > 0
  {
    if e == 0 then [] else Segments(s, e - 1) + Segment(s, e - 1)
  }

  lemma {:induction false} SegmentsLength(s: Shape, e: nat)
    requires s.align > 0
    ensures |Segments(s, e)| == e * SegmentSize(s)
  {
    if e > 0 {
      SegmentsLength(s, e - 1);
      assert e * SegmentSize(s) == (e - 1) * SegmentSize(s) + SegmentSize(s);
    }
  }

  function Layout(s: Shape): (l: seq<int>)
    requires s.align > 0
    ensures |l| == PaddedLength(s)
  {
    SegmentsFit(s);
    SegmentsLength(s, s.experts);
    Segments(s, s.experts) + Padding(PaddedLength(s) - s.experts * SegmentSize(s))
  }

  /** Where the layout puts token `t` of rank `r` for local expert `e`. */
  function Place(s: Shape, e: nat, r: nat, t: nat): nat
    requires s.align > 0
  {
    Join(e, SegmentSize(s), Join(r, s.perExpert, t))
  }

  lemma {:induction false} BlocksAt(s: Shape, e: nat, n: nat, r: nat, t: nat)
    requires r < n && t < s.perExpert
    ensures r * s.perExpert + t < |Blocks(s, e, n)| && Blocks(s, e, n)[r * s.perExpert + t] == InputRow(s, e, r, t)
    decreases n
  {
    BlocksLength(s, e, n);
    BlocksLength(s, e, n - 1);
    if r < n - 1 {
      BlocksAt(s, e, n - 1, r, t);
    } else {
      assert Block(s, e, r)[t] == InputRow(s, e, r, t);
    }
    assert n * s.perExpert == (n - 1) * s.perExpert + s.perExpert;
  }

  lemma {:induction false} SegmentsAt(s: Shape, n: nat, e: nat, i: nat)
    requires s.align > 0 && e < n && i < SegmentSize(s)
    ensures e * SegmentSize(s) + i < |Segments(s, n)| && Segments(s, n)[e * SegmentSize(s) + i] == Segment(s, e)[i]
    decreases n
  {
    SegmentsLength(s, n);
    SegmentsLength(s, n - 1);
    if e < n - 1 {
      SegmentsAt(s, n - 1, e, i);
    }
    assert n * SegmentSize(s) == (n - 1) * SegmentSize(s) + SegmentSize(s);
  }

  /** Local expert `e`'s rows stand in segment `e`, by source rank and then in their order. */
  lemma LayoutAt(s: Shape, e: nat, r: nat, t: nat)
    requires s.align > 0 && e < s.experts && r < s.ranks && t < s.perExpert
    ensures e * SegmentSize(s) <= Place(s, e, r, t) < (e + 1) * SegmentSize(s)
    ensures Place(s, e, r, t) < |Layout(s)| && Layout(s)[Place(s, e, r, t)] == InputRow(s, e, r, t)
  {
    hide SegmentSize, PaddedLength, Blocks, Segments, InputRow;
    BlocksAt(s, e, s.ranks, r, t);
    BlocksLength(s, e, s.ranks);
    SegmentsAt(s, s.experts, e, r * s.perExpert + t);
    NextMultiple(e, SegmentSize(s));
  }

  /** Everything else is padding. */
  lemma ElsewherePadding(s: Shape, i: nat) returns (e: nat, r: nat, t: nat)
    requires s.align > 0 && i < |Layout(s)|
    ensures Layout(s)[i] == -1 || (e < s.experts && r < s.ranks && t < s.perExpert && i == Place(s, e, r, t))
  {
    hide Segment, Segments, Join, Blocks, SegmentSize, PaddedLength;
    e, r, t := 0, 0, 0;
    SegmentsLength(s, s.experts);
    if i < s.experts * SegmentSize(s) {
      var o;
      e, o := JoinSplit(i, s.experts, SegmentSize(s));
      SegmentHere(s, e, o);
      if o < s.ranks * s.perExpert {
        r, t := JoinSplit(o, s.ranks, s.perExpert);
      }
    }
  }

  lemma SegmentHere(s: Shape, e: nat, o: nat)
    requires s.align > 0 && e < s.experts && o < SegmentSize(s)
    ensures Join(e, SegmentSize(s), o) < |Layout(s)|
    ensures o >= s.ranks * s.perExpert ==> Layout(s)[Join(e, SegmentSize(s), o)] == -1
  {
    hide Segments, SegmentSize, PaddedLength, Blocks;
    SegmentsAt(s, s.experts, e, o);
    BlocksLength(s, e, s.ranks);
  }

  /*** A bijection ***/

  /** Different tokens are different input rows. */
  lemma InputRowsDiffer(s: Shape, e: nat, r: nat, t: nat, e': nat, r': nat, t': nat)
    requires e < s.experts && e' < s.experts && t < s.perExpert && t' < s.perExpert
    requires InputRow(s, e, r, t) == InputRow(s, e', r', t')
    ensures e == e' && r == r' && t == t'
  {
    hide Join;
    JoinIsUnique(Join(r, s.experts, e), Join(r', s.experts, e'), s.perExpert, t, t');
    JoinIsUnique(r, r', s.experts, e, e');
  }

  lemma InputRowInRange(s: Shape, e: nat, r: nat, t: nat)
    requires e < s.experts && r < s.ranks && t < s.perExpert
    ensures InputRow(s, e, r, t) < Rows(s)
  {
    hide Join;
    JoinBelow(r, s.ranks, s.experts, e);
    JoinBelow(Join(r, s.experts, e), s.ranks * s.experts, s.perExpert, t);
  }

  /** The entries that are not padding are input rows, each at most once. */
  lemma EachAtMostOnce(s: Shape, i: nat, j: nat)
    requires s.align > 0 && i < |Layout(s)| && j < |Layout(s)| && Layout(s)[i] == Layout(s)[j] != -1
    ensures i == j && 0 <= Layout(s)[i] < Rows(s)
  {
    hide Layout, InputRow, Place, Rows;
    var e, r, t := ElsewherePadding(s, i);
    var e', r', t' := ElsewherePadding(s, j);
    LayoutAt(s, e, r, t);
    LayoutAt(s, e', r', t');
    InputRowsDiffer(s, e, r, t, e', r', t');
    InputRowInRange(s, e, r, t);
  }

  /** Every input row is there. */
  lemma EachIsThere(s: Shape, row: nat) returns (i: nat)
    requires s.align > 0 && row < Rows(s)
    ensures i < |Layout(s)| && Layout(s)[i] == row
  {
    hide Layout, Join, Place;
    var b, t := JoinSplit(row, s.ranks * s.experts, s.perExpert);
    var r, e := JoinSplit(b, s.ranks, s.experts);
    LayoutAt(s, e, r, t);
    i := Place(s, e, r, t);
  }

  /** Segments do not overlap. */
  lemma SegmentsAreDisjoint(s: Shape, e: nat, r: nat, t: nat, e': nat)
    requires s.align > 0 && r < s.ranks && t < s.perExpert && e != e'
    ensures !(e' * SegmentSize(s) <= Place(s, e, r, t) < (e' + 1) * SegmentSize(s))
  {
    var m := SegmentSize(s);
    TimesAtMost(r + 1, s.ranks, s.perExpert);
    assert (r + 1) * s.perExpert == r * s.perExpert + s.perExpert;
    assert r * s.perExpert + t < m;
    if e < e' { TimesAtMost(e + 1, e', m); assert (e + 1) * m == e * m + m; }
    if e' < e { TimesAtMost(e' + 1, e, m); }
  }

  /*** The program ***/

  /** `_analytic_permute`, the indices: -1 stands for the row of zeros. */
  method AnalyticPermute(s: Shape) returns (permuted: array<int>, segmentSize: nat)
    requires s.align > 0
    ensures fresh(permuted) && permuted[..] == Layout(s) && segmentSize == SegmentSize(s)
  {
    var paddedMaxLen := RoundUp(Rows(s) + s.experts * s.align, s.align);
    segmentSize := RoundUp(Max(s.ranks * s.perExpert, s.align), s.align);
    SegmentsFit(s);
    permuted := new int[paddedMaxLen](_ => -1);
    assert paddedMaxLen == PaddedLength(s) && segmentSize == SegmentSize(s);
    hide RoundUp, SegmentSize, Segment, Segments, Layout, PaddedLength, Join, Rows, Max;
    var writeStart := 0;
    NoSegments(s);
    assert permuted[..0] == [];
    for e := 0 to s.experts
      invariant writeStart == Join(e, segmentSize, 0)
                && writeStart <= Join(s.experts, segmentSize, 0) <= permuted.Length
      invariant permuted[..writeStart] == Segments(s, e)
      invariant forall i :: writeStart <= i < permuted.Length ==> permuted[i] == -1
    {
      NextSegment(s, e, segmentSize);
      writeStart := e * segmentSize;
      FillSegment(s, permuted, e, writeStart);
      writeStart := writeStart + segmentSize;
    }
    LayoutIs(s, permuted[..], writeStart);
  }

  lemma NoSegments(s: Shape)
    requires s.align > 0
    ensures Segments(s, 0) == [] && Join(0, SegmentSize(s), 0) == 0
            && Join(s.experts, SegmentSize(s), 0) <= PaddedLength(s)
  {
    hide SegmentSize, PaddedLength;
    SegmentsFit(s);
  }

  lemma NextSegment(s: Shape, e: nat, m: nat)
    requires s.align > 0 && e < s.experts && m == SegmentSize(s)
    ensures Segments(s, e + 1) == Segments(s, e) + Segment(s, e)
    ensures e * m == Join(e, m, 0) && Join(e + 1, m, 0) == e * m + m <= Join(s.experts, m, 0)
  {
    hide SegmentSize, Segment;
    TimesAtMost(e + 1, s.experts, m);
    NextMultiple(e, m);
  }

  lemma NextMultiple(e: nat, m: nat)
    ensures (e + 1) * m == e * m + m
  {
  }

  lemma LayoutIs(s: Shape, a: seq<int>, writeStart: nat)
    requires s.align > 0 && |a| == PaddedLength(s) && writeStart == Join(s.experts, SegmentSize(s), 0) <= |a|
    requires a[..writeStart] == Segments(s, s.experts) && forall i :: writeStart <= i < |a| ==> a[i] == -1
    ensures a == Layout(s)
  {
    hide SegmentSize, Segment, Segments, PaddedLength;
    SegmentsLength(s, s.experts);
    assert a[writeStart..] == Padding(PaddedLength(s) - s.experts * SegmentSize(s));
    assert a == a[..writeStart] + a[writeStart..];
  }

  /** The numbers from `first` on, written to indices `start` to `end`. */
  method WriteRange(a: array<int>, start: nat, end: nat, first: nat)
    requires start <= end <= a.Length
    modifies a
    ensures forall i :: 0 <= i < a.Length ==> a[i] == if start <= i < end then first + (i - start) else old(a[i])
  {
    for i := start to end
      invariant forall j :: 0 <= j < a.Length ==> a[j] == if start <= j < i then first + (j - start) else old(a[j])
    {
      a[i] := first + (i - start);
    }
  }

  lemma BlockIs(s: Shape, e: nat, r: nat, first: nat, block: seq<int>)
    requires first == (r * s.experts + e) * s.perExpert && |block| == s.perExpert
    requires forall i :: 0 <= i < |block| ==> block[i] == first + i
    ensures block == Block(s, e, r)
  {
  }

  /** The rows of all ranks for local expert `e`, written from `start` on; the `min` never truncates. */
  method FillSegment(s: Shape, permuted: array<int>, e: nat, start: nat)
    requires s.align > 0 && start + SegmentSize(s) <= permuted.Length
    requires forall i :: start <= i < permuted.Length ==> permuted[i] == -1
    modifies permuted
    ensures permuted[..start + SegmentSize(s)] == old(permuted[..start]) + Segment(s, e)
    ensures forall i :: start + SegmentSize(s) <= i < permuted.Length ==> permuted[i] == -1
  {
    hide SegmentSize, Segment, Block, Blocks, RoundUp;
    var writeStart := start;
    NoBlocks(s, e);
    assert permuted[start..start] == [];
    for r := 0 to s.ranks
      invariant writeStart == start + r * s.perExpert && writeStart <= start + PerLocal(s)
      invariant permuted[..start] == old(permuted[..start])
      invariant permuted[start..writeStart] == Blocks(s, e, r)
      invariant forall i :: writeStart <= i < permuted.Length ==> permuted[i] == -1
    {
      NextBlock(s, e, r);
      var end := WriteRank(s, permuted, e, r, writeStart, start);
      writeStart := end;
    }
    SegmentEnds(s, permuted[..], e, start, writeStart);
  }

  lemma NoBlocks(s: Shape, e: nat)
    ensures Blocks(s, e, 0) == []
  {
  }

  lemma NextBlock(s: Shape, e: nat, r: nat)
    requires r < s.ranks
    ensures Blocks(s, e, r + 1) == Blocks(s, e, r) + Block(s, e, r)
    ensures (r + 1) * s.perExpert == r * s.perExpert + s.perExpert <= PerLocal(s)
  {
    TimesAtMost(r + 1, s.ranks, s.perExpert);
  }

  lemma SegmentEnds(s: Shape, a: seq<int>, e: nat, start: nat, writeStart: nat)
    requires s.align > 0 && start + SegmentSize(s) <= |a| && writeStart == start + PerLocal(s)
    requires a[start..writeStart] == Blocks(s, e, s.ranks) && forall i :: writeStart <= i < |a| ==> a[i] == -1
    ensures a[..start + SegmentSize(s)] == a[..start] + Segment(s, e)
  {
    hide SegmentSize, Blocks;
    var end := start + SegmentSize(s);
    assert a[writeStart..end] == Padding(SegmentSize(s) - PerLocal(s));
    assert a[..end] == a[..start] + (a[start..writeStart] + a[writeStart..end]);
  }

  /** The rows of one rank. */
  method WriteRank(s: Shape, permuted: array<int>, e: nat, r: nat, writeStart: nat, ghost start: nat) returns (end: nat)
    requires start <= writeStart && writeStart + s.perExpert <= permuted.Length
    requires forall i :: writeStart <= i < permuted.Length ==> permuted[i] == -1
    modifies permuted
    ensures end == writeStart + s.perExpert
    ensures permuted[..start] == old(permuted[..start])
    ensures permuted[start..end] == old(permuted[start..writeStart]) + Block(s, e, r)
    ensures forall i :: end <= i < permuted.Length ==> permuted[i] == -1
  {
    hide Block;
    var i := r * s.experts + e;
    var startIndex := i * s.perExpert;
    end := Min(writeStart + s.perExpert, permuted.Length);
    ghost var before := permuted[..];
    if end > writeStart {
      WriteRange(permuted, writeStart, end, startIndex);
    }
    BlockIs(s, e, r, startIndex, permuted[writeStart..end]);
    assert permuted[..start] == before[..start] && permuted[start..writeStart] == before[start..writeStart];
    assert permuted[start..end] == permuted[start..writeStart] + permuted[writeStart..end];
  }
}
