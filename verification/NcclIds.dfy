/** Identifiers of communicators: 128 bytes, counted up as one little-endian number. */
module NcclIds {

  newtype byte = x: int | 0 <= x < 256

  const ID_LENGTH := 128

  /** An identifier is a byte string of a fixed length. */
  type NcclId = seq<byte>

  function Pow256(n: nat): (p: nat)
    ensures p > 0
  {
    if n == 0 then 1 else 256 * Pow256(n - 1)
  }

  /** The number that the bytes stand for, least significant byte first. */
  function Value(s: seq<byte>): nat {
    if s == [] then 0 else s[0] as nat + 256 * Value(s[1..])
  }

  lemma {:induction false} ValueBelow(s: seq<byte>)
    ensures Value(s) < Pow256(|s|)
    decreases |s|
  {
    if s != [] { ValueBelow(s[1..]); }
  }

  lemma {:induction false} ValueOfBoth(a: seq<byte>, b: seq<byte>)
    ensures Value(a + b) == Value(a) + Pow256(|a|) * Value(b)
    decreases |a|
  {
    if a == [] {
      assert a + b == b;
    } else {
      ValueOfBoth(a[1..], b);
      assert (a + b)[1..] == a[1..] + b;
      var v := Value(b);
      assert 256 * (Pow256(|a| - 1) * v) == (256 * Pow256(|a| - 1)) * v;
    }
  }

  lemma {:induction false} ValueOfZeros(s: seq<byte>)
    requires forall i :: 0 <= i < |s| ==> s[i] == 0
    ensures Value(s) == 0
    decreases |s|
  {
    if s != [] { ValueOfZeros(s[1..]); }
  }

  lemma {:induction false} ValueOfNines(s: seq<byte>)
    requires forall i :: 0 <= i < |s| ==> s[i] == 255
    ensures Value(s) == Pow256(|s|) - 1
    decreases |s|
  {
    if s != [] { ValueOfNines(s[1..]); }
  }

  /** Bytes of equal length with the same value are the same. */
  lemma {:induction false} SameValue(a: seq<byte>, b: seq<byte>)
    requires |a| == |b| && Value(a) == Value(b)
    ensures a == b
    decreases |a|
  {
    if a != [] {
      assert (a[0] as nat + 256 * Value(a[1..])) % 256 == a[0] as nat;
      assert (b[0] as nat + 256 * Value(b[1..])) % 256 == b[0] as nat;
      SameValue(a[1..], b[1..]);
    }
  }

  /** The carry stops at index `i`: all bytes before it overflow to 0. */
  lemma CarryTo(was: seq<byte>, now: seq<byte>, i: nat)
    requires i < |was| == |now| && was[i] != 255 && now[i] == was[i] + 1 && was[i + 1..] == now[i + 1..]
    requires forall j :: 0 <= j < i ==> was[j] == 255 && now[j] == 0
    ensures Value(now) == Value(was) + 1
  {
    hide Pow256, Value;
    SplitAt(was, i);
    SplitAt(now, i);
    ValueOfNines(was[..i]);
    ValueOfZeros(now[..i]);
    HeadUp(was[i..], now[i..]);
    OneMore(Pow256(i), Value(was[i..]));
  }

  lemma SplitAt(s: seq<byte>, i: nat)
    requires i <= |s|
    ensures Value(s) == Value(s[..i]) + Pow256(i) * Value(s[i..])
  {
    ValueOfBoth(s[..i], s[i..]);
    assert s == s[..i] + s[i..];
  }

  lemma HeadUp(a: seq<byte>, b: seq<byte>)
    requires a != [] && b != [] && a[0] != 255 && b[0] == a[0] + 1 && a[1..] == b[1..]
    ensures Value(b) == Value(a) + 1
  {
  }

  lemma OneMore(p: nat, v: nat)
    ensures 0 + p * (v + 1) == (p - 1) + p * v + 1
  {
  }

  /** Counting up modulo `p`. */
  lemma CountUp(v: nat, p: nat)
    requires v < p
    ensures (v + 1) % p == if v + 1 == p then 0 else v + 1
  {
  }

  /** `incr_nccl_id`: hands out the present value and counts up by one, modulo 256 to the 128. */
  method IncrNcclId(id: array<byte>) returns (prev: NcclId)
    requires id.Length == 128
    modifies id
    ensures prev == old(id[..])
    ensures Value(id[..]) == (Value(old(id[..])) + 1) % Pow256(128)
  {
    hide Value, Pow256;
    prev := id[..];
    ValueBelow(prev);
    CountUp(Value(prev), Pow256(ID_LENGTH));
    var i := 0;
    while true
      invariant 0 <= i < ID_LENGTH
      invariant forall j :: 0 <= j < i ==> prev[j] == 255 && id[j] == 0
      invariant forall j :: i <= j < ID_LENGTH ==> id[j] == prev[j]
      decreases ID_LENGTH - i
    {
      if id[i] != 255 {
        id[i] := id[i] + 1;
        CarryTo(prev, id[..], i);
        ValueBelow(id[..]);
        return;
      } else if i != ID_LENGTH - 1 {
        id[i] := 0;
        i := i + 1;
      } else {
        ValueOfNines(prev);
        Fill(id);
        ValueOfZeros(id[..]);
        return;
      }
    }
  }

  method Fill(id: array<byte>)
    modifies id
    ensures forall i :: 0 <= i < id.Length ==> id[i] == 0
  {
    for i := 0 to id.Length
      invariant forall j :: 0 <= j < i ==> id[j] == 0
    {
      id[i] := 0;
    }
  }
}
