/** Vectors without repetitions, and filtering them. */
module Sequences {

  ghost predicate Distinct<T>(s: seq<T>) {
    forall i, j :: 0 <= i < j < |s| ==> s[i] != s[j]
  }

  function Elems<T(==)>(s: seq<T>): set<T> {
    set x | x in s
  }

  lemma ElemsPush<T>(s: seq<T>, x: T)
    ensures Elems(s + [x]) == Elems(s) + {x}
    ensures Distinct(s) && x !in s ==> Distinct(s + [x])
  {
  }

  lemma ElemsPrefix<T>(s: seq<T>, i: nat)
    requires i < |s|
    ensures Elems(s[..i + 1]) == Elems(s[..i]) + {s[i]}
    ensures Distinct(s) ==> s[i] !in Elems(s[..i])
  {
    assert s[..i + 1] == s[..i] + [s[i]];
  }

  /** `Vec::retain`: the members of `keep`, in order. */
  function Keep<T(==)>(s: seq<T>, keep: set<T>): (r: seq<T>)
  {
    if s == [] then [] else
      Keep(s[..|s| - 1], keep) + if s[|s| - 1] in keep then [s[|s| - 1]] else []
  }

  lemma {:induction false} KeepElems<T>(s: seq<T>, keep: set<T>)
    ensures Elems(Keep(s, keep)) == Elems(s) * keep
    ensures Distinct(s) ==> Distinct(Keep(s, keep))
  {
    if s != [] {
      var n := |s| - 1;
      KeepElems(s[..n], keep);
      assert s == s[..n] + [s[n]];
      ElemsPush(s[..n], s[n]);
      if s[n] in keep {
        ElemsPush(Keep(s[..n], keep), s[n]);
        if Distinct(s) {
          assert s[n] !in Elems(s[..n]);
        }
      } else {
        assert Keep(s, keep) == Keep(s[..n], keep);
      }
    }
  }

  lemma KeepPrefix<T>(s: seq<T>, i: nat, keep: set<T>)
    requires i < |s|
    ensures Keep(s[..i + 1], keep) == Keep(s[..i], keep) + if s[i] in keep then [s[i]] else []
  {
    assert s[..i + 1][..i] == s[..i];
  }

  lemma {:induction false} DistinctSize<T>(s: seq<T>)
    requires Distinct(s)
    ensures |Elems(s)| == |s|
  {
    if s != [] {
      var n := |s| - 1;
      DistinctSize(s[..n]);
      ElemsPrefix(s, n);
      assert s[..n + 1] == s;
    }
  }

  lemma SplitElems<T>(s: seq<T>, k: nat)
    requires k <= |s|
    ensures Elems(s) == Elems(s[..k]) + Elems(s[k..])
    ensures Distinct(s) ==> Elems(s[..k]) !! Elems(s[k..]) && Distinct(s[..k]) && Distinct(s[k..])
  {
    assert s == s[..k] + s[k..];
  }

  lemma NonePopped<T>(s: seq<T>)
    ensures Elems<T>([]) == Elems(s[|s|..]) && Distinct<T>([])
  {
  }

  /** Popping the last element of what is left, and pushing it to those popped before. */
  lemma PopPush<T>(s: seq<T>, k: nat, popped: seq<T>)
    requires 0 < k <= |s| && Distinct(s)
    requires Elems(popped) == Elems(s[k..]) && Distinct(popped)
    ensures Elems(popped + [s[k - 1]]) == Elems(s[k - 1..]) && Distinct(popped + [s[k - 1]])
  {
    SplitElems(s, k);
    assert s[..k][k - 1] == s[k - 1];
    assert s[k - 1] !in Elems(s[k..]);
    ElemsPush(popped, s[k - 1]);
    assert s[k - 1..] == [s[k - 1]] + s[k..];
  }
}
