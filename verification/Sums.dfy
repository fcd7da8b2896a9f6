/** Sums of sequences. */
module Sums {

  function Sum(s: seq<nat>): nat
  {
    if s == [] then 0 else s[0] + Sum(s[1..])
  }

  /** The sizes of the elements of s, in order. */
  function Each<T>(s: seq<T>, size: T -> nat): seq<nat>
  {
    seq(|s|, i requires 0 <= i < |s| => size(s[i]))
  }

  lemma {:induction false} SumUpdate(s: seq<nat>, i: nat, v: nat)
    requires i < |s|
    ensures Sum(s[i := v]) == Sum(s) - s[i] + v
    decreases |s|
  {
    if i == 0 {
      assert s[i := v][1..] == s[1..];
    } else {
      SumUpdate(s[1..], i - 1, v);
      assert s[i := v][1..] == s[1..][i - 1 := v];
    }
  }

  lemma {:induction false} SumAppend(s: seq<nat>, v: nat)
    ensures Sum(s + [v]) == Sum(s) + v
  {
    if s == [] {
      assert s + [v] == [v];
    } else {
      SumAppend(s[1..], v);
      assert (s + [v])[1..] == s[1..] + [v];
    }
  }

  lemma {:induction false} SumZeros(s: seq<nat>)
    requires forall i :: 0 <= i < |s| ==> s[i] == 0
    ensures Sum(s) == 0
  {
    if s == [] {
    } else {
      SumZeros(s[1..]);
    }
  }

  lemma {:induction false} SumAtMost(s: seq<nat>, t: seq<nat>)
    requires |s| == |t| && forall i :: 0 <= i < |s| ==> s[i] <= t[i]
    ensures Sum(s) <= Sum(t)
  {
    if s == [] {
    } else {
      SumAtMost(s[1..], t[1..]);
    }
  }

  lemma SumNext(s: seq<nat>, k: nat)
    requires k < |s|
    ensures Sum(s[..k + 1]) == Sum(s[..k]) + s[k]
  {
    assert s[..k + 1] == s[..k] + [s[k]];
    SumAppend(s[..k], s[k]);
  }

  lemma {:induction false} SumPrefix(s: seq<nat>, k: nat)
    requires k <= |s|
    ensures Sum(s[..k]) <= Sum(s)
    decreases |s| - k
  {
    if k == |s| {
      assert s[..k] == s;
    } else {
      SumNext(s, k);
      SumPrefix(s, k + 1);
    }
  }

  lemma EachUpdate<T>(s: seq<T>, size: T -> nat, i: nat, x: T)
    requires i < |s|
    ensures Sum(Each(s[i := x], size)) == Sum(Each(s, size)) - size(s[i]) + size(x)
  {
    SumUpdate(Each(s, size), i, size(x));
    assert Each(s[i := x], size) == Each(s, size)[i := size(x)];
  }

  lemma EachAppend<T>(s: seq<T>, size: T -> nat, x: T)
    ensures Sum(Each(s + [x], size)) == Sum(Each(s, size)) + size(x)
  {
    SumAppend(Each(s, size), size(x));
    assert Each(s + [x], size) == Each(s, size) + [size(x)];
  }

  lemma EachZeros<T>(s: seq<T>, size: T -> nat)
    requires forall i :: 0 <= i < |s| ==> size(s[i]) == 0
    ensures Sum(Each(s, size)) == 0
  {
    SumZeros(Each(s, size));
  }

  lemma EachTail<T>(s: seq<T>, size: T -> nat)
    requires s != []
    ensures Sum(Each(s, size)) == size(s[0]) + Sum(Each(s[1..], size))
  {
    assert Each(s, size)[1..] == Each(s[1..], size);
  }
}
