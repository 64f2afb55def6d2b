/** Counting the members of a pool that are in a given situation. */
module Counting {

  ghost function Count<T>(s: seq<T>, f: T -> bool): nat {
    if s == [] then 0 else (if f(s[0]) then 1 else 0) + Count(s[1..], f)
  }

  lemma {:induction false} CountUpdate<T>(s: seq<T>, f: T -> bool, i: nat, v: T)
    requires i < |s|
    ensures Count(s[i := v], f) == Count(s, f) + (if f(v) then 1 else 0) - (if f(s[i]) then 1 else 0)
    decreases |s|
  {
    if i == 0 {
      assert s[0 := v][1..] == s[1..];
    } else {
      assert s[i := v][1..] == s[1..][i - 1 := v];
      CountUpdate(s[1..], f, i - 1, v);
    }
  }

  lemma {:induction false} CountNone<T>(s: seq<T>, f: T -> bool)
    requires forall i :: 0 <= i < |s| ==> !f(s[i])
    ensures Count(s, f) == 0
  {
    if s != [] { CountNone(s[1..], f); }
  }

  lemma {:induction false} CountAtMost<T>(s: seq<T>, f: T -> bool)
    ensures Count(s, f) <= |s|
  {
    if s != [] { CountAtMost(s[1..], f); }
  }

  lemma {:induction false} CountImplies<T>(s: seq<T>, f: T -> bool, g: T -> bool)
    requires forall i :: 0 <= i < |s| && f(s[i]) ==> g(s[i])
    ensures Count(s, f) <= Count(s, g)
  {
    if s != [] { CountImplies(s[1..], f, g); }
  }

  // A measure summed over the pool.
  ghost function SumOf<T>(s: seq<T>, f: T -> nat): nat {
    if s == [] then 0 else f(s[0]) + SumOf(s[1..], f)
  }

  lemma {:induction false} SumUpdate<T>(s: seq<T>, f: T -> nat, i: nat, v: T)
    requires i < |s|
    ensures SumOf(s[i := v], f) == SumOf(s, f) + f(v) - f(s[i])
    decreases |s|
  {
    if i == 0 {
      assert s[0 := v][1..] == s[1..];
    } else {
      assert s[i := v][1..] == s[1..][i - 1 := v];
      SumUpdate(s[1..], f, i - 1, v);
    }
  }

  lemma {:induction false} CountSnoc<T>(s: seq<T>, f: T -> bool, v: T)
    ensures Count(s + [v], f) == Count(s, f) + if f(v) then 1 else 0
    decreases |s|
  {
    if s == [] {
      assert s + [v] == [v] && [v][1..] == [];
    } else {
      assert (s + [v])[0] == s[0] && (s + [v])[1..] == s[1..] + [v];
      CountSnoc(s[1..], f, v);
    }
  }
}
