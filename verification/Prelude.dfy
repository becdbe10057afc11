// Shared stock datatypes.
module Prelude {
  datatype Option<+T> = None | Some(value: T)

  // How an external call ended. A call can also take effect and still be reported as an
  // error, when the reply is lost on the way back.
  datatype Outcome = Ok | Fail | LostReply {
    predicate TookEffect() { !Fail? }
  }

  // Extensionality, as a lemma: proofs about map comprehensions are cheaper this way.
  lemma EqualMaps<K, V>(a: map<K, V>, b: map<K, V>)
    requires a.Keys == b.Keys && forall k | k in a :: a[k] == b[k]
    ensures a == b
  {
  }

  lemma Associative<T>(a: seq<T>, b: seq<T>, c: seq<T>)
    ensures (a + b) + c == a + (b + c)
  {
  }

  // How many elements satisfy f.
  function Count<T>(s: seq<T>, f: T -> bool): nat {
    if s == [] then 0 else Count(s[..|s| - 1], f) + if f(s[|s| - 1]) then 1 else 0
  }

  lemma CountAppend<T>(s: seq<T>, x: T, f: T -> bool)
    ensures Count(s + [x], f) == Count(s, f) + if f(x) then 1 else 0
  {
    assert (s + [x])[..|s|] == s;
  }

  lemma {:induction false} CountUpdate<T>(s: seq<T>, i: nat, x: T, f: T -> bool)
    requires i < |s|
    ensures Count(s[i := x], f) + (if f(s[i]) then 1 else 0) == Count(s, f) + if f(x) then 1 else 0
  {
    var last := |s| - 1;
    if i == last {
      assert s[i := x][..last] == s[..last];
    } else {
      assert s[i := x][..last] == s[..last][i := x];
      CountUpdate(s[..last], i, x, f);
    }
  }

  lemma {:induction false} CountSame<T>(s: seq<T>, t: seq<T>, f: T -> bool)
    requires |s| == |t| && forall i | 0 <= i < |s| :: f(s[i]) == f(t[i])
    ensures Count(s, f) == Count(t, f)
  {
    if s != [] { CountSame(s[..|s| - 1], t[..|t| - 1], f); }
  }

  function Sum<T>(s: seq<T>, f: T -> nat): nat {
    if s == [] then 0 else Sum(s[..|s| - 1], f) + f(s[|s| - 1])
  }

  lemma SumAppend<T>(s: seq<T>, x: T, f: T -> nat)
    ensures Sum(s + [x], f) == Sum(s, f) + f(x)
  {
    assert (s + [x])[..|s|] == s;
  }

  lemma {:induction false} SumUpdate<T>(s: seq<T>, i: nat, x: T, f: T -> nat)
    requires i < |s|
    ensures Sum(s[i := x], f) + f(s[i]) == Sum(s, f) + f(x)
  {
    var last := |s| - 1;
    if i == last {
      assert s[i := x][..last] == s[..last];
    } else {
      assert s[i := x][..last] == s[..last][i := x];
      SumUpdate(s[..last], i, x, f);
    }
  }

  lemma OneMoreTime(n: nat, k: nat)
    ensures n * (k + 1) == n * k + n
  {
  }

  lemma {:induction false} SumBound<T>(s: seq<T>, f: T -> nat, g: T -> bool, n: nat)
    requires forall i | 0 <= i < |s| :: f(s[i]) <= if g(s[i]) then n else 0
    ensures Sum(s, f) <= n * Count(s, g)
  {
    if s != [] {
      SumBound(s[..|s| - 1], f, g, n);
      OneMoreTime(n, Count(s[..|s| - 1], g));
    }
  }
}
