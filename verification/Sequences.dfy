/** Sums over a sequence of threads, counts over a sequence of events, and laws of concatenation. */
module Sequences {
  lemma AppendAssociative<T>(a: seq<T>, b: seq<T>, c: seq<T>)
    ensures (a + b) + c == a + (b + c)
  {
  }

  lemma AppendEmpty<T>(a: seq<T>)
    ensures a + [] == a
  {
  }

  lemma InConcat<T>(a: seq<T>, b: seq<T>, x: T)
    ensures x in a + b <==> x in a || x in b
  {
  }

  lemma PrefixConcat<T>(a: seq<T>, b: seq<T>, i: nat)
    requires i <= |b|
    ensures a + b[..i] <= a + b
  {
    assert b == b[..i] + b[i..];
    AppendAssociative(a, b[..i], b[i..]);
  }

  lemma TakeOneMore<T>(s: seq<T>, i: nat)
    requires i < |s|
    ensures s[..i] + [s[i]] == s[..i + 1]
    ensures i + 1 == |s| ==> s[..i] + [s[i]] == s
  {
  }

  /** One more element of `b` after those already appended to `a`. */
  lemma AppendNext<T>(a: seq<T>, b: seq<T>, i: nat, s: seq<T>)
    requires i < |b| && s == a + b[..i]
    ensures s + [b[i]] == a + b[..i + 1]
    ensures i + 1 == |b| ==> s + [b[i]] == a + b
  {
    AppendAssociative(a, b[..i], [b[i]]);
    TakeOneMore(b, i);
  }

  lemma AppendThree<T>(a: seq<T>, b: seq<T>, c: seq<T>, d: seq<T>)
    ensures a + b + c + d == a + (b + c + d)
  {
    AppendAssociative(a, b, c);
    AppendAssociative(a, b + c, d);
  }

  /** What holds of a growing trace and is kept by each growth holds of the trace at any later time. */
  lemma GrowthInduction<E(!new)>(trace: nat --> seq<E>, lo: nat, hi: nat, q: seq<E> -> bool)
    requires lo <= hi && forall n | lo <= n <= hi :: trace.requires(n)
    requires q(trace(lo)) && forall n | lo <= n < hi && q(trace(n)) :: q(trace(n + 1))
    ensures q(trace(hi))
  {
    var n := lo;
    while n != hi
      invariant lo <= n <= hi && q(trace(n))
    {
      n := n + 1;
    }
  }

  /** An update seen from the end of the sequence. */
  lemma UpdateFromEnd<T>(s: seq<T>, i: nat, x: T)
    requires i < |s|
    ensures var n := |s| - 1;
            if i == n then s[i := x][..n] == s[..n] && s[i := x][n] == x
            else s[i := x][..n] == s[..n][i := x] && s[i := x][n] == s[n]
  {
  }

  /** What an element adds to the number of those with a property. */
  function One(b: bool): int {
    if b then 1 else 0
  }

  ghost function Sum<T(!new)>(s: seq<T>, f: T -> int): int {
    if s == [] then 0 else Sum(s[..|s| - 1], f) + f(s[|s| - 1])
  }

  lemma SumAppend<T(!new)>(s: seq<T>, x: T, f: T -> int)
    ensures Sum(s + [x], f) == Sum(s, f) + f(x)
  {
    assert (s + [x])[..|s|] == s;
  }

  lemma {:induction false} SumUpdate<T(!new)>(s: seq<T>, i: nat, x: T, f: T -> int)
    requires i < |s|
    ensures Sum(s[i := x], f) == Sum(s, f) - f(s[i]) + f(x)
  {
    var n := |s| - 1;
    UpdateFromEnd(s, i, x);
    if i < n {
      SumUpdate(s[..n], i, x, f);
    }
  }

  lemma {:induction false} SumPrefix<T(!new)>(s: seq<T>, i: nat, f: T -> int)
    requires i <= |s| && forall x | x in s :: f(x) >= 0
    ensures Sum(s[..i], f) <= Sum(s, f)
  {
    var n := |s| - 1;
    if i <= n {
      SumPrefix(s[..n], i, f);
      assert s[..n][..i] == s[..i];
    } else {
      assert s[..i] == s;
    }
  }

  /** Termwise `f <= g` gives `Sum(f) <= Sum(g)`. */
  lemma {:induction false} SumMonotone<T(!new)>(s: seq<T>, f: T -> int, g: T -> int)
    requires forall x | x in s :: f(x) <= g(x)
    ensures Sum(s, f) <= Sum(s, g)
  {
    if s != [] {
      SumMonotone(s[..|s| - 1], f, g);
    }
  }

  function Plus<T(!new)>(f: T -> int, g: T -> int): T -> int {
    (x: T) => f(x) + g(x)
  }

  lemma {:induction false} SumPlus<T(!new)>(s: seq<T>, f: T -> int, g: T -> int)
    ensures Sum(s, Plus(f, g)) == Sum(s, f) + Sum(s, g)
  {
    if s != [] {
      SumPlus(s[..|s| - 1], f, g);
    }
  }

  lemma {:induction false} SumEqual<T(!new)>(s: seq<T>, f: T -> int, g: T -> int)
    requires forall x | x in s :: f(x) == g(x)
    ensures Sum(s, f) == Sum(s, g)
  {
    if s != [] {
      SumEqual(s[..|s| - 1], f, g);
    }
  }

  lemma {:induction false} SumZero<T(!new)>(s: seq<T>, f: T -> int)
    requires forall x | x in s :: f(x) == 0
    ensures Sum(s, f) == 0
  {
    if s != [] {
      SumZero(s[..|s| - 1], f);
    }
  }

  lemma {:induction false} SumScale<T(!new)>(s: seq<T>, m: nat, f: T -> int, g: T -> int)
    requires forall x | x in s :: f(x) <= m * g(x)
    ensures Sum(s, f) <= m * Sum(s, g)
  {
    if s != [] {
      var n := |s| - 1;
      SumScale(s[..n], m, f, g);
      assert m * Sum(s, g) == m * Sum(s[..n], g) + m * g(s[n]);
    }
  }

  lemma {:induction false} SumBounds<T(!new)>(s: seq<T>, f: T -> int)
    requires forall x | x in s :: f(x) >= 0
    ensures Sum(s, f) >= 0
    ensures forall x | x in s :: f(x) <= Sum(s, f)
  {
    if s != [] {
      SumBounds(s[..|s| - 1], f);
    }
  }

  function Count<T(!new)>(s: seq<T>, p: T -> bool): nat {
    if s == [] then 0 else Count(s[..|s| - 1], p) + if p(s[|s| - 1]) then 1 else 0
  }

  lemma CountAppend<T(!new)>(s: seq<T>, x: T, p: T -> bool)
    ensures Count(s + [x], p) == Count(s, p) + if p(x) then 1 else 0
  {
    assert (s + [x])[..|s|] == s;
  }

  lemma {:induction false} CountConcat<T(!new)>(s: seq<T>, t: seq<T>, p: T -> bool)
    ensures Count(s + t, p) == Count(s, p) + Count(t, p)
  {
    if t == [] {
      assert s + t == s;
    } else {
      var n := |t| - 1;
      CountConcat(s, t[..n], p);
      assert s + t == (s + t[..n]) + [t[n]];
      CountAppend(s + t[..n], t[n], p);
    }
  }

  lemma {:induction false} CountZero<T(!new)>(s: seq<T>, p: T -> bool)
    requires forall x | x in s :: !p(x)
    ensures Count(s, p) == 0
  {
    if s != [] {
      CountZero(s[..|s| - 1], p);
    }
  }

  lemma {:induction false} CountMonotone<T(!new)>(s: seq<T>, p: T -> bool, q: T -> bool)
    requires forall x | x in s && p(x) :: q(x)
    ensures Count(s, p) <= Count(s, q)
  {
    if s != [] {
      CountMonotone(s[..|s| - 1], p, q);
    }
  }

  lemma {:induction false} CountPositive<T(!new)>(s: seq<T>, p: T -> bool, i: nat)
    requires i < |s| && p(s[i])
    ensures Count(s, p) >= 1
  {
    if i < |s| - 1 {
      CountPositive(s[..|s| - 1], p, i);
    }
  }

  /** When `p` holds only at indices in `[lo, hi)`, it holds at most `hi - lo` times. */
  lemma {:induction false} CountWithin<T(!new)>(s: seq<T>, p: T -> bool, lo: nat, hi: nat)
    requires lo <= hi && forall i | 0 <= i < |s| && p(s[i]) :: lo <= i < hi
    ensures Count(s, p) <= hi - lo
    decreases |s|
  {
    if s != [] {
      var n := |s| - 1;
      CountWithin(s[..n], p, lo, if p(s[n]) then n else hi);
    }
  }

  /** When `p` holds exactly at the indices in `[lo, hi)`, it holds `hi - lo` times. */
  lemma {:induction false} CountExactly<T(!new)>(s: seq<T>, p: T -> bool, lo: nat, hi: nat)
    requires lo <= hi <= |s| && forall i | 0 <= i < |s| :: p(s[i]) <==> lo <= i < hi
    ensures Count(s, p) == hi - lo
    decreases |s|
  {
    if s != [] {
      var n := |s| - 1;
      if hi <= n {
        CountExactly(s[..n], p, lo, hi);
      } else {
        CountExactly(s[..n], p, if lo <= n then lo else n, n);
      }
    }
  }

  /** The union, with multiplicities, of what `f` finds in the elements. */
  ghost function Gather<T(!new), U>(s: seq<T>, f: T -> multiset<U>): multiset<U> {
    if s == [] then multiset{} else Gather(s[..|s| - 1], f) + f(s[|s| - 1])
  }

  lemma Swap<U>(a: multiset<U>, b: multiset<U>, c: multiset<U>)
    ensures a + b + c == a + c + b && a + (b + c) == a + b + c
  {
  }

  lemma {:induction false} GatherGrows<T(!new), U>(s: seq<T>, i: nat, x: T, more: multiset<U>, f: T -> multiset<U>)
    requires i < |s| && f(x) == f(s[i]) + more
    ensures Gather(s[i := x], f) == Gather(s, f) + more
  {
    var n := |s| - 1;
    UpdateFromEnd(s, i, x);
    if i < n {
      GatherGrows(s[..n], i, x, more, f);
      Swap(Gather(s[..n], f), more, f(s[n]));
    } else {
      Swap(Gather(s[..n], f), f(s[n]), more);
    }
  }

  lemma {:induction false} GatherContains<T(!new), U>(s: seq<T>, i: nat, f: T -> multiset<U>, u: U)
    requires i < |s| && u in f(s[i])
    ensures u in Gather(s, f)
  {
    if i < |s| - 1 {
      GatherContains(s[..|s| - 1], i, f, u);
    }
  }

  lemma {:induction false} GatherOrigin<T(!new), U>(s: seq<T>, f: T -> multiset<U>, u: U) returns (i: nat)
    requires u in Gather(s, f)
    ensures i < |s| && u in f(s[i])
  {
    var n := |s| - 1;
    if u in f(s[n]) {
      i := n;
    } else {
      i := GatherOrigin(s[..n], f, u);
    }
  }
}
