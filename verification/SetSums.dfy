/** Sums over a finite set, in whatever order its elements are visited. */
module SetSums {
  ghost function SumSet<T(!new)>(s: set<T>, f: T -> int): int {
    if s == {} then 0 else
      var x :| x in s;
      f(x) + SumSet(s - {x}, f)
  }

  /** Any element may be taken first. */
  lemma {:induction false} SumSetTake<T(!new)>(s: set<T>, x: T, f: T -> int)
    requires x in s
    ensures SumSet(s, f) == f(x) + SumSet(s - {x}, f)
    decreases s
  {
    var y :| y in s && SumSet(s, f) == f(y) + SumSet(s - {y}, f);
    if y != x {
      SumSetTake(s - {y}, x, f);
      SumSetTake(s - {x}, y, f);
      assert s - {y} - {x} == s - {x} - {y};
    }
  }

  lemma SumSetAdd<T(!new)>(s: set<T>, x: T, f: T -> int)
    requires x !in s
    ensures SumSet(s + {x}, f) == SumSet(s, f) + f(x)
  {
    SumSetTake(s + {x}, x, f);
    assert s + {x} - {x} == s;
  }

  lemma {:induction false} SumSetUnion<T(!new)>(s: set<T>, t: set<T>, f: T -> int)
    requires s !! t
    ensures SumSet(s + t, f) == SumSet(s, f) + SumSet(t, f)
    decreases t
  {
    if t == {} {
      assert s + t == s;
    } else {
      var x :| x in t;
      SumSetUnion(s, t - {x}, f);
      SumSetTake(t, x, f);
      SumSetAdd(s + (t - {x}), x, f);
      assert s + (t - {x}) + {x} == s + t;
    }
  }

  lemma {:induction false} SumSetMonotone<T(!new)>(s: set<T>, f: T -> int, g: T -> int)
    requires forall x | x in s :: f(x) <= g(x)
    ensures SumSet(s, f) <= SumSet(s, g)
    decreases s
  {
    if s != {} {
      var x :| x in s;
      SumSetTake(s, x, f);
      SumSetTake(s, x, g);
      SumSetMonotone(s - {x}, f, g);
    }
  }

  lemma {:induction false} SumSetBounds<T(!new)>(s: set<T>, f: T -> int)
    requires forall x | x in s :: f(x) >= 0
    ensures SumSet(s, f) >= 0
    ensures forall x | x in s :: f(x) <= SumSet(s, f)
    decreases s
  {
    if s != {} {
      var y :| y in s && SumSet(s, f) == f(y) + SumSet(s - {y}, f);
      SumSetBounds(s - {y}, f);
    }
  }

  lemma SumSetSubset<T(!new)>(s: set<T>, t: set<T>, f: T -> int)
    requires s <= t && forall x | x in t :: f(x) >= 0
    ensures SumSet(s, f) <= SumSet(t, f)
  {
    SumSetUnion(s, t - s, f);
    assert s + (t - s) == t;
    SumSetBounds(t - s, f);
  }

  lemma {:induction false} SumSetNull<T(!new)>(s: set<T>, f: T -> int)
    requires forall x | x in s :: f(x) == 0
    ensures SumSet(s, f) == 0
    decreases s
  {
    if s != {} {
      var x :| x in s && SumSet(s, f) == f(x) + SumSet(s - {x}, f);
      SumSetNull(s - {x}, f);
    }
  }

  /** A sum of non-negative terms is zero exactly when every term is. */
  lemma SumSetZero<T(!new)>(s: set<T>, f: T -> int)
    requires forall x | x in s :: f(x) >= 0
    ensures SumSet(s, f) == 0 <==> forall x | x in s :: f(x) == 0
  {
    SumSetBounds(s, f);
    if forall x | x in s :: f(x) == 0 {
      SumSetNull(s, f);
    }
  }
}
