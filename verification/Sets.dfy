/** Counting the elements of finite sets. */
module Sets {

  lemma CardinalityWithout<T>(s: set<T>, x: T)
    ensures |s| == |s - {x}| + (if x in s then 1 else 0)
  {
    if x in s {
      assert s == (s - {x}) + {x};
    } else {
      assert s == s - {x};
    }
  }

  lemma Difference<T>(s: set<T>, t: set<T>)
    ensures s - t == s <==> s * t == {}
    ensures s - t == {} <==> s <= t
  {
    assert forall x :: x in s ==> x in s - t || x in s * t;
    if s - t == s {
      assert s * t == {};
    }
    if s * t == {} {
      assert s - t == s;
    }
  }

  /** Sets that differ in one element at most. */
  lemma CardinalityMove<T>(s: set<T>, s': set<T>, x: T)
    requires forall y :: y != x ==> (y in s <==> y in s')
    ensures |s'| == |s| - (if x in s then 1 else 0) + (if x in s' then 1 else 0)
  {
    assert s - {x} == s' - {x};
    CardinalityWithout(s, x);
    CardinalityWithout(s', x);
  }

  lemma Singleton<T>(s: set<T>, x: T)
    requires x in s
    ensures |s| == 1 <==> s == {x}
  {
    CardinalityWithout(s, x);
    if |s| == 1 {
      assert s - {x} == {};
    }
  }

  lemma {:induction false} Smaller<T>(s: set<T>, t: set<T>)
    requires s <= t
    ensures |s| <= |t|
    decreases s
  {
    if s != {} {
      var x :| x in s;
      Smaller(s - {x}, t - {x});
    }
  }
}
