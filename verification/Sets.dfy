/** Sizes of finite sets. */
module Sets {
  lemma {:induction false} SubsetSize<T>(a: set<T>, b: set<T>)
    requires a <= b
    ensures |a| <= |b|
  {
    if a != {} {
      var x :| x in a;
      SubsetSize(a - {x}, b - {x});
    }
  }

  lemma {:induction false} SubsetOfSize<T>(s: set<T>, n: nat) returns (r: set<T>)
    requires n <= |s|
    ensures r <= s && |r| == n
  {
    if n == 0 {
      r := {};
    } else {
      var x :| x in s;
      r := SubsetOfSize(s - {x}, n - 1);
      r := r + {x};
    }
  }
}
