/** Sizes of finite sets. */
module Sets {
  lemma SubsetSize<T>(a: set<T>, b: set<T>)
    requires a <= b
    ensures |a| <= |b|
  {
    assert b == a + (b - a);
  }

  lemma OneMoreSize(a: set<nat>, b: set<nat>, i: nat)
    requires a <= b + {i}
    ensures |a| <= |b| + 1
  {
    SubsetSize(a, b + {i});
    if i !in b { assert |b + {i}| == |b| + 1; } else { assert b + {i} == b; }
  }
}
