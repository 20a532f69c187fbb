/** Sizes of finite sets. */
module FiniteSets {
  lemma SubsetSize(a: set<nat>, b: set<nat>)
    requires a <= b
    ensures |a| <= |b|
  {
    assert b == a + (b - a);
  }

  lemma SizeWithout(s: set<nat>, c: nat)
    ensures |s| == |s - {c}| + if c in s then 1 else 0
  {
    if c in s {
      assert s == (s - {c}) + {c};
    } else {
      assert s - {c} == s;
    }
  }

  lemma ProperSubsetSize(a: set<nat>, b: set<nat>)
    requires a < b
    ensures |a| < |b|
  {
    var x :| x in b && x !in a;
    SizeWithout(b, x);
    SubsetSize(a, b - {x});
  }

  lemma {:induction false} Unused(s: set<nat>) returns (n: nat)
    ensures forall x :: x in s ==> x < n
    decreases |s|
  {
    n := 0;
    if s != {} {
      var x :| x in s;
      var m := Unused(s - {x});
      n := if m > x then m else x + 1;
      assert forall y :: y in s ==> y == x || y in s - {x};
    }
  }
}
