/**
 Weighted sums over finite sets of accounts, and the counting facts behind quorum
 intersection.
 */
module Weights {
  import opened AgreementTypes

  ghost function Weight(s: set<Address>, w: Address -> nat): nat {
    if s == {} then 0 else
      var x :| x in s;
      w(x) + Weight(s - {x}, w)
  }

  lemma {:induction false} WeightRemove(s: set<Address>, x: Address, w: Address -> nat)
    requires x in s
    ensures Weight(s, w) == w(x) + Weight(s - {x}, w)
    decreases |s|
  {
    var y :| y in s && Weight(s, w) == w(y) + Weight(s - {y}, w);
    if y != x {
      WeightRemove(s - {y}, x, w);
      WeightRemove(s - {x}, y, w);
      assert s - {y} - {x} == s - {x} - {y};
    }
  }

  lemma WeightAdd(s: set<Address>, x: Address, w: Address -> nat)
    requires x !in s
    ensures Weight(s + {x}, w) == Weight(s, w) + w(x)
  {
    WeightRemove(s + {x}, x, w);
    assert s + {x} - {x} == s;
  }

  lemma {:induction false} WeightDisjoint(a: set<Address>, b: set<Address>, w: Address -> nat)
    requires a !! b
    ensures Weight(a + b, w) == Weight(a, w) + Weight(b, w)
    decreases |a|
  {
    if a == {} {
      assert a + b == b;
    } else {
      var x :| x in a;
      WeightRemove(a, x, w);
      WeightRemove(a + b, x, w);
      assert a + b - {x} == (a - {x}) + b;
      WeightDisjoint(a - {x}, b, w);
    }
  }

  lemma WeightSubset(a: set<Address>, b: set<Address>, w: Address -> nat)
    requires a <= b
    ensures Weight(a, w) + Weight(b - a, w) == Weight(b, w)
    ensures Weight(a, w) <= Weight(b, w)
  {
    WeightDisjoint(a, b - a, w);
    assert a + (b - a) == b;
  }

  /** Every member weighing at least one, a set weighs at least its cardinality. */
  lemma {:induction false} CardinalityBelowWeight(s: set<Address>, w: Address -> nat)
    requires forall x :: x in s ==> w(x) >= 1
    ensures |s| <= Weight(s, w)
    decreases |s|
  {
    if s != {} {
      var x :| x in s;
      WeightRemove(s, x, w);
      CardinalityBelowWeight(s - {x}, w);
    }
  }

  /** Two subsets that together outweigh their universe share a member. */
  lemma Intersection(a: set<Address>, b: set<Address>, u: set<Address>, w: Address -> nat) returns (x: Address)
    requires a <= u && b <= u
    requires Weight(a, w) + Weight(b, w) > Weight(u, w)
    ensures x in a && x in b
  {
    if !exists y :: y in a && y in b {
      WeightDisjoint(a, b, w);
      WeightSubset(a + b, u, w);
      assert false;
    }
    x :| x in a && x in b;
  }
}
