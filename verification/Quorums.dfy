/** Strict majorities and when two of them must share a member. */
module Quorums {

  ghost predicate Majority<T>(q: set<T>, config: set<T>) {
    q <= config && 2 * |q| > |config|
  }

  /** Every majority of one configuration shares a member with every majority of the other. */
  ghost predicate AlwaysMeet<T(!new)>(a: set<T>, b: set<T>) {
    forall p: set<T>, q: set<T> :: Majority(p, a) && Majority(q, b) ==> p * q != {}
  }

  lemma SubsetSize<T>(a: set<T>, b: set<T>)
    requires a <= b
    ensures |a| <= |b|
    ensures |a| == |b| ==> a == b
  {
    assert b == a + (b - a);
  }

  lemma Overlap<T>(p: set<T>, q: set<T>, all: set<T>)
    requires p <= all && q <= all && |p| + |q| > |all|
    ensures p * q != {}
  {
    if p * q == {} {
      assert |p + q| == |p| + |q|;
      SubsetSize(p + q, all);
    }
  }

  lemma CommonMember<T>(p: set<T>, q: set<T>, config: set<T>) returns (v: T)
    requires Majority(p, config) && Majority(q, config)
    ensures v in p && v in q
  {
    Overlap(p, q, config);
    v :| v in p * q;
  }

  /** A set of any size up to that of a given set can be cut out of it. */
  lemma {:induction false} TakeSome<T>(a: set<T>, k: nat) returns (r: set<T>)
    requires k <= |a|
    ensures r <= a && |r| == k
  {
    if k == 0 {
      r := {};
    } else {
      var x :| x in a;
      var rest := TakeSome(a - {x}, k - 1);
      r := rest + {x};
    }
  }

  /**
   * When majorities must meet after a cluster grows: exactly when nothing or one server was added,
   * or two servers were added to an even number (an empty cluster has no majority at all).
   */
  lemma AlwaysMeetIff<T(!new)>(a: set<T>, b: set<T>)
    requires a <= b
    ensures AlwaysMeet(a, b) <==> a == {} || |b| <= |a| + 1 || (|b| == |a| + 2 && |a| % 2 == 0)
  {
    SubsetSize(a, b);
    if a == {} {
    } else if |b| <= |a| + 1 || (|b| == |a| + 2 && |a| % 2 == 0) {
      forall p: set<T>, q: set<T> | Majority(p, a) && Majority(q, b) ensures p * q != {} {
        Overlap(p, q, b);
      }
    } else {
      var p := TakeSome(a, |a| / 2 + 1);
      assert p <= b && |b - p| == |b| - |p|;
      var q := TakeSome(b - p, |b| / 2 + 1);
      assert Majority(p, a) && Majority(q, b) && p * q == {};
    }
  }
}
