/** How many numbers a list without duplicates, or an initial range, contains. */
module Counting {
  import opened Precedence

  /** The numbers below `n`. */
  function Before(n: nat): set<nat> {
    if n == 0 then {} else Before(n - 1) + {n - 1}
  }

  lemma {:induction false} BeforeCount(n: nat)
    ensures |Before(n)| == n && forall i: nat :: i in Before(n) <==> i < n
  {
    if n > 0 {
      BeforeCount(n - 1);
    }
  }

  lemma {:induction false} Members(q: seq<nat>)
    requires NoDuplicates(q)
    ensures var s := set i: nat | i in q; |s| == |q|
  {
    if q != [] {
      TailContents(q);
      Members(q[1..]);
      assert (set i: nat | i in q) == (set i: nat | i in q[1..]) + {q[0]};
    } else {
      assert (set i: nat | i in q) == {};
    }
  }

  /** Contents before, put in; contents after, taken out, discarded: two balances in a row are one. */
  lemma BalancesAdd<T>(c0: multiset<T>, s1: multiset<T>, c1: multiset<T>, o1: multiset<T>, g1: multiset<T>,
                       s2: multiset<T>, c2: multiset<T>, o2: multiset<T>, g2: multiset<T>)
    requires c0 + s1 == c1 + o1 + g1 && c1 + s2 == c2 + o2 + g2
    ensures c0 + (s1 + s2) == c2 + (o1 + o2) + (g1 + g2)
  {
    forall x
      ensures (c0 + (s1 + s2))[x] == (c2 + (o1 + o2) + (g1 + g2))[x]
    {
      assert (c0 + s1)[x] == (c1 + o1 + g1)[x] && (c1 + s2)[x] == (c2 + o2 + g2)[x];
    }
  }
}
