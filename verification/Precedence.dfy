/**
 Lists of tasks in order of precedence: by priority (a smaller number comes first), and within a
 priority in order of arrival.  The ready queue as a whole and every priority-ordered wait queue
 are such lists (asp3/kernel/wait.h:61-74, task.c:238-372).
 */
module Precedence {

  ghost predicate NoDuplicates(q: seq<nat>) {
    forall i, j :: 0 <= i < j < |q| ==> q[i] != q[j]
  }

  /** Priority of task `t`. */
  function Of(p: seq<nat>, t: nat): nat {
    if t < |p| then p[t] else 0
  }

  ghost predicate Sorted(q: seq<nat>, p: seq<nat>) {
    forall i, j :: 0 <= i < j < |q| ==> Of(p, q[i]) <= Of(p, q[j])
  }

  /** Task `t` is to be put before `x`: behind its equals, or with `front` before them. */
  predicate Precedes(p: seq<nat>, t: nat, x: nat, front: bool) {
    if front then Of(p, t) <= Of(p, x) else Of(p, t) < Of(p, x)
  }

  function Insert(q: seq<nat>, p: seq<nat>, t: nat, front: bool): seq<nat> {
    if q == [] || Precedes(p, t, q[0], front) then [t] + q
    else [q[0]] + Insert(q[1..], p, t, front)
  }

  function Without(q: seq<nat>, t: nat): seq<nat> {
    if q == [] then []
    else if q[0] == t then q[1..]
    else [q[0]] + Without(q[1..], t)
  }

  // ---------- Insert ----------

  /** Insert splits the list at one place. */
  lemma {:induction false} InsertSplits(q: seq<nat>, p: seq<nat>, t: nat, front: bool) returns (k: nat)
    ensures k <= |q| && Insert(q, p, t, front) == q[..k] + [t] + q[k..]
    ensures forall i :: 0 <= i < k ==> !Precedes(p, t, q[i], front)
    ensures k < |q| ==> Precedes(p, t, q[k], front)
  {
    if q == [] || Precedes(p, t, q[0], front) {
      k := 0;
    } else {
      var k' := InsertSplits(q[1..], p, t, front);
      k := k' + 1;
      assert q == [q[0]] + q[1..];
    }
  }

  lemma {:induction false} InsertContents(q: seq<nat>, p: seq<nat>, t: nat, front: bool)
    ensures forall x :: x in Insert(q, p, t, front) <==> x == t || x in q
    ensures t !in q && NoDuplicates(q) ==> NoDuplicates(Insert(q, p, t, front))
  {
    if q != [] && !Precedes(p, t, q[0], front) {
      InsertContents(q[1..], p, t, front);
      assert q == [q[0]] + q[1..];
      var r := Insert(q[1..], p, t, front);
      if t !in q && NoDuplicates(q) {
        assert q[0] !in r && NoDuplicates(r);
      }
    }
  }

  lemma InsertSorted(q: seq<nat>, p: seq<nat>, t: nat, front: bool)
    requires Sorted(q, p)
    ensures Sorted(Insert(q, p, t, front), p)
  {
    var k := InsertSplits(q, p, t, front);
    forall i | k <= i < |q|
      ensures Of(p, t) <= Of(p, q[i])
    {
      assert Of(p, q[k]) <= Of(p, q[i]);
    }
  }

  lemma {:induction false} InsertAgrees(q: seq<nat>, p: seq<nat>, p': seq<nat>, t: nat, front: bool)
    requires Of(p, t) == Of(p', t) && forall x :: x in q ==> Of(p, x) == Of(p', x)
    ensures Insert(q, p, t, front) == Insert(q, p', t, front)
  {
    if q != [] {
      assert q[0] in q;
      InsertAgrees(q[1..], p, p', t, front);
    }
  }

  /** Insertion passes over a block of tasks none of which `t` precedes. */
  lemma {:induction false} InsertBehind(a: seq<nat>, b: seq<nat>, p: seq<nat>, t: nat, front: bool)
    requires forall x :: x in a ==> !Precedes(p, t, x, front)
    ensures Insert(a + b, p, t, front) == a + Insert(b, p, t, front)
  {
    if a == [] {
      assert a + b == b && a + Insert(b, p, t, front) == Insert(b, p, t, front);
    } else {
      assert a[0] in a;
      assert (a + b)[1..] == a[1..] + b;
      InsertBehind(a[1..], b, p, t, front);
      assert [a[0]] + (a[1..] + Insert(b, p, t, front)) == a + Insert(b, p, t, front);
    }
  }

  lemma InsertBefore(b: seq<nat>, p: seq<nat>, t: nat, front: bool)
    requires b != [] ==> Precedes(p, t, b[0], front)
    ensures Insert(b, p, t, front) == [t] + b
  {
  }

  /** Where a search from the front that stops at the first task `t` precedes puts it. */
  lemma {:induction false} InsertAt(q: seq<nat>, p: seq<nat>, t: nat, front: bool, k: nat)
    requires k <= |q| && forall i :: 0 <= i < k ==> !Precedes(p, t, q[i], front)
    requires k < |q| ==> Precedes(p, t, q[k], front)
    ensures Insert(q, p, t, front) == q[..k] + [t] + q[k..]
  {
    if k > 0 {
      assert !Precedes(p, t, q[0], front);
      InsertAt(q[1..], p, t, front, k - 1);
    }
  }

  // ---------- Without ----------

  lemma {:induction false} WithoutSplits(q: seq<nat>, t: nat) returns (k: nat)
    requires t in q
    ensures k < |q| && q[k] == t && Without(q, t) == q[..k] + q[k + 1..]
  {
    if q[0] == t {
      k := 0;
    } else {
      var k' := WithoutSplits(q[1..], t);
      k := k' + 1;
    }
  }

  lemma {:induction false} WithoutContents(q: seq<nat>, t: nat)
    requires NoDuplicates(q) && t in q
    ensures NoDuplicates(Without(q, t))
    ensures forall x :: x in Without(q, t) <==> x in q && x != t
  {
    assert q == [q[0]] + q[1..];
    if q[0] == t {
      assert t !in q[1..];
    } else {
      WithoutContents(q[1..], t);
      assert q[0] !in q[1..];
    }
  }

  lemma {:induction false} WithoutAbsent(q: seq<nat>, t: nat)
    requires t !in q
    ensures Without(q, t) == q
  {
    if q != [] {
      assert q == [q[0]] + q[1..];
      WithoutAbsent(q[1..], t);
    }
  }

  lemma WithoutSorted(q: seq<nat>, p: seq<nat>, t: nat)
    requires Sorted(q, p) && t in q
    ensures Sorted(Without(q, t), p)
  {
    var k := WithoutSplits(q, t);
  }

  lemma SortedAgrees(q: seq<nat>, p: seq<nat>, p': seq<nat>)
    requires Sorted(q, p) && forall x :: x in q ==> Of(p, x) == Of(p', x)
    ensures Sorted(q, p')
  {
  }

  lemma {:induction false} WithoutInFront(a: seq<nat>, b: seq<nat>, t: nat)
    requires t in a
    ensures Without(a + b, t) == Without(a, t) + b
  {
    if a[0] == t {
      assert (a + b)[1..] == a[1..] + b;
    } else {
      assert (a + b)[1..] == a[1..] + b;
      WithoutInFront(a[1..], b, t);
    }
  }

  lemma {:induction false} WithoutBehind(a: seq<nat>, b: seq<nat>, t: nat)
    requires t !in a
    ensures Without(a + b, t) == a + Without(b, t)
  {
    if a == [] {
      assert a + b == b && a + Without(b, t) == Without(b, t);
    } else {
      assert (a + b)[1..] == a[1..] + b;
      assert t !in a[1..];
      WithoutBehind(a[1..], b, t);
    }
  }

  /** Taking the head of a list without duplicates. */
  lemma TailContents(q: seq<nat>)
    requires NoDuplicates(q) && q != []
    ensures NoDuplicates(q[1..]) && q[0] !in q[1..]
    ensures forall x :: x in q[1..] <==> x in q && x != q[0]
    ensures q[1..] == Without(q, q[0])
  {
    assert q == [q[0]] + q[1..];
  }

  /** Precedence among the tasks other than `t` is not disturbed: moving `t` removes it from its
      old place, and the rest of the list stays as it was. */
  lemma InsertKeepsOthers(q: seq<nat>, p: seq<nat>, t: nat, front: bool)
    requires t !in q
    ensures Without(Insert(q, p, t, front), t) == q
  {
    var k := InsertSplits(q, p, t, front);
    assert q[..k] + [t] + q[k..] == q[..k] + ([t] + q[k..]);
    WithoutBehind(q[..k], [t] + q[k..], t);
    assert Without([t] + q[k..], t) == q[k..];
    assert q[..k] + q[k..] == q;
  }

  /** No task of the same priority stands before `t`. */
  ghost predicate FirstAmongEquals(q: seq<nat>, p: seq<nat>, t: nat) {
    forall i, j :: 0 <= i < j < |q| && q[j] == t ==> Of(p, q[i]) < Of(p, t)
  }

  /** Taking a task out and putting it before its equals changes nothing exactly if it was there. */
  lemma {:induction false} FrontAgain(q: seq<nat>, p: seq<nat>, t: nat)
    requires NoDuplicates(q) && Sorted(q, p) && t in q
    ensures Insert(Without(q, t), p, t, true) == q <==> FirstAmongEquals(q, p, t)
  {
    if q[0] == t {
      assert |q| > 1 ==> Of(p, q[0]) <= Of(p, q[1]);
    } else {
      var k := WithoutSplits(q, t);
      assert Of(p, q[0]) <= Of(p, q[k]);
      FrontAgain(q[1..], p, t);
      if Of(p, q[0]) < Of(p, t) {
        FirstBehind(q, p, t);
      }
    }
  }

  lemma FirstBehind(q: seq<nat>, p: seq<nat>, t: nat)
    requires q != [] && Of(p, q[0]) < Of(p, t)
    ensures FirstAmongEquals(q, p, t) <==> FirstAmongEquals(q[1..], p, t)
  {
    var r := q[1..];
    if FirstAmongEquals(r, p, t) {
      forall i, j | 0 <= i < j < |q| && q[j] == t
        ensures Of(p, q[i]) < Of(p, t)
      {
        if i > 0 {
          assert r[j - 1] == t && r[i - 1] == q[i];
        }
      }
    }
    if FirstAmongEquals(q, p, t) {
      forall i, j | 0 <= i < j < |r| && r[j] == t
        ensures Of(p, r[i]) < Of(p, t)
      {
        assert q[j + 1] == t && q[i + 1] == r[i];
      }
    }
  }
}
