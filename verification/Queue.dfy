/**
 The circular doubly linked queue (asp3/include/queue.h).

 Entries are numbered; `next` and `prev` hold what the pointer fields of all of them point to.  A
 queue is a ring: a header followed by the entries in order.  Any number of rings share the two
 arrays, and an operation on one leaves the others as they are.
 */
module Queue {

  function Succ(n: nat, i: nat): nat {
    if i + 1 < n then i + 1 else 0
  }

  ghost predicate Distinct(r: seq<nat>) {
    forall i, j :: 0 <= i < j < |r| ==> r[i] != r[j]
  }

  /** `r` is the header and then the entries, in order. */
  ghost predicate Ring(next: seq<nat>, prev: seq<nat>, r: seq<nat>) {
    && |next| == |prev| && r != [] && Distinct(r)
    && (forall i :: 0 <= i < |r| ==> r[i] < |next|)
    && (forall i {:trigger r[i]} :: 0 <= i < |r| ==> Linked(next, prev, r[i], r[Succ(|r|, i)]))
  }

  predicate Linked(next: seq<nat>, prev: seq<nat>, x: nat, y: nat) {
    x < |next| && y < |prev| && next[x] == y && prev[y] == x
  }

  /** Where a ring goes on. */
  lemma RingAt(next: seq<nat>, prev: seq<nat>, r: seq<nat>, i: nat)
    requires Ring(next, prev, r) && i < |r|
    ensures r[i] < |next| && next[r[i]] == r[Succ(|r|, i)] && prev[r[Succ(|r|, i)]] == r[i]
  {
  }

  lemma RingIsEmpty(next: seq<nat>, prev: seq<nat>, r: seq<nat>)
    requires Ring(next, prev, r)
    ensures next[r[0]] == r[0] <==> |r| == 1
    ensures next[r[0]] == r[0] ==> prev[r[0]] == r[0]
  {
    RingAt(next, prev, r, 0);
  }

  /** Writing the fields of entries outside a ring leaves it alone. */
  lemma RingFrame(next: seq<nat>, prev: seq<nat>, next': seq<nat>, prev': seq<nat>, r: seq<nat>)
    requires Ring(next, prev, r) && |next'| == |prev'| == |next|
    requires forall x :: x in r && x < |next| ==> next'[x] == next[x] && prev'[x] == prev[x]
    ensures Ring(next', prev', r)
  {
    forall i | 0 <= i < |r|
      ensures Linked(next', prev', r[i], r[Succ(|r|, i)])
    {
      RingAt(next, prev, r, i);
      assert r[i] in r && r[Succ(|r|, i)] in r;
    }
  }

  /** Entry `e` put behind entry `k` of the ring. */
  function Inserted(r: seq<nat>, k: nat, e: nat): seq<nat>
    requires k < |r|
  {
    r[..k + 1] + [e] + r[k + 1..]
  }

  /** The four writes of queue_insert_next and queue_insert_prev, where `p` is before `e`. */
  function InsertNext(next: seq<nat>, p: nat, q: nat, e: nat): seq<nat>
    requires p < |next| && e < |next|
  {
    next[e := q][p := e]
  }

  function InsertPrev(prev: seq<nat>, p: nat, q: nat, e: nat): seq<nat>
    requires q < |prev| && e < |prev|
  {
    prev[e := p][q := e]
  }

  lemma InsertedDistinct(r: seq<nat>, k: nat, e: nat)
    requires Distinct(r) && k < |r| && e !in r
    ensures Distinct(Inserted(r, k, e))
  {
  }

  lemma StillLinked(next: seq<nat>, prev: seq<nat>, r: seq<nat>, k: nat, e: nat, i: nat)
    requires Ring(next, prev, r) && k < |r| && e < |next| && e !in r && i < |r| && i != k
    ensures var p, q := r[k], r[Succ(|r|, k)];
            p < |next| && q < |next| &&
            Linked(InsertNext(next, p, q, e), InsertPrev(prev, p, q, e), r[i], r[Succ(|r|, i)])
  {
    RingAt(next, prev, r, k);
    RingAt(next, prev, r, i);
    var j, l := Succ(|r|, i), Succ(|r|, k);
    assert j != l && r[i] != r[k] && r[j] != r[l];
    assert r[i] in r && r[j] in r;
  }

  lemma NewlyLinked(next: seq<nat>, prev: seq<nat>, r: seq<nat>, k: nat, e: nat)
    requires Ring(next, prev, r) && k < |r| && e < |next| && e !in r
    ensures var p, q := r[k], r[Succ(|r|, k)];
            p < |next| && q < |next| &&
            Linked(InsertNext(next, p, q, e), InsertPrev(prev, p, q, e), p, e) &&
            Linked(InsertNext(next, p, q, e), InsertPrev(prev, p, q, e), e, q)
  {
    RingAt(next, prev, r, k);
    assert r[k] in r && r[Succ(|r|, k)] in r;
  }

  lemma InsertedAt(r: seq<nat>, k: nat, e: nat, i: nat)
    requires k < |r| && i <= |r|
    ensures |Inserted(r, k, e)| == |r| + 1
    ensures Inserted(r, k, e)[i] == if i <= k then r[i] else if i == k + 1 then e else r[i - 1]
  {
  }

  lemma LinkedAfter(next: seq<nat>, prev: seq<nat>, r: seq<nat>, k: nat, e: nat, i: nat)
    requires Ring(next, prev, r) && k < |r| && e < |next| && e !in r && i <= |r|
    ensures var p, q := r[k], r[Succ(|r|, k)];
            var r' := Inserted(r, k, e);
            p < |next| && q < |next| && |r'| == |r| + 1 &&
            Linked(InsertNext(next, p, q, e), InsertPrev(prev, p, q, e), r'[i], r'[Succ(|r'|, i)])
  {
    InsertedAt(r, k, e, i);
    InsertedAt(r, k, e, Succ(|r| + 1, i));
    if i < k {
      StillLinked(next, prev, r, k, e, i);
    } else if i > k + 1 {
      StillLinked(next, prev, r, k, e, i - 1);
    } else {
      NewlyLinked(next, prev, r, k, e);
    }
  }

  /** queue_insert_next behind entry `k`, which is queue_insert_prev before the one behind it. */
  lemma InsertRing(next: seq<nat>, prev: seq<nat>, r: seq<nat>, k: nat, e: nat, next': seq<nat>, prev': seq<nat>)
    requires Ring(next, prev, r) && k < |r| && e < |next| && e !in r && r[k] < |next| && r[Succ(|r|, k)] < |next|
    requires next' == InsertNext(next, r[k], r[Succ(|r|, k)], e)
    requires prev' == InsertPrev(prev, r[k], r[Succ(|r|, k)], e)
    ensures Ring(next', prev', Inserted(r, k, e))
  {
    InsertedDistinct(r, k, e);
    var r' := Inserted(r, k, e);
    forall i {:trigger r'[i]} | 0 <= i < |r'|
      ensures Linked(next', prev', r'[i], r'[Succ(|r'|, i)])
    {
      LinkedAfter(next, prev, r, k, e, i);
    }
  }

  // ---------- Deletion ----------

  function Deleted(r: seq<nat>, k: nat): seq<nat>
    requires k < |r|
  {
    r[..k] + r[k + 1..]
  }

  /** Taking entry `k` > 0 out joins its neighbours; the header stays. */
  lemma LinkedWithout(next: seq<nat>, prev: seq<nat>, r: seq<nat>, k: nat, i: nat)
    requires Ring(next, prev, r) && 0 < k < |r| && i < |r| && i != k
    ensures var p, q := r[k - 1], r[Succ(|r|, k)];
            p < |next| && q < |next| &&
            Linked(next[p := q], prev[q := p], r[i], if Succ(|r|, i) == k then q else r[Succ(|r|, i)])
  {
    RingAt(next, prev, r, k);
    RingAt(next, prev, r, k - 1);
    RingAt(next, prev, r, i);
    var j, l := Succ(|r|, i), Succ(|r|, k);
    assert i != k - 1 ==> r[i] != r[k - 1];
    assert j != l ==> r[j] != r[l];
  }

  lemma DeletedAt(r: seq<nat>, k: nat, i: nat)
    requires 0 < k < |r| && i < |r| - 1
    ensures |Deleted(r, k)| == |r| - 1
    ensures Deleted(r, k)[i] == if i < k then r[i] else r[i + 1]
  {
  }

  lemma DeleteLinked(next: seq<nat>, prev: seq<nat>, r: seq<nat>, k: nat, i: nat)
    requires Ring(next, prev, r) && 0 < k < |r| && i < |r| - 1
    ensures var p, q := r[k - 1], r[Succ(|r|, k)];
            var r' := Deleted(r, k);
            p < |next| && q < |next| && |r'| == |r| - 1 && Linked(next[p := q], prev[q := p], r'[i], r'[Succ(|r'|, i)])
  {
    DeletedAt(r, k, i);
    DeletedAt(r, k, Succ(|r| - 1, i));
    LinkedWithout(next, prev, r, k, if i < k then i else i + 1);
  }

  lemma DeletedDistinct(r: seq<nat>, k: nat)
    requires Distinct(r) && k < |r|
    ensures Distinct(Deleted(r, k)) && r[k] !in Deleted(r, k)
    ensures forall x :: x in Deleted(r, k) ==> x in r
  {
  }

  /** queue_delete. */
  lemma DeleteRing(next: seq<nat>, prev: seq<nat>, r: seq<nat>, k: nat, next': seq<nat>, prev': seq<nat>)
    requires Ring(next, prev, r) && 0 < k < |r| && r[k - 1] < |next| && r[Succ(|r|, k)] < |next|
    requires next' == next[r[k - 1] := r[Succ(|r|, k)]]
    requires prev' == prev[r[Succ(|r|, k)] := r[k - 1]]
    ensures Ring(next', prev', Deleted(r, k)) && r[k] !in Deleted(r, k)
  {
    DeletedDistinct(r, k);
    var r' := Deleted(r, k);
    forall i {:trigger r'[i]} | 0 <= i < |r'|
      ensures Linked(next', prev', r'[i], r'[Succ(|r'|, i)])
    {
      DeleteLinked(next, prev, r, k, i);
    }
  }

  /** Rings without a common entry. */
  ghost predicate Apart(r: seq<nat>, s: seq<nat>) {
    forall x :: x in r ==> x !in s
  }

  lemma OthersStay(next: seq<nat>, prev: seq<nat>, next': seq<nat>, prev': seq<nat>, r: seq<nat>, e: nat)
    requires |next'| == |prev'| == |next|
    requires forall x :: x !in r && x != e && 0 <= x < |next| && x < |prev| ==>
               next'[x] == next[x] && prev'[x] == prev[x]
    ensures forall s :: Ring(next, prev, s) && Apart(r, s) && e !in s ==> Ring(next', prev', s)
  {
    forall s | Ring(next, prev, s) && Apart(r, s) && e !in s
      ensures Ring(next', prev', s)
    {
      RingFrame(next, prev, next', prev', s);
    }
  }

  lemma DeletionApart(next: seq<nat>, prev: seq<nat>, next': seq<nat>, prev': seq<nat>, r: seq<nat>, e: nat)
    requires |next'| == |prev'| == |next| && e in r
    requires forall x :: x !in r && x != e && 0 <= x < |next| && x < |prev| ==>
               next'[x] == next[x] && prev'[x] == prev[x]
    ensures forall s :: Ring(next, prev, s) && Apart(r, s) ==> Ring(next', prev', s)
  {
    OthersStay(next, prev, next', prev', r, e);
  }

  class Queues {
    const next: array<nat>
    const prev: array<nat>

    ghost predicate Valid() {
      next != prev && next.Length == prev.Length
    }

    ghost predicate IsRing(r: seq<nat>)
      reads next, prev
    {
      Valid() && Ring(next[..], prev[..], r)
    }

    // queue_initialize
    method Initialize(queue: nat)
      requires Valid() && queue < next.Length
      modifies next, prev
      ensures IsRing([queue])
      ensures forall s :: old(IsRing(s)) && queue !in s ==> IsRing(s)
    {
      ghost var n, p := next[..], prev[..];
      prev[queue] := queue;
      next[queue] := queue;
      forall s | Ring(n, p, s) && queue !in s
        ensures Ring(next[..], prev[..], s)
      {
        RingFrame(n, p, next[..], prev[..], s);
      }
    }

    // queue_insert_next
    method InsertNext(queue: nat, entry: nat, ghost r: seq<nat>, ghost k: nat)
      requires IsRing(r) && k < |r| && queue == r[k] && entry < next.Length && entry !in r
      modifies next, prev
      ensures IsRing(Inserted(r, k, entry))
      ensures forall s :: old(IsRing(s)) && Apart(r, s) && entry !in s ==> IsRing(s)
    {
      ghost var n, p := next[..], prev[..];
      RingAt(n, p, r, k);
      prev[entry] := queue;
      next[entry] := next[queue];
      prev[next[queue]] := entry;
      next[queue] := entry;
      InsertRing(n, p, r, k, entry, next[..], prev[..]);
      OthersStay(n, p, next[..], prev[..], r, entry);
    }

    // queue_insert_prev; before the header, `k` being 0, is behind the last entry
    method InsertPrev(queue: nat, entry: nat, ghost r: seq<nat>, ghost k: nat)
      requires IsRing(r) && k < |r| && queue == r[k] && entry < next.Length && entry !in r
      modifies next, prev
      ensures IsRing(if k == 0 then r + [entry] else Inserted(r, k - 1, entry))
      ensures forall s :: old(IsRing(s)) && Apart(r, s) && entry !in s ==> IsRing(s)
    {
      ghost var n, p := next[..], prev[..];
      ghost var j := if k == 0 then |r| - 1 else k - 1;
      assert k == 0 ==> Inserted(r, j, entry) == r + [entry];
      RingAt(n, p, r, j);
      prev[entry] := prev[queue];
      next[entry] := queue;
      next[prev[queue]] := entry;
      prev[queue] := entry;
      InsertRing(n, p, r, j, entry, next[..], prev[..]);
      OthersStay(n, p, next[..], prev[..], r, entry);
    }

    // queue_delete
    method Delete(entry: nat, ghost r: seq<nat>, ghost k: nat)
      requires IsRing(r) && 0 < k < |r| && entry == r[k]
      modifies next, prev
      ensures IsRing(Deleted(r, k)) && entry !in Deleted(r, k)
      ensures forall s :: old(IsRing(s)) && Apart(r, s) ==> IsRing(s)
    {
      ghost var n, p := next[..], prev[..];
      RingAt(n, p, r, k);
      RingAt(n, p, r, k - 1);
      next[prev[entry]] := next[entry];
      prev[next[entry]] := prev[entry];
      DeleteRing(n, p, r, k, next[..], prev[..]);
      DeletionApart(n, p, next[..], prev[..], r, entry);
    }

    // queue_delete_next, for the header of a queue that is not empty
    method DeleteNext(queue: nat, ghost r: seq<nat>) returns (entry: nat)
      requires IsRing(r) && |r| > 1 && queue == r[0]
      modifies next, prev
      ensures entry == r[1] && IsRing([queue] + r[2..]) && entry !in [queue] + r[2..]
      ensures forall s :: old(IsRing(s)) && Apart(r, s) ==> IsRing(s)
    {
      ghost var n, p := next[..], prev[..];
      RingAt(n, p, r, 0);
      RingAt(n, p, r, 1);
      assert next[queue] != queue;  // the assertion of the source
      entry := next[queue];
      next[queue] := next[entry];
      prev[next[entry]] := queue;
      assert Deleted(r, 1) == [queue] + r[2..];
      DeleteRing(n, p, r, 1, next[..], prev[..]);
      DeletionApart(n, p, next[..], prev[..], r, entry);
    }

    // queue_empty
    method Empty(queue: nat, ghost r: seq<nat>) returns (empty: bool)
      requires IsRing(r) && queue == r[0]
      ensures empty <==> r == [queue]
    {
      RingIsEmpty(next[..], prev[..], r);
      if next[queue] == queue {
        assert prev[queue] == queue;  // the assertion of the source
        return true;
      }
      return false;
    }
  }
}
