/**
 The ready queue: one FIFO queue per priority, and the bitmap of the non-empty ones
 (asp3/kernel/task.c:64-67, 119-215).  Read in order of priority, the queues form one list in
 order of precedence.
 */
module ReadyQueue {
  import opened Precedence

  function Flat(r: seq<seq<nat>>): seq<nat> {
    if r == [] then [] else r[0] + Flat(r[1..])
  }

  /** Queue `i` holds tasks of priority `k + i` only. */
  ghost predicate Buckets(r: seq<seq<nat>>, p: seq<nat>, k: nat) {
    forall i: nat, x: nat :: i < |r| && x in r[i] ==> Of(p, x) == k + i
  }

  lemma {:induction false} FlatContents(r: seq<seq<nat>>, x: nat)
    ensures x in Flat(r) <==> exists i: nat :: i < |r| && x in r[i]
  {
    if r != [] {
      FlatContents(r[1..], x);
      if i: nat :| i < |r| && x in r[i] && i > 0 {
        assert x in r[1..][i - 1];
      }
      if i: nat :| i < |r[1..]| && x in r[1..][i] {
        assert x in r[i + 1];
      }
    }
  }

  lemma TailBuckets(r: seq<seq<nat>>, p: seq<nat>, k: nat)
    requires Buckets(r, p, k) && r != []
    ensures Buckets(r[1..], p, k + 1)
  {
    forall i: nat, x: nat | i < |r[1..]| && x in r[1..][i]
      ensures Of(p, x) == k + 1 + i
    {
      assert x in r[i + 1];
    }
  }

  lemma AllLater(r: seq<seq<nat>>, p: seq<nat>, k: nat, x: nat)
    requires Buckets(r, p, k) && x in Flat(r)
    ensures k <= Of(p, x) < k + |r|
  {
    FlatContents(r, x);
  }

  /** queue_insert_prev on the queue of the task's priority. */
  lemma {:induction false} AppendIsInsert(r: seq<seq<nat>>, p: seq<nat>, k: nat, i: nat, t: nat)
    requires Buckets(r, p, k) && i < |r| && Of(p, t) == k + i
    ensures Flat(r[i := r[i] + [t]]) == Insert(Flat(r), p, t, false)
    decreases i
  {
    var r' := r[i := r[i] + [t]];
    TailBuckets(r, p, k);
    if i == 0 {
      assert r'[1..] == r[1..];
      InsertBehind(r[0], Flat(r[1..]), p, t, false);
      if Flat(r[1..]) != [] {
        AllLater(r[1..], p, k + 1, Flat(r[1..])[0]);
      }
      InsertBefore(Flat(r[1..]), p, t, false);
      assert r[0] + [t] + Flat(r[1..]) == r[0] + ([t] + Flat(r[1..]));
    } else {
      assert r'[1..] == r[1..][i - 1 := r[1..][i - 1] + [t]];
      AppendIsInsert(r[1..], p, k + 1, i - 1, t);
      InsertBehind(r[0], Flat(r[1..]), p, t, false);
    }
  }

  /** queue_insert_next on the queue of the task's priority. */
  lemma {:induction false} PrependIsInsert(r: seq<seq<nat>>, p: seq<nat>, k: nat, i: nat, t: nat)
    requires Buckets(r, p, k) && i < |r| && Of(p, t) == k + i
    ensures Flat(r[i := [t] + r[i]]) == Insert(Flat(r), p, t, true)
    decreases i
  {
    var r' := r[i := [t] + r[i]];
    TailBuckets(r, p, k);
    if i == 0 {
      assert r'[1..] == r[1..];
      if Flat(r) != [] {
        AllLater(r, p, k, Flat(r)[0]);
      }
      InsertBefore(Flat(r), p, t, true);
      assert [t] + r[0] + Flat(r[1..]) == [t] + Flat(r);
    } else {
      assert r'[1..] == r[1..][i - 1 := [t] + r[1..][i - 1]];
      PrependIsInsert(r[1..], p, k + 1, i - 1, t);
      InsertBehind(r[0], Flat(r[1..]), p, t, true);
    }
  }

  /** queue_delete from the queue that holds the task. */
  lemma {:induction false} DeleteIsWithout(r: seq<seq<nat>>, p: seq<nat>, k: nat, i: nat, t: nat)
    requires Buckets(r, p, k) && i < |r| && t in r[i]
    ensures Flat(r[i := Without(r[i], t)]) == Without(Flat(r), t)
    decreases i
  {
    var r' := r[i := Without(r[i], t)];
    if i == 0 {
      assert r'[1..] == r[1..];
      WithoutInFront(r[0], Flat(r[1..]), t);
    } else {
      TailBuckets(r, p, k);
      assert t in r[1..][i - 1];
      assert t in r[0] ==> Of(p, t) == k + 0;
      assert r'[1..] == r[1..][i - 1 := Without(r[1..][i - 1], t)];
      DeleteIsWithout(r[1..], p, k + 1, i - 1, t);
      WithoutBehind(r[0], Flat(r[1..]), t);
    }
  }

  // ---------- The bitmap ----------

  /** Priorities whose queue is not empty. */
  ghost predicate MapsQueues(primap: set<nat>, r: seq<seq<nat>>) {
    forall i: nat :: i in primap <==> i < |r| && r[i] != []
  }

  /** The smallest member of `s` from `k` up. */
  function Lowest(s: set<nat>, k: nat, n: nat): nat
    requires exists i: nat :: k <= i < n && i in s
    decreases n - k
  {
    if k in s then k else Lowest(s, k + 1, n)
  }

  lemma {:induction false} LowestIsFirst(s: set<nat>, k: nat, n: nat)
    requires exists i: nat :: k <= i < n && i in s
    ensures k <= Lowest(s, k, n) < n && Lowest(s, k, n) in s
    ensures forall i: nat :: k <= i < Lowest(s, k, n) ==> i !in s
    decreases n - k
  {
    if k !in s {
      LowestIsFirst(s, k + 1, n);
    }
  }

  /** The head of the first non-empty queue comes first in precedence. */
  lemma {:induction false} FirstOfFlat(r: seq<seq<nat>>, i: nat)
    requires i < |r| && r[i] != [] && forall j: nat :: j < i ==> r[j] == []
    ensures Flat(r) != [] && Flat(r)[0] == r[i][0]
    decreases i
  {
    if i > 0 {
      assert r[0] == [];
      FirstOfFlat(r[1..], i - 1);
    }
  }

  lemma {:induction false} EmptyFlat(r: seq<seq<nat>>)
    requires forall j: nat :: j < |r| ==> r[j] == []
    ensures Flat(r) == []
  {
    if r != [] {
      assert r[0] == [];
      forall j: nat | j < |r[1..]|
        ensures r[1..][j] == []
      {
        assert r[j + 1] == [];
      }
      EmptyFlat(r[1..]);
    }
  }

  lemma SearchFindsFirst(primap: set<nat>, r: seq<seq<nat>>)
    requires MapsQueues(primap, r)
    ensures primap == {} <==> Flat(r) == []
    ensures primap != {} ==>
              (exists i: nat :: 0 <= i < |r| && i in primap) &&
              Lowest(primap, 0, |r|) < |r| &&
              r[Lowest(primap, 0, |r|)] != [] && Flat(r)[0] == r[Lowest(primap, 0, |r|)][0]
  {
    if primap == {} {
      EmptyFlat(r);
    } else {
      var i :| i in primap;
      assert 0 <= i < |r| && i in primap;
      LowestIsFirst(primap, 0, |r|);
      FirstOfFlat(r, Lowest(primap, 0, |r|));
    }
  }

  /** A task of the list is in the queue of its priority. */
  lemma InItsQueue(r: seq<seq<nat>>, p: seq<nat>, t: nat)
    requires Buckets(r, p, 0) && t in Flat(r)
    ensures Of(p, t) < |r| && t in r[Of(p, t)]
  {
    FlatContents(r, t);
  }

  /** If the first task of the list is in queue `i`, the queues before it are empty. */
  lemma NoneBeforeFirst(r: seq<seq<nat>>, p: seq<nat>, i: nat)
    requires Buckets(r, p, 0) && i < |r| && Flat(r) != [] && Of(p, Flat(r)[0]) == i
    ensures forall j: nat :: j < i ==> r[j] == []
  {
    forall j: nat | j < i
      ensures r[j] == []
    {
      if r[j] != [] {
        LowestNonEmpty(r, j);
        var k :| 0 <= k <= j && r[k] != [] && forall l: nat :: l < k ==> r[l] == [];
        FirstOfFlat(r, k);
        assert false;
      }
    }
  }

  lemma {:induction false} LowestNonEmpty(r: seq<seq<nat>>, j: nat)
    requires j < |r| && r[j] != []
    ensures exists k :: 0 <= k <= j && r[k] != [] && forall l: nat :: l < k ==> r[l] == []
    decreases j
  {
    if l: nat :| l < j && r[l] != [] {
      LowestNonEmpty(r, l);
    }
  }

  ghost predicate InRange(r: seq<seq<nat>>, n: nat) {
    forall i: nat, x: nat :: i < |r| && x in r[i] ==> x < n
  }

  lemma ChangeBuckets(r: seq<seq<nat>>, p: seq<nat>, i: nat, q: seq<nat>, n: nat)
    requires Buckets(r, p, 0) && InRange(r, n) && i < |r|
    requires forall x: nat :: x in q ==> Of(p, x) == i && x < n
    ensures Buckets(r[i := q], p, 0) && InRange(r[i := q], n)
  {
  }

  lemma AgreeBuckets(r: seq<seq<nat>>, p: seq<nat>, p': seq<nat>)
    requires Buckets(r, p, 0)
    requires forall i: nat, x: nat :: i < |r| && x in r[i] ==> Of(p', x) == Of(p, x)
    ensures Buckets(r, p', 0)
  {
  }

  lemma ChangeMap(primap: set<nat>, r: seq<seq<nat>>, i: nat, q: seq<nat>)
    requires MapsQueues(primap, r) && i < |r|
    ensures MapsQueues(if q == [] then primap - {i} else primap + {i}, r[i := q])
  {
  }
}
