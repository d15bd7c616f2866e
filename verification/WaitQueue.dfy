/**
 The wait queue of a synchronization object, with what each waiting task asks for: in order of
 arrival, or by task priority and then in order of arrival (asp3/kernel/wait.h:61-74,
 wait.c:140-149).
 */
module WaitQueue {

  /** What a call returns; `Waits` means that the caller now waits and gets its result later. */
  datatype Ercd = E_OK | E_PAR | E_ILUSE | E_RASTER | E_TMOUT | Waits

  datatype Waiter<T> = Waiter(task: nat, pri: nat, info: T)

  function Insert<T>(q: seq<Waiter<T>>, w: Waiter<T>): seq<Waiter<T>> {
    if q == [] || w.pri < q[0].pri then [w] + q else [q[0]] + Insert(q[1..], w)
  }

  function Join<T>(tpri: bool, q: seq<Waiter<T>>, w: Waiter<T>): seq<Waiter<T>> {
    if tpri then Insert(q, w) else q + [w]
  }

  /** The task leaves the queue, if it is there. */
  function Leave<T>(q: seq<Waiter<T>>, task: nat): seq<Waiter<T>> {
    if q == [] then []
    else if q[0].task == task then q[1..]
    else [q[0]] + Leave(q[1..], task)
  }

  predicate Queued<T>(q: seq<Waiter<T>>, task: nat) {
    exists i :: 0 <= i < |q| && q[i].task == task
  }

  ghost predicate ByPriority<T>(q: seq<Waiter<T>>) {
    forall i, j :: 0 <= i < j < |q| ==> q[i].pri <= q[j].pri
  }

  ghost predicate OncePerTask<T>(q: seq<Waiter<T>>) {
    forall i, j :: 0 <= i < j < |q| ==> q[i].task != q[j].task
  }

  ghost predicate Ordered<T>(tpri: bool, q: seq<Waiter<T>>) {
    OncePerTask(q) && (tpri ==> ByPriority(q))
  }

  lemma {:induction false} InsertSplits<T>(q: seq<Waiter<T>>, w: Waiter<T>) returns (k: nat)
    ensures k <= |q| && Insert(q, w) == q[..k] + [w] + q[k..]
    ensures forall i :: 0 <= i < k ==> q[i].pri <= w.pri
    ensures k < |q| ==> w.pri < q[k].pri
  {
    if q == [] || w.pri < q[0].pri {
      k := 0;
    } else {
      var k' := InsertSplits(q[1..], w);
      k := k' + 1;
      assert q == [q[0]] + q[1..];
    }
  }

  lemma {:induction false} InsertAt<T>(q: seq<Waiter<T>>, w: Waiter<T>, k: nat)
    requires k <= |q| && forall i :: 0 <= i < k ==> q[i].pri <= w.pri
    requires k < |q| ==> w.pri < q[k].pri
    ensures Insert(q, w) == q[..k] + [w] + q[k..]
  {
    if k > 0 {
      assert q[0].pri <= w.pri;
      InsertAt(q[1..], w, k - 1);
    }
  }

  /** The newcomer is at place `k`, behind all others, or by priority behind those of its own priority and
      before the less urgent ones; the others keep their order. */
  ghost predicate JoinedAt<T>(tpri: bool, q: seq<Waiter<T>>, w: Waiter<T>, q': seq<Waiter<T>>, k: nat) {
    && k <= |q| && q' == q[..k] + [w] + q[k..]
    && forall i :: 0 <= i < |q| ==> (i < k <==> !tpri || q[i].pri <= w.pri)
  }

  /** Joining keeps the order; the newcomer is behind all tasks of its own priority. */
  lemma JoinKeepsOrder<T>(tpri: bool, q: seq<Waiter<T>>, w: Waiter<T>)
    requires Ordered(tpri, q) && !Queued(q, w.task)
    ensures Ordered(tpri, Join(tpri, q, w))
    ensures exists k :: JoinedAt(tpri, q, w, Join(tpri, q, w), k)
  {
    if !tpri {
      assert JoinedAt(tpri, q, w, Join(tpri, q, w), |q|);
    } else {
      var k := InsertSplits(q, w);
      forall i | 0 <= i < |q|
        ensures i < k <==> q[i].pri <= w.pri
      {
        if i >= k {
          assert q[k].pri <= q[i].pri;
        }
      }
      assert JoinedAt(tpri, q, w, Join(tpri, q, w), k);
      forall i | k <= i < |q|
        ensures w.pri <= q[i].pri
      {
        assert q[k].pri <= q[i].pri;
      }
    }
  }

  lemma QueuedBehind<T>(q: seq<Waiter<T>>, task: nat)
    requires Queued(q, task) && q[0].task != task
    ensures Queued(q[1..], task)
  {
    var i :| 0 <= i < |q| && q[i].task == task;
    assert q[1..][i - 1].task == task;
  }

  lemma {:induction false} LeaveSplits<T>(q: seq<Waiter<T>>, task: nat) returns (k: nat)
    requires Queued(q, task)
    ensures k < |q| && q[k].task == task && Leave(q, task) == q[..k] + q[k + 1..]
  {
    if q[0].task == task {
      k := 0;
    } else {
      QueuedBehind(q, task);
      var k' := LeaveSplits(q[1..], task);
      k := k' + 1;
    }
  }

  lemma {:induction false} LeaveAbsent<T>(q: seq<Waiter<T>>, task: nat)
    requires !Queued(q, task)
    ensures Leave(q, task) == q
  {
    if q != [] {
      assert q[0].task != task;
      forall i | 0 <= i < |q[1..]|
        ensures q[1..][i].task != task
      {
        assert q[i + 1].task != task;
      }
      LeaveAbsent(q[1..], task);
    }
  }

  lemma LeaveKeepsOrder<T>(tpri: bool, q: seq<Waiter<T>>, task: nat)
    requires Ordered(tpri, q)
    ensures Ordered(tpri, Leave(q, task)) && !Queued(Leave(q, task), task)
    ensures Leave(q, task) != [] ==> q != []
  {
    if Queued(q, task) {
      var k := LeaveSplits(q, task);
    } else {
      LeaveAbsent(q, task);
    }
  }

  // ---------- A task whose priority changes while it waits ----------

  function WaiterOf<T>(q: seq<Waiter<T>>, task: nat): Waiter<T>
    requires Queued(q, task)
  {
    if q[0].task == task then q[0]
    else
      QueuedBehind(q, task);
      WaiterOf(q[1..], task)
  }

  /** wobj_change_priority. */
  function Reprioritized<T>(tpri: bool, q: seq<Waiter<T>>, task: nat, pri: nat): seq<Waiter<T>> {
    if tpri && Queued(q, task) then Insert(Leave(q, task), WaiterOf(q, task).(pri := pri)) else q
  }

  lemma {:induction false} WaiterOfIsIn<T>(q: seq<Waiter<T>>, task: nat)
    requires Queued(q, task)
    ensures WaiterOf(q, task) in q && WaiterOf(q, task).task == task
  {
    if q[0].task != task {
      QueuedBehind(q, task);
      WaiterOfIsIn(q[1..], task);
    }
  }

  lemma ReprioritizedKeepsOrder<T>(tpri: bool, q: seq<Waiter<T>>, task: nat, pri: nat)
    requires Ordered(tpri, q)
    ensures Ordered(tpri, Reprioritized(tpri, q, task, pri))
    ensures Reprioritized(tpri, q, task, pri) != [] <==> q != []
  {
    if tpri && Queued(q, task) {
      WaiterOfIsIn(q, task);
      LeaveKeepsOrder(tpri, q, task);
      JoinKeepsOrder(tpri, Leave(q, task), WaiterOf(q, task).(pri := pri));
    }
  }

  /** A waiting task whose priority changes asks for the same as before and is behind those of its new
      priority; the others keep their order.  A queue in order of arrival stays as it is. */
  lemma ReprioritizedMoves<T>(tpri: bool, q: seq<Waiter<T>>, task: nat, pri: nat)
    requires Ordered(tpri, q)
    ensures !tpri || !Queued(q, task) ==> Reprioritized(tpri, q, task, pri) == q
    ensures tpri && Queued(q, task) ==>
              exists w, k :: w in q && w.task == task &&
                JoinedAt(true, Leave(q, task), w.(pri := pri), Reprioritized(tpri, q, task, pri), k)
  {
    if tpri && Queued(q, task) {
      var w := WaiterOf(q, task);
      WaiterOfIsIn(q, task);
      LeaveKeepsOrder(tpri, q, task);
      JoinKeepsOrder(true, Leave(q, task), w.(pri := pri));
      var r := Reprioritized(tpri, q, task, pri);
      var k :| JoinedAt(true, Leave(q, task), w.(pri := pri), r, k);
      assert w in q && w.task == task && JoinedAt(true, Leave(q, task), w.(pri := pri), r, k);
    }
  }

  // ---------- What the tasks ask for ----------

  function Infos<T>(q: seq<Waiter<T>>): (d: seq<T>)
    ensures |d| == |q| && forall i :: 0 <= i < |q| ==> d[i] == q[i].info
  {
    seq(|q|, i requires 0 <= i < |q| => q[i].info)
  }

  /** What the task asks for, if it is in the queue. */
  function InfosOfTask<T>(q: seq<Waiter<T>>, task: nat): seq<T> {
    if q == [] then [] else if q[0].task == task then [q[0].info] else InfosOfTask(q[1..], task)
  }

  lemma InfosOfFirst<T>(q: seq<Waiter<T>>)
    requires q != []
    ensures Infos(q) == [q[0].info] + Infos(q[1..])
  {
  }

  lemma {:induction false} LeaveInfos<T>(q: seq<Waiter<T>>, task: nat)
    ensures multiset(Infos(q)) == multiset(Infos(Leave(q, task))) + multiset(InfosOfTask(q, task))
    ensures Queued(q, task) ==> InfosOfTask(q, task) == [WaiterOf(q, task).info]
  {
    if q != [] {
      InfosOfFirst(q);
      if q[0].task != task {
        if Queued(q, task) {
          QueuedBehind(q, task);
        }
        LeaveInfos(q[1..], task);
        InfosOfFirst(Leave(q, task));
        assert Leave(q, task)[1..] == Leave(q[1..], task);
      }
    }
  }

  lemma {:induction false} NothingOfTask<T>(q: seq<Waiter<T>>, task: nat)
    requires !Queued(q, task)
    ensures InfosOfTask(q, task) == []
  {
    if q != [] {
      assert q[0].task != task;
      forall i | 0 <= i < |q[1..]|
        ensures q[1..][i].task != task
      {
        assert q[i + 1].task != task;
      }
      NothingOfTask(q[1..], task);
    }
  }

  /** The task at place `k` left, and what it asked for is `infos`; or the task was not there. */
  ghost predicate Left<T>(q: seq<Waiter<T>>, task: nat, q': seq<Waiter<T>>, infos: seq<T>) {
    if Queued(q, task)
    then exists k :: 0 <= k < |q| && q[k].task == task && q' == q[..k] + q[k + 1..] && infos == [q[k].info]
    else q' == q && infos == []
  }

  lemma LeaveEffect<T>(q: seq<Waiter<T>>, task: nat)
    requires OncePerTask(q)
    ensures !Queued(Leave(q, task), task) && Left(q, task, Leave(q, task), InfosOfTask(q, task))
  {
    if Queued(q, task) {
      LeaveInfos(q, task);
      WaiterOfIsIn(q, task);
      var k := LeaveSplits(q, task);
      var j :| 0 <= j < |q| && q[j] == WaiterOf(q, task);
      assert j == k;
    } else {
      LeaveAbsent(q, task);
      NothingOfTask(q, task);
    }
  }

  lemma {:induction false} InsertInfos<T>(q: seq<Waiter<T>>, w: Waiter<T>)
    ensures multiset(Infos(Insert(q, w))) == multiset(Infos(q)) + multiset{w.info}
  {
    InfosOfFirst(Insert(q, w));
    if q == [] || w.pri < q[0].pri {
      assert Insert(q, w)[1..] == q;
    } else {
      InfosOfFirst(q);
      assert Insert(q, w)[1..] == Insert(q[1..], w);
      InsertInfos(q[1..], w);
    }
  }

  lemma JoinInfos<T>(tpri: bool, q: seq<Waiter<T>>, w: Waiter<T>)
    ensures multiset(Infos(Join(tpri, q, w))) == multiset(Infos(q)) + multiset{w.info}
  {
    if tpri {
      InsertInfos(q, w);
    } else {
      assert Infos(q + [w]) == Infos(q) + [w.info];
    }
  }

  lemma ReprioritizedInfos<T>(tpri: bool, q: seq<Waiter<T>>, task: nat, pri: nat)
    ensures multiset(Infos(Reprioritized(tpri, q, task, pri))) == multiset(Infos(q))
  {
    if tpri && Queued(q, task) {
      LeaveInfos(q, task);
      InsertInfos(Leave(q, task), WaiterOf(q, task).(pri := pri));
    }
  }

  // ---------- The source's loop ----------

  /** queue_insert_tpri. */
  method InsertTpri<T>(q: seq<Waiter<T>>, w: Waiter<T>) returns (r: seq<Waiter<T>>)
    ensures r == Insert(q, w)
  {
    var i := 0;
    while i < |q| && w.pri >= q[i].pri
      invariant i <= |q| && forall j :: 0 <= j < i ==> q[j].pri <= w.pri
    {
      i := i + 1;
    }
    InsertAt(q, w, i);
    r := q[..i] + [w] + q[i..];
  }
}
