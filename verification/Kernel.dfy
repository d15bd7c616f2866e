/**
 The kernel's own data and routines (asp3/kernel/task.c, wait.c, wait.h, mutex.c, task_sync.c,
 task_term.c, task_manage.c, sys_manage.c, interrupt.c), shown to follow KernelModel.

 Control blocks are entries of sequences, pointers to them are numbers.  The ready queue is a
 queue per priority with the set of non-empty priorities beside it, the task to be run is cached
 in `schedtsk`, and the mutexes of a task are linked from `lastmtx` through `prevmtx`.
 */
module Kernel {
  import opened Options
  import opened LinkedList
  import opened Precedence
  import opened ReadyQueue
  import opened KernelModel
  import opened KernelSafety
  import opened KernelRuns

  // ---------- Chains of mutexes ----------

  ghost predicate Chains(prev: seq<Option<nat>>, last: seq<Option<nat>>, held: seq<seq<nat>>) {
    && |last| == |held|
    && forall t: nat :: t < |held| ==> Chain(prev, last[t], held[t])
  }

  /** `p_loctsk` names the task on whose chain the mutex is. */
  ghost predicate Owners(loctsk: seq<Option<nat>>, held: seq<seq<nat>>, free: Option<nat>) {
    forall m: nat, t: nat :: m < |loctsk| && Some(m) != free ==>
      (loctsk[m] == Some(t) <==> t < |held| && m in held[t])
  }

  lemma ChainsPush(prev: seq<Option<nat>>, last: seq<Option<nat>>, held: seq<seq<nat>>, t: nat, m: nat)
    requires Chains(prev, last, held) && t < |held| && m < |prev| && !Owned(held, m)
    ensures Chains(prev[m := last[t]], last[t := Some(m)], held[t := [m] + held[t]])
  {
    forall x: nat | x < |held|
      ensures Chain(prev[m := last[t]], last[x], held[x])
    {
      assert m !in held[x];
      ChainFrame(prev, m, last[t], last[x], held[x]);
    }
    assert ([m] + held[t])[1..] == held[t];
  }

  lemma ChainsPop(prev: seq<Option<nat>>, last: seq<Option<nat>>, held: seq<seq<nat>>, t: nat)
    requires Chains(prev, last, held) && t < |held| && held[t] != []
    ensures last[t] == Some(held[t][0]) && held[t][0] < |prev|
    ensures Chains(prev, last[t := prev[held[t][0]]], held[t := held[t][1..]])
  {
    assert Chain(prev, last[t], held[t]);
  }

  lemma ChainsUnlink(prev: seq<Option<nat>>, last: seq<Option<nat>>, c: Config, held: seq<seq<nat>>, t: nat, k: nat)
    requires Chains(prev, last, held) && HeldOk(c, held) && t < |held| && 0 < k < |held[t]|
    ensures held[t][k] < |prev| && held[t][k - 1] < |prev|
    ensures Chains(prev[held[t][k - 1] := prev[held[t][k]]], last, held[t := Without(held[t], held[t][k])])
  {
    assert Chain(prev, last[t], held[t]);
    ChainUnlink(prev, last[t], held[t], k);
    WithoutAt(held[t], k);
    var m := held[t][k - 1];
    forall x: nat | x < |held| && x != t
      ensures Chain(prev[m := prev[held[t][k]]], last[x], held[x])
    {
      assert m in held[t] && m !in held[x];
      ChainFrame(prev, m, prev[held[t][k]], last[x], held[x]);
    }
  }

  lemma WithoutAt(q: seq<nat>, k: nat)
    requires NoDuplicates(q) && k < |q|
    ensures Without(q, q[k]) == q[..k] + q[k + 1..]
  {
    var i := WithoutSplits(q, q[k]);
  }

  // ---------- Owners ----------

  lemma OwnersPush(loctsk: seq<Option<nat>>, held: seq<seq<nat>>, t: nat, m: nat, free: Option<nat>)
    requires Owners(loctsk, held, free) && t < |held| && m < |loctsk| && !Owned(held, m)
    requires free == None || free == Some(m)
    ensures Owners(loctsk[m := Some(t)], held[t := [m] + held[t]], None)
  {
  }

  /** The mutex leaves the list of its holder; who names its holder is settled afterwards. */
  lemma OwnersPop(loctsk: seq<Option<nat>>, held: seq<seq<nat>>, t: nat, m: nat, ms: seq<nat>)
    requires Owners(loctsk, held, None) || Owners(loctsk, held, Some(m))
    requires t < |held| && forall x :: x in ms <==> x in held[t] && x != m
    ensures Owners(loctsk, held[t := ms], Some(m))
  {
  }

  lemma OwnersFree(loctsk: seq<Option<nat>>, held: seq<seq<nat>>, m: nat)
    requires Owners(loctsk, held, Some(m)) && m < |loctsk| && !Owned(held, m)
    ensures Owners(loctsk[m := None], held, None)
  {
  }

  lemma OwnersTell(loctsk: seq<Option<nat>>, held: seq<seq<nat>>, m: nat)
    requires Owners(loctsk, held, None) && m < |loctsk|
    ensures loctsk[m].Some? <==> Owned(held, m)
    ensures loctsk[m].Some? ==> loctsk[m].value < |held| && m in held[loctsk[m].value]
  {
    if t :| 0 <= t < |held| && m in held[t] {
      assert loctsk[m] == Some(t);
    }
  }

  // ---------- Ceilings ----------

  function Min(a: nat, b: nat): nat {
    if a < b then a else b
  }

  predicate Ceiling(c: Config, m: nat, pri: nat) {
    m < |c.obj| && c.obj[m].ceiling.Some? && c.obj[m].ceiling.value < pri
  }

  /** What a mutex contributes to its holder's priority. */
  lemma {:induction false} GivingUp(c: Config, ms: seq<nat>, m: nat, b: nat)
    requires m in ms && m < |c.obj|
    ensures CeilingOf(c, ms, b) ==
            if c.obj[m].ceiling.Some? then Min(CeilingOf(c, Without(ms, m), b), c.obj[m].ceiling.value)
            else CeilingOf(c, Without(ms, m), b)
  {
    if ms[0] != m {
      GivingUp(c, ms[1..], m, b);
    }
  }

  lemma {:induction false} CeilingOfRest(c: Config, ms: seq<nat>, b: nat, k: nat, pri: nat)
    requires k < |ms| && pri <= b
    ensures Min(pri, CeilingOf(c, ms[k..], b)) ==
            Min(if Ceiling(c, ms[k], pri) then c.obj[ms[k]].ceiling.value else pri, CeilingOf(c, ms[k + 1..], b))
  {
    assert ms[k..][1..] == ms[k + 1..];
  }

  predicate AboveCeiling(c: Config, m: nat, bpriority: nat) {
    m < |c.obj| && c.obj[m].mutex && c.obj[m].ceiling.Some? && bpriority < c.obj[m].ceiling.value
  }

  /** What `t` holds are mutexes, and what it waits for exists. */
  ghost predicate HoldsMutexes(c: Config, ms: seq<nat>, v: Tcb) {
    && (forall m: nat :: m in ms ==> m < |c.obj| && c.obj[m].mutex)
    && (v.tstat.Alive? && v.tstat.wait.OnObject? ==> v.tstat.wait.obj < |c.obj|)
  }

  ghost predicate HasItsPriority(c: Config, s: State, t: nat) {
    Is(s, t) && t < |s.held| && s.tcb[t].priority == CeilingOf(c, s.held[t], s.tcb[t].bpriority)
  }

  lemma PriorityOfHead(c: Config, s: State, o: nat, off: set<nat>, free: Option<nat>)
    requires Core(c, s, off, None, free) && o < |c.obj| && s.waitq[o] != []
    ensures HasItsPriority(c, s, s.waitq[o][0])
  {
    HeadIsBlocked(c, s, o, off, free);
    assert TaskOk(c, s.waitq[o][0], s.tcb[s.waitq[o][0]], s.held[s.waitq[o][0]]);
  }

  // ---------- The ready queue ----------

  ghost predicate Queues(rdq: seq<seq<nat>>, primap: set<nat>, tcb: seq<Tcb>) {
    && |rdq| == TNUM_TPRI && MapsQueues(primap, rdq)
    && Buckets(rdq, Prios(tcb), 0) && InRange(rdq, |tcb|)
  }

  ghost function Head(q: seq<nat>): Option<nat> {
    if q == [] then None else Some(q[0])
  }

  lemma QueuedTask(rdq: seq<seq<nat>>, primap: set<nat>, tcb: seq<Tcb>, t: nat)
    requires Queues(rdq, primap, tcb) && t in Flat(rdq)
    ensures t < |tcb| && tcb[t].priority < |rdq| && t in rdq[tcb[t].priority]
  {
    InItsQueue(rdq, Prios(tcb), t);
  }

  lemma HeadInRange(rdq: seq<seq<nat>>, primap: set<nat>, tcb: seq<Tcb>)
    requires Queues(rdq, primap, tcb)
    ensures Head(Flat(rdq)).Some? ==> Head(Flat(rdq)).value < |tcb|
  {
    if Flat(rdq) != [] {
      QueuedTask(rdq, primap, tcb, Flat(rdq)[0]);
    }
  }

  lemma JoinQueues(rdq: seq<seq<nat>>, primap: set<nat>, tcb: seq<Tcb>, t: nat, front: bool)
    requires Queues(rdq, primap, tcb) && t < |tcb| && tcb[t].priority < TNUM_TPRI
    ensures var pri := tcb[t].priority;
            var rdq' := rdq[pri := if front then [t] + rdq[pri] else rdq[pri] + [t]];
            Queues(rdq', primap + {pri}, tcb) && Flat(rdq') == Insert(Flat(rdq), Prios(tcb), t, front)
  {
    var pri := tcb[t].priority;
    var q := if front then [t] + rdq[pri] else rdq[pri] + [t];
    ChangeBuckets(rdq, Prios(tcb), pri, q, |tcb|);
    ChangeMap(primap, rdq, pri, q);
    if front {
      PrependIsInsert(rdq, Prios(tcb), 0, pri, t);
    } else {
      AppendIsInsert(rdq, Prios(tcb), 0, pri, t);
    }
  }

  lemma LeaveQueues(rdq: seq<seq<nat>>, primap: set<nat>, tcb: seq<Tcb>, t: nat)
    requires Queues(rdq, primap, tcb) && t in Flat(rdq)
    ensures t < |tcb| && tcb[t].priority < |rdq|
    ensures var pri := tcb[t].priority;
            var q := Without(rdq[pri], t);
            Queues(rdq[pri := q], if q == [] then primap - {pri} else primap, tcb) &&
            Flat(rdq[pri := q]) == Without(Flat(rdq), t)
  {
    QueuedTask(rdq, primap, tcb, t);
    var pri := tcb[t].priority;
    var q := Without(rdq[pri], t);
    var k := WithoutSplits(rdq[pri], t);
    forall x: nat | x in q
      ensures x in rdq[pri]
    {
    }
    ChangeBuckets(rdq, Prios(tcb), pri, q, |tcb|);
    ChangeMap(primap, rdq, pri, q);
    if q != [] {
      assert primap + {pri} == primap;
    }
    DeleteIsWithout(rdq, Prios(tcb), 0, pri, t);
  }

  /** Without its first task, the list starts with the next of the same queue, if any. */
  lemma NextInQueue(rdq: seq<seq<nat>>, primap: set<nat>, tcb: seq<Tcb>, t: nat)
    requires Queues(rdq, primap, tcb) && Head(Flat(rdq)) == Some(t)
    ensures t < |tcb| && tcb[t].priority < |rdq|
    ensures var pri := tcb[t].priority;
            var q := Without(rdq[pri], t);
            q != [] ==> Head(Flat(rdq[pri := q])) == Some(q[0])
  {
    QueuedTask(rdq, primap, tcb, t);
    var pri := tcb[t].priority;
    var q := Without(rdq[pri], t);
    NoneBeforeFirst(rdq, Prios(tcb), pri);
    if q != [] {
      FirstOfFlat(rdq[pri := q], pri);
    }
  }

  /** A task in no queue may change its priority. */
  lemma ReprioritizedQueues(rdq: seq<seq<nat>>, primap: set<nat>, tcb: seq<Tcb>, t: nat, v: Tcb)
    requires Queues(rdq, primap, tcb) && t < |tcb| && t !in Flat(rdq)
    ensures Queues(rdq, primap, tcb[t := v])
  {
    forall i: nat, x: nat | i < |rdq| && x in rdq[i]
      ensures x != t
    {
      FlatContents(rdq, x);
    }
    AgreeBuckets(rdq, Prios(tcb), Prios(tcb[t := v]));
  }

  /** Who comes first after task `t` has moved to its new place; `v` is the task before. */
  lemma HeadAfterMove(q: seq<nat>, tcb: seq<Tcb>, v: Tcb, t: nat, front: bool)
    requires t < |tcb| && t in q && NoDuplicates(q) && Sorted(q, Prios(tcb[t := v]))
    ensures q != [] && Insert(Without(q, t), Prios(tcb), t, front) != []
    ensures var head := Head(Insert(Without(q, t), Prios(tcb), t, front));
            if q[0] == t then tcb[t].priority < v.priority ==> head == Some(t)
            else head == if Precedes(Prios(tcb), t, q[0], front) then Some(t) else Some(q[0])
  {
    if q[0] == t {
      TailContents(q);
      if q[1..] != [] && tcb[t].priority < v.priority {
        assert Of(Prios(tcb[t := v]), q[0]) <= Of(Prios(tcb[t := v]), q[1]);
        assert q[1] != t;
      }
    }
  }

  /** A task may change in any way but its priority. */
  lemma SamePriority(rdq: seq<seq<nat>>, primap: set<nat>, tcb: seq<Tcb>, t: nat, v: Tcb)
    requires Queues(rdq, primap, tcb) && t < |tcb| && v.priority == tcb[t].priority
    ensures Queues(rdq, primap, tcb[t := v]) && Prios(tcb[t := v]) == Prios(tcb)
  {
    assert Prios(tcb[t := v]) == Prios(tcb);
  }

  lemma {:induction false} FirstOfBehind(a: seq<nat>, b: seq<nat>, p: seq<nat>, pri: nat)
    requires (forall x :: x in a ==> Of(p, x) != pri) && exists x :: x in b && Of(p, x) == pri
    ensures exists x :: x in a + b && Of(p, x) == pri
    ensures FirstOf(a + b, p, pri) == FirstOf(b, p, pri)
  {
    var x :| x in b && Of(p, x) == pri;
    assert x in a + b;
    if a == [] {
      assert a + b == b;
    } else {
      assert a[0] in a;
      assert (a + b)[1..] == a[1..] + b;
      FirstOfBehind(a[1..], b, p, pri);
    }
  }

  /** The first task of a priority is the head of its queue. */
  lemma {:induction false} FirstOfQueue(r: seq<seq<nat>>, p: seq<nat>, k: nat, i: nat)
    requires Buckets(r, p, k) && i < |r| && r[i] != []
    ensures exists x :: x in Flat(r) && Of(p, x) == k + i
    ensures FirstOf(Flat(r), p, k + i) == r[i][0]
    decreases i
  {
    var x := r[i][0];
    assert x in r[i] && Of(p, x) == k + i;
    FlatContents(r, x);
    assert x in Flat(r);
    if i == 0 {
      assert Flat(r)[0] == x;
    } else {
      TailBuckets(r, p, k);
      FirstOfQueue(r[1..], p, k + 1, i - 1);
      FirstOfBehind(r[0], Flat(r[1..]), p, k + i);
    }
  }

  lemma RotatedQueue(rdq: seq<seq<nat>>, primap: set<nat>, tcb: seq<Tcb>, pri: nat)
    requires Queues(rdq, primap, tcb) && pri < |rdq| && rdq[pri] != []
    ensures var t := rdq[pri][0];
            var rdq' := rdq[pri := rdq[pri][1..] + [t]];
            Queues(rdq', primap, tcb) && Flat(rdq') == Insert(Without(Flat(rdq), t), Prios(tcb), t, false)
  {
    var t := rdq[pri][0];
    assert t in rdq[pri];
    FlatContents(rdq, t);
    LeaveQueues(rdq, primap, tcb, t);
    var r1 := rdq[pri := rdq[pri][1..]];
    var m1 := if rdq[pri][1..] == [] then primap - {pri} else primap;
    assert Queues(r1, m1, tcb) && Of(Prios(tcb), t) == pri;
    JoinQueues(r1, m1, tcb, t, false);
    assert r1[pri := r1[pri] + [t]] == rdq[pri := rdq[pri][1..] + [t]];
    assert m1 + {pri} == primap;
  }

  /** The rotation changes who comes first only if the first task itself goes behind others. */
  lemma RotatedHead(rdq: seq<seq<nat>>, primap: set<nat>, tcb: seq<Tcb>, pri: nat)
    requires Queues(rdq, primap, tcb) && pri < |rdq| && rdq[pri] != [] && Sorted(Flat(rdq), Prios(tcb))
    ensures var t := rdq[pri][0];
            var rdq' := rdq[pri := rdq[pri][1..] + [t]];
            Head(Flat(rdq')) == if Head(Flat(rdq)) == Some(t) then Some(rdq'[pri][0]) else Head(Flat(rdq))
  {
    var t := rdq[pri][0];
    assert t in rdq[pri];
    FlatContents(rdq, t);
    RotatedQueue(rdq, primap, tcb, pri);
    if Flat(rdq)[0] == t {
      NoneBeforeFirst(rdq, Prios(tcb), pri);
      FirstOfFlat(rdq[pri := rdq[pri][1..] + [t]], pri);
    } else {
      var k := WithoutSplits(Flat(rdq), t);
      assert Of(Prios(tcb), Flat(rdq)[0]) <= Of(Prios(tcb), Flat(rdq)[k]);
    }
  }

  lemma RotateIsQueueRotation(rdq: seq<seq<nat>>, primap: set<nat>, tcb: seq<Tcb>, pri: nat, s: State)
    requires Queues(rdq, primap, tcb) && pri < |rdq| && s.ready == Flat(rdq) && s.tcb == tcb
    ensures Rotate(s, pri) ==
            if rdq[pri] == [] then s else s.(ready := Flat(rdq[pri := rdq[pri][1..] + [rdq[pri][0]]]))
  {
    if rdq[pri] != [] {
      FirstOfQueue(rdq, Prios(tcb), 0, pri);
      RotatedQueue(rdq, primap, tcb, pri);
    } else if t :| t in s.ready && Of(Prios(tcb), t) == pri {
      InItsQueue(rdq, Prios(tcb), t);
    }
  }

  // ---------- Where a task is linked ----------

  /** What change_priority relies on: the task is linked where its state says. */
  ghost predicate Linked(s: State, t: nat) {
    && Is(s, t) && (t in s.ready <==> Runs(s.tcb[t]))
    && NoDuplicates(s.ready) && Sorted(s.ready, Prios(s.tcb))
    && (s.tcb[t].tstat.Alive? && s.tcb[t].tstat.wait.OnObject? ==>
          s.tcb[t].tstat.wait.obj < |s.waitq| && t in s.waitq[s.tcb[t].tstat.wait.obj] &&
          forall x: nat :: x in s.waitq[s.tcb[t].tstat.wait.obj] ==> x < |s.tcb|)
  }

  lemma TasksAreLinked(c: Config, s: State, t: nat, late: Option<nat>, free: Option<nat>)
    requires Core(c, s, {}, late, free) && Is(s, t)
    ensures Linked(s, t)
  {
    assert TcbShape(c, s.tcb[t]);
    if s.tcb[t].tstat.Alive? && s.tcb[t].tstat.wait.OnObject? {
      var o := s.tcb[t].tstat.wait.obj;
      assert QueueOk(c.obj[o].tpri, s.tcb, s.waitq[o], o, {});
    }
  }

  lemma StillLinked(s: State, t: nat, v: Tcb)
    requires Linked(s, t) && v.tstat == s.tcb[t].tstat && v.priority == s.tcb[t].priority
    ensures Linked(SetTcb(s, t, v), t)
  {
    assert Prios(SetTcb(s, t, v).tcb) == Prios(s.tcb);
  }

  ghost predicate QueueOfTasks(s: State, o: nat) {
    o < |s.waitq| && forall x: nat :: x in s.waitq[o] ==> x < |s.tcb|
  }

  lemma QueuesHoldTasks(c: Config, s: State, o: nat, off: set<nat>, late: Option<nat>, free: Option<nat>)
    requires Core(c, s, off, late, free) && o < |c.obj|
    ensures QueueOfTasks(s, o)
  {
    assert QueueOk(c.obj[o].tpri, s.tcb, s.waitq[o], o, off);
  }

  // ---------- Waiting tasks ----------

  /** What the routines that end a wait rely on: in particular WINFO still holds the time event
      block, and its registration is as WINFO says. */
  ghost predicate Blocked(s: State, t: nat) {
    && Waiting(s, t) && s.tcb[t].priority < TNUM_TPRI && t !in s.ready
    && s.tcb[t].winfo.TimeBlock? && (s.tcb[t].winfo.registered <==> t in s.timers)
    && (s.tcb[t].tstat.wait.OnObject? ==>
          s.tcb[t].tstat.wait.obj < |s.waitq| && t in s.waitq[s.tcb[t].tstat.wait.obj])
  }

  lemma WaitingIsBlocked(c: Config, s: State, t: nat, off: set<nat>, free: Option<nat>)
    requires Core(c, s, off, None, free) && Waiting(s, t) && t !in off
    ensures Blocked(s, t)
  {
    assert TaskOk(c, t, s.tcb[t], s.held[t]) && TcbShape(c, s.tcb[t]);
    if s.tcb[t].tstat.wait.OnObject? {
      var o := s.tcb[t].tstat.wait.obj;
      assert QueueOk(c.obj[o].tpri, s.tcb, s.waitq[o], o, off);
    }
  }

  lemma HeadIsBlocked(c: Config, s: State, o: nat, off: set<nat>, free: Option<nat>)
    requires Core(c, s, off, None, free) && o < |c.obj| && s.waitq[o] != []
    ensures Blocked(s, s.waitq[o][0]) && WaitsFor(s.tcb[s.waitq[o][0]], o) && s.waitq[o][0] !in off
  {
    assert QueueOk(c.obj[o].tpri, s.tcb, s.waitq[o], o, off);
    assert s.waitq[o][0] in s.waitq[o];
    WaitingIsBlocked(c, s, s.waitq[o][0], off, free);
  }

  lemma ShapeOfTask(c: Config, s: State, t: nat)
    requires Inv(c, s) && Is(s, t)
    ensures TcbShape(c, s.tcb[t]) && Sized(c, s)
  {
  }

  lemma BlockedIfWaiting(c: Config, s: State, t: nat)
    requires Inv(c, s) && Is(s, t)
    ensures s.tcb[t].priority < TNUM_TPRI && (Waits(s.tcb[t]) ==> Blocked(s, t))
  {
    ShapeOfTask(c, s, t);
    if Waits(s.tcb[t]) {
      WaitingIsBlocked(c, s, t, {}, None);
    }
  }

  lemma RunningIsQueued(c: Config, s: State)
    requires Inv(c, s) && s.runtsk.Some?
    ensures s.runtsk.value in s.ready
  {
  }

  lemma CoreOf(c: Config, s: State, s': State)
    requires Inv(c, s) && s' == s.(enadsp := s'.enadsp, ipmOpen := s'.ipmOpen)
    ensures Core(c, s', {}, None, None)
  {
  }

  lemma MutexesOfTask(c: Config, s: State, t: nat)
    requires Inv(c, s) && Is(s, t)
    ensures Sized(c, s) && HoldsMutexes(c, s.held[t], s.tcb[t])
  {
    assert TcbShape(c, s.tcb[t]);
    forall m: nat | m in s.held[t]
      ensures m < |c.obj| && c.obj[m].mutex
    {
      HeldIsMutex(c, s.held, t, m);
    }
  }

  lemma PriorityOfTask(c: Config, s: State, t: nat)
    requires Inv(c, s) && Is(s, t)
    ensures Sized(c, s) && HasItsPriority(c, s, t) && s.tcb[t].priority < TNUM_TPRI && s.tcb[t].bpriority < TNUM_TPRI
    ensures NoDuplicates(s.held[t])
  {
    assert TaskOk(c, t, s.tcb[t], s.held[t]) && TcbShape(c, s.tcb[t]);
  }

  ghost predicate Unlockable(c: Config, s: State, t: nat, m: nat) {
    && m < |c.obj| && HasItsPriority(c, s, t) && s.tcb[t].bpriority < TNUM_TPRI && Sized(c, s)
    && NoDuplicates(s.held[t]) && s.held[t] != [] && s.held[t][0] == m && s.held[t][1..] == Without(s.held[t], m)
    && Linked(SetHeld(s, t, s.held[t][1..]), t)
  }

  lemma UnlockSteps(c: Config, s: State, t: nat, m: nat)
    requires Inv(c, s) && Is(s, t) && s.held[t] != [] && s.held[t][0] == m
    ensures Unlockable(c, s, t, m)
    ensures Core(c, Reprioritize(c, SetHeld(s, t, s.held[t][1..]), t), {}, None, Some(m))
  {
    assert TaskOk(c, t, s.tcb[t], s.held[t]) && TcbShape(c, s.tcb[t]);
    HeldIsMutex(c, s.held, t, m);
    PopCore(c, s, t, {});
    TailContents(s.held[t]);
    ReprioritizeCore(c, SetHeld(s, t, s.held[t][1..]), t, Some(m));
    TasksAreLinked(c, SetHeld(s, t, s.held[t][1..]), t, Some(t), Some(m));
  }

  ghost function Stripped(c: Config, s: State, m: nat): State
    requires Sized(c, s)
  {
    if Owned(s.held, m) then
      var t := Holder(s.held, m);
      Reprioritize(c, SetHeld(s, t, Without(s.held[t], m)), t)
    else s
  }

  ghost predicate Strippable(c: Config, s: State, t: nat, m: nat) {
    && m < |c.obj| && HasItsPriority(c, s, t) && s.tcb[t].bpriority < TNUM_TPRI && Sized(c, s)
    && HeldOk(c, s.held) && m in s.held[t] && !Owned(s.held[t := Without(s.held[t], m)], m)
    && Linked(SetHeld(s, t, Without(s.held[t], m)), t)
  }

  lemma StrippableIfOwned(c: Config, s: State, m: nat)
    requires Core(c, s, {}, None, None) && m < |c.obj|
    ensures Sized(c, s) && (Owned(s.held, m) ==> Strippable(c, s, Holder(s.held, m), m))
  {
    if Owned(s.held, m) {
      var t := Holder(s.held, m);
      assert TaskOk(c, t, s.tcb[t], s.held[t]) && TcbShape(c, s.tcb[t]) && NoDuplicates(s.held[t]);
      WithoutContents(s.held[t], m);
      HeldAfterPop(c, s.held, t, Without(s.held[t], m));
      TasksAreLinked(c, s, t, None, None);
    }
  }

  lemma LimitedIsBlocked(c: Config, s: State, t: nat)
    requires Inv(c, s)
    ensures t in s.timers ==> Blocked(s, t)
  {
    if t in s.timers {
      assert Limits(s.tcb[t]);
      BlockedIfWaiting(c, s, t);
    }
  }

  lemma ReinitializeSteps(c: Config, s: State, m: nat)
    requires Core(c, s, {}, None, None) && m < |c.obj|
    ensures var s1 := FlushQueue(s, m);
            Sized(c, s) && Sized(c, s1) && Reinitialize(c, s, m) == Stripped(c, s1, m) &&
            (Owned(s1.held, m) ==> Strippable(c, s1, Holder(s1.held, m), m))
  {
    FlushCore(c, s, m);
    StrippableIfOwned(c, FlushQueue(s, m), m);
  }

  lemma HeadIsBlockedIfAny(c: Config, s: State, o: nat)
    requires Inv(c, s) && o < |c.obj|
    ensures |s.waitq| == |c.obj| && (s.waitq[o] != [] ==> Blocked(s, s.waitq[o][0]))
  {
    if s.waitq[o] != [] {
      HeadIsBlocked(c, s, o, {}, None);
    }
  }

  lemma ExecIniMtx(c: Config, s: State, m: nat)
    requires Inv(c, s) && Permitted(s, IniMtx(m)) && ValidCall(c, IniMtx(m))
    ensures Sized(c, s) && m < |c.obj|
    ensures Exec(c, s, IniMtx(m)) == (KernelModel.Dispatch(Reinitialize(c, s, m)), E_OK)
  {
  }

  lemma ExecEnaDsp(c: Config, s: State)
    requires Inv(c, s) && Permitted(s, EnaDsp)
    ensures Sized(c, s) && s.runtsk.Some? && Is(s, s.runtsk.value)
    ensures Exec(c, s, EnaDsp) ==
            if s.ipmOpen then ReopenDispatch(c, s.(enadsp := true), s.runtsk.value) else (s.(enadsp := true), E_OK)
  {
  }

  lemma ExecChgIpm(c: Config, s: State, open: bool)
    requires Inv(c, s) && Permitted(s, ChgIpm(open))
    ensures Sized(c, s) && s.runtsk.Some? && Is(s, s.runtsk.value)
    ensures Exec(c, s, ChgIpm(open)) ==
            if open && s.enadsp then ReopenDispatch(c, s.(ipmOpen := open), s.runtsk.value)
            else (s.(ipmOpen := open), E_OK)
  {
    assert Exec(c, s, ChgIpm(open)) == ReopenDispatch(c, s.(ipmOpen := open), s.runtsk.value);
  }

  lemma ExecLocMtx(c: Config, s: State, m: nat, tmo: Tmo)
    requires Inv(c, s) && Permitted(s, LocMtx(m, tmo)) && ValidCall(c, LocMtx(m, tmo))
    ensures Sized(c, s) && s.runtsk.Some? && Is(s, s.runtsk.value) && m < |c.obj|
    ensures Exec(c, s, LocMtx(m, tmo)) ==
            if s.tcb[s.runtsk.value].raster then (s, E_RASTER) else KernelModel.Lock(c, s, s.runtsk.value, m, tmo)
  {
  }

  lemma ExecDisDsp(c: Config, s: State)
    requires Inv(c, s) && Permitted(s, DisDsp)
    ensures Sized(c, s)
    ensures Exec(c, s, DisDsp) == (s.(enadsp := false), E_OK) && (Dispatching(s) ==> s.runtsk == Scheduled(s))
  {
  }

  lemma ExecWaitObject(c: Config, s: State, o: nat, limited: bool)
    requires Inv(c, s) && Permitted(s, WaitObject(o, limited)) && ValidCall(c, WaitObject(o, limited))
    ensures Sized(c, s) && s.runtsk.Some? && Is(s, s.runtsk.value) && o < |c.obj|
    ensures Exec(c, s, WaitObject(o, limited)) ==
            if s.tcb[s.runtsk.value].raster then (s, E_RASTER)
            else (KernelModel.Dispatch(KernelModel.EnterWait(c, s, s.runtsk.value, OnObject(o), limited)), E_OK)
  {
  }

  lemma ExecExitHandler(c: Config, s: State)
    requires Inv(c, s) && s.inHandler
    ensures Sized(c, s)
    ensures Exec(c, s, ExitHandler) == (KernelModel.Dispatch(s.(inHandler := false)), E_OK)
  {
  }

  lemma ExecDlyTsk(c: Config, s: State)
    requires Inv(c, s) && Permitted(s, DlyTsk)
    ensures Sized(c, s) && s.runtsk.Some? && Is(s, s.runtsk.value)
    ensures Exec(c, s, DlyTsk) ==
            if s.tcb[s.runtsk.value].raster then (s, E_RASTER)
            else (KernelModel.Dispatch(KernelModel.EnterWait(c, s, s.runtsk.value, Delay, true)), E_OK)
  {
  }

  lemma ExecSlpTsk(c: Config, s: State, tmo: Tmo)
    requires Inv(c, s) && Permitted(s, SlpTsk(tmo))
    ensures Sized(c, s) && s.runtsk.Some? && Is(s, s.runtsk.value)
    ensures Exec(c, s, SlpTsk(tmo)) == KernelModel.SleepSelf(c, s, s.runtsk.value, tmo)
  {
  }

  lemma ExecRotRdq(c: Config, s: State, pri: nat)
    requires Inv(c, s) && Permitted(s, RotRdq(pri)) && ValidCall(c, RotRdq(pri))
    ensures Sized(c, s)
    ensures Exec(c, s, RotRdq(pri)) == (KernelModel.Dispatch(Rotate(s, pri)), E_OK)
    ensures Sorted(s.ready, Prios(s.tcb))
  {
  }

  lemma ExecIniObject(c: Config, s: State, o: nat)
    requires Inv(c, s) && Permitted(s, IniObject(o)) && ValidCall(c, IniObject(o))
    ensures Sized(c, s) && o < |c.obj|
    ensures Exec(c, s, IniObject(o)) == (KernelModel.Dispatch(FlushQueue(s, o)), E_OK)
  {
  }

  // ---------- The initial state ----------

  lemma EmptyQueues(rdq: seq<seq<nat>>, tcb: seq<Tcb>)
    requires |rdq| == TNUM_TPRI && forall i: nat :: i < |rdq| ==> rdq[i] == []
    ensures Queues(rdq, {}, tcb) && Flat(rdq) == []
  {
    EmptyFlat(rdq);
  }

  lemma EmptyChains(prev: seq<Option<nat>>, last: seq<Option<nat>>, loctsk: seq<Option<nat>>, held: seq<seq<nat>>)
    requires |last| == |held| && forall t: nat :: t < |held| ==> held[t] == [] && last[t] == None
    requires forall m: nat :: m < |loctsk| ==> loctsk[m] == None
    ensures Chains(prev, last, held) && Owners(loctsk, held, None)
  {
  }

  ghost predicate CanWait(c: Config, s: State, t: nat, wait: Wait) {
    && |s.waitq| == |c.obj| && Is(s, t) && t in s.ready
    && (wait.OnObject? ==> QueueOfTasks(s, wait.obj))
  }

  lemma RunningCanWait(c: Config, s: State, t: nat, wait: Wait)
    requires Inv(c, s) && s.runtsk == Some(t) && (wait.OnObject? ==> wait.obj < |c.obj|)
    ensures CanWait(c, s, t, wait)
  {
    RunningIsQueued(c, s);
    if wait.OnObject? {
      QueuesHoldTasks(c, s, wait.obj, {}, None, None);
    }
  }

  lemma LastLocked(prev: seq<Option<nat>>, last: seq<Option<nat>>, held: seq<seq<nat>>, t: nat, m: nat)
    requires Chains(prev, last, held) && t < |held|
    ensures last[t] == Some(m) <==> held[t] != [] && held[t][0] == m
  {
    assert Chain(prev, last[t], held[t]);
  }

  // ---------- Termination ----------

  lemma TerminationSteps(c: Config, s: State, t: nat)
    requires Core(c, s, {}, None, None) && Is(s, t)
    ensures GoodConfig(c) && t < |c.ipriority|
    ensures (Runs(s.tcb[t]) ==> t in s.ready) && (Waits(s.tcb[t]) ==> Blocked(s, t))
    ensures var s1 := KernelModel.Detach(s, t);
            Core(c, s1, {t}, None, None) && s1.held == s.held && s1.tcb == s.tcb &&
            var s2 := ReleaseLast(c, s1, t, |s.held[t]|);
            t !in s2.ready && t !in s1.ready && (s.held[t] == [] ==> s2 == s1)
  {
    assert {} + {t} == {t};
    if Waits(s.tcb[t]) {
      WaitingIsBlocked(c, s, t, {}, None);
    }
    DetachCore(c, s, t, {}, None, None);
    DetachUndisturbed(s, t);
    ReleaseLastCore(c, KernelModel.Detach(s, t), t, |s.held[t]|);
  }

  class Kernel {
    const c: Config
    var tcb: seq<Tcb>
    var lastmtx: seq<Option<nat>>
    var waitq: seq<seq<nat>>
    var loctsk: seq<Option<nat>>
    var prevmtx: seq<Option<nat>>
    var rdq: seq<seq<nat>>
    var primap: set<nat>
    var runtsk: Option<nat>
    var schedtsk: Option<nat>
    var enadsp: bool
    var ipmOpen: bool
    var dspflg: bool
    var inHandler: bool
    var tmevt: set<nat>
    ghost var held: seq<seq<nat>>

    ghost function Abs(): State
      reads this
    {
      State(tcb, held, Flat(rdq), waitq, tmevt, runtsk, enadsp, ipmOpen, inHandler)
    }

    /** The ready queue and its caches agree. */
    ghost predicate SchedOk()
      reads `rdq, `primap, `tcb, `runtsk, `schedtsk, `enadsp, `ipmOpen, `dspflg
    {
      && Queues(rdq, primap, tcb)
      && dspflg == (enadsp && ipmOpen)
      && schedtsk == if dspflg then Head(Flat(rdq)) else runtsk
    }

    /** The chains of mutexes are the model's lists; `free` is a mutex just unlinked. */
    ghost predicate MutexOk(free: Option<nat>)
      reads `loctsk, `prevmtx, `lastmtx, `held
    {
      && |loctsk| == |prevmtx| == |c.obj|
      && Chains(prevmtx, lastmtx, held) && Owners(loctsk, held, free)
    }

    ghost predicate Intact()
      reads `rdq, `primap, `tcb, `runtsk, `schedtsk, `enadsp, `ipmOpen, `dspflg, `loctsk, `prevmtx, `lastmtx, `held
    {
      SchedOk() && MutexOk(None)
    }

    // ---------- Scheduling ----------

    // search_schedtsk
    method SearchSchedtsk() returns (t: nat)
      requires MapsQueues(primap, rdq) && Flat(rdq) != []
      ensures Head(Flat(rdq)) == Some(t)
    {
      SearchFindsFirst(primap, rdq);
      var schedpri := Lowest(primap, 0, |rdq|);
      t := rdq[schedpri][0];
    }

    // make_runnable
    method MakeRunnable(t: nat)
      requires SchedOk() && t < |tcb| && tcb[t].priority < TNUM_TPRI
      modifies `rdq, `primap, `schedtsk
      ensures SchedOk() && Flat(rdq) == Insert(old(Flat(rdq)), Prios(tcb), t, false)
    {
      var pri := tcb[t].priority;
      JoinQueues(rdq, primap, tcb, t, false);
      HeadInRange(rdq, primap, tcb);
      rdq := rdq[pri := rdq[pri] + [t]];
      primap := primap + {pri};
      if dspflg {
        if schedtsk == None || pri < tcb[schedtsk.value].priority {
          schedtsk := Some(t);
        }
      }
    }

    // make_non_runnable
    method MakeNonRunnable(t: nat)
      requires SchedOk() && t in Flat(rdq)
      requires schedtsk == Some(t) ==> dspflg  // the assertion of the source
      modifies `rdq, `primap, `schedtsk
      ensures SchedOk() && Flat(rdq) == Without(old(Flat(rdq)), t)
    {
      LeaveQueues(rdq, primap, tcb, t);
      var pri := tcb[t].priority;
      if schedtsk == Some(t) {
        NextInQueue(rdq, primap, tcb, t);
      }
      rdq := rdq[pri := Without(rdq[pri], t)];
      if rdq[pri] == [] {
        primap := primap - {pri};
        if schedtsk == Some(t) {
          SearchFindsFirst(primap, rdq);
          if primap == {} {
            schedtsk := None;
          } else {
            var s := SearchSchedtsk();
            schedtsk := Some(s);
          }
        }
      } else if schedtsk == Some(t) {
        schedtsk := Some(rdq[pri][0]);
      }
    }

    // The part of change_priority for a runnable task (task.c:337-364); `v` is the task before.
    method Relink(t: nat, oldpri: nat, mtxmode: bool, ghost v: Tcb)
      requires t < |tcb| && tcb[t].priority < TNUM_TPRI
      requires Queues(rdq, primap, tcb[t := v]) && v.priority == oldpri
      requires t in Flat(rdq) && NoDuplicates(Flat(rdq))
      modifies `rdq, `primap
      ensures Queues(rdq, primap, tcb)
      ensures Flat(rdq) == Insert(Without(old(Flat(rdq)), t), Prios(tcb), t, mtxmode)
    {
      var newpri := tcb[t].priority;
      LeaveQueues(rdq, primap, tcb[t := v], t);
      WithoutContents(Flat(rdq), t);
      rdq := rdq[oldpri := Without(rdq[oldpri], t)];
      if rdq[oldpri] == [] {
        primap := primap - {oldpri};
      }
      ReprioritizedQueues(rdq, primap, tcb[t := v], t, tcb[t]);
      assert tcb[t := v][t := tcb[t]] == tcb;
      JoinQueues(rdq, primap, tcb, t, mtxmode);
      rdq := rdq[newpri := if mtxmode then [t] + rdq[newpri] else rdq[newpri] + [t]];
      primap := primap + {newpri};
    }

    method MoveInReadyQueue(t: nat, oldpri: nat, mtxmode: bool, ghost v: Tcb)
      requires t < |tcb| && tcb[t].priority < TNUM_TPRI
      requires Queues(rdq, primap, tcb[t := v]) && v.priority == oldpri
      requires dspflg == (enadsp && ipmOpen) && schedtsk == if dspflg then Head(Flat(rdq)) else runtsk
      requires t in Flat(rdq) && NoDuplicates(Flat(rdq)) && Sorted(Flat(rdq), Prios(tcb[t := v]))
      modifies `rdq, `primap, `schedtsk
      ensures SchedOk() && Flat(rdq) == Insert(Without(old(Flat(rdq)), t), Prios(tcb), t, mtxmode)
    {
      HeadInRange(rdq, primap, tcb[t := v]);
      HeadAfterMove(Flat(rdq), tcb, v, t, mtxmode);
      Relink(t, oldpri, mtxmode, v);
      var newpri := tcb[t].priority;
      if dspflg {
        if schedtsk == Some(t) {
          if newpri >= oldpri {
            var s := SearchSchedtsk();
            schedtsk := Some(s);
          }
        } else {
          if (if mtxmode then newpri <= tcb[schedtsk.value].priority
              else newpri < tcb[schedtsk.value].priority) {
            schedtsk := Some(t);
          }
        }
      }
    }

    // change_priority
    method ChangePriority(t: nat, newpri: nat, mtxmode: bool)
      requires SchedOk() && t < |tcb| && newpri < TNUM_TPRI
      requires |waitq| == |c.obj| && Linked(Abs(), t)
      modifies `tcb, `rdq, `primap, `schedtsk, `waitq
      ensures SchedOk() && Abs() == KernelModel.ChangePriority(c, old(Abs()), t, newpri, mtxmode)
    {
      ghost var v := tcb[t];
      var oldpri := tcb[t].priority;
      tcb := tcb[t := tcb[t].(priority := newpri)];
      assert tcb[t := v] == old(tcb) && Prios(old(tcb)) == Prios(old(Abs()).tcb);
      if tcb[t].tstat == Alive(NoWait, false) {
        MoveInReadyQueue(t, oldpri, mtxmode, v);
      } else {
        ReprioritizedQueues(rdq, primap, old(tcb), t, tcb[t]);
        if tcb[t].tstat.Alive? && tcb[t].tstat.wait.OnObject? {
          var o := tcb[t].tstat.wait.obj;
          WobjChangePriority(o, t);
        }
      }
    }

    // wobj_change_priority
    method WobjChangePriority(o: nat, t: nat)
      requires t < |tcb| && o < |c.obj| == |waitq| && t in waitq[o]
      requires forall x: nat :: x in waitq[o] ==> x < |tcb|
      modifies `waitq
      ensures waitq == if c.obj[o].tpri
                       then old(waitq)[o := Insert(Without(old(waitq[o]), t), Prios(tcb), t, false)]
                       else old(waitq)
    {
      if c.obj[o].tpri {
        var k := WithoutSplits(waitq[o], t);
        assert forall x: nat :: x in Without(waitq[o], t) ==> x in waitq[o];
        waitq := waitq[o := Without(waitq[o], t)];
        QueueInsertTpri(o, t);
      }
    }

    // queue_insert_tpri
    method QueueInsertTpri(o: nat, t: nat)
      requires t < |tcb| && o < |waitq| && forall x: nat :: x in waitq[o] ==> x < |tcb|
      modifies `waitq
      ensures waitq == old(waitq)[o := Insert(old(waitq[o]), Prios(tcb), t, false)]
    {
      var q := waitq[o];
      assert forall i :: 0 <= i < |q| ==> q[i] in q;
      var i := 0;
      while i < |q| && tcb[t].priority >= tcb[q[i]].priority
        invariant i <= |q|
        invariant forall j :: 0 <= j < i ==> !Precedes(Prios(tcb), t, q[j], false)
      {
        i := i + 1;
      }
      InsertAt(q, Prios(tcb), t, false, i);
      waitq := waitq[o := q[..i] + [t] + q[i..]];
    }

    // rotate_ready_queue
    method RotateReadyQueue(pri: nat)
      requires Intact() && pri < TNUM_TPRI && Sorted(Flat(rdq), Prios(tcb))
      modifies `rdq, `schedtsk
      ensures Intact() && Abs() == Rotate(old(Abs()), pri)
    {
      RotateIsQueueRotation(rdq, primap, tcb, pri, Abs());
      if |rdq[pri]| == 1 {
        assert rdq[pri][1..] + [rdq[pri][0]] == rdq[pri];
        assert rdq[pri := rdq[pri][1..] + [rdq[pri][0]]] == rdq;
      }
      if |rdq[pri]| >= 2 {
        RotatedQueue(rdq, primap, tcb, pri);
        RotatedHead(rdq, primap, tcb, pri);
        var t := rdq[pri][0];
        rdq := rdq[pri := rdq[pri][1..] + [t]];
        if dspflg {
          if schedtsk == Some(t) {
            schedtsk := Some(rdq[pri][0]);
          }
        }
      }
    }

    // ---------- Waiting ----------

    // make_non_wait
    method MakeNonWait(t: nat)
      requires SchedOk() && t < |tcb| && Waits(tcb[t]) && tcb[t].priority < TNUM_TPRI
      modifies `tcb, `rdq, `primap, `schedtsk
      ensures SchedOk() && Abs() == KernelModel.MakeNonWait(old(Abs()), t)
    {
      SamePriority(rdq, primap, tcb, t, tcb[t].(tstat := Alive(NoWait, tcb[t].tstat.suspended)));
      if !tcb[t].tstat.suspended {
        tcb := tcb[t := tcb[t].(tstat := Alive(NoWait, false))];
        MakeRunnable(t);
      } else {
        tcb := tcb[t := tcb[t].(tstat := Alive(NoWait, true))];
      }
    }

    // wait_dequeue_wobj
    method WaitDequeueWobj(t: nat)
      requires Blocked(Abs(), t)
      modifies `waitq
      ensures Abs() == LeaveQueue(old(Abs()), t)
    {
      if tcb[t].tstat.wait.OnObject? {
        var o := tcb[t].tstat.wait.obj;
        waitq := waitq[o := Without(waitq[o], t)];
      }
    }

    // wait_dequeue_tmevtb: WINFO is read as a time event block
    method WaitDequeueTmevtb(t: nat)
      requires t < |tcb| && tcb[t].winfo.TimeBlock? && (tcb[t].winfo.registered <==> t in tmevt)
      modifies `tmevt
      ensures Abs() == StopTimer(old(Abs()), t)
    {
      if tcb[t].winfo.registered {
        tmevt := tmevt - {t};
      }
    }

    // writing wercd
    method SetWercd(t: nat, ercd: Ercd)
      requires SchedOk() && t < |tcb|
      modifies `tcb
      ensures SchedOk() && Abs() == SetResult(old(Abs()), t, ercd)
    {
      SamePriority(rdq, primap, tcb, t, tcb[t].(winfo := Wercd(ercd)));
      tcb := tcb[t := tcb[t].(winfo := Wercd(ercd))];
    }

    // the common part of wait_complete, rel_wai, wait_tmout and init_wait_queue
    method EndTimedWait(t: nat, ercd: Ercd)
      requires SchedOk() && t < |tcb| && Waits(tcb[t]) && tcb[t].priority < TNUM_TPRI
      requires tcb[t].winfo.TimeBlock? && (tcb[t].winfo.registered <==> t in tmevt)
      modifies `tcb, `rdq, `primap, `schedtsk, `tmevt
      ensures SchedOk() &&
              Abs() == KernelModel.MakeNonWait(SetResult(StopTimer(old(Abs()), t), t, ercd), t)
    {
      WaitDequeueTmevtb(t);
      SetWercd(t, ercd);
      MakeNonWait(t);
    }

    // rel_wai, and ras_ter up to the result
    method EndWait(t: nat, ercd: Ercd)
      requires SchedOk() && Blocked(Abs(), t)
      modifies `tcb, `rdq, `primap, `schedtsk, `waitq, `tmevt
      ensures SchedOk() && Abs() == KernelModel.EndWait(old(Abs()), t, ercd)
    {
      WaitDequeueWobj(t);
      EndTimedWait(t, ercd);
    }

    // queue_delete_next and the end of that task's wait
    method WakeNext(o: nat, ercd: Ercd)
      requires SchedOk() && o < |waitq| && waitq[o] != [] && Blocked(Abs(), waitq[o][0])
      modifies `tcb, `rdq, `primap, `schedtsk, `waitq, `tmevt
      ensures SchedOk() && Abs() == WakeHead(old(Abs()), o, ercd)
    {
      var t := waitq[o][0];
      waitq := waitq[o := waitq[o][1..]];
      EndTimedWait(t, ercd);
    }

    // init_wait_queue
    method InitWaitQueue(o: nat)
      requires Intact() && o < |c.obj| && Core(c, Abs(), {}, None, None)
      modifies `tcb, `rdq, `primap, `schedtsk, `waitq, `tmevt
      ensures Intact() && Abs() == FlushQueue(old(Abs()), o)
    {
      while waitq[o] != []
        invariant Intact() && Core(c, Abs(), {}, None, None)
        invariant FlushQueue(Abs(), o) == FlushQueue(old(Abs()), o)
        decreases |waitq[o]|
      {
        HeadIsBlocked(c, Abs(), o, {}, None);
        WakeCore(c, Abs(), o, E_DLT);
        WakeNext(o, E_DLT);
      }
    }

    // make_wait and make_wait_tmout, with the new task state
    method MakeWait(t: nat, wait: Wait, limited: bool)
      requires SchedOk() && t < |tcb| && t in Flat(rdq) && dspflg
      modifies `tcb, `rdq, `primap, `schedtsk, `tmevt
      ensures SchedOk()
      ensures var s1 := SetTcb(KernelModel.MakeNonRunnable(old(Abs()), t), t,
                               old(tcb[t]).(tstat := Alive(wait, false), winfo := TimeBlock(limited)));
              Abs() == if limited then s1.(timers := s1.timers + {t}) else s1
    {
      LeaveReadyQueue(t, Alive(wait, false));
      Alter(t, tcb[t].(winfo := TimeBlock(limited)));
      if limited {
        tmevt := tmevt + {t};
      }
    }

    // the new state of a runnable task, and make_non_runnable
    method LeaveReadyQueue(t: nat, tstat: Tstat)
      requires SchedOk() && t < |tcb| && t in Flat(rdq) && (schedtsk == Some(t) ==> dspflg)
      modifies `tcb, `rdq, `primap, `schedtsk
      ensures SchedOk() && tcb == old(tcb)[t := old(tcb[t]).(tstat := tstat)]
      ensures Abs() == KernelModel.MakeNonRunnable(KernelModel.SetStat(old(Abs()), t, tstat), t)
    {
      SetStat(t, tstat);
      MakeNonRunnable(t);
    }

    // wobj_queue_insert
    method WobjQueueInsert(o: nat, t: nat)
      requires t < |tcb| && o < |c.obj| == |waitq| && forall x: nat :: x in waitq[o] ==> x < |tcb|
      modifies `waitq
      ensures Abs() == JoinQueue(c, old(Abs()), t, OnObject(o))
    {
      if c.obj[o].tpri {
        QueueInsertTpri(o, t);
      } else {
        waitq := waitq[o := waitq[o] + [t]];
      }
    }

    // make_wait, make_wait_tmout, wobj_make_wait and wobj_make_wait_tmout
    method EnterWait(t: nat, wait: Wait, limited: bool)
      requires SchedOk() && dspflg && |waitq| == |c.obj| && t < |tcb| && t in Flat(rdq)
      requires wait.OnObject? ==> QueueOfTasks(Abs(), wait.obj)
      modifies `tcb, `rdq, `primap, `schedtsk, `tmevt, `waitq
      ensures SchedOk() && Abs() == KernelModel.EnterWait(c, old(Abs()), t, wait, limited)
    {
      EnterWaitSteps(c, Abs(), t, wait, limited);
      MakeWait(t, wait, limited);
      if wait.OnObject? {
        WobjQueueInsert(wait.obj, t);
      }
    }

    // ---------- Mutexes ----------

    // mutex_check_ceilpri
    method MutexCheckCeilpri(t: nat, bpriority: nat) returns (ok: bool)
      requires MutexOk(None) && Sized(c, Abs()) && t < |tcb| && HoldsMutexes(c, held[t], tcb[t])
      ensures ok <==> !CeilingViolated(c, Abs(), t, bpriority)
    {
      var m: Option<nat> := lastmtx[t];
      ghost var k := 0;
      while m.Some?
        invariant k <= |held[t]| && Chain(prevmtx, m, held[t][k..])
        invariant forall i :: 0 <= i < k ==> !AboveCeiling(c, held[t][i], bpriority)
        decreases |held[t]| - k
      {
        if c.obj[m.value].ceiling.Some? && bpriority < c.obj[m.value].ceiling.value {
          assert m.value == held[t][k] && held[t][k] in held[t];
          return false;
        }
        m := prevmtx[m.value];
        k := k + 1;
      }
      assert forall x: nat :: x in held[t] ==> !AboveCeiling(c, x, bpriority);
      if tcb[t].tstat.Alive? && tcb[t].tstat.wait.OnObject? && c.obj[tcb[t].tstat.wait.obj].mutex {
        var o := tcb[t].tstat.wait.obj;
        if c.obj[o].ceiling.Some? && bpriority < c.obj[o].ceiling.value {
          assert WaitsFor(tcb[t], o);
          return false;
        }
      }
      return true;
    }

    // mutex_scan_ceilmtx
    method MutexScanCeilmtx(t: nat) returns (found: bool)
      requires MutexOk(None) && Sized(c, Abs()) && t < |tcb|
      ensures found <==> HoldsCeiling(c, Abs(), t)
    {
      var m: Option<nat> := lastmtx[t];
      ghost var k := 0;
      while m.Some?
        invariant k <= |held[t]| && Chain(prevmtx, m, held[t][k..])
        invariant forall i :: 0 <= i < k ==> !(held[t][i] < |c.obj| && c.obj[held[t][i]].ceiling.Some?)
        decreases |held[t]| - k
      {
        if c.obj[m.value].ceiling.Some? {
          assert m.value == held[t][k] && held[t][k] in held[t];
          return true;
        }
        m := prevmtx[m.value];
        k := k + 1;
      }
      return false;
    }

    // mutex_calc_priority
    method MutexCalcPriority(t: nat, ghost free: Option<nat>) returns (priority: nat)
      requires MutexOk(free) && Sized(c, Abs()) && t < |tcb|
      ensures priority == CeilingOf(c, held[t], tcb[t].bpriority)
    {
      priority := tcb[t].bpriority;
      var m: Option<nat> := lastmtx[t];
      ghost var k := 0;
      CeilingBounds(c, held[t], priority);
      assert held[t][0..] == held[t];
      while m.Some?
        invariant k <= |held[t]| && Chain(prevmtx, m, held[t][k..])
        invariant priority <= tcb[t].bpriority
        invariant CeilingOf(c, held[t], tcb[t].bpriority) == Min(priority, CeilingOf(c, held[t][k..], tcb[t].bpriority))
        decreases |held[t]| - k
      {
        CeilingOfRest(c, held[t], tcb[t].bpriority, k, priority);
        if c.obj[m.value].ceiling.Some? && c.obj[m.value].ceiling.value < priority {
          priority := c.obj[m.value].ceiling.value;
        }
        m := prevmtx[m.value];
        k := k + 1;
      }
    }

    // mutex_drop_priority, for mutex `m` that the task held; it computes the priority anew only
    // if it may have come from `m`
    method MutexDropPriority(t: nat, m: nat, ghost ms: seq<nat>)
      requires SchedOk() && MutexOk(Some(m)) && Sized(c, Abs()) && Linked(Abs(), t)
      requires m in ms && held[t] == Without(ms, m) && m < |c.obj|
      requires tcb[t].priority == CeilingOf(c, ms, tcb[t].bpriority) && tcb[t].bpriority < TNUM_TPRI
      modifies `tcb, `rdq, `primap, `schedtsk, `waitq
      ensures SchedOk() && Abs() == Reprioritize(c, old(Abs()), t)
    {
      GivingUp(c, ms, m, tcb[t].bpriority);
      CeilingBounds(c, held[t], tcb[t].bpriority);
      if c.obj[m].ceiling.Some? && c.obj[m].ceiling.value == tcb[t].priority {
        var newpri := MutexCalcPriority(t, Some(m));
        if newpri != tcb[t].priority {
          ChangePriority(t, newpri, true);
        }
      }
    }

    // mutex_acquire
    method MutexAcquire(t: nat, m: nat)
      requires SchedOk() && MutexOk(None) && Sized(c, Abs()) && Linked(Abs(), t)
      requires m < |c.obj| && !Owned(held, m)
      requires tcb[t].priority == CeilingOf(c, held[t], tcb[t].bpriority) && tcb[t].priority < TNUM_TPRI
      modifies `loctsk, `prevmtx, `lastmtx, `held, `tcb, `rdq, `primap, `schedtsk, `waitq
      ensures SchedOk() && MutexOk(None) && Abs() == Acquire(c, old(Abs()), t, m)
    {
      assert ([m] + held[t])[1..] == held[t];
      LinkMutex(t, m, None);
      RaisePriority(t, m);
    }

    // mutex.c:262-266
    method RaisePriority(t: nat, m: nat)
      requires SchedOk() && Sized(c, Abs()) && Linked(Abs(), t) && m < |c.obj|
      requires held[t] != [] && held[t][0] == m && tcb[t].priority < TNUM_TPRI
      requires tcb[t].priority == CeilingOf(c, held[t][1..], tcb[t].bpriority)
      modifies `tcb, `rdq, `primap, `schedtsk, `waitq
      ensures SchedOk() && Abs() == Reprioritize(c, old(Abs()), t)
    {
      if c.obj[m].ceiling.Some? && c.obj[m].ceiling.value < tcb[t].priority {
        ChangePriority(t, c.obj[m].ceiling.value, true);
      }
    }

    // mutex.c:259-261 and 297-299
    method LinkMutex(t: nat, m: nat, ghost free: Option<nat>)
      requires MutexOk(free) && (free == None || free == Some(m))
      requires m < |c.obj| && t < |held| && !Owned(held, m)
      modifies `loctsk, `prevmtx, `lastmtx, `held
      ensures MutexOk(None) && held == old(held)[t := [m] + old(held[t])]
    {
      ChainsPush(prevmtx, lastmtx, held, t, m);
      OwnersPush(loctsk, held, t, m, free);
      loctsk := loctsk[m := Some(t)];
      prevmtx := prevmtx[m := lastmtx[t]];
      lastmtx := lastmtx[t := Some(m)];
      held := held[t := [m] + held[t]];
    }

    // mutex_release
    method MutexRelease(m: nat, ghost off: set<nat>)
      requires SchedOk() && MutexOk(Some(m)) && Core(c, Abs(), off, None, Some(m)) && m < |c.obj|
      modifies `loctsk, `prevmtx, `lastmtx, `held, `tcb, `rdq, `primap, `schedtsk, `waitq, `tmevt
      ensures SchedOk() && MutexOk(None) && Abs() == Release(c, old(Abs()), m)
    {
      if waitq[m] == [] {
        OwnersFree(loctsk, held, m);
        loctsk := loctsk[m := None];
      } else {
        HeadIsBlocked(c, Abs(), m, off, Some(m));
        PriorityOfHead(c, Abs(), m, off, Some(m));
        HandOver(m);
      }
    }

    method HandOver(m: nat)
      requires SchedOk() && MutexOk(Some(m)) && Sized(c, Abs()) && m < |c.obj|
      requires waitq[m] != [] && Blocked(Abs(), waitq[m][0]) && !Owned(held, m)
      requires HasItsPriority(c, Abs(), waitq[m][0])
      modifies `loctsk, `prevmtx, `lastmtx, `held, `tcb, `rdq, `primap, `schedtsk, `waitq, `tmevt
      ensures SchedOk() && MutexOk(None)
      ensures Abs() == KernelModel.HandOver(c, old(Abs()), m, old(waitq[m][0]))
    {
      var t := DequeueHead(m);
      TakeOver(t, m);
      MakeNonWait(t);
    }

    // mutex.c:293-295
    method DequeueHead(m: nat) returns (t: nat)
      requires SchedOk() && m < |waitq| && waitq[m] != [] && Blocked(Abs(), waitq[m][0])
      modifies `tcb, `waitq, `tmevt
      ensures SchedOk() && t == old(waitq[m][0])
      ensures Abs() == SetResult(StopTimer(SetQueue(old(Abs()), m, old(waitq[m][1..])), t), t, E_OK)
      ensures tcb == old(tcb)[t := old(tcb[t]).(winfo := Wercd(E_OK))]
    {
      t := waitq[m][0];
      waitq := waitq[m := waitq[m][1..]];
      WaitDequeueTmevtb(t);
      SetWercd(t, E_OK);
    }

    // mutex.c:297-304
    method TakeOver(t: nat, m: nat)
      requires SchedOk() && MutexOk(Some(m)) && Sized(c, Abs()) && m < |c.obj| && !Owned(held, m)
      requires t !in Flat(rdq) && HasItsPriority(c, Abs(), t)
      modifies `loctsk, `prevmtx, `lastmtx, `held, `tcb
      ensures SchedOk() && MutexOk(None)
      ensures var s1 := SetHeld(old(Abs()), t, [m] + old(held[t]));
              Abs() == SetTcb(s1, t, s1.tcb[t].(priority := CeilingOf(c, s1.held[t], s1.tcb[t].bpriority)))
      ensures tcb[t].priority <= old(tcb[t].priority)
    {
      LinkMutex(t, m, Some(m));
      RaiseDequeued(t, m);
      assert ([m] + old(held[t]))[1..] == old(held[t]);
    }

    // mutex.c:300-304: the priority is written when the task is in no queue
    method RaiseDequeued(t: nat, m: nat)
      requires SchedOk() && t < |tcb| && t !in Flat(rdq) && m < |c.obj|
      modifies `tcb
      ensures SchedOk()
      ensures Abs() == SetTcb(old(Abs()), t, old(tcb[t]).(priority :=
                if Ceiling(c, m, old(tcb[t].priority)) then c.obj[m].ceiling.value else old(tcb[t].priority)))
    {
      if c.obj[m].ceiling.Some? {
        if c.obj[m].ceiling.value < tcb[t].priority {
          HeadInRange(rdq, primap, tcb);
          ReprioritizedQueues(rdq, primap, tcb, t, tcb[t].(priority := c.obj[m].ceiling.value));
          tcb := tcb[t := tcb[t].(priority := c.obj[m].ceiling.value)];
        }
      }
    }

    // the unlinking in unl_mtx and mutex_release_all
    method PopMutex(t: nat) returns (m: nat)
      requires SchedOk() && MutexOk(None) && t < |held| && held[t] != [] && NoDuplicates(held[t])
      modifies `lastmtx, `held
      ensures SchedOk() && m == old(held[t][0]) && MutexOk(Some(m))
      ensures Abs() == SetHeld(old(Abs()), t, old(held[t][1..]))
    {
      ChainsPop(prevmtx, lastmtx, held, t);
      m := lastmtx[t].value;
      TailContents(held[t]);
      OwnersPop(loctsk, held, t, m, held[t][1..]);
      lastmtx := lastmtx[t := prevmtx[m]];
      held := held[t := held[t][1..]];
    }

    // mutex_release_all, for a task that is in no queue
    method MutexReleaseAll(t: nat)
      requires SchedOk() && MutexOk(None) && Core(c, Abs(), {t}, None, None) && t < |tcb|
      modifies `loctsk, `prevmtx, `lastmtx, `held, `tcb, `rdq, `primap, `schedtsk, `waitq, `tmevt
      ensures SchedOk() && MutexOk(None) && Abs() == ReleaseLast(c, old(Abs()), t, |old(held[t])|)
    {
      while lastmtx[t] != None
        invariant SchedOk() && MutexOk(None) && Core(c, Abs(), {t}, None, None) && t < |tcb|
        invariant ReleaseLast(c, Abs(), t, |held[t]|) == ReleaseLast(c, old(Abs()), t, |old(held[t])|)
        decreases |held[t]|
      {
        ghost var s := Abs();
        ReleaseOneCore(c, s, t);
        var m := PopMutex(t);
        MutexRelease(m, {t});
      }
    }

    // make_dormant
    method MakeDormant(t: nat)
      requires SchedOk() && GoodConfig(c) && t < |tcb| && t < |c.ipriority| && t !in Flat(rdq)
      modifies `tcb
      ensures SchedOk() && Abs() == KernelModel.MakeDormant(c, old(Abs()), t)
    {
      var v := tcb[t].(tstat := Dormant, bpriority := c.ipriority[t], priority := c.ipriority[t],
                       wupque := false, raster := false, enater := true);
      ReprioritizedQueues(rdq, primap, tcb, t, v);
      tcb := tcb[t := v];
    }

    // make_active
    method MakeActive(t: nat)
      requires SchedOk() && t < |tcb| && tcb[t].priority < TNUM_TPRI
      modifies `tcb, `rdq, `primap, `schedtsk
      ensures SchedOk() && Abs() == KernelModel.MakeActive(old(Abs()), t)
    {
      SetStat(t, Alive(NoWait, false));
      MakeRunnable(t);
    }

    method SetStat(t: nat, tstat: Tstat)
      requires SchedOk() && t < |tcb|
      modifies `tcb
      ensures SchedOk() && Abs() == KernelModel.SetStat(old(Abs()), t, tstat)
      ensures tcb == old(tcb)[t := old(tcb[t]).(tstat := tstat)]
    {
      SamePriority(rdq, primap, tcb, t, tcb[t].(tstat := tstat));
      tcb := tcb[t := tcb[t].(tstat := tstat)];
    }

    // task_terminate, the part that takes the task out of its queues
    method Detach(t: nat)
      requires SchedOk() && t < |tcb| && (Runs(tcb[t]) ==> t in Flat(rdq))
      requires Waits(tcb[t]) ==> Blocked(Abs(), t)
      requires schedtsk == Some(t) && Runs(tcb[t]) ==> dspflg
      modifies `rdq, `primap, `schedtsk, `waitq, `tmevt
      ensures SchedOk() && Abs() == KernelModel.Detach(old(Abs()), t)
    {
      if tcb[t].tstat == Alive(NoWait, false) {
        MakeNonRunnable(t);
      } else if tcb[t].tstat.Alive? && tcb[t].tstat.wait != NoWait {
        WaitDequeueWobj(t);
        WaitDequeueTmevtb(t);
      }
    }

    // make_dormant and what follows it in task_terminate
    method Restart(t: nat)
      requires Intact() && GoodConfig(c) && t < |tcb| && t < |c.ipriority| && t !in Flat(rdq)
      modifies `tcb, `rdq, `primap, `schedtsk
      ensures Intact() && Abs() == KernelModel.Restart(c, old(Abs()), t)
    {
      MakeDormant(t);
      if tcb[t].actque {
        SamePriority(rdq, primap, tcb, t, tcb[t].(actque := false));
        tcb := tcb[t := tcb[t].(actque := false)];
        MakeActive(t);
      }
    }

    // task_terminate
    method TaskTerminate(t: nat)
      requires SchedOk() && MutexOk(None) && Core(c, Abs(), {}, None, None) && t < |tcb|
      requires schedtsk == Some(t) && Runs(tcb[t]) ==> dspflg
      modifies `loctsk, `prevmtx, `lastmtx, `held, `tcb, `rdq, `primap, `schedtsk, `waitq, `tmevt
      ensures SchedOk() && MutexOk(None) && Abs() == Terminate(c, old(Abs()), t)
    {
      Withdraw(t);
      Restart(t);
    }

    method Withdraw(t: nat)
      requires SchedOk() && MutexOk(None) && Core(c, Abs(), {}, None, None) && t < |tcb|
      requires schedtsk == Some(t) && Runs(tcb[t]) ==> dspflg
      modifies `loctsk, `prevmtx, `lastmtx, `held, `tcb, `rdq, `primap, `schedtsk, `waitq, `tmevt
      ensures Intact()
      ensures Abs() == ReleaseLast(c, KernelModel.Detach(old(Abs()), t), t, |old(held[t])|)
      ensures GoodConfig(c) && t < |c.ipriority| && t !in Flat(rdq)
    {
      TerminationSteps(c, Abs(), t);
      DetachIntact(t);
      ReleaseHeld(t);
    }

    method DetachIntact(t: nat)
      requires Intact() && t < |tcb| && (Runs(tcb[t]) ==> t in Flat(rdq))
      requires Waits(tcb[t]) ==> Blocked(Abs(), t)
      requires schedtsk == Some(t) && Runs(tcb[t]) ==> dspflg
      modifies `rdq, `primap, `schedtsk, `waitq, `tmevt
      ensures Intact() && Abs() == KernelModel.Detach(old(Abs()), t)
    {
      Detach(t);
    }

    method ReleaseHeld(t: nat)
      requires SchedOk() && MutexOk(None) && Core(c, Abs(), {t}, None, None) && t < |tcb|
      modifies `loctsk, `prevmtx, `lastmtx, `held, `tcb, `rdq, `primap, `schedtsk, `waitq, `tmevt
      ensures SchedOk() && MutexOk(None) && Abs() == ReleaseLast(c, old(Abs()), t, |old(held[t])|)
    {
      assert Chain(prevmtx, lastmtx[t], held[t]);
      if lastmtx[t] != None {
        MutexReleaseAll(t);
      }
    }

    // ini_mtx, the search for the mutex in its holder's chain: `at` is the mutex whose p_prevmtx
    // leads to it, or none for the holder's p_lastmtx
    method FindMutex(t: nat, m: nat) returns (at: Option<nat>, ghost k: nat)
      requires Chains(prevmtx, lastmtx, held) && t < |held| && m in held[t]
      ensures k < |held[t]| && held[t][k] == m && at == if k == 0 then None else Some(held[t][k - 1])
    {
      at := None;
      var next: Option<nat> := lastmtx[t];
      k := 0;
      assert held[t][0..] == held[t];
      while next != None
        invariant k <= |held[t]| && Chain(prevmtx, next, held[t][k..])
        invariant forall i :: 0 <= i < k ==> held[t][i] != m
        invariant at == if k == 0 then None else Some(held[t][k - 1])
        decreases |held[t]| - k
      {
        if next == Some(m) {
          break;
        }
        at := next;
        next := prevmtx[at.value];
        k := k + 1;
      }
    }

    // ini_mtx, taking the mutex from the chain
    method UnlinkMutex(t: nat, m: nat)
      requires SchedOk() && MutexOk(Some(m)) && HeldOk(c, held) && t < |held| && m in held[t]
      modifies `lastmtx, `prevmtx, `held
      ensures SchedOk() && MutexOk(Some(m))
      ensures Abs() == SetHeld(old(Abs()), t, Without(old(held[t]), m))
    {
      var at;
      ghost var k;
      at, k := FindMutex(t, m);
      WithoutContents(held[t], m);
      WithoutAt(held[t], k);
      OwnersPop(loctsk, held, t, m, Without(held[t], m));
      if at == None {
        ChainsPop(prevmtx, lastmtx, held, t);
        lastmtx := lastmtx[t := prevmtx[m]];
      } else {
        ChainsUnlink(prevmtx, lastmtx, c, held, t, k);
        prevmtx := prevmtx[at.value := prevmtx[m]];
      }
      held := held[t := Without(held[t], m)];
    }

    // dispatch, or request_dispatch in a handler, if it is needed
    method Dispatch()
      requires SchedOk()
      modifies `runtsk
      ensures SchedOk() && Abs() == KernelModel.Dispatch(old(Abs()))
    {
      if runtsk != schedtsk {
        if !inHandler {
          runtsk := schedtsk;
        }
      }
    }

    // ---------- Service calls ----------

    ghost predicate Ready()
      reads this
    {
      Intact() && Inv(c, Abs())
    }

    /** The call is made where it is allowed, with parameters in range. */
    ghost predicate Callable(call: Call)
      reads this
    {
      Ready() && Permitted(Abs(), call) && ValidCall(c, call)
    }

    // act_tsk
    method ActTsk(t: nat) returns (ercd: Ercd)
      requires Callable(Call.ActTsk(t))
      modifies this
      ensures Intact() && (Abs(), ercd) == Exec(c, old(Abs()), Call.ActTsk(t))
    {
      ShapeOfTask(c, Abs(), t);
      ercd := Activate(t);
    }

    method Activate(t: nat) returns (ercd: Ercd)
      requires SchedOk() && Sized(c, Abs()) && t < |tcb| && tcb[t].priority < TNUM_TPRI
      modifies `tcb, `rdq, `primap, `schedtsk, `runtsk
      ensures SchedOk() && (Abs(), ercd) == ActivateTask(c, old(Abs()), t)
    {
      if tcb[t].tstat == Dormant {
        MakeActive(t);
        Dispatch();
        ercd := E_OK;
      } else if c.noactque[t] || tcb[t].actque {
        ercd := E_QOVR;
      } else {
        Alter(t, tcb[t].(actque := true));
        ercd := E_OK;
      }
    }

    /** Writing fields of a control block that no queue depends on. */
    method Alter(t: nat, v: Tcb)
      requires SchedOk() && t < |tcb| && v.priority == tcb[t].priority
      modifies `tcb
      ensures SchedOk() && Abs() == SetTcb(old(Abs()), t, v)
    {
      SamePriority(rdq, primap, tcb, t, v);
      tcb := tcb[t := v];
    }

    // ter_tsk
    method TerTsk(t: nat) returns (ercd: Ercd)
      requires Callable(Call.TerTsk(t))
      modifies this
      ensures Intact() && (Abs(), ercd) == Exec(c, old(Abs()), Call.TerTsk(t))
    {
      if Some(t) == runtsk {
        ercd := E_ILUSE;
      } else if tcb[t].tstat == Dormant {
        ercd := E_OBJ;
      } else {
        EndTask(t);
        ercd := E_OK;
      }
    }

    // the termination of a task and the dispatch after it in ter_tsk, ras_ter, ena_ter, ena_dsp
    // and chg_ipm; the running task ends only while dispatching is on
    method EndTask(t: nat)
      requires Intact() && Core(c, Abs(), {}, None, None) && t < |tcb|
      requires runtsk == Some(t) ==> dspflg
      modifies `loctsk, `prevmtx, `lastmtx, `held, `tcb, `rdq, `primap, `schedtsk, `waitq, `tmevt, `runtsk
      ensures Intact() && Abs() == KernelModel.Dispatch(Terminate(c, old(Abs()), t))
    {
      TaskTerminate(t);
      Dispatch();
    }

    // ext_tsk
    method ExtTsk() returns (ercd: Ercd)
      requires Callable(Call.ExtTsk)
      modifies this
      ensures Intact() && (Abs(), ercd) == Exec(c, old(Abs()), Call.ExtTsk)
    {
      RunningIsQueued(c, Abs());
      OpenDispatch();
      CoreOf(c, old(Abs()), Abs());
      EndTask(runtsk.value);
      ercd := E_OK;
    }

    // task_term.c:128-150
    method OpenDispatch()
      requires Intact() && Flat(rdq) != []
      modifies `enadsp, `ipmOpen, `dspflg, `schedtsk
      ensures Intact() && Abs() == old(Abs()).(enadsp := true, ipmOpen := true)
    {
      if !enadsp || !ipmOpen {
        if !enadsp {
          enadsp := true;
        }
        if !ipmOpen {
          ipmOpen := true;
        }
        ResumeDispatch();
      }
    }

    // dspflg := true and the search that follows it in ext_tsk, ena_dsp and chg_ipm
    method ResumeDispatch()
      requires Queues(rdq, primap, tcb) && MutexOk(None) && Flat(rdq) != [] && enadsp && ipmOpen
      modifies `dspflg, `schedtsk
      ensures Intact()
    {
      dspflg := true;
      var s := SearchSchedtsk();
      schedtsk := Some(s);
    }

    // ras_ter
    method RasTer(t: nat) returns (ercd: Ercd)
      requires Callable(Call.RasTer(t))
      modifies this
      ensures Intact() && (Abs(), ercd) == Exec(c, old(Abs()), Call.RasTer(t))
    {
      if Some(t) == runtsk {
        ercd := E_ILUSE;
      } else if tcb[t].tstat == Dormant {
        ercd := E_OBJ;
      } else if tcb[t].enater {
        EndTask(t);
        ercd := E_OK;
      } else {
        MarkRaster(t);
        ercd := E_OK;
      }
    }

    method MarkRaster(t: nat)
      requires Ready() && t < |tcb| && tcb[t].tstat.Alive?
      modifies `tcb, `rdq, `primap, `schedtsk, `waitq, `tmevt, `runtsk
      ensures Intact()
      ensures Abs() == if Runs(old(tcb[t])) then SetTcb(old(Abs()), t, old(tcb[t]).(raster := true))
                       else KernelModel.Dispatch(KernelModel.Unblock(old(Abs()), t))
    {
      BlockedIfWaiting(c, Abs(), t);
      Request(t);
    }

    // the part of ras_ter for a task that does not allow its termination
    method Request(t: nat)
      requires Intact() && t < |tcb| && tcb[t].tstat.Alive? && tcb[t].priority < TNUM_TPRI
      requires Waits(tcb[t]) ==> Blocked(Abs(), t)
      modifies `tcb, `rdq, `primap, `schedtsk, `waitq, `tmevt, `runtsk
      ensures Intact()
      ensures Abs() == if Runs(old(tcb[t])) then SetTcb(old(Abs()), t, old(tcb[t]).(raster := true))
                       else KernelModel.Dispatch(KernelModel.Unblock(old(Abs()), t))
    {
      if tcb[t].tstat == Alive(NoWait, false) {
        Alter(t, tcb[t].(raster := true));
      } else {
        Unblock(t);
        Dispatch();
      }
    }

    method Unblock(t: nat)
      requires SchedOk() && t < |tcb| && tcb[t].tstat.Alive? && tcb[t].priority < TNUM_TPRI
      requires !Runs(tcb[t]) && (Waits(tcb[t]) ==> Blocked(Abs(), t))
      modifies `tcb, `rdq, `primap, `schedtsk, `waitq, `tmevt
      ensures SchedOk() && Abs() == KernelModel.Unblock(old(Abs()), t)
    {
      Detach(t);
      Alter(t, tcb[t].(raster := true, tstat := Alive(NoWait, false),
                       winfo := if tcb[t].tstat.wait != NoWait then Wercd(E_RASTER) else tcb[t].winfo));
      MakeRunnable(t);
    }

    // dis_ter
    method DisTer() returns (ercd: Ercd)
      requires Callable(Call.DisTer)
      modifies this
      ensures Intact() && (Abs(), ercd) == Exec(c, old(Abs()), Call.DisTer)
    {
      Alter(runtsk.value, tcb[runtsk.value].(enater := false));
      ercd := E_OK;
    }

    // ena_ter
    method EnaTer() returns (ercd: Ercd)
      requires Callable(Call.EnaTer)
      modifies this
      ensures Intact() && (Abs(), ercd) == Exec(c, old(Abs()), Call.EnaTer)
    {
      var t := runtsk.value;
      if tcb[t].raster && dspflg {
        EndTask(t);
      } else {
        Alter(t, tcb[t].(enater := true));
      }
      ercd := E_OK;
    }

    // slp_tsk and tslp_tsk
    method SlpTsk(tmo: Tmo) returns (ercd: Ercd)
      requires Callable(Call.SlpTsk(tmo))
      modifies this
      ensures Intact() && (Abs(), ercd) == Exec(c, old(Abs()), Call.SlpTsk(tmo))
    {
      ExecSlpTsk(c, Abs(), tmo);
      var t := runtsk.value;
      if tcb[t].raster {
        ercd := E_RASTER;
      } else if tcb[t].wupque {
        Alter(t, tcb[t].(wupque := false));
        ercd := E_OK;
      } else if tmo == TMO_POL {
        ercd := E_TMOUT;
      } else {
        WaitAsRunning(t, Sleep, tmo == Limited);
        ercd := E_OK;
      }
    }

    method WaitAndDispatch(t: nat, wait: Wait, limited: bool)
      requires SchedOk() && dspflg && CanWait(c, Abs(), t, wait)
      modifies `tcb, `rdq, `primap, `schedtsk, `tmevt, `waitq, `runtsk
      ensures SchedOk()
      ensures Abs() == KernelModel.Dispatch(KernelModel.EnterWait(c, old(Abs()), t, wait, limited))
    {
      EnterWait(t, wait, limited);
      Dispatch();
    }

    method WaitAsRunning(t: nat, wait: Wait, limited: bool)
      requires Ready() && runtsk == Some(t) && dspflg && (wait.OnObject? ==> wait.obj < |c.obj|)
      modifies `tcb, `rdq, `primap, `schedtsk, `tmevt, `waitq, `runtsk
      ensures Intact()
      ensures Abs() == KernelModel.Dispatch(KernelModel.EnterWait(c, old(Abs()), t, wait, limited))
    {
      RunningCanWait(c, Abs(), t, wait);
      WaitAndDispatch(t, wait, limited);
    }

    // dly_tsk
    method DlyTsk() returns (ercd: Ercd)
      requires Callable(Call.DlyTsk)
      modifies this
      ensures Intact() && (Abs(), ercd) == Exec(c, old(Abs()), Call.DlyTsk)
    {
      ExecDlyTsk(c, Abs());
      if tcb[runtsk.value].raster {
        ercd := E_RASTER;
      } else {
        WaitAsRunning(runtsk.value, Delay, true);
        ercd := E_OK;
      }
    }

    // wup_tsk: a task waiting in slp_tsk is in no wait queue
    method WupTsk(t: nat) returns (ercd: Ercd)
      requires Callable(Call.WupTsk(t))
      modifies this
      ensures Intact() && (Abs(), ercd) == Exec(c, old(Abs()), Call.WupTsk(t))
    {
      BlockedIfWaiting(c, Abs(), t);
      ercd := WakeUp(t);
    }

    method WakeUp(t: nat) returns (ercd: Ercd)
      requires Intact() && t < |tcb| && (Waits(tcb[t]) ==> Blocked(Abs(), t))
      modifies `tcb, `rdq, `primap, `schedtsk, `tmevt, `runtsk
      ensures Intact() && (Abs(), ercd) == KernelModel.WakeUp(old(Abs()), t)
    {
      if tcb[t].tstat == Dormant {
        ercd := E_OBJ;
      } else if tcb[t].tstat.wait == Sleep {
        EndTimedWait(t, E_OK);
        Dispatch();
        ercd := E_OK;
      } else if !tcb[t].wupque {
        Alter(t, tcb[t].(wupque := true));
        ercd := E_OK;
      } else {
        ercd := E_QOVR;
      }
    }

    // rel_wai
    method RelWai(t: nat) returns (ercd: Ercd)
      requires Callable(Call.RelWai(t))
      modifies this
      ensures Intact() && (Abs(), ercd) == Exec(c, old(Abs()), Call.RelWai(t))
    {
      BlockedIfWaiting(c, Abs(), t);
      ercd := ReleaseWait(t);
    }

    method ReleaseWait(t: nat) returns (ercd: Ercd)
      requires Intact() && t < |tcb| && (Waits(tcb[t]) ==> Blocked(Abs(), t))
      modifies `tcb, `rdq, `primap, `schedtsk, `waitq, `tmevt, `runtsk
      ensures Intact() && (Abs(), ercd) == KernelModel.ReleaseWait(old(Abs()), t)
    {
      if tcb[t].tstat == Dormant || tcb[t].tstat.wait == NoWait {
        ercd := E_OBJ;
      } else {
        EndWaitNow(t, E_RLWAI);
        ercd := E_OK;
      }
    }

    method EndWaitNow(t: nat, ercd: Ercd)
      requires Intact() && Blocked(Abs(), t)
      modifies `tcb, `rdq, `primap, `schedtsk, `waitq, `tmevt, `runtsk
      ensures Intact() && Abs() == KernelModel.Dispatch(KernelModel.EndWait(old(Abs()), t, ercd))
    {
      EndWait(t, ercd);
      Dispatch();
    }

    // sus_tsk
    method SusTsk(t: nat) returns (ercd: Ercd)
      requires Callable(Call.SusTsk(t))
      modifies this
      ensures Intact() && (Abs(), ercd) == Exec(c, old(Abs()), Call.SusTsk(t))
    {
      if runtsk == Some(t) && !dspflg {
        ercd := E_CTX;
      } else if tcb[t].tstat == Dormant {
        ercd := E_OBJ;
      } else if tcb[t].raster {
        ercd := E_RASTER;
      } else if tcb[t].tstat == Alive(NoWait, false) {
        assert t in Flat(rdq);
        SuspendRunnable(t);
        ercd := E_OK;
      } else if tcb[t].tstat.suspended {
        ercd := E_QOVR;
      } else {
        SetStat(t, Alive(tcb[t].tstat.wait, true));
        ercd := E_OK;
      }
    }

    method SuspendRunnable(t: nat)
      requires Intact() && t < |tcb| && t in Flat(rdq) && (schedtsk == Some(t) ==> dspflg)
      modifies `tcb, `rdq, `primap, `schedtsk, `runtsk
      ensures Intact()
      ensures Abs() == KernelModel.Dispatch(KernelModel.MakeNonRunnable(
                         KernelModel.SetStat(old(Abs()), t, Alive(NoWait, true)), t))
    {
      LeaveReadyQueue(t, Alive(NoWait, true));
      Dispatch();
    }

    // rsm_tsk
    method RsmTsk(t: nat) returns (ercd: Ercd)
      requires Callable(Call.RsmTsk(t))
      modifies this
      ensures Intact() && (Abs(), ercd) == Exec(c, old(Abs()), Call.RsmTsk(t))
    {
      ShapeOfTask(c, Abs(), t);
      ercd := Resume(t);
    }

    method Resume(t: nat) returns (ercd: Ercd)
      requires Intact() && t < |tcb| && tcb[t].priority < TNUM_TPRI
      modifies `tcb, `rdq, `primap, `schedtsk, `runtsk
      ensures Intact() && (Abs(), ercd) == KernelModel.Resume(old(Abs()), t)
    {
      if tcb[t].tstat == Dormant || !tcb[t].tstat.suspended {
        ercd := E_OBJ;
      } else if tcb[t].tstat.wait == NoWait {
        MakeActive(t);
        Dispatch();
        ercd := E_OK;
      } else {
        SetStat(t, Alive(tcb[t].tstat.wait, false));
        ercd := E_OK;
      }
    }

    // chg_pri
    method ChgPri(t: nat, newbpri: nat) returns (ercd: Ercd)
      requires Callable(Call.ChgPri(t, newbpri))
      modifies this
      ensures Intact() && (Abs(), ercd) == Exec(c, old(Abs()), Call.ChgPri(t, newbpri))
    {
      TasksAreLinked(c, Abs(), t, None, None);
      MutexesOfTask(c, Abs(), t);
      ercd := ChangeBase(t, newbpri);
    }

    method ChangeBase(t: nat, newbpri: nat) returns (ercd: Ercd)
      requires Intact() && Sized(c, Abs()) && newbpri < TNUM_TPRI && Linked(Abs(), t)
      requires HoldsMutexes(c, held[t], tcb[t])
      modifies `tcb, `rdq, `primap, `schedtsk, `waitq, `runtsk
      ensures Intact() && (Abs(), ercd) == KernelModel.ChangeBase(c, old(Abs()), t, newbpri)
    {
      if tcb[t].tstat == Dormant {
        ercd := E_OBJ;
      } else {
        var ok := MutexCheckCeilpri(t, newbpri);
        if !ok {
          ercd := E_ILUSE;
        } else {
          SetBase(t, newbpri);
          ercd := E_OK;
        }
      }
    }

    method SetBase(t: nat, newbpri: nat)
      requires Intact() && Sized(c, Abs()) && newbpri < TNUM_TPRI && Linked(Abs(), t)
      modifies `tcb, `rdq, `primap, `schedtsk, `waitq, `runtsk
      ensures Intact()
      ensures var s1 := SetTcb(old(Abs()), t, old(tcb[t]).(bpriority := newbpri));
              Abs() == if HoldsCeiling(c, old(Abs()), t) then s1
                       else KernelModel.Dispatch(KernelModel.ChangePriority(c, s1, t, newbpri, false))
    {
      var found := MutexScanCeilmtx(t);
      StillLinked(Abs(), t, tcb[t].(bpriority := newbpri));
      Alter(t, tcb[t].(bpriority := newbpri));
      if !found {
        ChangeAndDispatch(t, newbpri);
      }
    }

    method ChangeAndDispatch(t: nat, newpri: nat)
      requires Intact() && |waitq| == |c.obj| && newpri < TNUM_TPRI && Linked(Abs(), t)
      modifies `tcb, `rdq, `primap, `schedtsk, `waitq, `runtsk
      ensures Intact()
      ensures Abs() == KernelModel.Dispatch(KernelModel.ChangePriority(c, old(Abs()), t, newpri, false))
    {
      ChangePriority(t, newpri, false);
      Dispatch();
    }

    // rot_rdq
    method RotRdq(pri: nat) returns (ercd: Ercd)
      requires Callable(Call.RotRdq(pri))
      modifies this
      ensures Intact() && (Abs(), ercd) == Exec(c, old(Abs()), Call.RotRdq(pri))
    {
      ExecRotRdq(c, Abs(), pri);
      RotateReadyQueue(pri);
      Dispatch();
      ercd := E_OK;
    }

    // dis_dsp
    method DisDsp() returns (ercd: Ercd)
      requires Callable(Call.DisDsp)
      modifies this
      ensures Intact() && (Abs(), ercd) == Exec(c, old(Abs()), Call.DisDsp)
    {
      ExecDisDsp(c, Abs());
      enadsp := false;
      dspflg := false;
      ercd := E_OK;
    }

    // ena_dsp
    method EnaDsp() returns (ercd: Ercd)
      requires Callable(Call.EnaDsp)
      modifies this
      ensures Intact() && (Abs(), ercd) == Exec(c, old(Abs()), Call.EnaDsp)
    {
      ExecEnaDsp(c, Abs());
      enadsp := true;
      if ipmOpen {
        RunningIsQueued(c, old(Abs()));
        CoreOf(c, old(Abs()), Abs());
        Reopen(runtsk.value);
      }
      ercd := E_OK;
    }

    // chg_ipm
    method ChgIpm(open: bool) returns (ercd: Ercd)
      requires Callable(Call.ChgIpm(open))
      modifies this
      ensures Intact() && (Abs(), ercd) == Exec(c, old(Abs()), Call.ChgIpm(open))
    {
      ExecChgIpm(c, Abs(), open);
      ipmOpen := open;
      if open && enadsp {
        RunningIsQueued(c, old(Abs()));
        CoreOf(c, old(Abs()), Abs());
        Reopen(runtsk.value);
      } else {
        dspflg := false;
      }
      ercd := E_OK;
    }

    // the tail of ena_dsp and chg_ipm, when dispatching is on again
    method Reopen(t: nat)
      requires Queues(rdq, primap, tcb) && MutexOk(None) && Core(c, Abs(), {}, None, None)
      requires t < |tcb| && runtsk == Some(t) && t in Flat(rdq) && enadsp && ipmOpen
      modifies `loctsk, `prevmtx, `lastmtx, `held, `tcb, `rdq, `primap, `dspflg, `schedtsk, `waitq, `tmevt, `runtsk
      ensures Intact() && (Abs(), E_OK) == ReopenDispatch(c, old(Abs()), t)
    {
      ResumeDispatch();
      if tcb[t].raster && tcb[t].enater {
        EndTask(t);
      } else {
        Dispatch();
      }
    }

    // loc_mtx and tloc_mtx
    method LocMtx(m: nat, tmo: Tmo) returns (ercd: Ercd)
      requires Callable(Call.LocMtx(m, tmo))
      modifies this
      ensures Intact() && (Abs(), ercd) == Exec(c, old(Abs()), Call.LocMtx(m, tmo))
    {
      ExecLocMtx(c, Abs(), m, tmo);
      if tcb[runtsk.value].raster {
        ercd := E_RASTER;
      } else {
        ercd := Lock(runtsk.value, m, tmo);
      }
    }

    // ploc_mtx
    method PlocMtx(m: nat) returns (ercd: Ercd)
      requires Callable(Call.PlocMtx(m))
      modifies this
      ensures Intact() && (Abs(), ercd) == Exec(c, old(Abs()), Call.PlocMtx(m))
    {
      ercd := Lock(runtsk.value, m, TMO_POL);
    }

    method Lock(t: nat, m: nat, tmo: Tmo) returns (ercd: Ercd)
      requires Ready() && runtsk == Some(t) && !inHandler && m < |c.obj| && c.obj[m].mutex
      requires tmo != TMO_POL ==> dspflg
      modifies `loctsk, `prevmtx, `lastmtx, `held, `tcb, `rdq, `primap, `schedtsk, `waitq, `tmevt, `runtsk
      ensures Intact() && (Abs(), ercd) == KernelModel.Lock(c, old(Abs()), t, m, tmo)
    {
      OwnersTell(loctsk, held, m);
      if c.obj[m].ceiling.Some? && tcb[t].bpriority < c.obj[m].ceiling.value {
        ercd := E_ILUSE;
      } else if loctsk[m] == None {
        LockFree(t, m);
        ercd := E_OK;
      } else if loctsk[m] == runtsk {
        ercd := E_OBJ;
      } else if tmo == TMO_POL {
        ercd := E_TMOUT;
      } else {
        WaitAsRunning(t, OnObject(m), tmo == Limited);
        ercd := E_OK;
      }
    }

    method LockFree(t: nat, m: nat)
      requires Ready() && runtsk == Some(t) && !inHandler && m < |c.obj| && c.obj[m].mutex && !Owned(held, m)
      requires BelowCeiling(c, m, tcb[t].bpriority)
      modifies `loctsk, `prevmtx, `lastmtx, `held, `tcb, `rdq, `primap, `schedtsk, `waitq
      ensures Intact() && Abs() == Acquire(c, old(Abs()), t, m)
    {
      TasksAreLinked(c, Abs(), t, None, None);
      PriorityOfTask(c, Abs(), t);
      AcquireKeeps(c, Abs(), t, m);
      MutexAcquire(t, m);
      assert runtsk == schedtsk;  // the assertion of the source
    }

    // unl_mtx
    method UnlMtx(m: nat) returns (ercd: Ercd)
      requires Callable(Call.UnlMtx(m))
      modifies this
      ensures Intact() && (Abs(), ercd) == Exec(c, old(Abs()), Call.UnlMtx(m))
    {
      var t := runtsk.value;
      LastLocked(prevmtx, lastmtx, held, t, m);
      if lastmtx[t] != Some(m) {
        ercd := E_OBJ;
      } else {
        UnlockSteps(c, Abs(), t, m);
        Unlock(t, m);
        ercd := E_OK;
      }
    }

    method Unlock(t: nat, m: nat)
      requires Intact() && Unlockable(c, Abs(), t, m)
      requires Core(c, Reprioritize(c, SetHeld(Abs(), t, held[t][1..]), t), {}, None, Some(m))
      modifies `loctsk, `prevmtx, `lastmtx, `held, `tcb, `rdq, `primap, `schedtsk, `waitq, `tmevt, `runtsk
      ensures Intact() && Abs() == KernelModel.Dispatch(KernelModel.Unlock(c, old(Abs()), t, m))
    {
      PassOn(t, m);
      Dispatch();
    }

    method PassOn(t: nat, m: nat)
      requires Intact() && Unlockable(c, Abs(), t, m)
      requires Core(c, Reprioritize(c, SetHeld(Abs(), t, held[t][1..]), t), {}, None, Some(m))
      modifies `loctsk, `prevmtx, `lastmtx, `held, `tcb, `rdq, `primap, `schedtsk, `waitq, `tmevt
      ensures Intact() && Abs() == KernelModel.Unlock(c, old(Abs()), t, m)
    {
      GiveUp(t, m);
      MutexRelease(m, {});
    }

    method GiveUp(t: nat, m: nat)
      requires Intact() && Unlockable(c, Abs(), t, m)
      modifies `lastmtx, `held, `tcb, `rdq, `primap, `schedtsk, `waitq
      ensures SchedOk() && MutexOk(Some(m))
      ensures Abs() == Reprioritize(c, SetHeld(old(Abs()), t, old(held[t][1..])), t)
    {
      var x := PopMutex(t);
      MutexDropPriority(t, m, old(held[t]));
    }

    // ini_mtx
    method IniMtx(m: nat) returns (ercd: Ercd)
      requires Callable(Call.IniMtx(m))
      modifies this
      ensures Intact() && (Abs(), ercd) == Exec(c, old(Abs()), Call.IniMtx(m))
    {
      ExecIniMtx(c, Abs(), m);
      ReinitializeMutex(m);
      ercd := E_OK;
    }

    method ReinitializeMutex(m: nat)
      requires Intact() && Core(c, Abs(), {}, None, None) && m < |c.obj|
      modifies `loctsk, `prevmtx, `lastmtx, `held, `tcb, `rdq, `primap, `schedtsk, `waitq, `tmevt, `runtsk
      ensures Intact() && Abs() == KernelModel.Dispatch(Reinitialize(c, old(Abs()), m))
    {
      ResetMutex(m);
      Dispatch();
    }

    method ResetMutex(m: nat)
      requires Intact() && Core(c, Abs(), {}, None, None) && m < |c.obj|
      modifies `loctsk, `prevmtx, `lastmtx, `held, `tcb, `rdq, `primap, `schedtsk, `waitq, `tmevt
      ensures Intact() && Abs() == Reinitialize(c, old(Abs()), m)
    {
      ReinitializeSteps(c, Abs(), m);
      InitWaitQueue(m);
      Strip(m);
    }

    // the part of ini_mtx that takes the mutex from its holder
    method Strip(m: nat)
      requires Intact() && Sized(c, Abs()) && m < |c.obj|
      requires Owned(held, m) ==> Strippable(c, Abs(), Holder(held, m), m)
      modifies `loctsk, `prevmtx, `lastmtx, `held, `tcb, `rdq, `primap, `schedtsk, `waitq
      ensures Intact() && Abs() == Stripped(c, old(Abs()), m)
    {
      OwnersTell(loctsk, held, m);
      if loctsk[m] != None {
        var t := loctsk[m].value;
        assert loctsk[m] == Some(Holder(held, m));
        loctsk := loctsk[m := None];
        TakeAway(t, m);
      }
    }

    method TakeAway(t: nat, m: nat)
      requires SchedOk() && MutexOk(Some(m)) && Strippable(c, Abs(), t, m) && loctsk[m] == None
      modifies `prevmtx, `lastmtx, `held, `tcb, `rdq, `primap, `schedtsk, `waitq
      ensures Intact() && Abs() == Reprioritize(c, SetHeld(old(Abs()), t, Without(old(held[t]), m)), t)
    {
      UnlinkMutex(t, m);
      MutexDropPriority(t, m, old(held[t]));
      OwnersFree(loctsk, held, m);
      assert loctsk[m := None] == loctsk;
    }

    // a service call that waits on an object, from its waiting part on
    method WaitObject(o: nat, limited: bool) returns (ercd: Ercd)
      requires Callable(Call.WaitObject(o, limited))
      modifies this
      ensures Intact() && (Abs(), ercd) == Exec(c, old(Abs()), Call.WaitObject(o, limited))
    {
      ExecWaitObject(c, Abs(), o, limited);
      if tcb[runtsk.value].raster {
        ercd := E_RASTER;
      } else {
        WaitAsRunning(runtsk.value, OnObject(o), limited);
        ercd := E_OK;
      }
    }

    // a service call that wakes the first waiting task
    method WakeObject(o: nat) returns (ercd: Ercd)
      requires Callable(Call.WakeObject(o))
      modifies this
      ensures Intact() && (Abs(), ercd) == Exec(c, old(Abs()), Call.WakeObject(o))
    {
      HeadIsBlockedIfAny(c, Abs(), o);
      WakeFirst(o);
      ercd := E_OK;
    }

    method WakeFirst(o: nat)
      requires Intact() && o < |waitq| && (waitq[o] != [] ==> Blocked(Abs(), waitq[o][0]))
      modifies `tcb, `rdq, `primap, `schedtsk, `waitq, `tmevt, `runtsk
      ensures Intact() && Abs() == KernelModel.Dispatch(KernelModel.WakeFirst(old(Abs()), o))
    {
      if waitq[o] != [] {
        WakeNext(o, E_OK);
      }
      Dispatch();
    }

    // ini_sem and its like
    method IniObject(o: nat) returns (ercd: Ercd)
      requires Callable(Call.IniObject(o))
      modifies this
      ensures Intact() && (Abs(), ercd) == Exec(c, old(Abs()), Call.IniObject(o))
    {
      ExecIniObject(c, Abs(), o);
      Flush(o);
      ercd := E_OK;
    }

    method Flush(o: nat)
      requires Intact() && o < |c.obj| && Core(c, Abs(), {}, None, None)
      modifies `tcb, `rdq, `primap, `schedtsk, `waitq, `tmevt, `runtsk
      ensures Intact() && Abs() == KernelModel.Dispatch(FlushQueue(old(Abs()), o))
    {
      InitWaitQueue(o);
      Dispatch();
    }

    // wait_tmout and wait_tmout_ok, called when the time event block has left the heap
    method TimeOut(t: nat) returns (ercd: Ercd)
      requires Callable(Call.TimeOut(t))
      modifies this
      ensures Intact() && (Abs(), ercd) == Exec(c, old(Abs()), Call.TimeOut(t))
    {
      LimitedIsBlocked(c, Abs(), t);
      ercd := EndByTimeOut(t);
    }

    method EndByTimeOut(t: nat) returns (ercd: Ercd)
      requires Intact() && (t in tmevt ==> Blocked(Abs(), t))
      modifies `tcb, `rdq, `primap, `schedtsk, `waitq, `tmevt
      ensures Intact() && (Abs(), ercd) == TimeOutOf(old(Abs()), t)
    {
      if t !in tmevt {
        ercd := E_OBJ;
      } else {
        EndWait(t, if tcb[t].tstat.wait == Delay then E_OK else E_TMOUT);
        ercd := E_OK;
      }
    }

    // the entry of an interrupt handler
    method EnterHandler() returns (ercd: Ercd)
      requires Callable(Call.EnterHandler)
      modifies this
      ensures Intact() && (Abs(), ercd) == Exec(c, old(Abs()), Call.EnterHandler)
    {
      inHandler := true;
      ercd := E_OK;
    }

    // the return from one, where a dispatch asked for takes place
    method ExitHandler() returns (ercd: Ercd)
      requires Callable(Call.ExitHandler)
      modifies this
      ensures Intact() && (Abs(), ercd) == Exec(c, old(Abs()), Call.ExitHandler)
    {
      ExecExitHandler(c, Abs());
      LeaveHandler();
      ercd := E_OK;
    }

    method LeaveHandler()
      requires Intact()
      modifies `inHandler, `runtsk
      ensures Intact() && Abs() == KernelModel.Dispatch(old(Abs()).(inHandler := false))
    {
      inHandler := false;
      Dispatch();
    }

    // initialize_task, initialize_mutex and the initialization of the wait queues
    constructor (cfg: Config)
      requires GoodConfig(cfg)
      ensures Ready() && c == cfg && Abs() == Start(cfg)
    {
      c := cfg;
      tcb := Start(cfg).tcb;
      lastmtx := seq(|cfg.ipriority|, _ => None);
      waitq := seq(|cfg.obj|, _ => []);
      loctsk := seq(|cfg.obj|, _ => None);
      prevmtx := seq(|cfg.obj|, _ => None);
      rdq := seq(TNUM_TPRI, _ => []);
      primap := {};
      runtsk := None;
      schedtsk := None;
      enadsp := true;
      ipmOpen := true;
      dspflg := true;
      inHandler := true;
      tmevt := {};
      held := seq(|cfg.ipriority|, _ => []);
      new;
      EmptyQueues(rdq, tcb);
      EmptyChains(prevmtx, lastmtx, loctsk, held);
      StartInv(cfg);
      assert Abs() == Start(cfg);
    }

    // ---------- All service calls ----------

    /** The checks of the context, CHECK_UNL, CHECK_TSKCTX_UNL and CHECK_DISPATCH. */
    predicate Admitted(call: Call)
      reads `inHandler, `runtsk, `dspflg
    {
      if call.EnterHandler? then !inHandler
      else if call.ExitHandler? || call.TimeOut? then inHandler
      else if FromAnywhere(call) then inHandler || runtsk != None
      else !inHandler && runtsk != None && (NeedsDispatch(call) ==> dspflg)
    }

    /** Any call, made in any reachable state, does what the model says and leaves the kernel
        ready for the next. */
    method Serve(call: Call) returns (ercd: Ercd)
      requires Ready()
      modifies this
      ensures Ready() && (Abs(), ercd) == Exec(c, old(Abs()), call)
    {
      ExecKeeps(c, Abs(), call);
      if !Admitted(call) {
        ercd := E_CTX;
      } else if !ValidCall(c, call) {
        ercd := E_PAR;
      } else if FromAnywhere(call) || FromOutside(call) {
        ercd := ServeAnywhere(call);
      } else if NeedsDispatch(call) || call.TerTsk? || call.ExtTsk? || call.RasTer? || call.DisTer? || call.EnaTer? {
        ercd := ServeTask(call);
      } else {
        ercd := ServeOthers(call);
      }
    }

    method ServeAnywhere(call: Call) returns (ercd: Ercd)
      requires Callable(call) && (FromAnywhere(call) || FromOutside(call))
      modifies this
      ensures Intact() && (Abs(), ercd) == Exec(c, old(Abs()), call)
    {
      match call {
        case ActTsk(t) => ercd := ActTsk(t);
        case WupTsk(t) => ercd := WupTsk(t);
        case RelWai(t) => ercd := RelWai(t);
        case RotRdq(pri) => ercd := RotRdq(pri);
        case WakeObject(o) => ercd := WakeObject(o);
        case EnterHandler => ercd := EnterHandler();
        case ExitHandler => ercd := ExitHandler();
        case TimeOut(t) => ercd := TimeOut(t);
      }
    }

    method ServeTask(call: Call) returns (ercd: Ercd)
      requires Callable(call)
      requires NeedsDispatch(call) || call.TerTsk? || call.ExtTsk? || call.RasTer? || call.DisTer? || call.EnaTer?
      modifies this
      ensures Intact() && (Abs(), ercd) == Exec(c, old(Abs()), call)
    {
      match call {
        case TerTsk(t) => ercd := TerTsk(t);
        case ExtTsk => ercd := ExtTsk();
        case RasTer(t) => ercd := RasTer(t);
        case DisTer => ercd := DisTer();
        case EnaTer => ercd := EnaTer();
        case SlpTsk(tmo) => ercd := SlpTsk(tmo);
        case DlyTsk => ercd := DlyTsk();
        case LocMtx(m, tmo) => ercd := LocMtx(m, tmo);
        case WaitObject(o, limited) => ercd := WaitObject(o, limited);
      }
    }

    method ServeOthers(call: Call) returns (ercd: Ercd)
      requires Callable(call)
      requires call.SusTsk? || call.RsmTsk? || call.ChgPri? || call.DisDsp? || call.EnaDsp? || call.ChgIpm? ||
               call.PlocMtx? || call.UnlMtx? || call.IniMtx? || call.IniObject?
      modifies this
      ensures Intact() && (Abs(), ercd) == Exec(c, old(Abs()), call)
    {
      match call {
        case SusTsk(t) => ercd := SusTsk(t);
        case RsmTsk(t) => ercd := RsmTsk(t);
        case ChgPri(t, newbpri) => ercd := ChgPri(t, newbpri);
        case DisDsp => ercd := DisDsp();
        case EnaDsp => ercd := EnaDsp();
        case ChgIpm(open) => ercd := ChgIpm(open);
        case PlocMtx(m) => ercd := PlocMtx(m);
        case UnlMtx(m) => ercd := UnlMtx(m);
        case IniMtx(m) => ercd := IniMtx(m);
        case IniObject(o) => ercd := IniObject(o);
      }
    }
  }
}
