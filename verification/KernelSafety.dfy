/**
 What every service call of the kernel keeps (module KernelModel).

 `Inv` holds at every point where the CPU is unlocked.  Inside a service call it holds with
 exceptions: for tasks that are in no queue at the moment (`off`), for a task whose current
 priority is not yet right (`late`), and for a mutex that was just taken from its holder (`free`).
 */
module KernelSafety {
  import opened Options
  import opened Precedence
  import opened KernelModel

  ghost predicate GoodConfig(c: Config) {
    && |c.noactque| == |c.ipriority|
    && (forall t :: 0 <= t < |c.ipriority| ==> c.ipriority[t] < TNUM_TPRI)
    && (forall o :: 0 <= o < |c.obj| && c.obj[o].ceiling.Some? ==>
          c.obj[o].mutex && c.obj[o].tpri && c.obj[o].ceiling.value < TNUM_TPRI)
  }

  // ---------- Tasks are linked where their state says ----------

  ghost predicate ReadyOk(tcb: seq<Tcb>, ready: seq<nat>, off: set<nat>) {
    && NoDuplicates(ready) && Sorted(ready, Prios(tcb))
    && (forall t: nat :: t in ready ==> t < |tcb| && Runs(tcb[t]) && t !in off)
    && (forall t: nat :: t < |tcb| && Runs(tcb[t]) && t !in off ==> t in ready)
  }

  ghost predicate QueueOk(tpri: bool, tcb: seq<Tcb>, q: seq<nat>, o: nat, off: set<nat>) {
    && NoDuplicates(q) && (tpri ==> Sorted(q, Prios(tcb)))
    && (forall t: nat :: t in q ==> t < |tcb| && WaitsFor(tcb[t], o) && t !in off)
    && (forall t: nat :: t < |tcb| && WaitsFor(tcb[t], o) && t !in off ==> t in q)
  }

  ghost predicate QueuesOk(c: Config, tcb: seq<Tcb>, waitq: seq<seq<nat>>, off: set<nat>) {
    && |waitq| == |c.obj|
    && forall o: nat :: o < |c.obj| ==> QueueOk(c.obj[o].tpri, tcb, waitq[o], o, off)
  }

  predicate Limits(v: Tcb) {
    Waits(v) && v.winfo == TimeBlock(true)
  }

  /** A time event block is registered exactly for the tasks that wait with a time limit. */
  ghost predicate TimersOk(tcb: seq<Tcb>, timers: set<nat>, off: set<nat>) {
    && (forall t: nat :: t in timers ==> t < |tcb| && Limits(tcb[t]) && t !in off)
    && (forall t: nat :: t < |tcb| && Limits(tcb[t]) && t !in off ==> t in timers)
  }

  // ---------- Mutexes ----------

  ghost predicate HeldOk(c: Config, held: seq<seq<nat>>) {
    && (forall t: nat :: t < |held| ==> NoDuplicates(held[t]))
    && (forall t: nat, m: nat :: t < |held| && m in held[t] ==> m < |c.obj| && c.obj[m].mutex)
    && (forall t1: nat, t2: nat, m: nat :: t1 < |held| && t2 < |held| && m in held[t1] && m in held[t2] ==> t1 == t2)
  }

  /** Nobody waits for a mutex that is free. */
  ghost predicate WaitedOwned(c: Config, waitq: seq<seq<nat>>, held: seq<seq<nat>>, free: Option<nat>) {
    && |waitq| == |c.obj|
    && (forall m: nat :: m < |c.obj| && c.obj[m].mutex && waitq[m] != [] && Some(m) != free ==> Owned(held, m))
    && (free.Some? ==> !Owned(held, free.value))
  }

  // ---------- Each task ----------

  ghost predicate TcbShape(c: Config, v: Tcb) {
    && v.priority < TNUM_TPRI && v.bpriority < TNUM_TPRI
    && (v.tstat.Alive? && v.tstat.wait.OnObject? ==> v.tstat.wait.obj < |c.obj|)
  }

  ghost predicate TcbsShape(c: Config, tcb: seq<Tcb>) {
    forall t: nat :: t < |tcb| ==> TcbShape(c, tcb[t])
  }

  predicate BelowCeiling(c: Config, m: nat, bpriority: nat) {
    m < |c.obj| && c.obj[m].ceiling.Some? ==> c.obj[m].ceiling.value <= bpriority
  }

  /** The base priority is never above the ceiling of a mutex the task holds or waits for. */
  ghost predicate UnderCeilings(c: Config, v: Tcb, ms: seq<nat>) {
    && (forall m: nat :: m in ms ==> BelowCeiling(c, m, v.bpriority))
    && (v.tstat.Alive? && v.tstat.wait.OnObject? ==> BelowCeiling(c, v.tstat.wait.obj, v.bpriority))
  }

  ghost predicate StatOk(c: Config, t: nat, v: Tcb, ms: seq<nat>) {
    && (v.tstat.Dormant? ==>
          ms == [] && !v.raster && v.enater && !v.wupque && t < |c.ipriority| && v.bpriority == c.ipriority[t])
    && (v.raster ==> Runs(v))
    && (Waits(v) ==> v.winfo.TimeBlock? && (v.tstat.wait == Delay ==> v.winfo.registered))
    && (Waits(v) && v.tstat.wait.OnObject? ==> v.tstat.wait.obj !in ms)
  }

  /** The current priority is the base priority or a higher ceiling of a mutex held. */
  ghost predicate TaskOk(c: Config, t: nat, v: Tcb, ms: seq<nat>) {
    && v.priority == CeilingOf(c, ms, v.bpriority)
    && UnderCeilings(c, v, ms)
    && StatOk(c, t, v, ms)
  }

  ghost predicate TasksOk(c: Config, tcb: seq<Tcb>, held: seq<seq<nat>>, off: set<nat>, late: Option<nat>) {
    && |held| == |tcb|
    && forall t: nat :: t < |tcb| && t !in off && Some(t) != late ==> TaskOk(c, t, tcb[t], held[t])
  }

  ghost predicate Core(c: Config, s: State, off: set<nat>, late: Option<nat>, free: Option<nat>) {
    && GoodConfig(c) && Sized(c, s) && TcbsShape(c, s.tcb)
    && ReadyOk(s.tcb, s.ready, off) && QueuesOk(c, s.tcb, s.waitq, off) && TimersOk(s.tcb, s.timers, off)
    && HeldOk(c, s.held) && WaitedOwned(c, s.waitq, s.held, free)
    && TasksOk(c, s.tcb, s.held, off, late)
  }

  // ---------- The running task ----------

  /** A termination request on a task that allows it is pending only for the running task, and
      only while dispatching is off. */
  ghost predicate NoneOverdue(s: State) {
    forall t: nat :: t < |s.tcb| && s.tcb[t].raster && s.tcb[t].enater ==> Some(t) == s.runtsk && !Dispatching(s)
  }

  ghost predicate RunOk(s: State) {
    && (s.runtsk.Some? ==> Runnable(s, s.runtsk.value))
    && (!Dispatching(s) ==> s.runtsk.Some?)
    && (!s.inHandler ==> s.runtsk == Scheduled(s))
    && NoneOverdue(s)
  }

  ghost predicate Inv(c: Config, s: State) {
    Core(c, s, {}, None, None) && RunOk(s)
  }

  // ---------- Priorities ----------

  lemma {:induction false} CeilingBounds(c: Config, ms: seq<nat>, b: nat)
    ensures CeilingOf(c, ms, b) <= b
    ensures forall m: nat :: m in ms && m < |c.obj| && c.obj[m].ceiling.Some? ==>
              CeilingOf(c, ms, b) <= c.obj[m].ceiling.value
    ensures CeilingOf(c, ms, b) == b ||
            exists m: nat :: m in ms && m < |c.obj| && c.obj[m].ceiling.Some? &&
                             CeilingOf(c, ms, b) == c.obj[m].ceiling.value
  {
    if ms != [] {
      CeilingBounds(c, ms[1..], b);
      assert ms == [ms[0]] + ms[1..];
    }
  }

  // ---------- Changing a task that is in no queue ----------

  lemma ReadySet(tcb: seq<Tcb>, ready: seq<nat>, t: nat, v: Tcb, off: set<nat>)
    requires t < |tcb| && ReadyOk(tcb, ready, off) && t in off
    ensures ReadyOk(tcb[t := v], ready, off)
  {
    SortedAgrees(ready, Prios(tcb), Prios(tcb[t := v]));
  }

  lemma QueueSet(tpri: bool, tcb: seq<Tcb>, q: seq<nat>, o: nat, t: nat, v: Tcb, off: set<nat>)
    requires t < |tcb| && QueueOk(tpri, tcb, q, o, off) && t in off
    ensures QueueOk(tpri, tcb[t := v], q, o, off)
  {
    if tpri {
      SortedAgrees(q, Prios(tcb), Prios(tcb[t := v]));
    }
  }

  lemma QueuesSet(c: Config, tcb: seq<Tcb>, waitq: seq<seq<nat>>, t: nat, v: Tcb, off: set<nat>)
    requires t < |tcb| && QueuesOk(c, tcb, waitq, off) && t in off
    ensures QueuesOk(c, tcb[t := v], waitq, off)
  {
    forall o: nat | o < |c.obj|
      ensures QueueOk(c.obj[o].tpri, tcb[t := v], waitq[o], o, off)
    {
      QueueSet(c.obj[o].tpri, tcb, waitq[o], o, t, v, off);
    }
  }

  lemma SetOff(c: Config, s: State, t: nat, v: Tcb, off: set<nat>, late: Option<nat>, free: Option<nat>)
    requires Core(c, s, off, late, free) && Is(s, t) && t in off && TcbShape(c, v)
    ensures Core(c, SetTcb(s, t, v), off, late, free)
  {
    ReadySet(s.tcb, s.ready, t, v, off);
    QueuesSet(c, s.tcb, s.waitq, t, v, off);
  }

  // ---------- Taking a task out of its queues ----------

  lemma ReadyDetach(tcb: seq<Tcb>, ready: seq<nat>, t: nat, off: set<nat>)
    requires t < |tcb| && t !in off && ReadyOk(tcb, ready, off)
    ensures ReadyOk(tcb, if Runs(tcb[t]) then Without(ready, t) else ready, off + {t})
  {
    if Runs(tcb[t]) {
      WithoutContents(ready, t);
      WithoutSorted(ready, Prios(tcb), t);
    }
  }

  lemma QueueDetach(tpri: bool, tcb: seq<Tcb>, q: seq<nat>, o: nat, t: nat, off: set<nat>)
    requires t < |tcb| && t !in off && QueueOk(tpri, tcb, q, o, off) && WaitsFor(tcb[t], o)
    ensures q != [] && QueueOk(tpri, tcb, Without(q, t), o, off + {t})
  {
    WithoutContents(q, t);
    if tpri {
      WithoutSorted(q, Prios(tcb), t);
    }
  }

  lemma QueuesDetach(c: Config, tcb: seq<Tcb>, waitq: seq<seq<nat>>, t: nat, o: nat, off: set<nat>)
    requires t < |tcb| && t !in off && QueuesOk(c, tcb, waitq, off)
    requires o < |c.obj| && WaitsFor(tcb[t], o)
    ensures QueuesOk(c, tcb, waitq[o := Without(waitq[o], t)], off + {t})
    ensures waitq[o] != []
  {
    QueueDetach(c.obj[o].tpri, tcb, waitq[o], o, t, off);
    forall o': nat | o' < |c.obj| && o' != o
      ensures QueueOk(c.obj[o'].tpri, tcb, waitq[o'], o', off + {t})
    {
      assert QueueOk(c.obj[o'].tpri, tcb, waitq[o'], o', off);
    }
  }

  /** A task that waits for no object is in no wait queue. */
  lemma QueuesOff(c: Config, tcb: seq<Tcb>, waitq: seq<seq<nat>>, t: nat, off: set<nat>)
    requires t < |tcb| && !(tcb[t].tstat.Alive? && tcb[t].tstat.wait.OnObject?)
    ensures QueuesOk(c, tcb, waitq, off) <==> QueuesOk(c, tcb, waitq, off + {t})
  {
    if QueuesOk(c, tcb, waitq, off) {
      forall o: nat | o < |c.obj|
        ensures QueueOk(c.obj[o].tpri, tcb, waitq[o], o, off + {t})
      {
        assert QueueOk(c.obj[o].tpri, tcb, waitq[o], o, off);
      }
    }
    if QueuesOk(c, tcb, waitq, off + {t}) {
      forall o: nat | o < |c.obj|
        ensures QueueOk(c.obj[o].tpri, tcb, waitq[o], o, off)
      {
        assert QueueOk(c.obj[o].tpri, tcb, waitq[o], o, off + {t});
      }
    }
  }

  lemma WaitedDetach(c: Config, waitq: seq<seq<nat>>, held: seq<seq<nat>>, free: Option<nat>, o: nat, q: seq<nat>)
    requires WaitedOwned(c, waitq, held, free) && o < |waitq|
    requires q != [] ==> waitq[o] != []
    ensures WaitedOwned(c, waitq[o := q], held, free)
  {
  }

  lemma DetachFromQueue(c: Config, s: State, t: nat, o: nat, off: set<nat>, late: Option<nat>, free: Option<nat>)
    requires Core(c, s, off, late, free) && Is(s, t) && t !in off && WaitsFor(s.tcb[t], o)
    ensures o < |c.obj| && Core(c, StopTimer(SetQueue(s, o, Without(s.waitq[o], t)), t), off + {t}, late, free)
  {
    assert TcbShape(c, s.tcb[t]);
    ReadyDetach(s.tcb, s.ready, t, off);
    QueuesDetach(c, s.tcb, s.waitq, t, o, off);
    WaitedDetach(c, s.waitq, s.held, free, o, Without(s.waitq[o], t));
  }

  lemma DetachFromReady(c: Config, s: State, t: nat, off: set<nat>, late: Option<nat>, free: Option<nat>)
    requires Core(c, s, off, late, free) && Runnable(s, t) && t !in off
    ensures Core(c, MakeNonRunnable(s, t), off + {t}, late, free)
  {
    ReadyDetach(s.tcb, s.ready, t, off);
    QueuesOff(c, s.tcb, s.waitq, t, off);
  }

  lemma DetachTimer(c: Config, s: State, t: nat, off: set<nat>, late: Option<nat>, free: Option<nat>)
    requires Core(c, s, off, late, free) && Is(s, t) && !Runs(s.tcb[t]) && t !in off
    requires !(s.tcb[t].tstat.Alive? && s.tcb[t].tstat.wait.OnObject?)
    ensures Core(c, StopTimer(s, t), off + {t}, late, free)
    ensures !Waits(s.tcb[t]) ==> StopTimer(s, t) == s
  {
    ReadyDetach(s.tcb, s.ready, t, off);
    QueuesOff(c, s.tcb, s.waitq, t, off);
    if !Waits(s.tcb[t]) {
      assert t !in s.timers && s.timers - {t} == s.timers;
    }
  }

  lemma DetachCore(c: Config, s: State, t: nat, off: set<nat>, late: Option<nat>, free: Option<nat>)
    requires Core(c, s, off, late, free) && Is(s, t) && t !in off
    ensures Core(c, Detach(s, t), off + {t}, late, free)
  {
    var s' := Detach(s, t);
    if s.tcb[t].tstat.Alive? && s.tcb[t].tstat.wait.OnObject? {
      var o := s.tcb[t].tstat.wait.obj;
      DetachFromQueue(c, s, t, o, off, late, free);
      assert s' == StopTimer(SetQueue(s, o, Without(s.waitq[o], t)), t);
    } else if Runs(s.tcb[t]) {
      DetachFromReady(c, s, t, off, late, free);
      assert s' == MakeNonRunnable(s, t);
    } else {
      DetachTimer(c, s, t, off, late, free);
      assert s' == StopTimer(s, t);
    }
  }

  // ---------- Putting a task into the queue its state names ----------

  lemma ReadyAttach(tcb: seq<Tcb>, ready: seq<nat>, t: nat, front: bool, off: set<nat>)
    requires t < |tcb| && t !in off && ReadyOk(tcb, ready, off + {t})
    ensures ReadyOk(tcb, if Runs(tcb[t]) then Insert(ready, Prios(tcb), t, front) else ready, off)
  {
    if Runs(tcb[t]) {
      InsertContents(ready, Prios(tcb), t, front);
      InsertSorted(ready, Prios(tcb), t, front);
    }
  }

  /** The queue after a task has joined it. */
  function Joined(tpri: bool, tcb: seq<Tcb>, q: seq<nat>, t: nat): seq<nat> {
    if tpri then Insert(q, Prios(tcb), t, false) else q + [t]
  }

  lemma QueueAttach(tpri: bool, tcb: seq<Tcb>, q: seq<nat>, o: nat, t: nat, off: set<nat>)
    requires t < |tcb| && t !in off && QueueOk(tpri, tcb, q, o, off + {t}) && WaitsFor(tcb[t], o)
    ensures QueueOk(tpri, tcb, Joined(tpri, tcb, q, t), o, off)
  {
    if tpri {
      InsertContents(q, Prios(tcb), t, false);
      InsertSorted(q, Prios(tcb), t, false);
    }
  }

  lemma QueuesAttach(c: Config, tcb: seq<Tcb>, waitq: seq<seq<nat>>, t: nat, o: nat, off: set<nat>)
    requires t < |tcb| && t !in off && QueuesOk(c, tcb, waitq, off + {t})
    requires o < |c.obj| && WaitsFor(tcb[t], o)
    ensures QueuesOk(c, tcb, waitq[o := Joined(c.obj[o].tpri, tcb, waitq[o], t)], off)
  {
    QueueAttach(c.obj[o].tpri, tcb, waitq[o], o, t, off);
    forall o': nat | o' < |c.obj| && o' != o
      ensures QueueOk(c.obj[o'].tpri, tcb, waitq[o'], o', off)
    {
      assert QueueOk(c.obj[o'].tpri, tcb, waitq[o'], o', off + {t});
    }
  }

  /** A task that is made runnable, suspended or dormant. */
  lemma AttachCore(c: Config, s: State, t: nat, off: set<nat>, late: Option<nat>, free: Option<nat>)
    requires Core(c, s, off + {t}, late, free) && Is(s, t) && t !in off && !Waits(s.tcb[t])
    requires late == Some(t) || TaskOk(c, t, s.tcb[t], s.held[t])
    ensures Core(c, if Runs(s.tcb[t]) then MakeRunnable(s, t) else s, off, late, free)
  {
    ReadyAttach(s.tcb, s.ready, t, false, off);
    QueuesOff(c, s.tcb, s.waitq, t, off);
  }

  /** A task that goes into a wait. */
  lemma AttachWaiting(c: Config, s: State, t: nat, limited: bool)
    requires Core(c, s, {t}, None, None) && Is(s, t) && Waits(s.tcb[t])
    requires TaskOk(c, t, s.tcb[t], s.held[t]) && s.tcb[t].winfo == TimeBlock(limited)
    requires s.tcb[t].tstat.wait.OnObject? && c.obj[s.tcb[t].tstat.wait.obj].mutex ==>
               Owned(s.held, s.tcb[t].tstat.wait.obj)
    ensures Core(c, JoinQueue(c, if limited then s.(timers := s.timers + {t}) else s, t, s.tcb[t].tstat.wait),
                 {}, None, None)
  {
    assert {} + {t} == {t};
    ReadyAttach(s.tcb, s.ready, t, false, {});
    match s.tcb[t].tstat.wait
    case OnObject(o) =>
      QueuesAttach(c, s.tcb, s.waitq, t, o, {});
    case _ =>
      QueuesOff(c, s.tcb, s.waitq, t, {});
  }

  // ---------- Moving a task whose priority changes ----------

  lemma QueuesMove(c: Config, tcb: seq<Tcb>, waitq: seq<seq<nat>>, t: nat, o: nat, v: Tcb)
    requires t < |tcb| && QueuesOk(c, tcb, waitq, {})
    requires o < |c.obj| && WaitsFor(tcb[t], o) && v.tstat == tcb[t].tstat
    ensures QueuesOk(c, tcb[t := v],
              if c.obj[o].tpri then waitq[o := Insert(Without(waitq[o], t), Prios(tcb[t := v]), t, false)]
              else waitq, {})
    ensures waitq[o] != []
  {
    var q := Without(waitq[o], t);
    assert {} + {t} == {t};
    QueuesDetach(c, tcb, waitq, t, o, {});
    QueuesSet(c, tcb, waitq[o := q], t, v, {t});
    if c.obj[o].tpri {
      QueuesAttach(c, tcb[t := v], waitq[o := q], t, o, {});
      assert waitq[o := q][o := Insert(q, Prios(tcb[t := v]), t, false)] ==
             waitq[o := Insert(q, Prios(tcb[t := v]), t, false)];
    } else {
      forall o': nat | o' < |c.obj|
        ensures QueueOk(c.obj[o'].tpri, tcb[t := v], waitq[o'], o', {})
      {
        assert QueueOk(c.obj[o'].tpri, tcb, waitq[o'], o', {});
        if o' != o {
          assert QueueOk(c.obj[o'].tpri, tcb[t := v], waitq[o := q][o'], o', {t});
        }
      }
    }
  }

  /** A task in no wait queue stays in none when its priority changes. */
  lemma StaysOut(c: Config, tcb: seq<Tcb>, waitq: seq<seq<nat>>, t: nat, v: Tcb)
    requires t < |tcb| && QueuesOk(c, tcb, waitq, {}) && v.tstat == tcb[t].tstat
    requires !(v.tstat.Alive? && v.tstat.wait.OnObject?)
    ensures QueuesOk(c, tcb[t := v], waitq, {})
  {
    QueuesOff(c, tcb, waitq, t, {});
    QueuesSet(c, tcb, waitq, t, v, {} + {t});
    QueuesOff(c, tcb[t := v], waitq, t, {});
  }

  /** A task that is not runnable stays out of the ready queue when its priority changes. */
  lemma StaysUnready(tcb: seq<Tcb>, ready: seq<nat>, t: nat, v: Tcb)
    requires t < |tcb| && ReadyOk(tcb, ready, {}) && v.tstat == tcb[t].tstat && !Runs(v)
    ensures ReadyOk(tcb[t := v], ready, {})
  {
    ReadyDetach(tcb, ready, t, {});
    ReadySet(tcb, ready, t, v, {} + {t});
    ReadyAttach(tcb[t := v], ready, t, false, {});
  }

  lemma ReadyMoves(tcb: seq<Tcb>, ready: seq<nat>, t: nat, v: Tcb, front: bool)
    requires t < |tcb| && ReadyOk(tcb, ready, {}) && Runs(tcb[t]) && v.tstat == tcb[t].tstat
    ensures ReadyOk(tcb[t := v], Insert(Without(ready, t), Prios(tcb[t := v]), t, front), {})
  {
    ReadyDetach(tcb, ready, t, {});
    ReadySet(tcb, Without(ready, t), t, v, {} + {t});
    ReadyAttach(tcb[t := v], Without(ready, t), t, front, {});
  }

  lemma MoveInReady(c: Config, s: State, t: nat, newpri: nat, front: bool, free: Option<nat>)
    requires Core(c, s, {}, Some(t), free) && Runnable(s, t) && newpri < TNUM_TPRI
    ensures Core(c, ChangePriority(c, s, t, newpri, front), {}, Some(t), free)
  {
    var v := s.tcb[t].(priority := newpri);
    ReadyMoves(s.tcb, s.ready, t, v, front);
    StaysOut(c, s.tcb, s.waitq, t, v);
    assert ChangePriority(c, s, t, newpri, front) ==
           s.(tcb := s.tcb[t := v], ready := Insert(Without(s.ready, t), Prios(s.tcb[t := v]), t, front));
  }

  lemma MoveBlocked(c: Config, s: State, t: nat, newpri: nat, waitq: seq<seq<nat>>, free: Option<nat>)
    requires Core(c, s, {}, Some(t), free) && Is(s, t) && !Runs(s.tcb[t]) && newpri < TNUM_TPRI
    requires QueuesOk(c, s.tcb[t := s.tcb[t].(priority := newpri)], waitq, {})
    requires WaitedOwned(c, waitq, s.held, free)
    ensures Core(c, s.(tcb := s.tcb[t := s.tcb[t].(priority := newpri)], waitq := waitq), {}, Some(t), free)
  {
    StaysUnready(s.tcb, s.ready, t, s.tcb[t].(priority := newpri));
  }

  lemma MoveInQueue(c: Config, s: State, t: nat, newpri: nat, front: bool, free: Option<nat>)
    requires Core(c, s, {}, Some(t), free) && Is(s, t) && newpri < TNUM_TPRI
    requires s.tcb[t].tstat.Alive? && s.tcb[t].tstat.wait.OnObject?
    ensures Core(c, ChangePriority(c, s, t, newpri, front), {}, Some(t), free)
  {
    var v := s.tcb[t].(priority := newpri);
    var o := s.tcb[t].tstat.wait.obj;
    assert TcbShape(c, s.tcb[t]);
    QueuesMove(c, s.tcb, s.waitq, t, o, v);
    var q := Insert(Without(s.waitq[o], t), Prios(s.tcb[t := v]), t, false);
    var waitq := if c.obj[o].tpri then s.waitq[o := q] else s.waitq;
    WaitedDetach(c, s.waitq, s.held, free, o, q);
    MoveBlocked(c, s, t, newpri, waitq, free);
    assert ChangePriority(c, s, t, newpri, front) == s.(tcb := s.tcb[t := v], waitq := waitq);
  }

  lemma MoveNowhere(c: Config, s: State, t: nat, newpri: nat, front: bool, free: Option<nat>)
    requires Core(c, s, {}, Some(t), free) && Is(s, t) && newpri < TNUM_TPRI
    requires !Runnable(s, t) && !(s.tcb[t].tstat.Alive? && s.tcb[t].tstat.wait.OnObject?)
    ensures Core(c, ChangePriority(c, s, t, newpri, front), {}, Some(t), free)
  {
    var v := s.tcb[t].(priority := newpri);
    StaysOut(c, s.tcb, s.waitq, t, v);
    MoveBlocked(c, s, t, newpri, s.waitq, free);
    assert ChangePriority(c, s, t, newpri, front) == s.(tcb := s.tcb[t := v], waitq := s.waitq);
  }

  lemma ChangePriorityCore(c: Config, s: State, t: nat, newpri: nat, mtxmode: bool, free: Option<nat>)
    requires Core(c, s, {}, Some(t), free) && Is(s, t) && newpri < TNUM_TPRI
    ensures Core(c, ChangePriority(c, s, t, newpri, mtxmode), {}, Some(t), free)
  {
    if Runnable(s, t) {
      MoveInReady(c, s, t, newpri, mtxmode, free);
    } else if s.tcb[t].tstat.Alive? && s.tcb[t].tstat.wait.OnObject? {
      MoveInQueue(c, s, t, newpri, mtxmode, free);
    } else {
      MoveNowhere(c, s, t, newpri, mtxmode, free);
    }
  }

  // ---------- Mutexes ----------

  lemma Settled(c: Config, s: State, t: nat, free: Option<nat>)
    requires Core(c, s, {}, Some(t), free) && Is(s, t) && TaskOk(c, t, s.tcb[t], s.held[t])
    ensures Core(c, s, {}, None, free)
  {
  }

  lemma ReprioritizeCore(c: Config, s: State, t: nat, free: Option<nat>)
    requires Core(c, s, {}, Some(t), free) && Is(s, t)
    requires UnderCeilings(c, s.tcb[t], s.held[t]) && StatOk(c, t, s.tcb[t], s.held[t])
    ensures Core(c, Reprioritize(c, s, t), {}, None, free)
  {
    var p := CeilingOf(c, s.held[t], s.tcb[t].bpriority);
    if p != s.tcb[t].priority {
      ReprioritizeMoves(c, s, t, p, free);
    } else {
      Settled(c, s, t, free);
    }
  }

  lemma ReprioritizeMoves(c: Config, s: State, t: nat, p: nat, free: Option<nat>)
    requires Core(c, s, {}, Some(t), free) && Is(s, t) && p == CeilingOf(c, s.held[t], s.tcb[t].bpriority)
    requires UnderCeilings(c, s.tcb[t], s.held[t]) && StatOk(c, t, s.tcb[t], s.held[t])
    ensures Core(c, ChangePriority(c, s, t, p, true), {}, None, free)
  {
    CeilingBounds(c, s.held[t], s.tcb[t].bpriority);
    assert TcbShape(c, s.tcb[t]);
    ChangePriorityCore(c, s, t, p, true, free);
    ChangePriorityOf(c, s, t, p, true);
    Settled(c, ChangePriority(c, s, t, p, true), t, free);
  }

  /** Of the tasks and mutexes, only the priority of `t` changes. */
  lemma ChangePriorityOf(c: Config, s: State, t: nat, p: nat, mtxmode: bool)
    requires Is(s, t) && |s.waitq| == |c.obj|
    ensures var s' := ChangePriority(c, s, t, p, mtxmode);
            s' == s.(tcb := s.tcb[t := s.tcb[t].(priority := p)], ready := s'.ready, waitq := s'.waitq)
  {
  }

  lemma HeldIsMutex(c: Config, held: seq<seq<nat>>, t: nat, m: nat)
    requires HeldOk(c, held) && t < |held| && m in held[t]
    ensures m < |c.obj| && c.obj[m].mutex
  {
  }

  lemma HeldAfterPop(c: Config, held: seq<seq<nat>>, t: nat, ms: seq<nat>)
    requires HeldOk(c, held) && t < |held| && NoDuplicates(ms)
    requires forall m: nat :: m in ms ==> m in held[t]
    ensures HeldOk(c, held[t := ms])
    ensures forall m: nat :: Owned(held[t := ms], m) ==> Owned(held, m)
    ensures forall m: nat :: Owned(held, m) && (m in held[t] ==> m in ms) ==> Owned(held[t := ms], m)
    ensures forall m: nat :: m in held[t] && m !in ms ==> !Owned(held[t := ms], m)
  {
    var h := held[t := ms];
    forall x: nat | x < |h|
      ensures NoDuplicates(h[x])
    {
      assert NoDuplicates(held[x]);
    }
    forall t1: nat, t2: nat, m: nat {:trigger m in h[t1], m in h[t2]} | t1 < |h| && t2 < |h| && m in h[t1] && m in h[t2]
      ensures t1 == t2
    {
      assert m in held[t1] && m in held[t2];
    }
    forall x: nat, m: nat {:trigger m in h[x]} | x < |h| && m in h[x]
      ensures m < |c.obj| && c.obj[m].mutex
    {
      HeldIsMutex(c, held, x, m);
    }
    forall m: nat | Owned(h, m)
      ensures Owned(held, m)
    {
      var x :| 0 <= x < |h| && m in h[x];
      assert m in held[x];
    }
    forall m: nat | Owned(held, m) && (m in held[t] ==> m in ms)
      ensures Owned(h, m)
    {
      var x :| 0 <= x < |held| && m in held[x];
      assert m in h[x];
    }
  }

  lemma PushedContents(held: seq<seq<nat>>, t: nat, m: nat, x: nat, y: nat)
    requires t < |held| && x < |held|
    ensures y in held[t := [m] + held[t]][x] <==> y in held[x] || (x == t && y == m)
  {
    assert y in [m] + held[t] <==> y == m || y in held[t];
  }

  lemma PushedNoDuplicates(q: seq<nat>, m: nat)
    requires NoDuplicates(q) && m !in q
    ensures NoDuplicates([m] + q)
  {
    var r := [m] + q;
    assert forall j :: 0 < j < |r| ==> r[j] == q[j - 1] && r[j] in q;
  }

  lemma OwnedAfterPush(held: seq<seq<nat>>, t: nat, m: nat)
    requires t < |held|
    ensures Owned(held[t := [m] + held[t]], m)
    ensures forall x: nat :: Owned(held, x) ==> Owned(held[t := [m] + held[t]], x)
  {
    var h := held[t := [m] + held[t]];
    PushedContents(held, t, m, t, m);
    forall x: nat | Owned(held, x)
      ensures Owned(h, x)
    {
      var y :| 0 <= y < |held| && x in held[y];
      PushedContents(held, t, m, y, x);
    }
  }

  ghost predicate OneHolderEach(held: seq<seq<nat>>) {
    forall t1: nat, t2: nat, m: nat {:trigger m in held[t1], m in held[t2]} ::
      t1 < |held| && t2 < |held| && m in held[t1] && m in held[t2] ==> t1 == t2
  }

  lemma OneHolderAfterPush(held: seq<seq<nat>>, t: nat, m: nat)
    requires OneHolderEach(held) && t < |held| && !Owned(held, m)
    ensures OneHolderEach(held[t := [m] + held[t]])
  {
    var h := held[t := [m] + held[t]];
    forall t1: nat, t2: nat, y: nat {:trigger y in h[t1], y in h[t2]} | t1 < |h| && t2 < |h| && y in h[t1] && y in h[t2]
      ensures t1 == t2
    {
      PushedContents(held, t, m, t1, y);
      PushedContents(held, t, m, t2, y);
      if y == m {
        assert m !in held[t1] && m !in held[t2];
      }
    }
  }

  ghost predicate OnlyMutexes(c: Config, held: seq<seq<nat>>) {
    forall t: nat, m: nat {:trigger m in held[t]} :: t < |held| && m in held[t] ==> m < |c.obj| && c.obj[m].mutex
  }

  lemma MutexesAfterPush(c: Config, held: seq<seq<nat>>, t: nat, m: nat)
    requires HeldOk(c, held) && t < |held| && m < |c.obj| && c.obj[m].mutex
    ensures OnlyMutexes(c, held[t := [m] + held[t]])
  {
    var h := held[t := [m] + held[t]];
    forall x: nat, y: nat {:trigger y in h[x]} | x < |h| && y in h[x]
      ensures y < |c.obj| && c.obj[y].mutex
    {
      PushedContents(held, t, m, x, y);
      if y in held[x] {
        HeldIsMutex(c, held, x, y);
      }
    }
  }

  lemma HeldAfterPush(c: Config, held: seq<seq<nat>>, t: nat, m: nat)
    requires HeldOk(c, held) && t < |held| && !Owned(held, m) && m < |c.obj| && c.obj[m].mutex
    ensures HeldOk(c, held[t := [m] + held[t]])
  {
    OneHolderAfterPush(held, t, m);
    MutexesAfterPush(c, held, t, m);
    PushedNoDuplicates(held[t], m);
  }

  /** Taking mutex `m`, the last one locked, from its holder. */
  lemma PopCore(c: Config, s: State, t: nat, off: set<nat>)
    requires Core(c, s, off, None, None) && Is(s, t) && s.held[t] != []
    ensures Core(c, SetHeld(s, t, s.held[t][1..]), off, Some(t), Some(s.held[t][0]))
  {
    TailContents(s.held[t]);
    HeldAfterPop(c, s.held, t, s.held[t][1..]);
  }

  lemma PushCore(c: Config, s: State, t: nat, m: nat, off: set<nat>, late: Option<nat>, free: Option<nat>)
    requires Core(c, s, off, late, free) && Is(s, t) && !Owned(s.held, m) && m < |c.obj| && c.obj[m].mutex
    requires free == None || free == Some(m)
    requires t in off || late == Some(t) || late == None
    ensures Core(c, SetHeld(s, t, [m] + s.held[t]), off, if t in off then late else Some(t), None)
  {
    HeldAfterPush(c, s.held, t, m);
    OwnedAfterPush(s.held, t, m);
  }

  /** The waiting task as it leaves the queue of mutex `m`. */
  function NewHolder(c: Config, v: Tcb, ms: seq<nat>): Tcb {
    v.(winfo := Wercd(E_OK), priority := CeilingOf(c, ms, v.bpriority))
  }

  function Woken(v: Tcb): Tcb
    requires v.tstat.Alive?
  {
    v.(tstat := Alive(NoWait, v.tstat.suspended))
  }

  lemma HandOverSteps(c: Config, s: State, m: nat, t: nat)
    requires |s.held| == |s.tcb| && |s.waitq| == |c.obj| && m < |c.obj| && s.waitq[m] != []
    requires Is(s, t) && s.tcb[t].tstat.Alive?
    ensures var s1 := SetHeld(StopTimer(SetQueue(s, m, s.waitq[m][1..]), t), t, [m] + s.held[t]);
            var s2 := SetTcb(s1, t, Woken(NewHolder(c, s.tcb[t], [m] + s.held[t])));
            HandOver(c, s, m, t) == if Runs(s2.tcb[t]) then MakeRunnable(s2, t) else s2
  {
    var v := s.tcb[t];
    var v1 := v.(winfo := Wercd(E_OK));
    var v2 := NewHolder(c, v, [m] + s.held[t]);
    assert s.tcb[t := v1][t := v2] == s.tcb[t := v2];
    assert s.tcb[t := v2][t := Woken(v2)] == s.tcb[t := Woken(v2)];
  }

  lemma NewHolderOk(c: Config, t: nat, v: Tcb, ms: seq<nat>, m: nat)
    requires TaskOk(c, t, v, ms) && WaitsFor(v, m) && TcbShape(c, v)
    ensures TaskOk(c, t, Woken(NewHolder(c, v, [m] + ms)), [m] + ms)
    ensures TcbShape(c, Woken(NewHolder(c, v, [m] + ms)))
  {
    CeilingBounds(c, [m] + ms, v.bpriority);
  }

  lemma HandOverCore(c: Config, s: State, m: nat, t: nat, off: set<nat>)
    requires Core(c, s, off, None, Some(m)) && m < |c.obj| && c.obj[m].mutex
    requires s.waitq[m] != [] && t == s.waitq[m][0]
    ensures Is(s, t) && t !in off && WaitsFor(s.tcb[t], m) && Core(c, HandOver(c, s, m, t), off, None, None)
  {
    assert QueueOk(c.obj[m].tpri, s.tcb, s.waitq[m], m, off);
    assert t in s.waitq[m];
    TailContents(s.waitq[m]);
    DetachFromQueue(c, s, t, m, off, None, Some(m));
    var s1 := StopTimer(SetQueue(s, m, s.waitq[m][1..]), t);
    PushCore(c, s1, t, m, off + {t}, None, Some(m));
    var s2 := SetHeld(s1, t, [m] + s.held[t]);
    var v := Woken(NewHolder(c, s.tcb[t], [m] + s.held[t]));
    NewHolderOk(c, t, s.tcb[t], s.held[t], m);
    SetOff(c, s2, t, v, off + {t}, None, None);
    AttachCore(c, SetTcb(s2, t, v), t, off, None, None);
    HandOverSteps(c, s, m, t);
  }

  lemma ReleaseCore(c: Config, s: State, m: nat, off: set<nat>)
    requires Core(c, s, off, None, Some(m)) && m < |c.obj| && c.obj[m].mutex
    ensures Core(c, Release(c, s, m), off, None, None)
  {
    if s.waitq[m] != [] {
      HandOverCore(c, s, m, s.waitq[m][0], off);
    }
  }

  // ---------- What an operation leaves alone ----------

  ghost predicate Same(v: Tcb, v': Tcb) {
    && v'.raster == v.raster && v'.enater == v.enater && (Runs(v) ==> Runs(v'))
    && v'.actque == v.actque && (v'.tstat.Dormant? <==> v.tstat.Dormant?)
  }

  /** Other tasks keep running, and their termination and activation requests are untouched. */
  ghost predicate Undisturbed(s: State, s': State, except: set<nat>) {
    && |s'.tcb| == |s.tcb|
    && s'.runtsk == s.runtsk && s'.enadsp == s.enadsp && s'.ipmOpen == s.ipmOpen && s'.inHandler == s.inHandler
    && forall x: nat :: x < |s.tcb| && x !in except ==> Same(s.tcb[x], s'.tcb[x])
  }

  lemma HandOverUndisturbed(c: Config, s: State, m: nat, t: nat)
    requires |s.held| == |s.tcb| && |s.waitq| == |c.obj| && m < |c.obj| && s.waitq[m] != []
    requires Is(s, t) && WaitsFor(s.tcb[t], m)
    ensures Undisturbed(s, HandOver(c, s, m, t), {})
    ensures forall x: nat :: x < |s.held| && x != t ==> HandOver(c, s, m, t).held[x] == s.held[x]
  {
    HandOverSteps(c, s, m, t);
  }

  lemma ReleaseUndisturbed(c: Config, s: State, m: nat, off: set<nat>)
    requires Core(c, s, off, None, Some(m)) && m < |c.obj| && c.obj[m].mutex
    ensures Undisturbed(s, Release(c, s, m), {})
    ensures forall x: nat :: x in off && x < |s.held| ==> Release(c, s, m).held[x] == s.held[x]
  {
    if s.waitq[m] != [] {
      HandOverCore(c, s, m, s.waitq[m][0], off);
      HandOverUndisturbed(c, s, m, s.waitq[m][0]);
    }
  }

  // ---------- Termination ----------

  lemma ReleaseOneCore(c: Config, s: State, t: nat)
    requires Core(c, s, {t}, None, None) && Is(s, t) && s.held[t] != []
    ensures var m := s.held[t][0];
            var s1 := SetHeld(s, t, s.held[t][1..]);
            NoDuplicates(s.held[t]) && m < |c.obj| && Core(c, s1, {t}, None, Some(m)) &&
            Core(c, Release(c, s1, m), {t}, None, None) && Undisturbed(s, Release(c, s1, m), {}) &&
            Release(c, s1, m).held[t] == s.held[t][1..]
  {
    var m := s.held[t][0];
    HeldIsMutex(c, s.held, t, m);
    PopCore(c, s, t, {t});
    var s1 := SetHeld(s, t, s.held[t][1..]);
    OffIsNotLate(c, s1, t, Some(m));
    ReleaseCore(c, s1, m, {t});
    ReleaseUndisturbed(c, s1, m, {t});
  }

  lemma {:induction false} ReleaseLastCore(c: Config, s: State, t: nat, n: nat)
    requires Core(c, s, {t}, None, None) && Is(s, t) && n == |s.held[t]|
    ensures Core(c, ReleaseLast(c, s, t, n), {t}, None, None)
    ensures ReleaseLast(c, s, t, n).held[t] == []
    decreases n
  {
    if n != 0 {
      ReleaseOneCore(c, s, t);
      var s1 := Release(c, SetHeld(s, t, s.held[t][1..]), s.held[t][0]);
      assert |s1.held[t]| == n - 1;
      ReleaseLastCore(c, s1, t, n - 1);
      assert ReleaseLast(c, s, t, n) == ReleaseLast(c, s1, t, n - 1);
    }
  }

  lemma {:induction false} ReleaseLastUndisturbed(c: Config, s: State, t: nat, n: nat)
    requires Core(c, s, {t}, None, None) && Is(s, t) && n == |s.held[t]|
    ensures Undisturbed(s, ReleaseLast(c, s, t, n), {})
    decreases n
  {
    if n != 0 {
      ReleaseOneCore(c, s, t);
      var s1 := Release(c, SetHeld(s, t, s.held[t][1..]), s.held[t][0]);
      assert |s1.held[t]| == n - 1;
      ReleaseLastUndisturbed(c, s1, t, n - 1);
      assert ReleaseLast(c, s, t, n) == ReleaseLast(c, s1, t, n - 1);
      UndisturbedTwice(s, s1, ReleaseLast(c, s1, t, n - 1));
    }
  }

  lemma OffIsNotLate(c: Config, s: State, t: nat, free: Option<nat>)
    requires Core(c, s, {t}, Some(t), free)
    ensures Core(c, s, {t}, None, free)
  {
  }

  lemma DormantOk(c: Config, t: nat, v: Tcb)
    requires GoodConfig(c) && t < |c.ipriority|
    ensures var d := v.(tstat := Dormant, bpriority := c.ipriority[t], priority := c.ipriority[t],
                        wupque := false, raster := false, enater := true);
            TaskOk(c, t, d, []) && TcbShape(c, d) &&
            TaskOk(c, t, d.(actque := false, tstat := Alive(NoWait, false)), []) &&
            TcbShape(c, d.(actque := false, tstat := Alive(NoWait, false)))
  {
  }

  lemma RestartCore(c: Config, s: State, t: nat)
    requires Core(c, s, {t}, None, None) && Is(s, t) && s.held[t] == []
    ensures Core(c, Restart(c, s, t), {}, None, None)
  {
    var d := s.tcb[t].(tstat := Dormant, bpriority := c.ipriority[t], priority := c.ipriority[t],
                       wupque := false, raster := false, enater := true);
    var a := d.(actque := false, tstat := Alive(NoWait, false));
    DormantOk(c, t, s.tcb[t]);
    assert {} + {t} == {t};
    if d.actque {
      SetOff(c, s, t, a, {t}, None, None);
      AttachCore(c, SetTcb(s, t, a), t, {}, None, None);
      assert s.tcb[t := d][t := d.(actque := false)][t := a] == s.tcb[t := a];
    } else {
      SetOff(c, s, t, d, {t}, None, None);
      AttachCore(c, SetTcb(s, t, d), t, {}, None, None);
    }
  }

  lemma RestartUndisturbed(c: Config, s: State, t: nat)
    requires Is(s, t) && t < |c.ipriority|
    ensures Undisturbed(s, Restart(c, s, t), {t})
    ensures !Restart(c, s, t).tcb[t].raster
  {
  }

  lemma DetachUndisturbed(s: State, t: nat)
    requires Is(s, t)
    ensures Undisturbed(s, Detach(s, t), {}) && Detach(s, t).tcb == s.tcb && Detach(s, t).held == s.held
  {
  }

  lemma TerminateCore(c: Config, s: State, t: nat)
    requires Core(c, s, {}, None, None) && Is(s, t)
    ensures Core(c, Terminate(c, s, t), {}, None, None)
  {
    assert {} + {t} == {t};
    DetachCore(c, s, t, {}, None, None);
    var s0 := Detach(s, t);
    DetachUndisturbed(s, t);
    ReleaseLastCore(c, s0, t, |s.held[t]|);
    RestartCore(c, ReleaseLast(c, s0, t, |s.held[t]|), t);
  }

  lemma TerminateUndisturbed(c: Config, s: State, t: nat)
    requires Core(c, s, {}, None, None) && Is(s, t)
    ensures Undisturbed(s, Terminate(c, s, t), {t})
    ensures !Terminate(c, s, t).tcb[t].raster
  {
    assert {} + {t} == {t};
    DetachCore(c, s, t, {}, None, None);
    DetachUndisturbed(s, t);
    ReleaseLastUndisturbed(c, Detach(s, t), t, |s.held[t]|);
    RestartUndisturbed(c, ReleaseLast(c, Detach(s, t), t, |s.held[t]|), t);
  }

  // ---------- Waits ----------

  lemma EndWaitSteps(s: State, t: nat, ercd: Ercd)
    requires Waiting(s, t)
    ensures var s1 := SetTcb(Detach(s, t), t, Woken(s.tcb[t].(winfo := Wercd(ercd))));
            EndWait(s, t, ercd) == if Runs(s1.tcb[t]) then MakeRunnable(s1, t) else s1
  {
    var v := s.tcb[t].(winfo := Wercd(ercd));
    var s0 := StopTimer(LeaveQueue(s, t), t);
    DetachUndisturbed(s, t);
    assert Detach(s, t) == s0 && s0.tcb == s.tcb;
    assert s.tcb[t := v][t := Woken(v)] == s.tcb[t := Woken(v)];
    assert SetStat(SetTcb(s0, t, v), t, Woken(v).tstat) == SetTcb(s0, t, Woken(v));
  }

  lemma EndWaitUndisturbed(s: State, t: nat, ercd: Ercd)
    requires Waiting(s, t)
    ensures Undisturbed(s, EndWait(s, t, ercd), {})
  {
    EndWaitSteps(s, t, ercd);
    DetachUndisturbed(s, t);
  }

  lemma WokenOk(c: Config, t: nat, v: Tcb, ms: seq<nat>, ercd: Ercd)
    requires TaskOk(c, t, v, ms) && TcbShape(c, v) && Waits(v)
    ensures TaskOk(c, t, Woken(v.(winfo := Wercd(ercd))), ms) && TcbShape(c, Woken(v.(winfo := Wercd(ercd))))
  {
  }

  lemma EndWaitCore(c: Config, s: State, t: nat, ercd: Ercd)
    requires Core(c, s, {}, None, None) && Waiting(s, t)
    ensures Core(c, EndWait(s, t, ercd), {}, None, None)
  {
    assert {} + {t} == {t};
    DetachCore(c, s, t, {}, None, None);
    var v := Woken(s.tcb[t].(winfo := Wercd(ercd)));
    WokenOk(c, t, s.tcb[t], s.held[t], ercd);
    SetOff(c, Detach(s, t), t, v, {t}, None, None);
    AttachCore(c, SetTcb(Detach(s, t), t, v), t, {}, None, None);
    EndWaitSteps(s, t, ercd);
  }

  lemma EnterWaitSteps(c: Config, s: State, t: nat, wait: Wait, limited: bool)
    requires Is(s, t) && |s.waitq| == |c.obj|
    ensures var v := s.tcb[t].(tstat := Alive(wait, false), winfo := TimeBlock(limited));
            var s1 := SetTcb(MakeNonRunnable(s, t), t, v);
            EnterWait(c, s, t, wait, limited) ==
              JoinQueue(c, if limited then s1.(timers := s1.timers + {t}) else s1, t, wait)
  {
    var v := s.tcb[t].(tstat := Alive(wait, false), winfo := TimeBlock(limited));
    assert s.tcb[t := s.tcb[t].(tstat := Alive(wait, false))][t := v] == s.tcb[t := v];
  }

  lemma EnterWaitUndisturbed(c: Config, s: State, t: nat, wait: Wait, limited: bool)
    requires Is(s, t) && |s.waitq| == |c.obj|
    ensures Undisturbed(s, EnterWait(c, s, t, wait, limited), {t})
    ensures EnterWait(c, s, t, wait, limited).tcb[t].raster == s.tcb[t].raster
  {
    EnterWaitFrame(c, s, t, wait, limited);
  }

  lemma EnterWaitFrame(c: Config, s: State, t: nat, wait: Wait, limited: bool)
    requires Is(s, t) && |s.waitq| == |c.obj|
    ensures var s' := EnterWait(c, s, t, wait, limited);
            s' == s.(tcb := s.tcb[t := s.tcb[t].(tstat := Alive(wait, false), winfo := TimeBlock(limited))],
                     ready := s'.ready, waitq := s'.waitq, timers := s'.timers)
  {
    EnterWaitSteps(c, s, t, wait, limited);
  }

  lemma EnterWaitCore(c: Config, s: State, t: nat, wait: Wait, limited: bool)
    requires Core(c, s, {}, None, None) && Runnable(s, t) && !s.tcb[t].raster
    requires !wait.NoWait? && (wait == Delay ==> limited)
    requires wait.OnObject? ==> wait.obj < |c.obj| && BelowCeiling(c, wait.obj, s.tcb[t].bpriority)
    requires wait.OnObject? && c.obj[wait.obj].mutex ==> Owned(s.held, wait.obj) && wait.obj !in s.held[t]
    ensures Core(c, EnterWait(c, s, t, wait, limited), {}, None, None)
  {
    assert {} + {t} == {t};
    DetachFromReady(c, s, t, {}, None, None);
    var s1 := MakeNonRunnable(s, t);
    var v := s.tcb[t].(tstat := Alive(wait, false), winfo := TimeBlock(limited));
    forall m: nat | m in s.held[t]
      ensures m < |c.obj| && c.obj[m].mutex
    {
      HeldIsMutex(c, s.held, t, m);
    }
    BlockedOk(c, t, s.tcb[t], s.held[t], wait, limited);
    SetOff(c, s1, t, v, {t}, None, None);
    AttachWaiting(c, SetTcb(s1, t, v), t, limited);
    EnterWaitSteps(c, s, t, wait, limited);
  }

  lemma BlockedOk(c: Config, t: nat, v: Tcb, ms: seq<nat>, wait: Wait, limited: bool)
    requires TaskOk(c, t, v, ms) && TcbShape(c, v) && Runs(v) && !v.raster
    requires !wait.NoWait? && (wait == Delay ==> limited)
    requires wait.OnObject? ==> wait.obj < |c.obj| && BelowCeiling(c, wait.obj, v.bpriority) && wait.obj !in ms
    ensures var v' := v.(tstat := Alive(wait, false), winfo := TimeBlock(limited));
            TaskOk(c, t, v', ms) && TcbShape(c, v')
  {
  }

  /** Waking the first task of a wait queue. */
  lemma WakeHeadCore(c: Config, s: State, o: nat, ercd: Ercd)
    requires Core(c, s, {}, None, None) && o < |c.obj| && s.waitq[o] != []
    ensures var t := s.waitq[o][0];
            Waiting(s, t) && WaitsFor(s.tcb[t], o) && WakeHead(s, o, ercd) == EndWait(s, t, ercd)
  {
    var t := s.waitq[o][0];
    assert QueueOk(c.obj[o].tpri, s.tcb, s.waitq[o], o, {});
    assert t in s.waitq[o];
    TailContents(s.waitq[o]);
  }

  lemma WakeCore(c: Config, s: State, o: nat, ercd: Ercd)
    requires Core(c, s, {}, None, None) && o < |c.obj| && s.waitq[o] != []
    ensures Core(c, WakeHead(s, o, ercd), {}, None, None)
    ensures Undisturbed(s, WakeHead(s, o, ercd), {})
  {
    WakeHeadCore(c, s, o, ercd);
    EndWaitCore(c, s, s.waitq[o][0], ercd);
    EndWaitUndisturbed(s, s.waitq[o][0], ercd);
  }

  lemma {:induction false} FlushCore(c: Config, s: State, o: nat)
    requires Core(c, s, {}, None, None) && o < |c.obj|
    ensures Core(c, FlushQueue(s, o), {}, None, None)
    ensures Undisturbed(s, FlushQueue(s, o), {})
    decreases |s.waitq[o]|
  {
    if s.waitq[o] != [] {
      var s1 := WakeHead(s, o, E_DLT);
      WakeCore(c, s, o, E_DLT);
      FlushCore(c, s1, o);
      UndisturbedTwice(s, s1, FlushQueue(s, o));
    }
  }

  lemma UndisturbedTwice(s: State, s1: State, s2: State)
    requires Undisturbed(s, s1, {}) && Undisturbed(s1, s2, {})
    ensures Undisturbed(s, s2, {})
  {
  }
}
