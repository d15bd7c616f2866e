/**
 What the invariant means for tasks and mutexes, in any state that a run of service calls reaches
 from the initial one.
 */
module KernelTheorems {
  import opened Options
  import opened Precedence
  import opened KernelModel
  import opened KernelSafety
  import opened KernelRuns
  import opened KernelEffects

  ghost predicate Reachable(c: Config, s: State) {
    && GoodConfig(c)
    && (StartInv(c); exists calls: seq<Call> :: s == RunCalls(c, Start(c), calls))
  }

  lemma ReachableKeeps(c: Config, s: State)
    requires Reachable(c, s)
    ensures Inv(c, s)
  {
    StartInv(c);
    var calls: seq<Call> :| s == RunCalls(c, Start(c), calls);
    RunsKeep(c, Start(c), calls);
  }

  /** While dispatching is on and no handler runs, a task of the highest priority among those that
      can run is running; none is, only if none can. */
  lemma RunningIsHighest(c: Config, s: State)
    requires Reachable(c, s) && Dispatching(s) && !s.inHandler
    ensures s.runtsk.Some? ==> Runnable(s, s.runtsk.value)
    ensures forall x: nat :: Runnable(s, x) ==>
              s.runtsk.Some? && s.tcb[s.runtsk.value].priority <= s.tcb[x].priority
  {
    ReachableKeeps(c, s);
    forall x: nat | Runnable(s, x)
      ensures s.runtsk.Some? && s.tcb[s.runtsk.value].priority <= s.tcb[x].priority
    {
      assert x in s.ready;
      var i :| 0 <= i < |s.ready| && s.ready[i] == x;
      assert Of(Prios(s.tcb), s.ready[0]) <= Of(Prios(s.tcb), s.ready[i]);
    }
  }

  /** While dispatching is off and stays off, the running task stays what it was, whatever call is
      made: by it, by a handler, or as a time limit runs out. */
  lemma NoDispatchWhileOff(c: Config, s: State, call: Call)
    requires Reachable(c, s) && !Dispatching(s)
    ensures Sized(c, s)
    ensures var s' := Exec(c, s, call).0; !Dispatching(s') ==> s'.runtsk == s.runtsk
  {
    ReachableKeeps(c, s);
    if Permitted(s, call) && ValidCall(c, call) {
      if FromAnywhere(call) {
        RunningStaysAnywhere(c, s, call);
      } else if FromOutside(call) {
        RunningStaysOutside(c, s, call);
      } else if OnAnObject(call) {
        RunningStaysOnObject(c, s, call, s.runtsk.value);
      } else {
        RunningStaysInTask(c, s, call, s.runtsk.value);
      }
    }
  }

  /** No dispatch took place, unless dispatching was opened. */
  ghost predicate RunningStays(s: State, s': State) {
    !Dispatching(s') ==> s'.runtsk == s.runtsk
  }

  lemma RunningStaysAnywhere(c: Config, s: State, call: Call)
    requires Inv(c, s) && !Dispatching(s) && FromAnywhere(call) && ValidCall(c, call)
    ensures RunningStays(s, ExecAnywhere(c, s, call).0)
  {
    match call
    case RelWai(t) =>
      if Waiting(s, t) {
        EndWaitUndisturbed(s, t, E_RLWAI);
      }
    case WupTsk(t) =>
      if Waiting(s, t) {
        EndWaitUndisturbed(s, t, E_OK);
      }
    case WakeObject(o) =>
      if s.waitq[o] != [] {
        WakeCore(c, s, o, E_OK);
      }
    case _ =>
  }

  lemma RunningStaysOutside(c: Config, s: State, call: Call)
    requires Inv(c, s) && !Dispatching(s) && FromOutside(call)
    ensures RunningStays(s, ExecOutside(s, call).0)
  {
    match call
    case TimeOut(t) =>
      LimitsWait(c, s, t);
      if t in s.timers {
        EndWaitUndisturbed(s, t, if s.tcb[t].tstat.wait == Delay then E_OK else E_TMOUT);
      }
    case _ =>
  }

  lemma LimitsWait(c: Config, s: State, t: nat)
    requires Inv(c, s)
    ensures t in s.timers ==> Waiting(s, t)
  {
    if t in s.timers {
      assert Limits(s.tcb[t]);
    }
  }

  lemma RunningStaysOnObject(c: Config, s: State, call: Call, self: nat)
    requires Inv(c, s) && !Dispatching(s) && !NeedsDispatch(call) && OnAnObject(call)
    requires s.runtsk == Some(self) && !s.inHandler && ValidCall(c, call)
    ensures RunningStays(s, ExecInTask(c, s, call, self).0)
  {
    match call
    case PlocMtx(m) => ReprioritizeUndisturbed(c, SetHeld(s, self, [m] + s.held[self]), self);
    case UnlMtx(m) =>
      if s.held[self] != [] {
        UnlockStays(c, s, self);
      }
    case IniMtx(m) => ReinitializeStays(c, s, m);
    case IniObject(o) => FlushCore(c, s, o);
  }

  lemma RunningStaysInTask(c: Config, s: State, call: Call, self: nat)
    requires Inv(c, s) && !Dispatching(s) && !NeedsDispatch(call) && !FromAnywhere(call) && !FromOutside(call)
    requires !OnAnObject(call)
    requires s.runtsk == Some(self) && !s.inHandler && ValidCall(c, call)
    ensures RunningStays(s, ExecInTask(c, s, call, self).0)
  {
    match call
    case TerTsk(t) => RequestStays(c, s, self, t);
    case ExtTsk => TerminationOpens(c, s, s.(enadsp := true, ipmOpen := true), self);
    case RasTer(t) => RequestStays(c, s, self, t);
    case EnaDsp => ReopenStays(c, s, s.(enadsp := true), self);
    case ChgIpm(open) => ReopenStays(c, s, s.(ipmOpen := open), self);
    case ChgPri(t, newbpri) => ChangeBaseStays(c, s, t, newbpri);
    case _ =>
  }

  lemma TerminationOpens(c: Config, s: State, s1: State, self: nat)
    requires Inv(c, s) && Is(s, self) && s1 == s.(enadsp := s1.enadsp, ipmOpen := s1.ipmOpen)
    ensures Sized(c, s1) && Dispatching(Dispatch(Terminate(c, s1, self))) == Dispatching(s1)
  {
    assert Core(c, s1, {}, None, None);
    TerminateUndisturbed(c, s1, self);
  }

  lemma ReopenStays(c: Config, s: State, s1: State, self: nat)
    requires Inv(c, s) && Is(s, self) && s1 == s.(enadsp := s1.enadsp, ipmOpen := s1.ipmOpen)
    ensures Sized(c, s1) && RunningStays(s, ReopenDispatch(c, s1, self).0)
  {
    TerminationOpens(c, s, s1, self);
  }

  lemma ChangeBaseStays(c: Config, s: State, t: nat, newbpri: nat)
    requires Inv(c, s) && Is(s, t)
    ensures Sized(c, s) && RunningStays(s, ChangeBase(c, s, t, newbpri).0)
  {
    ChangePriorityOf(c, SetTcb(s, t, s.tcb[t].(bpriority := newbpri)), t, newbpri, false);
  }

  lemma RequestStays(c: Config, s: State, self: nat, t: nat)
    requires Inv(c, s) && Is(s, t)
    ensures Sized(c, s)
    ensures RunningStays(s, TerminateOther(c, s, self, t).0)
    ensures RunningStays(s, RequestTermination(c, s, self, t).0)
  {
    TerminateUndisturbed(c, s, t);
    DetachUndisturbed(s, t);
  }

  lemma UnlockStays(c: Config, s: State, self: nat)
    requires Inv(c, s) && Is(s, self) && s.held[self] != []
    ensures Sized(c, s) && Unlock(c, s, self, s.held[self][0]).runtsk == s.runtsk
  {
    var m := s.held[self][0];
    var s1 := SetHeld(s, self, s.held[self][1..]);
    ReprioritizeUndisturbed(c, s1, self);
    ReleaseRunning(c, Reprioritize(c, s1, self), m);
  }

  lemma ReleaseRunning(c: Config, s: State, m: nat)
    requires |s.held| == |s.tcb| && |s.waitq| == |c.obj|
    ensures Release(c, s, m).runtsk == s.runtsk
  {
  }

  lemma ReinitializeStays(c: Config, s: State, m: nat)
    requires Inv(c, s) && m < |c.obj|
    ensures Sized(c, s) && Reinitialize(c, s, m).runtsk == s.runtsk
  {
    FlushCore(c, s, m);
    if Owned(s.held, m) {
      var s1 := FlushQueue(s, m);
      var t := Holder(s.held, m);
      ReprioritizeUndisturbed(c, SetHeld(s1, t, Without(s1.held[t], m)), t);
    }
  }

  /** The current priority is the highest of the base priority and the ceilings of the mutexes
      held, and no ceiling held or waited for is below the base priority. */
  lemma PriorityIsTheHighest(c: Config, s: State, t: nat)
    requires Reachable(c, s) && Is(s, t)
    ensures |s.held| == |s.tcb|
    ensures var v := s.tcb[t];
            v.priority <= v.bpriority &&
            (forall m: nat :: m in s.held[t] && m < |c.obj| && c.obj[m].ceiling.Some? ==>
               v.priority <= c.obj[m].ceiling.value <= v.bpriority) &&
            (v.priority == v.bpriority ||
             exists m: nat :: m in s.held[t] && m < |c.obj| && c.obj[m].ceiling.Some? &&
                              v.priority == c.obj[m].ceiling.value)
    ensures forall m: nat :: m < |c.obj| && c.obj[m].ceiling.Some? && WaitsFor(s.tcb[t], m) ==>
              c.obj[m].ceiling.value <= s.tcb[t].bpriority
  {
    ReachableKeeps(c, s);
    assert TaskOk(c, t, s.tcb[t], s.held[t]);
    CeilingBounds(c, s.held[t], s.tcb[t].bpriority);
  }

  /** A task is in the ready queue or in a wait queue exactly when its state says so. */
  lemma LinkedAsTheStateSays(c: Config, s: State, t: nat, o: nat)
    requires Reachable(c, s) && Is(s, t) && o < |c.obj|
    ensures t in s.ready <==> Runs(s.tcb[t])
    ensures o < |s.waitq| && (t in s.waitq[o] <==> WaitsFor(s.tcb[t], o))
    ensures t in s.timers <==> Limits(s.tcb[t])
    ensures c.obj[o].tpri ==> Sorted(s.waitq[o], Prios(s.tcb))
  {
    ReachableKeeps(c, s);
    assert QueueOk(c.obj[o].tpri, s.tcb, s.waitq[o], o, {});
  }

  /** A mutex has one holder at most, and one that somebody waits for has one. */
  lemma OneHolder(c: Config, s: State, m: nat, t1: nat, t2: nat)
    requires Reachable(c, s) && m < |c.obj| && c.obj[m].mutex && t1 < |s.held| && t2 < |s.held|
    ensures m in s.held[t1] && m in s.held[t2] ==> t1 == t2
    ensures m < |s.waitq| && (s.waitq[m] != [] ==> Owned(s.held, m))
  {
    ReachableKeeps(c, s);
  }

  /** A termination request on a task that allows it is pending only for the running task, and
      only until dispatching is on again; a task with a request never waits. */
  lemma TerminationIsPrompt(c: Config, s: State, t: nat)
    requires Reachable(c, s) && Is(s, t) && s.tcb[t].raster
    ensures Runs(s.tcb[t])
    ensures s.tcb[t].enater ==> s.runtsk == Some(t) && !Dispatching(s)
  {
    ReachableKeeps(c, s);
    assert StatOk(c, t, s.tcb[t], s.held[t]);
  }

  /** The calls that can remove the last obstacle to a termination. */
  predicate RemovesObstacle(s: State, call: Call, t: nat) {
    && Is(s, t)
    && match call
       case EnaTer => Dispatching(s)
       case EnaDsp => s.ipmOpen && s.tcb[t].enater
       case ChgIpm(open) => open && s.enadsp && s.tcb[t].enater
       case _ => false
  }

  /** Then the termination takes effect in that very call: the task holds nothing, and is dormant
      or starts anew with its initial priority. */
  lemma RequestTakesEffect(c: Config, s: State, call: Call, t: nat)
    requires Reachable(c, s) && Permitted(s, call) && s.runtsk == Some(t)
    requires RemovesObstacle(s, call, t) && s.tcb[t].raster
    ensures Sized(c, s) && Is(Exec(c, s, call).0, t) && t < |Exec(c, s, call).0.held| && t < |c.ipriority|
    ensures var s' := Exec(c, s, call).0;
            var v := s'.tcb[t];
            s'.held[t] == [] && !v.raster && v.enater && !v.wupque && v.bpriority == v.priority == c.ipriority[t] &&
            (v.tstat == Dormant || v.tstat == Alive(NoWait, false))
  {
    ReachableKeeps(c, s);
    var s0 := s.(enadsp := if call.EnaDsp? then true else s.enadsp,
                 ipmOpen := if call.ChgIpm? then true else s.ipmOpen);
    assert Core(c, s0, {}, None, None);
    TerminatedAnew(c, s0, t);
    assert Exec(c, s, call).0 == Dispatch(Terminate(c, s0, t));
  }

  lemma TerminatedAnew(c: Config, s: State, t: nat)
    requires Core(c, s, {}, None, None) && Is(s, t)
    ensures Sized(c, s) && Is(Terminate(c, s, t), t) && t < |Terminate(c, s, t).held|
    ensures var s' := Terminate(c, s, t);
            var v := s'.tcb[t];
            s'.held[t] == [] && !v.raster && v.enater && !v.wupque && v.bpriority == v.priority == c.ipriority[t] &&
            (v.tstat == Dormant || v.tstat == Alive(NoWait, false))
  {
    assert {} + {t} == {t};
    DetachCore(c, s, t, {}, None, None);
    DetachUndisturbed(s, t);
    ReleaseLastCore(c, Detach(s, t), t, |s.held[t]|);
  }

  // ---------- Suspending and resuming ----------

  /** Suspending a waiting task and resuming it has no effect. */
  lemma ResumeUndoesSuspendOfWaiting(s: State, self: nat, t: nat)
    requires Waiting(s, t) && t != self && !s.tcb[t].tstat.suspended && !s.tcb[t].raster
    ensures Is(Suspend(s, self, t).0, t) && Resume(Suspend(s, self, t).0, t).0 == s
  {
    var v := s.tcb[t];
    var v' := v.(tstat := Alive(v.tstat.wait, true));
    assert s.tcb[t := v'][t := v] == s.tcb;
    assert v'.(tstat := v.tstat) == v;
  }

  /** Suspending another task that can run, and resuming it, makes it the last among its equals;
      nothing else changes. */
  lemma ResumeUndoesSuspend(c: Config, s: State, self: nat, t: nat)
    requires Reachable(c, s) && s.runtsk == Some(self) && Runnable(s, t) && t != self && !s.inHandler
    requires !s.tcb[t].raster
    ensures Is(Suspend(s, self, t).0, t)
    ensures Resume(Suspend(s, self, t).0, t).0 ==
            Dispatch(s.(ready := Insert(Without(s.ready, t), Prios(s.tcb), t, false)))
  {
    ReachableKeeps(c, s);
    SuspendedReady(c, s, self, t);
    ResumedReady(s, t);
  }

  lemma SuspendedReady(c: Config, s: State, self: nat, t: nat)
    requires Inv(c, s) && s.runtsk == Some(self) && Runnable(s, t) && t != self && !s.inHandler && !s.tcb[t].raster
    ensures Suspend(s, self, t).0 == MakeNonRunnable(SetStat(s, t, Alive(NoWait, true)), t)
  {
    StaysFirst(c, s, self, t);
  }

  lemma ResumedReady(s: State, t: nat)
    requires Runnable(s, t)
    ensures var s1 := MakeNonRunnable(SetStat(s, t, Alive(NoWait, true)), t);
            Resume(s1, t).0 == Dispatch(s.(ready := Insert(Without(s.ready, t), Prios(s.tcb), t, false)))
  {
    var v := s.tcb[t];
    var v' := v.(tstat := Alive(NoWait, true));
    var s1 := MakeNonRunnable(SetStat(s, t, Alive(NoWait, true)), t);
    assert s.tcb[t := v'][t := v] == s.tcb && v'.(tstat := v.tstat) == v;
    assert SetStat(s1, t, Alive(NoWait, false)) == s.(ready := Without(s.ready, t));
    assert Resume(s1, t).0 == Dispatch(MakeRunnable(SetStat(s1, t, Alive(NoWait, false)), t));
  }

  /** Taking out a task other than the running one calls for no dispatch. */
  lemma StaysFirst(c: Config, s: State, self: nat, t: nat)
    requires Inv(c, s) && s.runtsk == Some(self) && t != self && !s.inHandler && Runnable(s, t)
    ensures Dispatching(s) ==> Without(s.ready, t) != [] && Without(s.ready, t)[0] == self
  {
  }

  // ---------- Priority ceilings ----------

  /** When the running task has to wait for a ceiling mutex, its holder cannot run, or its priority
      is between the running task's current one and the ceiling. */
  lemma CeilingLimitsBlocking(c: Config, s: State, t: nat, h: nat, m: nat)
    requires Reachable(c, s) && Dispatching(s) && !s.inHandler && s.runtsk == Some(t) && Is(s, t)
    requires m < |c.obj| && c.obj[m].ceiling.Some? && h < |s.held| && m in s.held[h] && h != t
    requires c.obj[m].ceiling.value <= s.tcb[t].bpriority
    ensures Is(s, h) && t < |s.held|
    ensures Runnable(s, h) ==>
              s.tcb[t].priority <= s.tcb[h].priority <= c.obj[m].ceiling.value <= s.tcb[t].bpriority
    ensures Runnable(s, h) && (forall x :: x in s.held[t] && x < |c.obj| ==> c.obj[x].ceiling == None) ==>
              s.tcb[t].priority == s.tcb[h].priority == c.obj[m].ceiling.value
  {
    ReachableKeeps(c, s);
    RunningIsHighest(c, s);
    PriorityIsTheHighest(c, s, h);
    PriorityIsTheHighest(c, s, t);
  }

  // ---------- The end of waits ----------

  /** init_wait_queue ends the wait of every task in the queue, with E_DLT and without ending a
      suspension, and changes no other task. */
  lemma FlushReleasesAll(c: Config, s: State, o: nat, t: nat)
    requires Core(c, s, {}, None, None) && o < |c.obj| && Is(s, t)
    ensures t in s.waitq[o] ==> s.tcb[t].tstat.Alive?
    ensures FlushQueue(s, o).tcb[t] ==
            if t in s.waitq[o] then Woken(s.tcb[t].(winfo := Wercd(E_DLT))) else s.tcb[t]
  {
    FlushEffect(c, s, o);
  }

  /** A wake-up that finds its task awake is kept for one sleep, which then ends at once and leaves
      the state as it was before the wake-up. */
  lemma SleepConsumesWakeUp(c: Config, s: State, t: nat, tmo: Tmo)
    requires Sized(c, s) && Runnable(s, t) && !s.tcb[t].wupque && !s.tcb[t].raster
    ensures Is(WakeUp(s, t).0, t) && WakeUp(s, t).1 == E_OK && WakeUp(WakeUp(s, t).0, t).1 == E_QOVR
    ensures Sized(c, WakeUp(s, t).0) && SleepSelf(c, WakeUp(s, t).0, t, tmo) == (s, E_OK)
  {
    var v := s.tcb[t];
    assert v.(wupque := true).(wupque := false) == v;
    assert s.tcb[t := v.(wupque := true)][t := v] == s.tcb;
  }

  // ---------- Locking and unlocking ----------

  lemma AfterUnlock(c: Config, s: State, t: nat, m: nat)
    requires MayLock(c, s, t, m)
    ensures Sized(c, s) && var s1 := Acquire(c, s, t, m);
            Sized(c, s1) && s1.held[t] != [] &&
            Unlock(c, s1, t, m) ==
              if Raises(c, s.tcb[t], m) then s.(ready := Insert(Without(s.ready, t), Prios(s.tcb), t, true)) else s
  {
    AfterLock(c, s, t, m);
    var s1 := Acquire(c, s, t, m);
    var s2 := SetHeld(s1, t, s1.held[t][1..]);
    assert s1.held[t][1..] == s.held[t] && s2.held == s.held;
    if Raises(c, s.tcb[t], m) {
      var v := s1.tcb[t];
      var q := Without(s.ready, t);
      WithoutContents(s.ready, t);
      InsertKeepsOthers(q, Prios(s.tcb[t := v]), t, true);
      assert s.tcb[t := v][t := s.tcb[t]] == s.tcb;
      assert Reprioritize(c, s2, t) == s.(ready := Insert(q, Prios(s.tcb), t, true));
    } else {
      assert s2 == s;
    }
  }

  /** Unlocking right after locking restores the whole state exactly if the ceiling did not raise
      the priority, or no task of the same priority stood before the locking one. */
  lemma UnlockUndoesLock(c: Config, s: State, t: nat, m: nat)
    requires MayLock(c, s, t, m)
    ensures Sized(c, s) && Sized(c, Acquire(c, s, t, m)) && Acquire(c, s, t, m).held[t] != []
    ensures Unlock(c, Acquire(c, s, t, m), t, m) == s <==>
            !Raises(c, s.tcb[t], m) || FirstAmongEquals(s.ready, Prios(s.tcb), t)
  {
    AfterLock(c, s, t, m);
    AfterUnlock(c, s, t, m);
    FrontAgain(s.ready, Prios(s.tcb), t);
  }

  /** So it does always while dispatching is on. */
  lemma UnlockUndoesLockWhileDispatching(c: Config, s: State, t: nat, m: nat)
    requires MayLock(c, s, t, m) && Dispatching(s) && !s.inHandler
    ensures Sized(c, s) && Sized(c, Acquire(c, s, t, m)) && Acquire(c, s, t, m).held[t] != []
    ensures Unlock(c, Acquire(c, s, t, m), t, m) == s
  {
    UnlockUndoesLock(c, s, t, m);
    assert s.ready != [] && s.ready[0] == t && NoDuplicates(s.ready);
  }

  // ---------- Where the mutexes of a terminated task go ----------

  /** The mutex went to the first task that waited for it, or to nobody. */
  ghost predicate PassedOn(s: State, s': State, m: nat) {
    m < |s.waitq| && if s.waitq[m] == [] then !Owned(s'.held, m)
                     else s.waitq[m][0] < |s'.held| && m in s'.held[s.waitq[m][0]]
  }

  /** Terminating a task passes on every mutex it held. */
  lemma TerminationPassesOn(c: Config, s: State, t: nat, m: nat)
    requires Reachable(c, s) && Is(s, t) && t < |s.held| && m in s.held[t]
    ensures Sized(c, s) && Terminate(c, s, t).held[t] == [] && PassedOn(s, Terminate(c, s, t), m)
  {
    ReachableKeeps(c, s);
    TerminateEffect(c, s, t);
    HeldIsMutex(c, s.held, t, m);
    var s' := Terminate(c, s, t);
    if s.waitq[m] == [] {
      forall x | 0 <= x < |s'.held|
        ensures m !in s'.held[x]
      {
        NotPassedTo(c, s, s', t, x, m);
      }
    } else {
      var x := s.waitq[m][0];
      assert QueueOk(c.obj[m].tpri, s.tcb, s.waitq[m], m, {}) && x in s.waitq[m];
      assert StatOk(c, t, s.tcb[t], s.held[t]);
      assert ReleasedFor(c, s, s', s.held[t], x) && NextHolder(s, s.held[t], x, m);
    }
  }

  /** A mutex nobody waited for gets no new holder. */
  lemma NotPassedTo(c: Config, s: State, s': State, t: nat, x: nat, m: nat)
    requires Inv(c, s) && Terminated(c, s, s', t) && m in s.held[t] && m < |s.waitq| && s.waitq[m] == []
    requires x < |s'.held|
    ensures m !in s'.held[x]
  {
    if x != t {
      assert ReleasedFor(c, s, s', s.held[t], x);
      if m': nat :| NextHolder(s, s.held[t], x, m') {
        assert GotMutex(c, s, s', x, m') && m' != m;
      }
      assert m !in s.held[x];
    }
  }

  // ---------- Activations ----------

  /** In this step the task is started: it was dormant before, or an activation that was kept is used up. */
  predicate StartsIn(s: State, s': State, t: nat) {
    && Is(s, t) && Is(s', t) && s'.tcb[t].tstat.Alive?
    && (s.tcb[t].tstat.Dormant? || (s.tcb[t].actque && !s'.tcb[t].actque))
  }

  function Kept(s: State, t: nat): nat {
    if Is(s, t) && s.tcb[t].actque then 1 else 0
  }

  /** One activation more is asked for, and one start more takes place or is kept. */
  ghost predicate ActivationsMatch(s: State, s': State, t: nat, accepted: bool) {
    (if accepted then 1 else 0) + Kept(s, t) == (if StartsIn(s, s', t) then 1 else 0) + Kept(s', t)
  }

  ghost predicate SameLife(s: State, s': State, t: nat) {
    && Is(s, t) && Is(s', t) && s'.tcb[t].actque == s.tcb[t].actque
    && (s'.tcb[t].tstat.Dormant? <==> s.tcb[t].tstat.Dormant?)
  }

  lemma EndMatches(c: Config, s: State, s': State, x: nat, t: nat)
    requires Terminated(c, s, s', x) && Is(s, t) && s.tcb[x].tstat.Alive?
    ensures ActivationsMatch(s, s', t, false)
  {
    if t != x {
      assert ReleasedFor(c, s, s', s.held[x], t);
      assert SameLife(s, s', t);
    }
  }

  lemma RunningIsAlive(c: Config, s: State)
    requires Inv(c, s)
    ensures s.runtsk.Some? ==> Is(s, s.runtsk.value) && s.tcb[s.runtsk.value].tstat.Alive?
  {
  }

  lemma FlushMatches(s: State, s': State, o: nat, t: nat)
    requires Flushed(s, s', o) && Is(s, t)
    ensures SameLife(s, s', t)
  {
  }

  lemma IniMtxMatches(c: Config, s: State, m: nat, t: nat)
    requires Inv(c, s) && Permitted(s, IniMtx(m)) && m < |c.obj| && c.obj[m].mutex && Is(s, t)
    ensures SameLife(s, Exec(c, s, IniMtx(m)).0, t)
  {
    ExecIniMtx(c, s, m);
    ReinitializeUndisturbed(c, s, m);
    assert Same(s.tcb[t], Reinitialize(c, s, m).tcb[t]);
  }

  lemma TookMatches(c: Config, s: State, s': State, self: nat, m: nat, t: nat)
    requires Took(c, s, s', self, m) && Is(s, t)
    ensures SameLife(s, s', t)
  {
  }

  lemma LockDoneMatches(c: Config, s: State, s': State, ercd: Ercd, self: nat, m: nat, tmo: Tmo, t: nat)
    requires LockDone(c, s, s', ercd, self, m, tmo) && s.tcb[self].tstat.Alive? && Is(s, t)
    ensures SameLife(s, s', t)
  {
    if Took(c, s, s', self, m) {
      TookMatches(c, s, s', self, m, t);
    } else if BeganToWait(c, s, s', self, OnObject(m), tmo == Limited) {
      WaitMatches(c, s, s', self, OnObject(m), tmo == Limited, t);
    }
  }

  lemma UnlockedMatches(c: Config, s: State, s': State, x: nat, m: nat, t: nat)
    requires Unlocked(c, s, s', x, m) && Is(s, t)
    ensures SameLife(s, s', t)
  {
  }

  lemma WaitMatches(c: Config, s: State, s': State, x: nat, wait: Wait, limited: bool, t: nat)
    requires BeganToWait(c, s, s', x, wait, limited) && s.tcb[x].tstat.Alive? && Is(s, t)
    ensures SameLife(s, s', t)
  {
  }

  lemma LocMtxMatches(c: Config, s: State, m: nat, tmo: Tmo, t: nat)
    requires Inv(c, s) && Permitted(s, LocMtx(m, tmo)) && m < |c.obj| && c.obj[m].mutex && Is(s, t)
    ensures SameLife(s, Exec(c, s, LocMtx(m, tmo)).0, t)
  {
    RunningIsAlive(c, s);
    LocMtxEffect(c, s, m, tmo);
    var (s', ercd) := Exec(c, s, LocMtx(m, tmo));
    if !s.tcb[s.runtsk.value].raster {
      LockDoneMatches(c, s, s', ercd, s.runtsk.value, m, tmo, t);
    }
  }

  lemma PlocMtxMatches(c: Config, s: State, m: nat, t: nat)
    requires Inv(c, s) && Permitted(s, PlocMtx(m)) && m < |c.obj| && c.obj[m].mutex && Is(s, t)
    ensures SameLife(s, Exec(c, s, PlocMtx(m)).0, t)
  {
    RunningIsAlive(c, s);
    PlocMtxEffect(c, s, m);
    var (s', ercd) := Exec(c, s, PlocMtx(m));
    LockDoneMatches(c, s, s', ercd, s.runtsk.value, m, TMO_POL, t);
  }

  lemma UnlMtxMatches(c: Config, s: State, m: nat, t: nat)
    requires Inv(c, s) && Permitted(s, UnlMtx(m)) && m < |c.obj| && c.obj[m].mutex && Is(s, t)
    ensures SameLife(s, Exec(c, s, UnlMtx(m)).0, t)
  {
    UnlMtxEffect(c, s, m);
    var (s', ercd) := Exec(c, s, UnlMtx(m));
    if ercd == E_OK {
      UnlockedMatches(c, s, s', s.runtsk.value, m, t);
    }
  }

  lemma WaitObjectMatches(c: Config, s: State, o: nat, limited: bool, t: nat)
    requires Inv(c, s) && Permitted(s, WaitObject(o, limited)) && o < |c.obj| && !c.obj[o].mutex && Is(s, t)
    ensures SameLife(s, Exec(c, s, WaitObject(o, limited)).0, t)
  {
    RunningIsAlive(c, s);
    WaitObjectEffect(c, s, o, limited);
    if !s.tcb[s.runtsk.value].raster {
      WaitMatches(c, s, Exec(c, s, WaitObject(o, limited)).0, s.runtsk.value, OnObject(o), limited, t);
    }
  }

  lemma WakeObjectMatches(c: Config, s: State, o: nat, t: nat)
    requires Inv(c, s) && Permitted(s, WakeObject(o)) && o < |c.obj| && !c.obj[o].mutex && Is(s, t)
    ensures SameLife(s, Exec(c, s, WakeObject(o)).0, t)
  {
    WakeObjectEffect(c, s, o);
  }

  lemma IniObjectMatches(c: Config, s: State, o: nat, t: nat)
    requires Inv(c, s) && Permitted(s, IniObject(o)) && o < |c.obj| && !c.obj[o].mutex && Is(s, t)
    ensures SameLife(s, Exec(c, s, IniObject(o)).0, t)
  {
    IniObjectEffect(c, s, o);
    FlushMatches(s, Exec(c, s, IniObject(o)).0, o, t);
  }

  lemma EndMatchesIf(c: Config, s: State, s1: State, s': State, x: nat, t: nat)
    requires s1.tcb == s.tcb && Is(s, t) && Terminated(c, s1, s', x) && s.tcb[x].tstat.Alive?
    ensures ActivationsMatch(s, s', t, false)
  {
    EndMatches(c, s1, s', x, t);
  }

  lemma TerMatches(c: Config, s: State, x: nat, t: nat)
    requires Inv(c, s) && Permitted(s, TerTsk(x)) && x < |c.ipriority| && Is(s, t)
    ensures ActivationsMatch(s, Exec(c, s, TerTsk(x)).0, t, false)
  {
    TerTskEffect(c, s, x);
    var s' := Exec(c, s, TerTsk(x)).0;
    if s' != s {
      EndMatchesIf(c, s, s, s', x, t);
    }
  }

  lemma RasMatches(c: Config, s: State, x: nat, t: nat)
    requires Inv(c, s) && Permitted(s, RasTer(x)) && x < |c.ipriority| && Is(s, t)
    ensures ActivationsMatch(s, Exec(c, s, RasTer(x)).0, t, false)
  {
    RasTerEffect(c, s, x);
    var s' := Exec(c, s, RasTer(x)).0;
    if s.runtsk != Some(x) && s.tcb[x].tstat.Alive? && s.tcb[x].enater {
      EndMatchesIf(c, s, s, s', x, t);
    }
  }

  lemma ExtMatches(c: Config, s: State, t: nat)
    requires Inv(c, s) && Permitted(s, ExtTsk) && Is(s, t)
    ensures ActivationsMatch(s, Exec(c, s, ExtTsk).0, t, false)
  {
    RunningIsAlive(c, s);
    ExtTskEffect(c, s);
    EndMatchesIf(c, s, s.(enadsp := true, ipmOpen := true), Exec(c, s, ExtTsk).0, s.runtsk.value, t);
  }

  lemma EnaTerMatches(c: Config, s: State, t: nat)
    requires Inv(c, s) && Permitted(s, EnaTer) && Is(s, t)
    ensures ActivationsMatch(s, Exec(c, s, EnaTer).0, t, false)
  {
    RunningIsAlive(c, s);
    EnaTerEffect(c, s);
    var self := s.runtsk.value;
    if s.tcb[self].raster && s.enadsp && s.ipmOpen {
      EndMatchesIf(c, s, s, Exec(c, s, EnaTer).0, self, t);
    }
  }

  lemma MaskMatches(c: Config, s: State, call: Call, t: nat)
    requires Inv(c, s) && Permitted(s, call) && (call == DisDsp || call == EnaDsp || call.ChgIpm?) && Is(s, t)
    ensures ActivationsMatch(s, Exec(c, s, call).0, t, false)
  {
    RunningIsAlive(c, s);
    MaskEffect(c, s, call);
    var self := s.runtsk.value;
    var s1 := s.(enadsp := if call == DisDsp then false else if call == EnaDsp then true else s.enadsp,
                 ipmOpen := if call.ChgIpm? then call.open else s.ipmOpen);
    if call != DisDsp && s1.enadsp && s1.ipmOpen && s.tcb[self].raster && s.tcb[self].enater {
      EndMatchesIf(c, s, s1, Exec(c, s, call).0, self, t);
    }
  }

  lemma EndingMatches(c: Config, s: State, call: Call, t: nat)
    requires Inv(c, s) && Permitted(s, call) && ValidCall(c, call) && EndsTasks(call) && Is(s, t)
    ensures ActivationsMatch(s, Exec(c, s, call).0, t, false)
  {
    match call
    case TerTsk(x) => TerMatches(c, s, x, t);
    case RasTer(x) => RasMatches(c, s, x, t);
    case ExtTsk => ExtMatches(c, s, t);
    case EnaTer => EnaTerMatches(c, s, t);
    case _ => MaskMatches(c, s, call, t);
  }

  lemma SlpTskMatches(c: Config, s: State, tmo: Tmo, t: nat)
    requires Inv(c, s) && Permitted(s, SlpTsk(tmo)) && Is(s, t)
    ensures SameLife(s, Exec(c, s, SlpTsk(tmo)).0, t)
  {
    SlpTskEffect(c, s, tmo);
  }

  lemma DlyTskMatches(c: Config, s: State, t: nat)
    requires Inv(c, s) && Permitted(s, DlyTsk) && Is(s, t)
    ensures SameLife(s, Exec(c, s, DlyTsk).0, t)
  {
    DlyTskEffect(c, s);
  }

  lemma WupTskMatches(c: Config, s: State, x: nat, t: nat)
    requires Inv(c, s) && Permitted(s, WupTsk(x)) && x < |c.ipriority| && Is(s, t)
    ensures SameLife(s, Exec(c, s, WupTsk(x)).0, t)
  {
    WupTskEffect(c, s, x);
  }

  lemma RelWaiMatches(c: Config, s: State, x: nat, t: nat)
    requires Inv(c, s) && Permitted(s, RelWai(x)) && x < |c.ipriority| && Is(s, t)
    ensures SameLife(s, Exec(c, s, RelWai(x)).0, t)
  {
    RelWaiEffect(c, s, x);
  }

  lemma TimeOutMatches(c: Config, s: State, x: nat, t: nat)
    requires Inv(c, s) && s.inHandler && Is(s, t)
    ensures SameLife(s, Exec(c, s, TimeOut(x)).0, t)
  {
    TimeOutEffect(c, s, x);
  }

  lemma SusTskMatches(c: Config, s: State, x: nat, t: nat)
    requires Inv(c, s) && Permitted(s, SusTsk(x)) && x < |c.ipriority| && Is(s, t)
    ensures SameLife(s, Exec(c, s, SusTsk(x)).0, t)
  {
    SusTskEffect(c, s, x);
  }

  lemma RsmTskMatches(c: Config, s: State, x: nat, t: nat)
    requires Inv(c, s) && Permitted(s, RsmTsk(x)) && x < |c.ipriority| && Is(s, t)
    ensures SameLife(s, Exec(c, s, RsmTsk(x)).0, t)
  {
    RsmTskEffect(c, s, x);
  }

  lemma ChgPriMatches(c: Config, s: State, x: nat, newbpri: nat, t: nat)
    requires Inv(c, s) && Permitted(s, ChgPri(x, newbpri)) && x < |c.ipriority| && newbpri < TNUM_TPRI && Is(s, t)
    ensures SameLife(s, Exec(c, s, ChgPri(x, newbpri)).0, t)
  {
    ChgPriEffect(c, s, x, newbpri);
  }

  lemma OtherMatches(c: Config, s: State, call: Call, t: nat)
    requires Inv(c, s) && Permitted(s, call) && ValidCall(c, call) && Is(s, t)
    requires (call.ActTsk? && call.t != t) || call.DisTer? || call.RotRdq? || call.EnterHandler? || call.ExitHandler?
    ensures SameLife(s, Exec(c, s, call).0, t)
  {
    match call
    case ActTsk(x) => ActTskEffect(c, s, x);
    case DisTer => DisTerEffect(c, s);
    case RotRdq(pri) => RotRdqEffect(c, s, pri);
    case EnterHandler => HandlerEffect(c, s);
    case ExitHandler => HandlerEffect(c, s);
  }

  predicate Accepts(call: Call, ercd: Ercd, t: nat) {
    call == ActTsk(t) && ercd == E_OK
  }

  lemma MutexMatches(c: Config, s: State, call: Call, t: nat)
    requires Inv(c, s) && Permitted(s, call) && ValidCall(c, call) && Is(s, t) && OnMutex(call)
    ensures SameLife(s, Exec(c, s, call).0, t)
  {
    match call
    case LocMtx(m, tmo) => LocMtxMatches(c, s, m, tmo, t);
    case PlocMtx(m) => PlocMtxMatches(c, s, m, t);
    case UnlMtx(m) => UnlMtxMatches(c, s, m, t);
    case IniMtx(m) => IniMtxMatches(c, s, m, t);
  }

  lemma ObjectMatches(c: Config, s: State, call: Call, t: nat)
    requires Inv(c, s) && Permitted(s, call) && ValidCall(c, call) && Is(s, t) && OnWaitObject(call)
    ensures SameLife(s, Exec(c, s, call).0, t)
  {
    match call
    case WaitObject(o, limited) => WaitObjectMatches(c, s, o, limited, t);
    case WakeObject(o) => WakeObjectMatches(c, s, o, t);
    case IniObject(o) => IniObjectMatches(c, s, o, t);
  }

  lemma TaskMatches(c: Config, s: State, call: Call, t: nat)
    requires Inv(c, s) && Permitted(s, call) && ValidCall(c, call) && Is(s, t) && OnTask(call)
    ensures SameLife(s, Exec(c, s, call).0, t)
  {
    match call
    case SlpTsk(tmo) => SlpTskMatches(c, s, tmo, t);
    case DlyTsk => DlyTskMatches(c, s, t);
    case WupTsk(x) => WupTskMatches(c, s, x, t);
    case RelWai(x) => RelWaiMatches(c, s, x, t);
    case TimeOut(x) => TimeOutMatches(c, s, x, t);
    case SusTsk(x) => SusTskMatches(c, s, x, t);
    case RsmTsk(x) => RsmTskMatches(c, s, x, t);
    case ChgPri(x, newbpri) => ChgPriMatches(c, s, x, newbpri, t);
  }

  lemma CallMatches(c: Config, s: State, call: Call, t: nat)
    requires Inv(c, s) && Is(s, t)
    ensures Is(Exec(c, s, call).0, t)
    ensures ActivationsMatch(s, Exec(c, s, call).0, t, Accepts(call, Exec(c, s, call).1, t))
  {
    if !Permitted(s, call) || !ValidCall(c, call) {
    } else if call == ActTsk(t) {
      ActTskEffect(c, s, t);
    } else if EndsTasks(call) {
      EndingMatches(c, s, call, t);
    } else if OnMutex(call) {
      MutexMatches(c, s, call, t);
    } else if OnWaitObject(call) {
      ObjectMatches(c, s, call, t);
    } else if OnTask(call) {
      TaskMatches(c, s, call, t);
    } else {
      OtherMatches(c, s, call, t);
    }
    ExecKeeps(c, s, call);
  }

  ghost function Activations(c: Config, s: State, calls: seq<Call>, t: nat): nat
    requires Inv(c, s)
    decreases |calls|
  {
    if calls == [] then 0
    else
      var (s', ercd) := Exec(c, s, calls[0]);
      ExecKeeps(c, s, calls[0]);
      (if Accepts(calls[0], ercd, t) then 1 else 0) + Activations(c, s', calls[1..], t)
  }

  ghost function Starts(c: Config, s: State, calls: seq<Call>, t: nat): nat
    requires Inv(c, s)
    decreases |calls|
  {
    if calls == [] then 0
    else
      var s' := Exec(c, s, calls[0]).0;
      ExecKeeps(c, s, calls[0]);
      (if StartsIn(s, s', t) then 1 else 0) + Starts(c, s', calls[1..], t)
  }

  /** Over any run, each accepted activation of a task starts it once, at once or when it ends, or is still
      kept. */
  lemma {:induction false} ActivationsBecomeStarts(c: Config, s: State, calls: seq<Call>, t: nat)
    requires Inv(c, s) && Is(s, t)
    ensures Activations(c, s, calls, t) + Kept(s, t) == Starts(c, s, calls, t) + Kept(RunCalls(c, s, calls), t)
    decreases |calls|
  {
    if calls != [] {
      var s' := Exec(c, s, calls[0]).0;
      ExecKeeps(c, s, calls[0]);
      CallMatches(c, s, calls[0], t);
      ActivationsBecomeStarts(c, s', calls[1..], t);
    }
  }

  // ---------- States that are reached ----------

  lemma {:induction false} RunCallsAppend(c: Config, s: State, calls: seq<Call>, call: Call)
    requires Inv(c, s)
    ensures Inv(c, RunCalls(c, s, calls))
    ensures RunCalls(c, s, calls + [call]) == Exec(c, RunCalls(c, s, calls), call).0
    decreases |calls|
  {
    RunsKeep(c, s, calls);
    if calls == [] {
      assert (calls + [call])[1..] == [];
      ExecKeeps(c, s, call);
    } else {
      assert (calls + [call])[1..] == calls[1..] + [call];
      ExecKeeps(c, s, calls[0]);
      RunCallsAppend(c, Exec(c, s, calls[0]).0, calls[1..], call);
    }
  }

  lemma NextIsReachable(c: Config, s: State, call: Call)
    requires Reachable(c, s)
    ensures Sized(c, s) && Reachable(c, Exec(c, s, call).0)
  {
    ReachableKeeps(c, s);
    StartInv(c);
    var calls: seq<Call> :| s == RunCalls(c, Start(c), calls);
    RunCallsAppend(c, Start(c), calls, call);
  }

  /** At the start all tasks are dormant at their initial priorities, nothing is held, awaited or kept, and no
      task runs until dispatching starts. */
  lemma StartsEmpty(c: Config, t: nat)
    requires GoodConfig(c) && t < |c.ipriority|
    ensures var s := Start(c);
            Reachable(c, s) && Is(s, t) && t < |s.held| && s.inHandler && s.enadsp && s.ipmOpen && s.runtsk == None &&
            s.tcb[t].tstat == Dormant && s.tcb[t].priority == s.tcb[t].bpriority == c.ipriority[t] &&
            !s.tcb[t].actque && !s.tcb[t].wupque && s.held[t] == [] && s.ready == [] && s.timers == {}
  {
    StartInv(c);
    assert Start(c) == RunCalls(c, Start(c), []);
  }

  /** Any task can get to run. */
  lemma AnyTaskCanRun(c: Config, t: nat) returns (s: State)
    requires GoodConfig(c) && t < |c.ipriority|
    ensures Reachable(c, s) && s.runtsk == Some(t) && s.ready == [t] && !s.inHandler && Dispatching(s)
    ensures |s.held| == |c.ipriority| && (forall x: nat :: x < |s.held| ==> s.held[x] == [])
    ensures Is(s, t) && !s.tcb[t].raster && s.tcb[t].bpriority == c.ipriority[t]
  {
    StartsEmpty(c, t);
    var s0 := Start(c);
    NextIsReachable(c, s0, ActTsk(t));
    ReachableKeeps(c, s0);
    ActTskEffect(c, s0, t);
    var s1 := Exec(c, s0, ActTsk(t)).0;
    NextIsReachable(c, s1, ExitHandler);
    HandlerEffect(c, s1);
    s := Exec(c, s1, ExitHandler).0;
  }

  /** Any task that a mutex allows can hold it. */
  lemma AnyMutexCanBeHeld(c: Config, t: nat, m: nat) returns (s: State)
    requires GoodConfig(c) && t < |c.ipriority| && m < |c.obj| && c.obj[m].mutex
    requires c.obj[m].ceiling.Some? ==> c.obj[m].ceiling.value <= c.ipriority[t]
    ensures Reachable(c, s) && t < |s.held| && s.held[t] == [m]
  {
    var s0 := AnyTaskCanRun(c, t);
    ReachableKeeps(c, s0);
    LocMtxEffect(c, s0, m, TMO_FEVR);
    NextIsReachable(c, s0, LocMtx(m, TMO_FEVR));
    s := Exec(c, s0, LocMtx(m, TMO_FEVR)).0;
  }

  // ---------- Calls that are refused ----------

  /** Who may call: activations, wake-ups and the like come from tasks and handlers; what suspends its caller
      from a task while dispatching is on; everything else from a task. */
  predicate Allowed(s: State, call: Call) {
    match call
    case EnterHandler => !s.inHandler
    case ExitHandler => s.inHandler
    case TimeOut(_) => s.inHandler
    case ActTsk(_) => s.inHandler || s.runtsk != None
    case WupTsk(_) => s.inHandler || s.runtsk != None
    case RelWai(_) => s.inHandler || s.runtsk != None
    case RotRdq(_) => s.inHandler || s.runtsk != None
    case WakeObject(_) => s.inHandler || s.runtsk != None
    case SlpTsk(_) => !s.inHandler && s.runtsk != None && s.enadsp && s.ipmOpen
    case DlyTsk => !s.inHandler && s.runtsk != None && s.enadsp && s.ipmOpen
    case LocMtx(_, _) => !s.inHandler && s.runtsk != None && s.enadsp && s.ipmOpen
    case WaitObject(_, _) => !s.inHandler && s.runtsk != None && s.enadsp && s.ipmOpen
    case _ => !s.inHandler && s.runtsk != None
  }

  lemma PermittedExactly(s: State, call: Call)
    ensures Permitted(s, call) <==> Allowed(s, call)
  {
  }

  /** A call from elsewhere, or with a number that names nothing, changes nothing. */
  lemma WrongCallsAreRefused(c: Config, s: State, call: Call)
    requires Reachable(c, s)
    ensures Sized(c, s)
    ensures !Allowed(s, call) ==> Exec(c, s, call) == (s, E_CTX)
    ensures Allowed(s, call) && !ValidCall(c, call) ==> Exec(c, s, call) == (s, E_PAR)
  {
    ReachableKeeps(c, s);
    PermittedExactly(s, call);
  }
}
