/**
 Every service call, and so every run of service calls, keeps the invariant of the kernel.
 */
module KernelRuns {
  import opened Options
  import opened Precedence
  import opened KernelModel
  import opened KernelSafety

  // ---------- The running task after a call ----------

  ghost predicate Overdue(v: Tcb) {
    v.raster && v.enater
  }

  /** What is known of the running task when a call has changed the queues, `t` excepted. */
  ghost predicate RunBase(s: State, t: nat) {
    && (s.runtsk.Some? ==> Runnable(s, s.runtsk.value))
    && (!Dispatching(s) ==> s.runtsk.Some?)
    && forall x: nat :: x < |s.tcb| && x != t && Overdue(s.tcb[x]) ==> Some(x) == s.runtsk && !Dispatching(s)
  }

  lemma Redispatch(c: Config, s: State, s': State, t: nat)
    requires RunBase(s, t) && Core(c, s', {}, None, None) && Undisturbed(s, s', {t})
    requires Is(s, t) && Overdue(s'.tcb[t]) ==> Some(t) == s'.runtsk && !Dispatching(s')
    requires s'.runtsk == Some(t) ==> Runnable(s', t) || (Dispatching(s') && !s'.inHandler)
    ensures Inv(c, Dispatch(s'))
  {
    var r := Dispatch(s');
    assert Core(c, r, {}, None, None);
    if s'.runtsk.Some? && s'.runtsk.value != t {
      assert Same(s.tcb[s'.runtsk.value], s'.tcb[s'.runtsk.value]);
    }
    if !s'.inHandler && Dispatching(s') && s'.ready != [] {
      assert s'.ready[0] in s'.ready;
    }
    forall x: nat | x < |r.tcb| && Overdue(r.tcb[x])
      ensures Some(x) == r.runtsk && !Dispatching(r)
    {
      if x != t {
        assert Same(s.tcb[x], s'.tcb[x]);
      }
    }
  }

  lemma InvBase(c: Config, s: State, t: nat)
    requires Inv(c, s)
    ensures RunBase(s, t)
  {
  }

  /** A call that leaves the ready queue and the task to be run as they are. */
  lemma NoDispatchNeeded(c: Config, s: State, s': State)
    requires Inv(c, s) && Inv(c, Dispatch(s'))
    requires s'.ready == s.ready && s'.runtsk == s.runtsk && s'.inHandler == s.inHandler
    requires s'.enadsp == s.enadsp && s'.ipmOpen == s.ipmOpen
    ensures Dispatch(s') == s'
  {
  }

  // ---------- Changing a task in its place ----------

  /** A change that no queue notices. */
  ghost predicate Unnoticed(u: Tcb, v: Tcb) {
    && v.priority == u.priority && v.winfo == u.winfo && Runs(v) == Runs(u)
    && v.tstat.Alive? == u.tstat.Alive? && (v.tstat.Alive? ==> v.tstat.wait == u.tstat.wait)
  }

  lemma TweakReady(tcb: seq<Tcb>, ready: seq<nat>, t: nat, v: Tcb)
    requires t < |tcb| && ReadyOk(tcb, ready, {}) && Unnoticed(tcb[t], v)
    ensures ReadyOk(tcb[t := v], ready, {})
  {
    SortedAgrees(ready, Prios(tcb), Prios(tcb[t := v]));
  }

  lemma TweakQueues(c: Config, tcb: seq<Tcb>, waitq: seq<seq<nat>>, t: nat, v: Tcb)
    requires t < |tcb| && QueuesOk(c, tcb, waitq, {}) && Unnoticed(tcb[t], v)
    ensures QueuesOk(c, tcb[t := v], waitq, {})
  {
    forall o: nat | o < |c.obj|
      ensures QueueOk(c.obj[o].tpri, tcb[t := v], waitq[o], o, {})
    {
      assert QueueOk(c.obj[o].tpri, tcb, waitq[o], o, {});
      if c.obj[o].tpri {
        SortedAgrees(waitq[o], Prios(tcb), Prios(tcb[t := v]));
      }
    }
  }

  lemma TweakLate(c: Config, s: State, t: nat, v: Tcb)
    requires Core(c, s, {}, None, None) && Is(s, t) && Unnoticed(s.tcb[t], v) && v.bpriority < TNUM_TPRI
    ensures Core(c, SetTcb(s, t, v), {}, Some(t), None)
  {
    TweakReady(s.tcb, s.ready, t, v);
    TweakQueues(c, s.tcb, s.waitq, t, v);
    assert TcbShape(c, s.tcb[t]);
  }

  lemma TweakInv(c: Config, s: State, t: nat, v: Tcb)
    requires Inv(c, s) && Is(s, t) && Unnoticed(s.tcb[t], v) && v.bpriority < TNUM_TPRI
    requires TaskOk(c, t, v, s.held[t])
    requires Overdue(v) ==> Some(t) == s.runtsk && !Dispatching(s)
    ensures Inv(c, SetTcb(s, t, v))
  {
    var s' := SetTcb(s, t, v);
    TweakLate(c, s, t, v);
    Settled(c, s', t, None);
    InvBase(c, s, t);
    Redispatch(c, s, s', t);
    NoDispatchNeeded(c, s, s');
  }

  // ---------- Tasks ----------

  lemma ActivateKeeps(c: Config, s: State, t: nat)
    requires Inv(c, s) && Is(s, t)
    ensures Inv(c, ActivateTask(c, s, t).0)
  {
    if s.tcb[t].tstat.Dormant? {
      ActivateCore(c, s, t);
      InvBase(c, s, t);
      Redispatch(c, s, MakeActive(s, t), t);
    } else if !c.noactque[t] && !s.tcb[t].actque {
      assert TaskOk(c, t, s.tcb[t], s.held[t]) && TcbShape(c, s.tcb[t]);
      TweakInv(c, s, t, s.tcb[t].(actque := true));
    }
  }

  lemma ActivateCore(c: Config, s: State, t: nat)
    requires Core(c, s, {}, None, None) && Is(s, t) && s.tcb[t].tstat.Dormant?
    ensures Core(c, MakeActive(s, t), {}, None, None)
    ensures Undisturbed(s, MakeActive(s, t), {t}) && Runnable(MakeActive(s, t), t)
    ensures !Overdue(MakeActive(s, t).tcb[t])
  {
    assert {} + {t} == {t};
    assert TcbShape(c, s.tcb[t]) && TaskOk(c, t, s.tcb[t], s.held[t]);
    DetachCore(c, s, t, {}, None, None);
    var v := s.tcb[t].(tstat := Alive(NoWait, false));
    SetOff(c, s, t, v, {t}, None, None);
    AttachCore(c, SetTcb(s, t, v), t, {}, None, None);
  }

  lemma TerminateKeeps(c: Config, s: State, t: nat)
    requires Core(c, s, {}, None, None) && RunBase(s, t) && Is(s, t)
    requires s.runtsk == Some(t) ==> Dispatching(s) && !s.inHandler
    ensures Inv(c, Dispatch(Terminate(c, s, t)))
  {
    TerminateCore(c, s, t);
    TerminateUndisturbed(c, s, t);
    Redispatch(c, s, Terminate(c, s, t), t);
  }

  lemma RequestKeeps(c: Config, s: State, self: nat, t: nat)
    requires Inv(c, s) && Is(s, t) && s.runtsk == Some(self)
    ensures Inv(c, RequestTermination(c, s, self, t).0)
  {
    InvBase(c, s, t);
    if t == self || s.tcb[t].tstat.Dormant? {
    } else if s.tcb[t].enater {
      TerminateKeeps(c, s, t);
    } else {
      assert TaskOk(c, t, s.tcb[t], s.held[t]) && TcbShape(c, s.tcb[t]);
      if Runnable(s, t) {
        TweakInv(c, s, t, s.tcb[t].(raster := true));
      } else {
        UnblockCore(c, s, t);
        Redispatch(c, s, Unblock(s, t), t);
      }
    }
  }

  lemma UnblockCore(c: Config, s: State, t: nat)
    requires Core(c, s, {}, None, None) && Is(s, t) && s.tcb[t].tstat.Alive? && !Runs(s.tcb[t])
    requires !s.tcb[t].enater
    ensures var s' := Unblock(s, t);
            Core(c, s', {}, None, None) && Undisturbed(s, s', {t}) && Runnable(s', t) && !Overdue(s'.tcb[t])
  {
    assert {} + {t} == {t};
    assert TcbShape(c, s.tcb[t]) && TaskOk(c, t, s.tcb[t], s.held[t]);
    DetachCore(c, s, t, {}, None, None);
    DetachUndisturbed(s, t);
    SetOff(c, Detach(s, t), t, Requested(s.tcb[t]), {t}, None, None);
    AttachCore(c, SetTcb(Detach(s, t), t, Requested(s.tcb[t])), t, {}, None, None);
  }

  lemma EnableKeeps(c: Config, s: State, self: nat)
    requires Inv(c, s) && s.runtsk == Some(self) && !s.inHandler
    ensures Inv(c, EnableTermination(c, s, self).0)
  {
    InvBase(c, s, self);
    if s.tcb[self].raster && Dispatching(s) {
      TerminateKeeps(c, s, self);
    } else {
      assert TaskOk(c, self, s.tcb[self], s.held[self]) && TcbShape(c, s.tcb[self]);
      TweakInv(c, s, self, s.tcb[self].(enater := true));
    }
  }

  /** ena_dsp, chg_ipm and the first half of ext_tsk: `s1` differs from `s` in its masks only. */
  lemma ReopenKeeps(c: Config, s: State, s1: State, self: nat)
    requires Inv(c, s) && s.runtsk == Some(self) && !s.inHandler
    requires s1 == s.(enadsp := s1.enadsp, ipmOpen := s1.ipmOpen)
    ensures Inv(c, ReopenDispatch(c, s1, self).0)
    ensures Dispatching(s1) ==> Inv(c, Dispatch(Terminate(c, s1, self)))
  {
    assert Core(c, s1, {}, None, None) && RunBase(s1, self);
    if Dispatching(s1) {
      TerminateKeeps(c, s1, self);
    }
    if !(Dispatching(s1) && s.tcb[self].raster && s.tcb[self].enater) {
      Redispatch(c, s1, s1, self);
    }
  }

  // ---------- Synchronization ----------

  lemma EnterWaitKeeps(c: Config, s: State, self: nat, wait: Wait, limited: bool)
    requires Inv(c, s) && s.runtsk == Some(self) && Dispatching(s) && !s.inHandler && !s.tcb[self].raster
    requires !wait.NoWait? && (wait == Delay ==> limited)
    requires wait.OnObject? ==> wait.obj < |c.obj| && BelowCeiling(c, wait.obj, s.tcb[self].bpriority)
    requires wait.OnObject? && c.obj[wait.obj].mutex ==> Owned(s.held, wait.obj) && wait.obj !in s.held[self]
    ensures Inv(c, Dispatch(EnterWait(c, s, self, wait, limited)))
  {
    InvBase(c, s, self);
    EnterWaitCore(c, s, self, wait, limited);
    EnterWaitUndisturbed(c, s, self, wait, limited);
    Redispatch(c, s, EnterWait(c, s, self, wait, limited), self);
  }

  lemma SleepKeeps(c: Config, s: State, self: nat, tmo: Tmo)
    requires Inv(c, s) && s.runtsk == Some(self) && Dispatching(s) && !s.inHandler
    ensures Inv(c, SleepSelf(c, s, self, tmo).0)
  {
    if s.tcb[self].raster {
    } else if s.tcb[self].wupque {
      assert TaskOk(c, self, s.tcb[self], s.held[self]) && TcbShape(c, s.tcb[self]);
      TweakInv(c, s, self, s.tcb[self].(wupque := false));
    } else if tmo != TMO_POL {
      EnterWaitKeeps(c, s, self, Sleep, tmo.Limited?);
    }
  }

  /** A task whose wait ends is not the running one. */
  lemma EndWaitKeeps(c: Config, s: State, t: nat, ercd: Ercd)
    requires Inv(c, s) && Waiting(s, t)
    ensures Inv(c, Dispatch(EndWait(s, t, ercd)))
    ensures s.inHandler ==> Inv(c, EndWait(s, t, ercd))
  {
    InvBase(c, s, |s.tcb|);
    EndWaitCore(c, s, t, ercd);
    EndWaitUndisturbed(s, t, ercd);
    Redispatch(c, s, EndWait(s, t, ercd), |s.tcb|);
  }

  lemma WakeUpKeeps(c: Config, s: State, t: nat)
    requires Inv(c, s) && Is(s, t)
    ensures Inv(c, WakeUp(s, t).0)
  {
    if s.tcb[t].tstat.Dormant? {
    } else if s.tcb[t].tstat.wait == Sleep {
      EndWaitKeeps(c, s, t, E_OK);
    } else if !s.tcb[t].wupque {
      assert TaskOk(c, t, s.tcb[t], s.held[t]) && TcbShape(c, s.tcb[t]);
      TweakInv(c, s, t, s.tcb[t].(wupque := true));
    }
  }

  lemma SuspendKeeps(c: Config, s: State, self: nat, t: nat)
    requires Inv(c, s) && Is(s, t) && s.runtsk == Some(self) && !s.inHandler
    ensures Inv(c, Suspend(s, self, t).0)
  {
    assert TaskOk(c, t, s.tcb[t], s.held[t]) && TcbShape(c, s.tcb[t]);
    if (t == self && !Dispatching(s)) || s.tcb[t].tstat.Dormant? || s.tcb[t].raster {
    } else if Runnable(s, t) {
      SuspendCore(c, s, t);
      InvBase(c, s, t);
      Redispatch(c, s, MakeNonRunnable(SetStat(s, t, Alive(NoWait, true)), t), t);
    } else if !s.tcb[t].tstat.suspended {
      TweakInv(c, s, t, s.tcb[t].(tstat := Alive(s.tcb[t].tstat.wait, true)));
    }
  }

  lemma SuspendCore(c: Config, s: State, t: nat)
    requires Core(c, s, {}, None, None) && Runnable(s, t) && !s.tcb[t].raster
    ensures var s' := MakeNonRunnable(SetStat(s, t, Alive(NoWait, true)), t);
            Core(c, s', {}, None, None) && Undisturbed(s, s', {t})
  {
    assert {} + {t} == {t};
    SuspendedOk(c, t, s.tcb[t], s.held[t]);
    DetachFromReady(c, s, t, {}, None, None);
    var v := s.tcb[t].(tstat := Alive(NoWait, true));
    SetOff(c, MakeNonRunnable(s, t), t, v, {t}, None, None);
    AttachCore(c, SetTcb(MakeNonRunnable(s, t), t, v), t, {}, None, None);
    SuspendSteps(s, t);
  }

  lemma SuspendSteps(s: State, t: nat)
    requires Is(s, t)
    ensures var s' := MakeNonRunnable(SetStat(s, t, Alive(NoWait, true)), t);
            s' == SetTcb(MakeNonRunnable(s, t), t, s.tcb[t].(tstat := Alive(NoWait, true))) && Undisturbed(s, s', {t})
  {
  }

  lemma SuspendedOk(c: Config, t: nat, v: Tcb, ms: seq<nat>)
    requires TcbShape(c, v) && TaskOk(c, t, v, ms) && Runs(v) && !v.raster
    ensures var v' := v.(tstat := Alive(NoWait, true)); TcbShape(c, v') && TaskOk(c, t, v', ms)
  {
  }

  lemma ResumeKeeps(c: Config, s: State, t: nat)
    requires Inv(c, s) && Is(s, t)
    ensures Inv(c, Resume(s, t).0)
  {
    assert TaskOk(c, t, s.tcb[t], s.held[t]) && TcbShape(c, s.tcb[t]);
    if s.tcb[t].tstat.Dormant? || !s.tcb[t].tstat.suspended {
    } else if !Waiting(s, t) {
      ResumeCore(c, s, t);
      InvBase(c, s, t);
      Redispatch(c, s, MakeRunnable(SetStat(s, t, Alive(NoWait, false)), t), t);
    } else {
      TweakInv(c, s, t, s.tcb[t].(tstat := Alive(s.tcb[t].tstat.wait, false)));
    }
  }

  lemma ResumeCore(c: Config, s: State, t: nat)
    requires Core(c, s, {}, None, None) && Is(s, t) && s.tcb[t].tstat == Alive(NoWait, true)
    ensures var s' := MakeRunnable(SetStat(s, t, Alive(NoWait, false)), t);
            Core(c, s', {}, None, None) && Undisturbed(s, s', {t}) && Runnable(s', t) && !s'.tcb[t].raster
  {
    assert {} + {t} == {t};
    assert TcbShape(c, s.tcb[t]) && TaskOk(c, t, s.tcb[t], s.held[t]);
    DetachCore(c, s, t, {}, None, None);
    var v := s.tcb[t].(tstat := Alive(NoWait, false));
    SetOff(c, s, t, v, {t}, None, None);
    AttachCore(c, SetTcb(s, t, v), t, {}, None, None);
  }

  // ---------- Priorities ----------

  lemma NoCeilingHeld(c: Config, ms: seq<nat>, b: nat)
    requires forall m: nat :: m in ms && m < |c.obj| ==> c.obj[m].ceiling.None?
    ensures CeilingOf(c, ms, b) == b
  {
    CeilingBounds(c, ms, b);
  }

  /** With a ceiling held, no base priority that respects the ceilings changes the current one. */
  lemma CeilingDecides(c: Config, ms: seq<nat>, b: nat, b': nat, m: nat)
    requires m in ms && m < |c.obj| && c.obj[m].ceiling.Some?
    requires forall x: nat :: x in ms ==> BelowCeiling(c, x, b) && BelowCeiling(c, x, b')
    ensures CeilingOf(c, ms, b) == CeilingOf(c, ms, b')
  {
    CeilingBounds(c, ms, b);
    CeilingBounds(c, ms, b');
  }

  lemma BaseRespectsCeilings(c: Config, s: State, t: nat, newbpri: nat)
    requires Core(c, s, {}, None, None) && Is(s, t) && !CeilingViolated(c, s, t, newbpri)
    ensures UnderCeilings(c, s.tcb[t].(bpriority := newbpri), s.held[t])
  {
    forall m: nat | m in s.held[t]
      ensures BelowCeiling(c, m, newbpri)
    {
      HeldIsMutex(c, s.held, t, m);
    }
  }

  lemma ChangeBaseKeeps(c: Config, s: State, t: nat, newbpri: nat)
    requires Inv(c, s) && Is(s, t) && newbpri < TNUM_TPRI
    ensures Inv(c, ChangeBase(c, s, t, newbpri).0)
  {
    if s.tcb[t].tstat.Dormant? || CeilingViolated(c, s, t, newbpri) {
    } else if HoldsCeiling(c, s, t) {
      ChangeUnderCeiling(c, s, t, newbpri);
    } else {
      ChangeFreely(c, s, t, newbpri);
    }
  }

  lemma ChangeUnderCeiling(c: Config, s: State, t: nat, newbpri: nat)
    requires Inv(c, s) && Is(s, t) && newbpri < TNUM_TPRI && !s.tcb[t].tstat.Dormant?
    requires !CeilingViolated(c, s, t, newbpri) && HoldsCeiling(c, s, t)
    ensures Inv(c, SetTcb(s, t, s.tcb[t].(bpriority := newbpri)))
  {
    assert TaskOk(c, t, s.tcb[t], s.held[t]) && TcbShape(c, s.tcb[t]);
    BaseRespectsCeilings(c, s, t, newbpri);
    var m :| m in s.held[t] && m < |c.obj| && c.obj[m].ceiling.Some?;
    CeilingDecides(c, s.held[t], s.tcb[t].bpriority, newbpri, m);
    TweakInv(c, s, t, s.tcb[t].(bpriority := newbpri));
  }

  lemma ChangeFreely(c: Config, s: State, t: nat, newbpri: nat)
    requires Inv(c, s) && Is(s, t) && newbpri < TNUM_TPRI && !s.tcb[t].tstat.Dormant?
    requires !CeilingViolated(c, s, t, newbpri) && !HoldsCeiling(c, s, t)
    ensures Inv(c, Dispatch(ChangePriority(c, SetTcb(s, t, s.tcb[t].(bpriority := newbpri)), t, newbpri, false)))
  {
    ChangeFreelyCore(c, s, t, newbpri);
    ChangeFreelyUndisturbed(c, s, t, newbpri);
    InvBase(c, s, |s.tcb|);
    Redispatch(c, s, ChangePriority(c, SetTcb(s, t, s.tcb[t].(bpriority := newbpri)), t, newbpri, false), |s.tcb|);
  }

  lemma ChangeFreelyCore(c: Config, s: State, t: nat, newbpri: nat)
    requires Inv(c, s) && Is(s, t) && newbpri < TNUM_TPRI && !s.tcb[t].tstat.Dormant?
    requires !CeilingViolated(c, s, t, newbpri) && !HoldsCeiling(c, s, t)
    ensures Core(c, ChangePriority(c, SetTcb(s, t, s.tcb[t].(bpriority := newbpri)), t, newbpri, false), {}, None, None)
  {
    var v := s.tcb[t].(bpriority := newbpri);
    var s1 := SetTcb(s, t, v);
    BaseChanged(c, s, t, newbpri);
    TweakLate(c, s, t, v);
    ChangePriorityCore(c, s1, t, newbpri, false, None);
    ChangePriorityOf(c, s1, t, newbpri, false);
    Settled(c, ChangePriority(c, s1, t, newbpri, false), t, None);
  }

  /** The task as chg_pri leaves it, without a ceiling mutex. */
  lemma BaseChanged(c: Config, s: State, t: nat, newbpri: nat)
    requires Inv(c, s) && Is(s, t) && newbpri < TNUM_TPRI && !s.tcb[t].tstat.Dormant?
    requires !CeilingViolated(c, s, t, newbpri) && !HoldsCeiling(c, s, t)
    ensures TcbShape(c, s.tcb[t].(bpriority := newbpri))
    ensures TaskOk(c, t, s.tcb[t].(bpriority := newbpri, priority := newbpri), s.held[t])
  {
    assert TaskOk(c, t, s.tcb[t], s.held[t]) && TcbShape(c, s.tcb[t]);
    BaseRespectsCeilings(c, s, t, newbpri);
    NoCeilingHeld(c, s.held[t], newbpri);
  }

  lemma ChangeFreelyUndisturbed(c: Config, s: State, t: nat, newbpri: nat)
    requires Inv(c, s) && Is(s, t)
    ensures |s.waitq| == |c.obj|
    ensures Undisturbed(s, ChangePriority(c, SetTcb(s, t, s.tcb[t].(bpriority := newbpri)), t, newbpri, false), {})
  {
    ChangePriorityOf(c, SetTcb(s, t, s.tcb[t].(bpriority := newbpri)), t, newbpri, false);
  }

  lemma {:induction false} FirstOfIsIn(q: seq<nat>, p: seq<nat>, pri: nat)
    requires exists t :: t in q && Of(p, t) == pri
    ensures FirstOf(q, p, pri) in q && Of(p, FirstOf(q, p, pri)) == pri
  {
    if Of(p, q[0]) != pri {
      assert q == [q[0]] + q[1..];
      FirstOfIsIn(q[1..], p, pri);
    }
  }

  lemma RotateKeeps(c: Config, s: State, pri: nat)
    requires Inv(c, s)
    ensures Inv(c, Dispatch(Rotate(s, pri)))
  {
    InvBase(c, s, |s.tcb|);
    RotateCore(c, s, pri);
    Redispatch(c, s, Rotate(s, pri), |s.tcb|);
  }

  lemma RotateCore(c: Config, s: State, pri: nat)
    requires Core(c, s, {}, None, None)
    ensures Core(c, Rotate(s, pri), {}, None, None) && Undisturbed(s, Rotate(s, pri), {})
  {
    if exists t :: t in s.ready && Of(Prios(s.tcb), t) == pri {
      var t := FirstOf(s.ready, Prios(s.tcb), pri);
      FirstOfIsIn(s.ready, Prios(s.tcb), pri);
      ReadyMoves(s.tcb, s.ready, t, s.tcb[t], false);
      assert s.tcb[t := s.tcb[t]] == s.tcb;
    }
  }

  // ---------- Mutexes and other wait objects ----------

  lemma LockKeeps(c: Config, s: State, self: nat, m: nat, tmo: Tmo)
    requires Inv(c, s) && s.runtsk == Some(self) && !s.inHandler && m < |c.obj| && c.obj[m].mutex
    requires tmo != TMO_POL ==> Dispatching(s) && !s.tcb[self].raster
    ensures Inv(c, Lock(c, s, self, m, tmo).0)
  {
    if c.obj[m].ceiling.Some? && s.tcb[self].bpriority < c.obj[m].ceiling.value {
    } else if !Owned(s.held, m) {
      AcquireKeeps(c, s, self, m);
    } else if m !in s.held[self] && tmo != TMO_POL {
      EnterWaitKeeps(c, s, self, OnObject(m), tmo.Limited?);
    }
  }

  lemma AcquireCore(c: Config, s: State, t: nat, m: nat)
    requires Core(c, s, {}, None, None) && Is(s, t) && m < |c.obj| && c.obj[m].mutex && !Owned(s.held, m)
    requires Runnable(s, t) && BelowCeiling(c, m, s.tcb[t].bpriority)
    ensures Core(c, Acquire(c, s, t, m), {}, None, None)
    ensures Undisturbed(s, Acquire(c, s, t, m), {})
  {
    assert TaskOk(c, t, s.tcb[t], s.held[t]) && TcbShape(c, s.tcb[t]);
    PushCore(c, s, t, m, {}, None, None);
    ReprioritizeCore(c, SetHeld(s, t, [m] + s.held[t]), t, None);
    ReprioritizeUndisturbed(c, SetHeld(s, t, [m] + s.held[t]), t);
  }

  lemma ReprioritizeUndisturbed(c: Config, s: State, t: nat)
    requires Is(s, t) && |s.held| == |s.tcb| && |s.waitq| == |c.obj|
    ensures Undisturbed(s, Reprioritize(c, s, t), {}) && Reprioritize(c, s, t).held == s.held
  {
    ChangePriorityOf(c, s, t, CeilingOf(c, s.held[t], s.tcb[t].bpriority), true);
  }

  /** Locking a free mutex never makes a dispatch necessary: the locker goes before its equals. */
  lemma AcquireKeeps(c: Config, s: State, self: nat, m: nat)
    requires Inv(c, s) && s.runtsk == Some(self) && !s.inHandler && m < |c.obj| && c.obj[m].mutex
    requires !Owned(s.held, m) && BelowCeiling(c, m, s.tcb[self].bpriority)
    ensures Inv(c, Acquire(c, s, self, m)) && Scheduled(Acquire(c, s, self, m)) == Some(self)
  {
    AcquireCore(c, s, self, m);
    InvBase(c, s, |s.tcb|);
    var s' := Acquire(c, s, self, m);
    Redispatch(c, s, s', |s.tcb|);
    if Dispatching(s) {
      RaiseKeepsHead(c, s, self, m);
    }
    assert Dispatch(s') == s';
  }

  lemma RaiseKeepsHead(c: Config, s: State, self: nat, m: nat)
    requires Core(c, s, {}, None, None) && m < |c.obj| && c.obj[m].mutex && s.ready != [] && s.ready[0] == self
    ensures Is(s, self) && Acquire(c, s, self, m).ready != [] && Acquire(c, s, self, m).ready[0] == self
  {
    assert self in s.ready;
    var v := s.tcb[self];
    assert TaskOk(c, self, v, s.held[self]);
    var p := CeilingOf(c, [m] + s.held[self], v.bpriority);
    assert ([m] + s.held[self])[1..] == s.held[self];
    assert p <= v.priority;
    if p != v.priority {
      var q := Without(s.ready, self);
      var ps := Prios(s.tcb[self := v.(priority := p)]);
      TailContents(s.ready);
      assert q == s.ready[1..];
      forall x | x in q
        ensures Precedes(ps, self, x, true)
      {
        assert Sorted(s.ready, Prios(s.tcb));
      }
      InsertBefore(q, ps, self, true);
    }
  }

  lemma UnlockKeeps(c: Config, s: State, self: nat, m: nat)
    requires Inv(c, s) && s.runtsk == Some(self) && !s.inHandler
    requires s.held[self] != [] && s.held[self][0] == m
    ensures Inv(c, Dispatch(Unlock(c, s, self, m)))
  {
    assert TaskOk(c, self, s.tcb[self], s.held[self]);
    HeldIsMutex(c, s.held, self, m);
    var s1 := SetHeld(s, self, s.held[self][1..]);
    PopCore(c, s, self, {});
    TailContents(s.held[self]);
    ReprioritizeCore(c, s1, self, Some(m));
    ReprioritizeUndisturbed(c, s1, self);
    var s2 := Reprioritize(c, s1, self);
    ReleaseCore(c, s2, m, {});
    ReleaseUndisturbed(c, s2, m, {});
    InvBase(c, s, |s.tcb|);
    UndisturbedTwice(s, s2, Release(c, s2, m));
    Redispatch(c, s, Release(c, s2, m), |s.tcb|);
  }

  lemma ReinitializeKeeps(c: Config, s: State, m: nat)
    requires Inv(c, s) && m < |c.obj| && c.obj[m].mutex
    ensures Inv(c, Dispatch(Reinitialize(c, s, m)))
  {
    InvBase(c, s, |s.tcb|);
    ReinitializeUndisturbed(c, s, m);
    Redispatch(c, s, Reinitialize(c, s, m), |s.tcb|);
  }

  lemma ReinitializeUndisturbed(c: Config, s: State, m: nat)
    requires Inv(c, s) && m < |c.obj| && c.obj[m].mutex
    ensures Core(c, Reinitialize(c, s, m), {}, None, None) && Undisturbed(s, Reinitialize(c, s, m), {})
  {
    var s1 := FlushQueue(s, m);
    FlushCore(c, s, m);
    if Owned(s.held, m) {
      TakeAwayCore(c, s1, Holder(s.held, m), m);
      UndisturbedTwice(s, s1, Reinitialize(c, s, m));
    }
  }

  /** Taking a mutex that nobody waits for away from its holder, wherever in the holder's list. */
  lemma TakeAwayCore(c: Config, s: State, t: nat, m: nat)
    requires Core(c, s, {}, None, None) && Is(s, t) && m in s.held[t] && m < |c.obj| && s.waitq[m] == []
    ensures var s' := Reprioritize(c, SetHeld(s, t, Without(s.held[t], m)), t);
            Core(c, s', {}, None, None) && Undisturbed(s, s', {})
  {
    var s1 := SetHeld(s, t, Without(s.held[t], m));
    assert TaskOk(c, t, s.tcb[t], s.held[t]);
    assert NoDuplicates(s.held[t]);
    WithoutContents(s.held[t], m);
    HeldAfterPop(c, s.held, t, Without(s.held[t], m));
    assert Core(c, s1, {}, Some(t), None);
    ReprioritizeCore(c, s1, t, None);
    ReprioritizeUndisturbed(c, s1, t);
  }

  lemma WakeFirstKeeps(c: Config, s: State, o: nat)
    requires Inv(c, s) && o < |c.obj|
    ensures Inv(c, Dispatch(WakeFirst(s, o)))
  {
    InvBase(c, s, |s.tcb|);
    if s.waitq[o] != [] {
      WakeCore(c, s, o, E_OK);
    }
    Redispatch(c, s, WakeFirst(s, o), |s.tcb|);
  }

  lemma FlushKeeps(c: Config, s: State, o: nat)
    requires Inv(c, s) && o < |c.obj|
    ensures Inv(c, Dispatch(FlushQueue(s, o)))
  {
    InvBase(c, s, |s.tcb|);
    FlushCore(c, s, o);
    Redispatch(c, s, FlushQueue(s, o), |s.tcb|);
  }

  /** The time event block of a task is registered only while the task waits. */
  lemma TimeOutKeeps(c: Config, s: State, t: nat)
    requires Inv(c, s) && s.inHandler
    ensures Inv(c, TimeOutOf(s, t).0)
  {
    if t in s.timers {
      assert Limits(s.tcb[t]);
      EndWaitKeeps(c, s, t, if s.tcb[t].tstat.wait == Delay then E_OK else E_TMOUT);
    }
  }

  // ---------- Every call, every run ----------

  lemma ExecInTaskKeeps(c: Config, s: State, call: Call, self: nat)
    requires Inv(c, s) && s.runtsk == Some(self) && !s.inHandler && ValidCall(c, call)
    requires (NeedsDispatch(call) ==> Dispatching(s)) && !OnAnObject(call)
    ensures Inv(c, ExecInTask(c, s, call, self).0)
  {
    match call
    case TerTsk(t) =>
      if t != self && !s.tcb[t].tstat.Dormant? {
        InvBase(c, s, t);
        TerminateKeeps(c, s, t);
      }
    case ExtTsk => ReopenKeeps(c, s, s.(enadsp := true, ipmOpen := true), self);
    case RasTer(t) => RequestKeeps(c, s, self, t);
    case DisTer => DisableKeeps(c, s, self);
    case EnaTer => EnableKeeps(c, s, self);
    case SlpTsk(tmo) => SleepKeeps(c, s, self, tmo);
    case DlyTsk =>
      if !s.tcb[self].raster {
        EnterWaitKeeps(c, s, self, Delay, true);
      }
    case SusTsk(t) => SuspendKeeps(c, s, self, t);
    case RsmTsk(t) => ResumeKeeps(c, s, t);
    case ChgPri(t, newbpri) => ChangeBaseKeeps(c, s, t, newbpri);
    case DisDsp => CloseKeeps(c, s, self);
    case EnaDsp => ReopenKeeps(c, s, s.(enadsp := true), self);
    case ChgIpm(open) => ReopenKeeps(c, s, s.(ipmOpen := open), self);
    case _ =>
  }

  /** The calls on mutexes and other wait objects. */
  predicate OnAnObject(call: Call) {
    call.LocMtx? || call.PlocMtx? || call.UnlMtx? || call.IniMtx? || call.WaitObject? || call.IniObject?
  }

  lemma ExecOnObjectKeeps(c: Config, s: State, call: Call, self: nat)
    requires Inv(c, s) && s.runtsk == Some(self) && !s.inHandler && ValidCall(c, call)
    requires (NeedsDispatch(call) ==> Dispatching(s)) && OnAnObject(call)
    ensures Inv(c, ExecInTask(c, s, call, self).0)
  {
    match call
    case LocMtx(m, tmo) =>
      if !s.tcb[self].raster {
        LockKeeps(c, s, self, m, tmo);
      }
    case PlocMtx(m) => LockKeeps(c, s, self, m, TMO_POL);
    case UnlMtx(m) =>
      if s.held[self] != [] && s.held[self][0] == m {
        UnlockKeeps(c, s, self, m);
      }
    case IniMtx(m) => ReinitializeKeeps(c, s, m);
    case WaitObject(o, limited) =>
      if !s.tcb[self].raster {
        EnterWaitKeeps(c, s, self, OnObject(o), limited);
      }
    case IniObject(o) => FlushKeeps(c, s, o);
  }

  lemma DisableKeeps(c: Config, s: State, self: nat)
    requires Inv(c, s) && s.runtsk == Some(self)
    ensures Inv(c, SetTcb(s, self, s.tcb[self].(enater := false)))
  {
    assert TaskOk(c, self, s.tcb[self], s.held[self]) && TcbShape(c, s.tcb[self]);
    TweakInv(c, s, self, s.tcb[self].(enater := false));
  }

  lemma CloseKeeps(c: Config, s: State, self: nat)
    requires Inv(c, s) && s.runtsk == Some(self) && !s.inHandler
    ensures Inv(c, s.(enadsp := false))
  {
    ReopenKeeps(c, s, s.(enadsp := false), self);
  }

  lemma ExecAnywhereKeeps(c: Config, s: State, call: Call)
    requires Inv(c, s) && ValidCall(c, call)
    ensures Inv(c, ExecAnywhere(c, s, call).0)
  {
    match call
    case ActTsk(t) => ActivateKeeps(c, s, t);
    case WupTsk(t) => WakeUpKeeps(c, s, t);
    case RelWai(t) =>
      if Waiting(s, t) {
        EndWaitKeeps(c, s, t, E_RLWAI);
      }
    case RotRdq(pri) => RotateKeeps(c, s, pri);
    case WakeObject(o) => WakeFirstKeeps(c, s, o);
    case _ =>
  }

  lemma ExecOutsideKeeps(c: Config, s: State, call: Call)
    requires Inv(c, s) && Permitted(s, call)
    ensures Inv(c, ExecOutside(s, call).0)
  {
    match call
    case EnterHandler => EnterKeeps(c, s);
    case ExitHandler =>
      ExitKeeps(c, s);
      assert ExecOutside(s, call).0 == Dispatch(s.(inHandler := false));
    case TimeOut(t) =>
      TimeOutKeeps(c, s, t);
      assert ExecOutside(s, call).0 == TimeOutOf(s, t).0;
    case _ =>
  }

  lemma ExecKeeps(c: Config, s: State, call: Call)
    requires Inv(c, s)
    ensures Inv(c, Exec(c, s, call).0)
  {
    if !Permitted(s, call) || !ValidCall(c, call) {
    } else if FromAnywhere(call) {
      ExecAnywhereKeeps(c, s, call);
    } else if FromOutside(call) {
      ExecOutsideKeeps(c, s, call);
    } else if OnAnObject(call) {
      ExecOnObjectKeeps(c, s, call, s.runtsk.value);
    } else {
      ExecInTaskKeeps(c, s, call, s.runtsk.value);
    }
  }

  lemma EnterKeeps(c: Config, s: State)
    requires Inv(c, s)
    ensures Inv(c, ExecOutside(s, EnterHandler).0)
  {
    assert Core(c, s.(inHandler := true), {}, None, None);
  }

  lemma ExitKeeps(c: Config, s: State)
    requires Inv(c, s)
    ensures Inv(c, Dispatch(s.(inHandler := false)))
  {
    var s1 := s.(inHandler := false);
    assert Core(c, s1, {}, None, None) && RunBase(s1, |s.tcb|);
    Redispatch(c, s1, s1, |s.tcb|);
  }

  /** initialize_task, before any task is activated; start_dispatch is then like the return from a
      handler. */
  function Start(c: Config): State {
    State(seq(|c.ipriority|, t requires 0 <= t < |c.ipriority| =>
                Tcb(Dormant, c.ipriority[t], c.ipriority[t], false, false, false, true, Wercd(E_OK))),
          seq(|c.ipriority|, _ => []), [], seq(|c.obj|, _ => []), {}, None, true, true, true)
  }

  lemma StartInv(c: Config)
    requires GoodConfig(c)
    ensures Inv(c, Start(c))
  {
  }

  ghost function RunCalls(c: Config, s: State, calls: seq<Call>): State
    requires Inv(c, s)
    decreases |calls|
  {
    if calls == [] then s
    else
      ExecKeeps(c, s, calls[0]);
      RunCalls(c, Exec(c, s, calls[0]).0, calls[1..])
  }

  /** In every state that any run of calls reaches, the invariant holds. */
  lemma {:induction false} RunsKeep(c: Config, s: State, calls: seq<Call>)
    requires Inv(c, s)
    ensures Inv(c, RunCalls(c, s, calls))
    decreases |calls|
  {
    if calls != [] {
      ExecKeeps(c, s, calls[0]);
      RunsKeep(c, Exec(c, s, calls[0]).0, calls[1..]);
    }
  }
}
