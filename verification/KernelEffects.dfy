/**
 What each service call does, in terms of the kernel's records alone: the control blocks, the queues,
 the mutexes held, the time limits and the running task.
 */
module KernelEffects {
  import opened Options
  import opened Precedence
  import opened Subsequence
  import opened KernelModel
  import opened KernelSafety
  import opened KernelRuns

  // ---------- The running task ----------

  /** Outside handlers the first task of the ready queue runs, if dispatching is on; otherwise the
      running task stays. */
  ghost predicate Redispatched(s: State, s': State) {
    && s'.enadsp == s.enadsp && s'.ipmOpen == s.ipmOpen && s'.inHandler == s.inHandler
    && s'.runtsk == if s.inHandler || !s.enadsp || !s.ipmOpen then s.runtsk
                    else if s'.ready == [] then None else Some(s'.ready[0])
  }

  lemma DispatchEffect(s: State, s1: State)
    requires s1.enadsp == s.enadsp && s1.ipmOpen == s.ipmOpen && s1.inHandler == s.inHandler && s1.runtsk == s.runtsk
    ensures Redispatched(s, Dispatch(s1)) && Dispatch(s1) == s1.(runtsk := Dispatch(s1).runtsk)
  {
  }

  lemma SamePrios(tcb: seq<Tcb>, t: nat, v: Tcb)
    requires t < |tcb| && v.priority == tcb[t].priority
    ensures Prios(tcb[t := v]) == Prios(tcb)
  {
  }

  /** A call that only a task can make is made by the running one. */
  lemma ByTask(c: Config, s: State, call: Call)
    requires Inv(c, s) && Permitted(s, call) && ValidCall(c, call) && !FromAnywhere(call) && !FromOutside(call)
    ensures Sized(c, s) && s.runtsk.Some? && Is(s, s.runtsk.value)
    ensures Exec(c, s, call) == ExecInTask(c, s, call, s.runtsk.value)
  {
  }

  lemma FromAny(c: Config, s: State, call: Call)
    requires Inv(c, s) && Permitted(s, call) && ValidCall(c, call) && FromAnywhere(call)
    ensures Sized(c, s) && Exec(c, s, call) == ExecAnywhere(c, s, call)
  {
  }

  lemma ByNobody(c: Config, s: State, call: Call)
    requires Sized(c, s) && Permitted(s, call) && FromOutside(call)
    ensures Exec(c, s, call) == ExecOutside(s, call)
  {
  }

  // ---------- Where the mutexes of a terminated task go ----------

  /** Task `x` is the first that waits for mutex `m`, which is one of `ms`. */
  ghost predicate NextHolder(s: State, ms: seq<nat>, x: nat, m: nat) {
    m in ms && m < |s.waitq| && s.waitq[m] != [] && s.waitq[m][0] == x
  }

  /** The task holds the mutex now, as the last it locked: its wait ended with E_OK, and its priority is
      what the ceilings it holds make it. */
  ghost predicate GotMutex(c: Config, s: State, s': State, x: nat, m: nat) {
    && x < |s.tcb| == |s'.tcb| && x < |s.held| == |s'.held| && s.tcb[x].tstat.Alive?
    && s'.held[x] == [m] + s.held[x] && x !in s'.timers
    && s'.tcb[x] == s.tcb[x].(tstat := Alive(NoWait, s.tcb[x].tstat.suspended), winfo := Wercd(E_OK),
                              priority := CeilingOf(c, [m] + s.held[x], s.tcb[x].bpriority))
  }

  ghost predicate Untouched(s: State, s': State, x: nat) {
    && x < |s.tcb| == |s'.tcb| && x < |s.held| == |s'.held|
    && s'.tcb[x] == s.tcb[x] && s'.held[x] == s.held[x] && (x in s'.timers <==> x in s.timers)
  }

  function Tail(q: seq<nat>): seq<nat> {
    if q == [] then [] else q[1..]
  }

  lemma ReleasedTo(c: Config, s: State, m: nat, off: set<nat>, x: nat)
    requires Core(c, s, off, None, Some(m)) && m < |c.obj| && c.obj[m].mutex && Is(s, x)
    ensures var s' := Release(c, s, m);
            s'.waitq == s.waitq[m := Tail(s.waitq[m])] &&
            if s.waitq[m] != [] && s.waitq[m][0] == x then GotMutex(c, s, s', x, m) else Untouched(s, s', x)
  {
    if s.waitq[m] == [] {
      assert s.waitq[m := []] == s.waitq;
    } else {
      var t := s.waitq[m][0];
      HandOverCore(c, s, m, t, off);
      HandOverSteps(c, s, m, t);
    }
  }

  /** The first step of mutex_release_all, seen by another task. */
  lemma FirstReleased(c: Config, s: State, t: nat, x: nat)
    requires Core(c, s, {t}, None, None) && Is(s, t) && s.held[t] != [] && Is(s, x) && x != t
    ensures var m := s.held[t][0];
            var s1 := Release(c, SetHeld(s, t, s.held[t][1..]), m);
            m !in s.held[t][1..] && m < |s.waitq| && s1.waitq == s.waitq[m := Tail(s.waitq[m])] &&
            if s.waitq[m] != [] && s.waitq[m][0] == x then GotMutex(c, s, s1, x, m) else Untouched(s, s1, x)
  {
    ReleaseOneCore(c, s, t);
    TailContents(s.held[t]);
    HeldIsMutex(c, s.held, t, s.held[t][0]);
    ReleasedTo(c, SetHeld(s, t, s.held[t][1..]), s.held[t][0], {t}, x);
  }

  lemma AwakeIsNotNext(c: Config, s: State, off: set<nat>, x: nat, ms: seq<nat>, m: nat)
    requires Core(c, s, off, None, None) && Is(s, x) && !Waits(s.tcb[x])
    ensures !NextHolder(s, ms, x, m)
  {
    if m < |s.waitq| && s.waitq[m] != [] {
      assert QueueOk(c.obj[m].tpri, s.tcb, s.waitq[m], m, off);
      assert s.waitq[m][0] in s.waitq[m];
    }
  }

  lemma ReleaseUnrolls(c: Config, s: State, t: nat, n: nat)
    requires |s.held| == |s.tcb| && |s.waitq| == |c.obj| && Is(s, t) && n == |s.held[t]| > 0
    ensures var s1 := SetHeld(s, t, s.held[t][1..]);
            |s1.held| == |s.held| && ReleaseLast(c, s, t, n) == ReleaseLast(c, Release(c, s1, s.held[t][0]), t, n - 1)
  {
  }

  /** mutex_release_all, seen by another task: it gets the mutex for which it is the first to wait, or
      nothing happens to it. */
  ghost predicate ReleasedFor(c: Config, s: State, s': State, ms: seq<nat>, x: nat) {
    && (forall m: nat :: NextHolder(s, ms, x, m) ==> GotMutex(c, s, s', x, m))
    && ((forall m: nat :: !NextHolder(s, ms, x, m)) ==> Untouched(s, s', x))
  }

  lemma {:induction false} AllReleased(c: Config, s: State, t: nat, n: nat, x: nat)
    requires Core(c, s, {t}, None, None) && Is(s, t) && n == |s.held[t]| && Is(s, x) && x != t
    ensures ReleasedFor(c, s, ReleaseLast(c, s, t, n), s.held[t], x)
    decreases n
  {
    if n != 0 {
      var ms := s.held[t];
      var s1 := Release(c, SetHeld(s, t, ms[1..]), ms[0]);
      ReleaseOneCore(c, s, t);
      FirstReleased(c, s, t, x);
      AllReleased(c, s1, t, n - 1, x);
      ReleaseUnrolls(c, s, t, n);
      ReleasedLater(c, s, s1, ReleaseLast(c, s, t, n), t, x);
    }
  }

  lemma ReleasedLater(c: Config, s: State, s1: State, s': State, t: nat, x: nat)
    requires t < |s.held| && s.held[t] != [] && Core(c, s1, {t}, None, None) && Is(s1, x)
    requires var m := s.held[t][0];
             m !in s.held[t][1..] && m < |s.waitq| && s1.waitq == s.waitq[m := Tail(s.waitq[m])] &&
             if s.waitq[m] != [] && s.waitq[m][0] == x then GotMutex(c, s, s1, x, m) else Untouched(s, s1, x)
    requires ReleasedFor(c, s1, s', s.held[t][1..], x)
    ensures ReleasedFor(c, s, s', s.held[t], x)
  {
    var ms := s.held[t];
    assert ms == [ms[0]] + ms[1..];
    forall m: nat
      ensures m != ms[0] ==> (NextHolder(s, ms, x, m) <==> NextHolder(s1, ms[1..], x, m))
    {
    }
    if NextHolder(s, ms, x, ms[0]) {
      forall m: nat
        ensures !NextHolder(s1, ms[1..], x, m)
      {
        AwakeIsNotNext(c, s1, {t}, x, ms[1..], m);
      }
    }
  }

  /** Mutexes released by mutex_release_all: their queues lose their first task. */
  lemma {:induction false} AllReleasedQueues(c: Config, s: State, t: nat, n: nat, o: nat)
    requires Core(c, s, {t}, None, None) && Is(s, t) && n == |s.held[t]|
    ensures var s' := ReleaseLast(c, s, t, n);
            (o < |s.waitq| ==> s'.waitq[o] == if o in s.held[t] then Tail(s.waitq[o]) else s.waitq[o]) &&
            s'.tcb[t] == s.tcb[t] && s'.held[t] == [] && (t in s'.timers <==> t in s.timers)
    decreases n
  {
    if n != 0 {
      var ms := s.held[t];
      var s1 := Release(c, SetHeld(s, t, ms[1..]), ms[0]);
      ReleaseOneCore(c, s, t);
      HeldIsMutex(c, s.held, t, ms[0]);
      ReleasedTo(c, SetHeld(s, t, ms[1..]), ms[0], {t}, t);
      NotFirstOff(c, SetHeld(s, t, ms[1..]), ms[0], t);
      TailContents(ms);
      AllReleasedQueues(c, s1, t, n - 1, o);
      ReleaseUnrolls(c, s, t, n);
    }
  }

  lemma NotFirstOff(c: Config, s: State, m: nat, t: nat)
    requires Core(c, s, {t}, None, Some(m)) && m < |c.obj|
    ensures s.waitq[m] == [] || s.waitq[m][0] != t
  {
    assert QueueOk(c.obj[m].tpri, s.tcb, s.waitq[m], m, {t});
    assert s.waitq[m] != [] ==> s.waitq[m][0] in s.waitq[m];
  }

  lemma {:induction false} SubInsert(q: seq<nat>, p: seq<nat>, t: nat, front: bool)
    ensures Sub(q, Insert(q, p, t, front))
  {
    if q == [] || Precedes(p, t, q[0], front) {
      SubSelf(q);
      SubBehind([t], q, q);
    } else {
      SubInsert(q[1..], p, t, front);
    }
  }

  lemma ReleasedReady(c: Config, s: State, m: nat, off: set<nat>)
    requires Core(c, s, off, None, Some(m)) && m < |c.obj| && c.obj[m].mutex
    ensures Sub(s.ready, Release(c, s, m).ready)
  {
    SubSelf(s.ready);
    if s.waitq[m] != [] {
      var t := s.waitq[m][0];
      HandOverCore(c, s, m, t, off);
      HandOverSteps(c, s, m, t);
      SubInsert(s.ready, Prios(HandOver(c, s, m, t).tcb), t, false);
    }
  }

  /** The tasks that can run keep their order. */
  lemma {:induction false} AllReleasedReady(c: Config, s: State, t: nat, n: nat)
    requires Core(c, s, {t}, None, None) && Is(s, t) && n == |s.held[t]|
    ensures Sub(s.ready, ReleaseLast(c, s, t, n).ready)
    decreases n
  {
    if n == 0 {
      SubSelf(s.ready);
    } else {
      var ms := s.held[t];
      var s0 := SetHeld(s, t, ms[1..]);
      ReleaseOneCore(c, s, t);
      HeldIsMutex(c, s.held, t, ms[0]);
      ReleasedReady(c, s0, ms[0], {t});
      AllReleasedReady(c, Release(c, s0, ms[0]), t, n - 1);
      ReleaseUnrolls(c, s, t, n);
      SubTrans(s.ready, Release(c, s0, ms[0]).ready, ReleaseLast(c, s, t, n).ready);
    }
  }

  // ---------- Termination ----------

  /** The task as it is after its end: dormant, or, if an activation was queued, ready to run again as
      at its start. */
  function Anew(c: Config, v: Tcb, t: nat): Tcb
    requires t < |c.ipriority|
  {
    v.(tstat := if v.actque then Alive(NoWait, false) else Dormant, actque := false, wupque := false,
       bpriority := c.ipriority[t], priority := c.ipriority[t], raster := false, enater := true)
  }

  /** The task has ended: it waits for nothing and holds nothing; each mutex it held went to the first task
      that waited for it; nothing happened to the other tasks. */
  ghost predicate Terminated(c: Config, s: State, s': State, t: nat) {
    && Is(s, t) && |s'.tcb| == |s.tcb| == |s.held| == |s'.held| == |c.ipriority| && |s'.waitq| == |s.waitq|
    && s'.tcb[t] == Anew(c, s.tcb[t], t) && s'.held[t] == [] && t !in s'.timers
    && (forall x: nat :: x < |s.tcb| && x != t ==> ReleasedFor(c, s, s', s.held[t], x))
    && (forall o: nat :: o < |s.waitq| ==>
          s'.waitq[o] == if o in s.held[t] then Tail(s.waitq[o])
                         else if WaitsFor(s.tcb[t], o) then Without(s.waitq[o], t) else s.waitq[o])
    && Sub(Without(s.ready, t), s'.ready)
    && (s.tcb[t].actque ==> s'.ready == Insert(Without(s'.ready, t), Prios(s'.tcb), t, false))
  }

  lemma DetachEffect(c: Config, s: State, t: nat)
    requires Core(c, s, {}, None, None) && Is(s, t)
    ensures var s1 := Detach(s, t);
            |s1.waitq| == |s.waitq| && s1.timers == s.timers - {t} && s1.ready == Without(s.ready, t) &&
            (forall o: nat :: o < |s.waitq| ==>
               s1.waitq[o] == if WaitsFor(s.tcb[t], o) then Without(s.waitq[o], t) else s.waitq[o])
  {
    assert t in s.timers ==> Limits(s.tcb[t]);
    assert TcbShape(c, s.tcb[t]);
    if !Runs(s.tcb[t]) {
      WithoutAbsent(s.ready, t);
    }
    if !Waits(s.tcb[t]) {
      assert s.timers - {t} == s.timers;
    }
  }

  lemma RestartEffect(c: Config, s: State, t: nat)
    requires Is(s, t) && t < |c.ipriority| && t !in s.ready
    ensures var s' := Restart(c, s, t);
            s' == s.(tcb := s.tcb[t := Anew(c, s.tcb[t], t)], ready := s'.ready) && Without(s'.ready, t) == s.ready &&
            (if s.tcb[t].actque then s'.ready == Insert(s.ready, Prios(s'.tcb), t, false) else s'.ready == s.ready)
  {
    var d := s.tcb[t].(tstat := Dormant, bpriority := c.ipriority[t], priority := c.ipriority[t],
                       wupque := false, raster := false, enater := true);
    var a := Anew(c, s.tcb[t], t);
    if s.tcb[t].actque {
      assert d.(actque := false).(tstat := a.tstat) == a;
      assert s.tcb[t := d][t := d.(actque := false)][t := a] == s.tcb[t := a];
      InsertKeepsOthers(s.ready, Prios(s.tcb[t := a]), t, false);
    } else {
      assert d == a;
      WithoutAbsent(s.ready, t);
    }
  }

  /** What the end of task `t` is for task `x`. */
  lemma TerminateFor(c: Config, s: State, t: nat, x: nat)
    requires Core(c, s, {}, None, None) && Is(s, t) && Is(s, x) && x != t
    ensures Core(c, Detach(s, t), {t}, None, None)
    ensures ReleasedFor(c, s, ReleaseLast(c, Detach(s, t), t, |s.held[t]|), s.held[t], x)
  {
    var s1, ms := Detach(s, t), s.held[t];
    assert {} + {t} == {t};
    DetachCore(c, s, t, {}, None, None);
    DetachUndisturbed(s, t);
    DetachEffect(c, s, t);
    AllReleased(c, s1, t, |ms|, x);
    assert TaskOk(c, t, s.tcb[t], ms);
    SameForOthers(c, s, s1, ReleaseLast(c, s1, t, |ms|), ms, t, x);
  }

  lemma SameForOthers(c: Config, s: State, s1: State, s': State, ms: seq<nat>, t: nat, x: nat)
    requires s1.tcb == s.tcb && s1.held == s.held && s1.timers == s.timers - {t} && x != t
    requires |s1.waitq| == |s.waitq| && forall m: nat :: m < |s.waitq| && m in ms ==> s1.waitq[m] == s.waitq[m]
    requires ReleasedFor(c, s1, s', ms, x)
    ensures ReleasedFor(c, s, s', ms, x)
  {
    forall m: nat
      ensures NextHolder(s, ms, x, m) <==> NextHolder(s1, ms, x, m)
    {
    }
  }

  lemma TerminateQueue(c: Config, s: State, t: nat, o: nat)
    requires Core(c, s, {}, None, None) && Is(s, t)
    ensures Core(c, Detach(s, t), {t}, None, None)
    ensures var s' := ReleaseLast(c, Detach(s, t), t, |s.held[t]|);
            Core(c, s', {t}, None, None) && s'.tcb[t] == s.tcb[t] && s'.held[t] == [] && t !in s'.timers &&
            (o < |s.waitq| ==>
               s'.waitq[o] == if o in s.held[t] then Tail(s.waitq[o])
                              else if WaitsFor(s.tcb[t], o) then Without(s.waitq[o], t) else s.waitq[o])
  {
    assert {} + {t} == {t};
    DetachCore(c, s, t, {}, None, None);
    DetachUndisturbed(s, t);
    DetachEffect(c, s, t);
    AllReleasedQueues(c, Detach(s, t), t, |s.held[t]|, o);
    ReleaseLastCore(c, Detach(s, t), t, |s.held[t]|);
    assert TaskOk(c, t, s.tcb[t], s.held[t]);
  }

  lemma SameAfterRestart(c: Config, s: State, s2: State, s': State, ms: seq<nat>, t: nat, x: nat)
    requires ReleasedFor(c, s, s2, ms, x) && x != t && Is(s2, t) && |s'.tcb| == |s2.tcb|
    requires s'.tcb == s2.tcb[t := s'.tcb[t]] && s'.held == s2.held && s'.timers == s2.timers
    ensures ReleasedFor(c, s, s', ms, x)
  {
  }

  lemma TerminateReady(c: Config, s: State, t: nat)
    requires Core(c, s, {}, None, None) && Is(s, t)
    ensures Core(c, Detach(s, t), {t}, None, None)
    ensures var s2 := ReleaseLast(c, Detach(s, t), t, |s.held[t]|);
            Core(c, s2, {t}, None, None) && t !in s2.ready &&
            Sub(Without(s.ready, t), s2.ready) &&
            s2.tcb[t] == s.tcb[t] && s2.held[t] == [] && t !in s2.timers
  {
    assert {} + {t} == {t};
    DetachCore(c, s, t, {}, None, None);
    DetachUndisturbed(s, t);
    DetachEffect(c, s, t);
    AllReleasedReady(c, Detach(s, t), t, |s.held[t]|);
    TerminateQueue(c, s, t, 0);
  }

  lemma RestartReady(c: Config, s: State, t: nat, q: seq<nat>)
    requires Is(s, t) && t < |c.ipriority| && t !in s.ready && Sub(q, s.ready)
    ensures Sub(q, Restart(c, s, t).ready)
  {
    RestartEffect(c, s, t);
    if s.tcb[t].actque {
      SubInsert(s.ready, Prios(Restart(c, s, t).tcb), t, false);
      SubTrans(q, s.ready, Restart(c, s, t).ready);
    }
  }

  lemma TerminateSelf(c: Config, s: State, t: nat)
    requires Core(c, s, {}, None, None) && Is(s, t)
    ensures Core(c, Detach(s, t), {t}, None, None)
    ensures var s2 := ReleaseLast(c, Detach(s, t), t, |s.held[t]|);
            var s' := Terminate(c, s, t);
            Is(s2, t) && Is(s', t) && s' == s2.(tcb := s2.tcb[t := s'.tcb[t]], ready := s'.ready) &&
            s'.tcb[t] == Anew(c, s.tcb[t], t) && s'.held[t] == [] && t !in s'.timers &&
            Sub(Without(s.ready, t), s'.ready) &&
            (s.tcb[t].actque ==> s'.ready == Insert(Without(s'.ready, t), Prios(s'.tcb), t, false))
  {
    TerminateReady(c, s, t);
    var s2 := ReleaseLast(c, Detach(s, t), t, |s.held[t]|);
    assert Terminate(c, s, t) == Restart(c, s2, t);
    RestartEffect(c, s2, t);
    RestartReady(c, s2, t, Without(s.ready, t));
  }

  lemma TerminateEffect(c: Config, s: State, t: nat)
    requires Core(c, s, {}, None, None) && Is(s, t)
    ensures Sized(c, s) && Terminated(c, s, Terminate(c, s, t), t)
    ensures var s' := Terminate(c, s, t);
            s'.enadsp == s.enadsp && s'.ipmOpen == s.ipmOpen && s'.inHandler == s.inHandler && s'.runtsk == s.runtsk
  {
    TerminateSelf(c, s, t);
    TerminateUndisturbed(c, s, t);
    TerminateCore(c, s, t);
    var s2 := ReleaseLast(c, Detach(s, t), t, |s.held[t]|);
    forall x: nat | x < |s.tcb| && x != t
      ensures ReleasedFor(c, s, Terminate(c, s, t), s.held[t], x)
    {
      TerminateFor(c, s, t, x);
      SameAfterRestart(c, s, s2, Terminate(c, s, t), s.held[t], t, x);
    }
    forall o: nat | o < |s.waitq|
      ensures s2.waitq[o] == if o in s.held[t] then Tail(s.waitq[o])
                             else if WaitsFor(s.tcb[t], o) then Without(s.waitq[o], t) else s.waitq[o]
    {
      TerminateQueue(c, s, t, o);
    }
  }

  lemma EndedEffect(c: Config, s: State, t: nat)
    requires Core(c, s, {}, None, None) && Is(s, t)
    ensures Sized(c, s)
    ensures Terminated(c, s, Dispatch(Terminate(c, s, t)), t) && Redispatched(s, Dispatch(Terminate(c, s, t)))
  {
    TerminateEffect(c, s, t);
    DispatchEffect(s, Terminate(c, s, t));
    TerminatedStill(c, s, Terminate(c, s, t), t);
  }

  lemma TerminatedStill(c: Config, s: State, s': State, t: nat)
    requires Terminated(c, s, s', t)
    ensures Terminated(c, s, Dispatch(s'), t)
  {
    var r := Dispatch(s');
    assert r.tcb == s'.tcb && r.held == s'.held && r.waitq == s'.waitq && r.timers == s'.timers && r.ready == s'.ready;
    forall x: nat | x < |s.tcb| && x != t
      ensures ReleasedFor(c, s, r, s.held[t], x)
    {
      assert ReleasedFor(c, s, s', s.held[t], x);
    }
  }

  // ---------- Waits ----------

  /** The task goes into a wait and to the end of the queue, or behind its equals where the object queues by
      priority; a time limit is registered if there is one. */
  ghost predicate BeganToWait(c: Config, s: State, s': State, t: nat, wait: Wait, limited: bool) {
    && Is(s, t) && |s.waitq| == |c.obj|
    && s' == s.(tcb := s.tcb[t := s.tcb[t].(tstat := Alive(wait, false), winfo := TimeBlock(limited))],
                ready := Without(s.ready, t), timers := if limited then s.timers + {t} else s.timers,
                waitq := s'.waitq, runtsk := s'.runtsk)
    && if !wait.OnObject? || wait.obj >= |c.obj| then s'.waitq == s.waitq
       else if c.obj[wait.obj].tpri then
         s'.waitq == s.waitq[wait.obj := Insert(s.waitq[wait.obj], Prios(s.tcb), t, false)]
       else s'.waitq == s.waitq[wait.obj := s.waitq[wait.obj] + [t]]
  }

  lemma EnterWaitEffect(c: Config, s: State, t: nat, wait: Wait, limited: bool)
    requires Is(s, t) && |s.waitq| == |c.obj|
    ensures BeganToWait(c, s, Dispatch(EnterWait(c, s, t, wait, limited)), t, wait, limited)
    ensures Redispatched(s, Dispatch(EnterWait(c, s, t, wait, limited)))
  {
    EnterWaitSteps(c, s, t, wait, limited);
    SamePrios(s.tcb, t, s.tcb[t].(tstat := Alive(wait, false), winfo := TimeBlock(limited)));
  }

  /** The wait of the task ended with the result `ercd`: it is in no queue of an object any more, and its
      time limit is gone; unless suspended, it can run, behind its equals. */
  ghost predicate WaitEnded(s: State, s': State, t: nat, ercd: Ercd) {
    && Is(s, t) && s.tcb[t].tstat.Alive? && |s'.waitq| == |s.waitq|
    && s' == s.(tcb := s.tcb[t := s.tcb[t].(tstat := Alive(NoWait, s.tcb[t].tstat.suspended), winfo := Wercd(ercd))],
                ready := if s.tcb[t].tstat.suspended then s.ready else Insert(s.ready, Prios(s.tcb), t, false),
                timers := s.timers - {t}, waitq := s'.waitq, runtsk := s'.runtsk)
    && forall o: nat :: o < |s.waitq| ==>
         s'.waitq[o] == if WaitsFor(s.tcb[t], o) then Without(s.waitq[o], t) else s.waitq[o]
  }

  lemma LeaveQueueEffect(s: State, t: nat)
    requires Waiting(s, t)
    ensures var s1 := Detach(s, t);
            s1 == s.(waitq := s1.waitq, timers := s.timers - {t}) && |s1.waitq| == |s.waitq| &&
            forall o: nat :: o < |s.waitq| ==>
              s1.waitq[o] == if WaitsFor(s.tcb[t], o) then Without(s.waitq[o], t) else s.waitq[o]
  {
  }

  lemma EndWaitEffect(s: State, t: nat, ercd: Ercd)
    requires Waiting(s, t)
    ensures WaitEnded(s, EndWait(s, t, ercd), t, ercd) && EndWait(s, t, ercd).runtsk == s.runtsk
  {
    EndWaitSteps(s, t, ercd);
    LeaveQueueEffect(s, t);
    SamePrios(s.tcb, t, Woken(s.tcb[t].(winfo := Wercd(ercd))));
  }

  lemma EndWaitDispatched(s: State, t: nat, ercd: Ercd)
    requires Waiting(s, t)
    ensures WaitEnded(s, Dispatch(EndWait(s, t, ercd)), t, ercd) && Redispatched(s, Dispatch(EndWait(s, t, ercd)))
  {
    EndWaitEffect(s, t, ercd);
    DispatchEffect(s, EndWait(s, t, ercd));
  }

  // ---------- Calls on tasks ----------

  /** act_tsk starts a dormant task with its initial priority, behind its equals; of a task that is awake
      one activation is kept, unless the task has TA_NOACTQUE. */
  lemma ActTskEffect(c: Config, s: State, t: nat)
    requires Inv(c, s) && Permitted(s, ActTsk(t)) && t < |c.ipriority|
    ensures Sized(c, s) && Is(s, t)
    ensures var (s', ercd) := Exec(c, s, ActTsk(t));
            var v := s.tcb[t];
            if v.tstat.Dormant? then
              ercd == E_OK && v.priority == v.bpriority == c.ipriority[t] && Redispatched(s, s') &&
              s' == s.(tcb := s.tcb[t := v.(tstat := Alive(NoWait, false))],
                       ready := Insert(s.ready, Prios(s.tcb), t, false), runtsk := s'.runtsk)
            else if c.noactque[t] || v.actque then ercd == E_QOVR && s' == s
            else ercd == E_OK && s' == s.(tcb := s.tcb[t := v.(actque := true)])
  {
    FromAny(c, s, ActTsk(t));
    assert TaskOk(c, t, s.tcb[t], s.held[t]);
    SamePrios(s.tcb, t, s.tcb[t].(tstat := Alive(NoWait, false)));
  }

  /** The started task runs at once exactly if every task that can run has a lower priority. */
  lemma StartedRuns(c: Config, s: State, t: nat)
    requires Inv(c, s) && Permitted(s, ActTsk(t)) && t < |c.ipriority| && Is(s, t) && s.tcb[t].tstat.Dormant?
    requires Dispatching(s) && !s.inHandler
    ensures Exec(c, s, ActTsk(t)).0.runtsk == Some(t) <==>
            forall x: nat :: Runnable(s, x) ==> s.tcb[t].priority < s.tcb[x].priority
  {
    ActTskEffect(c, s, t);
    var p := Prios(s.tcb);
    if s.ready != [] {
      assert s.ready[0] in s.ready && t !in s.ready;
      forall x: nat | Runnable(s, x)
        ensures Of(p, s.ready[0]) <= Of(p, x)
      {
        assert x in s.ready;
        var i :| 0 <= i < |s.ready| && s.ready[i] == x;
      }
    }
    assert (forall x: nat :: Runnable(s, x) ==> s.tcb[t].priority < s.tcb[x].priority) <==>
           (s.ready == [] || Precedes(p, t, s.ready[0], false)) by {
      forall x: nat | Runnable(s, x)
        ensures x in s.ready
      {
      }
    }
  }

  lemma TerTskEffect(c: Config, s: State, t: nat)
    requires Inv(c, s) && Permitted(s, TerTsk(t)) && t < |c.ipriority|
    ensures Sized(c, s) && Is(s, t) && s.runtsk.Some?
    ensures var (s', ercd) := Exec(c, s, TerTsk(t));
            if s.runtsk == Some(t) then ercd == E_ILUSE && s' == s
            else if s.tcb[t].tstat.Dormant? then ercd == E_OBJ && s' == s
            else ercd == E_OK && Terminated(c, s, s', t) && Redispatched(s, s')
  {
    ByTask(c, s, TerTsk(t));
    EndedEffect(c, s, t);
  }

  /** ext_tsk ends its caller, and dispatching is on afterwards. */
  lemma ExtTskEffect(c: Config, s: State)
    requires Inv(c, s) && Permitted(s, ExtTsk)
    ensures s.runtsk.Some?
    ensures var s' := Exec(c, s, ExtTsk).0;
            var s1 := s.(enadsp := true, ipmOpen := true);
            Terminated(c, s1, s', s.runtsk.value) && Redispatched(s1, s')
  {
    ByTask(c, s, ExtTsk);
    var s1 := s.(enadsp := true, ipmOpen := true);
    assert Core(c, s1, {}, None, None);
    EndedEffect(c, s1, s.runtsk.value);
  }

  /** ras_ter ends a task that allows it.  Of another it notes the request, and brings it out of any wait,
      with the result E_RASTER, and out of a suspension. */
  lemma RasTerEffect(c: Config, s: State, t: nat)
    requires Inv(c, s) && Permitted(s, RasTer(t)) && t < |c.ipriority|
    ensures Sized(c, s) && Is(s, t)
    ensures var (s', ercd) := Exec(c, s, RasTer(t));
            var v := s.tcb[t];
            if s.runtsk == Some(t) then ercd == E_ILUSE && s' == s
            else if v.tstat.Dormant? then ercd == E_OBJ && s' == s
            else if v.enater then ercd == E_OK && Terminated(c, s, s', t) && Redispatched(s, s')
            else if v.tstat == Alive(NoWait, false) then
              ercd == E_OK && s' == s.(tcb := s.tcb[t := v.(raster := true)])
            else ercd == E_OK && BroughtOut(s, s', t) && Redispatched(s, s')
  {
    ByTask(c, s, RasTer(t));
    EndedEffect(c, s, t);
    UnblockEffect(c, s, t);
  }

  ghost predicate BroughtOut(s: State, s': State, t: nat) {
    && Is(s, t) && |s'.waitq| == |s.waitq|
    && (var v := s.tcb[t];
        var result := if v.tstat.Alive? && v.tstat.wait != NoWait then Wercd(E_RASTER) else v.winfo;
        s' == s.(tcb := s.tcb[t := v.(tstat := Alive(NoWait, false), raster := true, winfo := result)],
                 ready := Insert(s.ready, Prios(s.tcb), t, false), timers := s.timers - {t},
                 waitq := s'.waitq, runtsk := s'.runtsk))
    && forall o: nat :: o < |s.waitq| ==>
         s'.waitq[o] == if WaitsFor(s.tcb[t], o) then Without(s.waitq[o], t) else s.waitq[o]
  }

  lemma UnblockEffect(c: Config, s: State, t: nat)
    requires Core(c, s, {}, None, None) && Is(s, t)
    ensures !Runs(s.tcb[t]) ==> BroughtOut(s, Dispatch(Unblock(s, t)), t) && Redispatched(s, Dispatch(Unblock(s, t)))
  {
    if !Runs(s.tcb[t]) {
      assert t !in s.ready;
      WithoutAbsent(s.ready, t);
      DetachEffect(c, s, t);
      DetachUndisturbed(s, t);
      SamePrios(s.tcb, t, Requested(s.tcb[t]));
    }
  }

  /** dis_ter and ena_ter; a request that is pending takes effect in ena_ter, if dispatching is on. */
  lemma DisTerEffect(c: Config, s: State)
    requires Inv(c, s) && Permitted(s, DisTer)
    ensures s.runtsk.Some? && Is(s, s.runtsk.value) && Sized(c, s)
    ensures var self := s.runtsk.value;
            Exec(c, s, DisTer) == (s.(tcb := s.tcb[self := s.tcb[self].(enater := false)]), E_OK)
  {
    ByTask(c, s, DisTer);
  }

  lemma EnaTerEffect(c: Config, s: State)
    requires Inv(c, s) && Permitted(s, EnaTer)
    ensures s.runtsk.Some? && Is(s, s.runtsk.value) && Sized(c, s)
    ensures var (s', ercd) := Exec(c, s, EnaTer);
            var self := s.runtsk.value;
            ercd == E_OK &&
            if s.tcb[self].raster && s.enadsp && s.ipmOpen then Terminated(c, s, s', self) && Redispatched(s, s')
            else s' == s.(tcb := s.tcb[self := s.tcb[self].(enater := true)])
  {
    ByTask(c, s, EnaTer);
    EndedEffect(c, s, s.runtsk.value);
  }

  /** dis_dsp, ena_dsp and chg_ipm set one mask each; when dispatching comes back, a request that is pending
      takes effect. */
  lemma MaskEffect(c: Config, s: State, call: Call)
    requires Inv(c, s) && Permitted(s, call) && (call == DisDsp || call == EnaDsp || call.ChgIpm?)
    ensures s.runtsk.Some? && Is(s, s.runtsk.value) && Sized(c, s)
    ensures var (s', ercd) := Exec(c, s, call);
            var self := s.runtsk.value;
            var s1 := s.(enadsp := if call == DisDsp then false else if call == EnaDsp then true else s.enadsp,
                         ipmOpen := if call.ChgIpm? then call.open else s.ipmOpen);
            ercd == E_OK && Redispatched(s1, s') &&
            if call != DisDsp && s1.enadsp && s1.ipmOpen && s.tcb[self].raster && s.tcb[self].enater
            then Terminated(c, s1, s', self)
            else s' == s1.(runtsk := s'.runtsk)
  {
    var self := s.runtsk.value;
    if call == DisDsp {
      DispatchEffect(s.(enadsp := false), s.(enadsp := false));
    } else {
      var s1 := s.(enadsp := if call == EnaDsp then true else s.enadsp,
                   ipmOpen := if call.ChgIpm? then call.open else s.ipmOpen);
      ExecReopens(c, s, call, s1);
      ReopenEffect(c, s, s1, self);
    }
  }

  lemma ExecReopens(c: Config, s: State, call: Call, s1: State)
    requires Inv(c, s) && Permitted(s, call) && (call == EnaDsp || call.ChgIpm?)
    requires s1 == s.(enadsp := if call == EnaDsp then true else s.enadsp,
                      ipmOpen := if call.ChgIpm? then call.open else s.ipmOpen)
    ensures s.runtsk.Some? && Is(s1, s.runtsk.value) && Sized(c, s) && Sized(c, s1)
    ensures Exec(c, s, call) == ReopenDispatch(c, s1, s.runtsk.value)
  {
    ByTask(c, s, call);
  }

  lemma ReopenEffect(c: Config, s: State, s1: State, self: nat)
    requires Inv(c, s) && Is(s, self) && s1 == s.(enadsp := s1.enadsp, ipmOpen := s1.ipmOpen)
    ensures Sized(c, s1)
    ensures var (s', ercd) := ReopenDispatch(c, s1, self);
            ercd == E_OK && Redispatched(s1, s') &&
            if s1.enadsp && s1.ipmOpen && s.tcb[self].raster && s.tcb[self].enater
            then Terminated(c, s1, s', self)
            else s' == s1.(runtsk := s'.runtsk)
  {
    assert Core(c, s1, {}, None, None);
    EndedEffect(c, s1, self);
    DispatchEffect(s1, s1);
  }

  // ---------- Synchronization ----------

  /** slp_tsk and tslp_tsk: a wake-up that was kept is used up; otherwise the caller sleeps. */
  lemma SlpTskEffect(c: Config, s: State, tmo: Tmo)
    requires Inv(c, s) && Permitted(s, SlpTsk(tmo))
    ensures s.runtsk.Some? && Is(s, s.runtsk.value) && Sized(c, s)
    ensures var (s', ercd) := Exec(c, s, SlpTsk(tmo));
            var self := s.runtsk.value;
            var v := s.tcb[self];
            if v.raster then ercd == E_RASTER && s' == s
            else if v.wupque then ercd == E_OK && s' == s.(tcb := s.tcb[self := v.(wupque := false)])
            else if tmo == TMO_POL then ercd == E_TMOUT && s' == s
            else ercd == E_OK && BeganToWait(c, s, s', self, Sleep, tmo == Limited) && Redispatched(s, s')
  {
    ByTask(c, s, SlpTsk(tmo));
    EnterWaitEffect(c, s, s.runtsk.value, Sleep, tmo == Limited);
  }

  lemma DlyTskEffect(c: Config, s: State)
    requires Inv(c, s) && Permitted(s, DlyTsk)
    ensures s.runtsk.Some? && Is(s, s.runtsk.value) && Sized(c, s)
    ensures var (s', ercd) := Exec(c, s, DlyTsk);
            var self := s.runtsk.value;
            if s.tcb[self].raster then ercd == E_RASTER && s' == s
            else ercd == E_OK && BeganToWait(c, s, s', self, Delay, true) && Redispatched(s, s')
  {
    ByTask(c, s, DlyTsk);
    EnterWaitEffect(c, s, s.runtsk.value, Delay, true);
  }

  /** wup_tsk ends a sleep with E_OK; of a task that does not sleep one wake-up is kept. */
  lemma WupTskEffect(c: Config, s: State, t: nat)
    requires Inv(c, s) && Permitted(s, WupTsk(t)) && t < |c.ipriority|
    ensures Sized(c, s) && Is(s, t)
    ensures var (s', ercd) := Exec(c, s, WupTsk(t));
            var v := s.tcb[t];
            if v.tstat.Dormant? then ercd == E_OBJ && s' == s
            else if v.tstat.wait == Sleep then ercd == E_OK && WaitEnded(s, s', t, E_OK) && Redispatched(s, s')
            else if v.wupque then ercd == E_QOVR && s' == s
            else ercd == E_OK && s' == s.(tcb := s.tcb[t := v.(wupque := true)])
  {
    FromAny(c, s, WupTsk(t));
    if Waiting(s, t) {
      EndWaitDispatched(s, t, E_OK);
    }
  }

  /** rel_wai ends any wait with E_RLWAI. */
  lemma RelWaiEffect(c: Config, s: State, t: nat)
    requires Inv(c, s) && Permitted(s, RelWai(t)) && t < |c.ipriority|
    ensures Sized(c, s) && Is(s, t)
    ensures var (s', ercd) := Exec(c, s, RelWai(t));
            if s.tcb[t].tstat.Dormant? || s.tcb[t].tstat.wait == NoWait then ercd == E_OBJ && s' == s
            else ercd == E_OK && WaitEnded(s, s', t, E_RLWAI) && Redispatched(s, s')
  {
    FromAny(c, s, RelWai(t));
    if Waiting(s, t) {
      EndWaitDispatched(s, t, E_RLWAI);
    }
  }

  /** A time limit that runs out ends the wait with E_TMOUT, that of dly_tsk with E_OK. */
  lemma TimeOutEffect(c: Config, s: State, t: nat)
    requires Inv(c, s) && s.inHandler
    ensures Sized(c, s) && (t in s.timers ==> Waiting(s, t))
    ensures var (s', ercd) := Exec(c, s, TimeOut(t));
            if t !in s.timers then s' == s
            else WaitEnded(s, s', t, if s.tcb[t].tstat.wait == Delay then E_OK else E_TMOUT) && Redispatched(s, s')
  {
    ExecTimeOut(c, s, t);
    if t in s.timers {
      EndWaitEffect(s, t, if s.tcb[t].tstat.wait == Delay then E_OK else E_TMOUT);
    }
  }

  lemma ExecTimeOut(c: Config, s: State, t: nat)
    requires Inv(c, s) && s.inHandler
    ensures Sized(c, s) && Exec(c, s, TimeOut(t)) == TimeOutOf(s, t) && (t in s.timers ==> Waiting(s, t))
  {
    ByNobody(c, s, TimeOut(t));
    if t in s.timers {
      assert Limits(s.tcb[t]);
    }
  }

  lemma HandlerEffect(c: Config, s: State)
    requires Sized(c, s)
    ensures !s.inHandler ==> Exec(c, s, EnterHandler) == (s.(inHandler := true), E_OK)
    ensures s.inHandler ==>
              var s' := Exec(c, s, ExitHandler).0;
              s' == s.(inHandler := false, runtsk := s'.runtsk) && Redispatched(s.(inHandler := false), s')
  {
  }

  /** sus_tsk suspends a task that can run or waits; a waiting task goes on waiting. */
  lemma SusTskEffect(c: Config, s: State, t: nat)
    requires Inv(c, s) && Permitted(s, SusTsk(t)) && t < |c.ipriority|
    ensures Sized(c, s) && Is(s, t)
    ensures var (s', ercd) := Exec(c, s, SusTsk(t));
            var v := s.tcb[t];
            if s.runtsk == Some(t) && !(s.enadsp && s.ipmOpen) then ercd == E_CTX && s' == s
            else if v.tstat.Dormant? then ercd == E_OBJ && s' == s
            else if v.raster then ercd == E_RASTER && s' == s
            else if v.tstat.suspended then ercd == E_QOVR && s' == s
            else ercd == E_OK && Redispatched(s, s') &&
                 s' == s.(tcb := s.tcb[t := v.(tstat := Alive(v.tstat.wait, true))],
                          ready := Without(s.ready, t), runtsk := s'.runtsk)
  {
    ExecSusTsk(c, s, t);
    SuspendEffect(c, s, s.runtsk.value, t);
  }

  lemma ExecSusTsk(c: Config, s: State, t: nat)
    requires Inv(c, s) && Permitted(s, SusTsk(t)) && t < |c.ipriority|
    ensures Sized(c, s) && s.runtsk.Some? && Is(s, t)
    ensures Exec(c, s, SusTsk(t)) == Suspend(s, s.runtsk.value, t)
  {
    ByTask(c, s, SusTsk(t));
  }

  lemma SuspendEffect(c: Config, s: State, self: nat, t: nat)
    requires Inv(c, s) && Is(s, t)
    ensures var v := s.tcb[t];
            v.tstat.Alive? && !v.tstat.suspended && !v.raster && (t == self ==> Dispatching(s)) ==>
              var (s', ercd) := Suspend(s, self, t);
              ercd == E_OK && Redispatched(s, s') &&
              s' == s.(tcb := s.tcb[t := v.(tstat := Alive(v.tstat.wait, true))],
                       ready := Without(s.ready, t), runtsk := s'.runtsk)
  {
    var v := s.tcb[t];
    if !Runs(v) {
      assert t !in s.ready;
      WithoutAbsent(s.ready, t);
    }
    RunsAlready(c, s);
  }

  /** Between calls the right task runs. */
  lemma RunsAlready(c: Config, s: State)
    requires Inv(c, s)
    ensures Redispatched(s, s)
  {
  }

  /** rsm_tsk ends a suspension; a task that does not wait can run again, behind its equals. */
  lemma RsmTskEffect(c: Config, s: State, t: nat)
    requires Inv(c, s) && Permitted(s, RsmTsk(t)) && t < |c.ipriority|
    ensures Sized(c, s) && Is(s, t)
    ensures var (s', ercd) := Exec(c, s, RsmTsk(t));
            var v := s.tcb[t];
            if v.tstat.Dormant? || !v.tstat.suspended then ercd == E_OBJ && s' == s
            else ercd == E_OK && Redispatched(s, s') &&
                 s' == s.(tcb := s.tcb[t := v.(tstat := Alive(v.tstat.wait, false))],
                          ready := if v.tstat.wait == NoWait then Insert(s.ready, Prios(s.tcb), t, false) else s.ready,
                          runtsk := s'.runtsk)
  {
    ByTask(c, s, RsmTsk(t));
    var v := s.tcb[t];
    if v.tstat.Alive? {
      SamePrios(s.tcb, t, v.(tstat := Alive(v.tstat.wait, false)));
    }
  }

  // ---------- Priorities ----------

  /** The control block of the task is `v` now, with a new priority: where it can run, and where it waits in
      a queue by priority, it is behind its equals, or with `front` before those that can run. */
  ghost predicate Moved(c: Config, s: State, s': State, t: nat, v: Tcb, front: bool) {
    && Is(s, t) && |s'.waitq| == |s.waitq| == |c.obj|
    && s' == s.(tcb := s.tcb[t := v], waitq := s'.waitq, runtsk := s'.runtsk,
                ready := if Runs(v) then Insert(Without(s.ready, t), Prios(s.tcb[t := v]), t, front) else s.ready)
    && forall o: nat :: o < |s.waitq| ==>
         s'.waitq[o] == if WaitsFor(v, o) && c.obj[o].tpri
                        then Insert(Without(s.waitq[o], t), Prios(s.tcb[t := v]), t, false) else s.waitq[o]
  }

  lemma ChangePriorityEffect(c: Config, s: State, u: Tcb, t: nat, newpri: nat, front: bool)
    requires Is(s, t) && |s.waitq| == |c.obj| && u.tstat == s.tcb[t].tstat
    ensures var s' := ChangePriority(c, SetTcb(s, t, u), t, newpri, front);
            Moved(c, s, s', t, u.(priority := newpri), front) && s'.runtsk == s.runtsk
  {
    assert s.tcb[t := u][t := u.(priority := newpri)] == s.tcb[t := u.(priority := newpri)];
  }

  lemma MovedStill(c: Config, s: State, s': State, t: nat, v: Tcb, front: bool)
    requires Moved(c, s, s', t, v, front) && s'.runtsk == s.runtsk
    ensures Moved(c, s, Dispatch(s'), t, v, front) && Redispatched(s, Dispatch(s'))
  {
    DispatchEffect(s, s');
  }

  /** chg_pri: refused above a ceiling that the task holds or waits for; with a ceiling held only the base
      priority changes. */
  lemma ChgPriEffect(c: Config, s: State, t: nat, newbpri: nat)
    requires Inv(c, s) && Permitted(s, ChgPri(t, newbpri)) && t < |c.ipriority| && newbpri < TNUM_TPRI
    ensures Sized(c, s) && Is(s, t)
    ensures var (s', ercd) := Exec(c, s, ChgPri(t, newbpri));
            var v := s.tcb[t];
            if v.tstat.Dormant? then ercd == E_OBJ && s' == s
            else if exists m: nat :: m < |c.obj| && (m in s.held[t] || WaitsFor(v, m)) && c.obj[m].ceiling.Some? &&
                                     newbpri < c.obj[m].ceiling.value then ercd == E_ILUSE && s' == s
            else if exists m: nat :: m < |c.obj| && m in s.held[t] && c.obj[m].ceiling.Some? then
              ercd == E_OK && s' == s.(tcb := s.tcb[t := v.(bpriority := newbpri)])
            else ercd == E_OK && Moved(c, s, s', t, v.(bpriority := newbpri, priority := newbpri), false) &&
                 Redispatched(s, s')
  {
    ExecChgPri(c, s, t, newbpri);
    CeilingsDecide(c, s, t, newbpri);
    var v := s.tcb[t].(bpriority := newbpri);
    ChangePriorityEffect(c, s, v, t, newbpri, false);
    MovedStill(c, s, ChangePriority(c, SetTcb(s, t, v), t, newbpri, false), t, v.(priority := newbpri), false);
  }

  lemma CeilingsDecide(c: Config, s: State, t: nat, newbpri: nat)
    requires GoodConfig(c) && Sized(c, s) && Is(s, t)
    ensures CeilingViolated(c, s, t, newbpri) <==>
            exists m: nat :: m < |c.obj| && (m in s.held[t] || WaitsFor(s.tcb[t], m)) && c.obj[m].ceiling.Some? &&
                             newbpri < c.obj[m].ceiling.value
    ensures HoldsCeiling(c, s, t) <==> exists m: nat :: m < |c.obj| && m in s.held[t] && c.obj[m].ceiling.Some?
  {
  }

  lemma ExecChgPri(c: Config, s: State, t: nat, newbpri: nat)
    requires Inv(c, s) && Permitted(s, ChgPri(t, newbpri)) && t < |c.ipriority| && newbpri < TNUM_TPRI
    ensures Sized(c, s) && Is(s, t)
    ensures GoodConfig(c) && Exec(c, s, ChgPri(t, newbpri)) == ChangeBase(c, s, t, newbpri)
  {
    ByTask(c, s, ChgPri(t, newbpri));
  }

  lemma {:induction false} FirstOfAt(q: seq<nat>, p: seq<nat>, pri: nat, k: nat)
    requires k < |q| && Of(p, q[k]) == pri && forall j :: 0 <= j < k ==> Of(p, q[j]) != pri
    ensures (exists t :: t in q && Of(p, t) == pri) && FirstOf(q, p, pri) == q[k]
  {
    assert q[k] in q;
    if k > 0 {
      assert Of(p, q[0]) != pri;
      FirstOfAt(q[1..], p, pri, k - 1);
    }
  }

  /** rot_rdq puts the first task of the given priority behind its equals. */
  lemma RotRdqEffect(c: Config, s: State, pri: nat)
    requires Inv(c, s) && Permitted(s, RotRdq(pri)) && pri < TNUM_TPRI
    ensures Sized(c, s)
    ensures var s' := Exec(c, s, RotRdq(pri)).0;
            var p := Prios(s.tcb);
            Redispatched(s, s') && s' == s.(ready := s'.ready, runtsk := s'.runtsk) &&
            ((forall k :: 0 <= k < |s.ready| ==> Of(p, s.ready[k]) != pri) ==> s'.ready == s.ready) &&
            (forall k :: 0 <= k < |s.ready| && Of(p, s.ready[k]) == pri &&
                         (forall j :: 0 <= j < k ==> Of(p, s.ready[j]) != pri) ==>
               s'.ready == Insert(Without(s.ready, s.ready[k]), p, s.ready[k], false))
  {
    ExecRotRdq(c, s, pri);
    DispatchEffect(s, Rotate(s, pri));
    var p := Prios(s.tcb);
    forall k | 0 <= k < |s.ready| && Of(p, s.ready[k]) == pri && (forall j :: 0 <= j < k ==> Of(p, s.ready[j]) != pri)
      ensures Rotate(s, pri).ready == Insert(Without(s.ready, s.ready[k]), p, s.ready[k], false)
    {
      FirstOfAt(s.ready, p, pri, k);
    }
  }

  lemma ExecRotRdq(c: Config, s: State, pri: nat)
    requires Inv(c, s) && Permitted(s, RotRdq(pri)) && pri < TNUM_TPRI
    ensures Sized(c, s) && Exec(c, s, RotRdq(pri)).0 == Dispatch(Rotate(s, pri))
  {
    FromAny(c, s, RotRdq(pri));
  }

  // ---------- Mutexes ----------

  /** A running task that may lock the free mutex `m`. */
  ghost predicate MayLock(c: Config, s: State, t: nat, m: nat) {
    && Inv(c, s) && s.runtsk == Some(t) && m < |c.obj| && c.obj[m].mutex
    && !Owned(s.held, m) && BelowCeiling(c, m, s.tcb[t].bpriority)
  }

  /** The lock raises the current priority. */
  predicate Raises(c: Config, v: Tcb, m: nat) {
    m < |c.obj| && c.obj[m].ceiling.Some? && c.obj[m].ceiling.value < v.priority
  }

  lemma AfterLock(c: Config, s: State, t: nat, m: nat)
    requires MayLock(c, s, t, m)
    ensures Sized(c, s) && Is(s, t) && t in s.ready && s.waitq[m] == []
    ensures s.tcb[t].priority == CeilingOf(c, s.held[t], s.tcb[t].bpriority)
    ensures var v := s.tcb[t].(priority := if Raises(c, s.tcb[t], m) then c.obj[m].ceiling.value
                                           else s.tcb[t].priority);
            Acquire(c, s, t, m) ==
              s.(tcb := s.tcb[t := v], held := s.held[t := [m] + s.held[t]],
                 ready := if Raises(c, s.tcb[t], m) then Insert(Without(s.ready, t), Prios(s.tcb[t := v]), t, true)
                          else s.ready)
  {
    assert TaskOk(c, t, s.tcb[t], s.held[t]);
    assert ([m] + s.held[t])[1..] == s.held[t];
    assert s.tcb[t := s.tcb[t]] == s.tcb;
  }

  /** What loc_mtx, tloc_mtx and ploc_mtx do for a task that runs: a free mutex is taken and is the last
      that the task locked. */
  ghost predicate LockDone(c: Config, s: State, s': State, ercd: Ercd, self: nat, m: nat, tmo: Tmo) {
    && Sized(c, s) && Is(s, self) && m < |c.obj|
    && var v := s.tcb[self];
       if c.obj[m].ceiling.Some? && v.bpriority < c.obj[m].ceiling.value then ercd == E_ILUSE && s' == s
       else if m in s.held[self] then ercd == E_OBJ && s' == s
       else if forall x: nat :: x < |s.held| ==> m !in s.held[x] then ercd == E_OK && Took(c, s, s', self, m)
       else if tmo == TMO_POL then ercd == E_TMOUT && s' == s
       else ercd == E_OK && BeganToWait(c, s, s', self, OnObject(m), tmo == Limited) && Redispatched(s, s')
  }

  /** The caller goes on running.  A ceiling above its priority raises it, and it goes before its equals. */
  ghost predicate Took(c: Config, s: State, s': State, t: nat, m: nat) {
    && Sized(c, s) && Is(s, t) && m < |c.obj|
    && var v := s.tcb[t];
       var raised := c.obj[m].ceiling.Some? && c.obj[m].ceiling.value < v.priority;
       var v' := if raised then v.(priority := c.obj[m].ceiling.value) else v;
       s' == s.(tcb := s.tcb[t := v'], held := s.held[t := [m] + s.held[t]],
                ready := if raised then Insert(Without(s.ready, t), Prios(s.tcb[t := v']), t, true) else s.ready)
  }

  lemma TookEffect(c: Config, s: State, t: nat, m: nat)
    requires MayLock(c, s, t, m)
    ensures Took(c, s, Acquire(c, s, t, m), t, m)
  {
    AfterLock(c, s, t, m);
  }

  lemma OwnedExactly(held: seq<seq<nat>>, m: nat)
    ensures !Owned(held, m) <==> forall x: nat :: x < |held| ==> m !in held[x]
  {
  }

  lemma LockEffect(c: Config, s: State, self: nat, m: nat, tmo: Tmo)
    requires Inv(c, s) && s.runtsk == Some(self) && m < |c.obj| && c.obj[m].mutex
    ensures Sized(c, s) && Is(s, self)
    ensures var (s', ercd) := Lock(c, s, self, m, tmo);
            LockDone(c, s, s', ercd, self, m, tmo)
  {
    OwnedExactly(s.held, m);
    if c.obj[m].ceiling.Some? && s.tcb[self].bpriority < c.obj[m].ceiling.value {
    } else if !Owned(s.held, m) {
      TookEffect(c, s, self, m);
    } else if m !in s.held[self] && tmo != TMO_POL {
      EnterWaitEffect(c, s, self, OnObject(m), tmo == Limited);
    }
  }

  lemma LocMtxEffect(c: Config, s: State, m: nat, tmo: Tmo)
    requires Inv(c, s) && Permitted(s, LocMtx(m, tmo)) && m < |c.obj| && c.obj[m].mutex
    ensures s.runtsk.Some? && Is(s, s.runtsk.value) && Sized(c, s)
    ensures var (s', ercd) := Exec(c, s, LocMtx(m, tmo));
            var self := s.runtsk.value;
            if s.tcb[self].raster then ercd == E_RASTER && s' == s
            else LockDone(c, s, s', ercd, self, m, tmo) && (ercd == E_OBJ <==> m in s.held[self])
  {
    ByTask(c, s, LocMtx(m, tmo));
    LockEffect(c, s, s.runtsk.value, m, tmo);
    HoldsBelowCeiling(c, s, s.runtsk.value, m);
  }

  lemma PlocMtxEffect(c: Config, s: State, m: nat)
    requires Inv(c, s) && Permitted(s, PlocMtx(m)) && m < |c.obj| && c.obj[m].mutex
    ensures s.runtsk.Some? && Is(s, s.runtsk.value) && Sized(c, s)
    ensures var (s', ercd) := Exec(c, s, PlocMtx(m));
            LockDone(c, s, s', ercd, s.runtsk.value, m, TMO_POL) && (ercd == E_OBJ <==> m in s.held[s.runtsk.value])
  {
    ByTask(c, s, PlocMtx(m));
    LockEffect(c, s, s.runtsk.value, m, TMO_POL);
    HoldsBelowCeiling(c, s, s.runtsk.value, m);
  }

  lemma HoldsBelowCeiling(c: Config, s: State, t: nat, m: nat)
    requires Inv(c, s) && Is(s, t) && m < |c.obj|
    ensures Sized(c, s)
    ensures m in s.held[t] && c.obj[m].ceiling.Some? ==> c.obj[m].ceiling.value <= s.tcb[t].bpriority
  {
    assert TaskOk(c, t, s.tcb[t], s.held[t]);
  }

  /** The mutex the task locked last is free or with the first task that waited for it. */
  ghost predicate Unlocked(c: Config, s: State, s': State, t: nat, m: nat) {
    && Sized(c, s) && Is(s, t) && m < |c.obj| && s.held[t] != []
    && var v := s.tcb[t].(priority := CeilingOf(c, s.held[t][1..], s.tcb[t].bpriority));
       var tcb1, held1 := s.tcb[t := v], s.held[t := s.held[t][1..]];
       var ready1 := if v.priority == s.tcb[t].priority then s.ready
                     else Insert(Without(s.ready, t), Prios(tcb1), t, true);
       if s.waitq[m] == [] then s' == s.(tcb := tcb1, held := held1, ready := ready1, runtsk := s'.runtsk)
       else
         var x := s.waitq[m][0];
         x != t && x < |tcb1| && tcb1[x].tstat.Alive? &&
         var w := tcb1[x].(tstat := Alive(NoWait, tcb1[x].tstat.suspended), winfo := Wercd(E_OK),
                           priority := CeilingOf(c, [m] + held1[x], tcb1[x].bpriority));
         s' == s.(tcb := tcb1[x := w], held := held1[x := [m] + held1[x]], waitq := s.waitq[m := s.waitq[m][1..]],
                  timers := s.timers - {x}, runtsk := s'.runtsk,
                  ready := if w.tstat.suspended then ready1 else Insert(ready1, Prios(tcb1[x := w]), x, false))
  }

  lemma DroppedEffect(c: Config, s: State, t: nat)
    requires Inv(c, s) && Runnable(s, t) && s.held[t] != []
    ensures Sized(c, s)
    ensures var v := s.tcb[t].(priority := CeilingOf(c, s.held[t][1..], s.tcb[t].bpriority));
            Reprioritize(c, SetHeld(s, t, s.held[t][1..]), t) ==
              s.(tcb := s.tcb[t := v], held := s.held[t := s.held[t][1..]],
                 ready := if v.priority == s.tcb[t].priority then s.ready
                          else Insert(Without(s.ready, t), Prios(s.tcb[t := v]), t, true))
  {
    assert s.tcb[t := s.tcb[t]] == s.tcb;
  }

  lemma UnlockEffect(c: Config, s: State, t: nat)
    requires Inv(c, s) && s.runtsk == Some(t) && s.held[t] != []
    ensures Sized(c, s) && Is(s, t) && Unlocked(c, s, Unlock(c, s, t, s.held[t][0]), t, s.held[t][0])
    ensures Unlock(c, s, t, s.held[t][0]).runtsk == s.runtsk
  {
    var m := s.held[t][0];
    HeldIsMutex(c, s.held, t, m);
    DroppedEffect(c, s, t);
    if s.waitq[m] != [] {
      var x := s.waitq[m][0];
      assert QueueOk(c.obj[m].tpri, s.tcb, s.waitq[m], m, {}) && x in s.waitq[m];
      HandOverSteps(c, Reprioritize(c, SetHeld(s, t, s.held[t][1..]), t), m, x);
    }
  }

  lemma UnlMtxEffect(c: Config, s: State, m: nat)
    requires Inv(c, s) && Permitted(s, UnlMtx(m)) && m < |c.obj| && c.obj[m].mutex
    ensures s.runtsk.Some? && Is(s, s.runtsk.value) && Sized(c, s)
    ensures var (s', ercd) := Exec(c, s, UnlMtx(m));
            var self := s.runtsk.value;
            if s.held[self] == [] || s.held[self][0] != m then ercd == E_OBJ && s' == s
            else ercd == E_OK && Unlocked(c, s, s', self, m) && Redispatched(s, s')
  {
    ExecUnlMtx(c, s, m);
    var self := s.runtsk.value;
    if s.held[self] != [] && s.held[self][0] == m {
      UnlockEffect(c, s, self);
      UnlockedStill(c, s, Unlock(c, s, self, m), self, m);
    }
  }

  lemma UnlockedStill(c: Config, s: State, s': State, t: nat, m: nat)
    requires Unlocked(c, s, s', t, m) && s'.runtsk == s.runtsk
    ensures Unlocked(c, s, Dispatch(s'), t, m) && Redispatched(s, Dispatch(s'))
  {
    DispatchEffect(s, s');
  }

  lemma ExecUnlMtx(c: Config, s: State, m: nat)
    requires Inv(c, s) && Permitted(s, UnlMtx(m)) && m < |c.obj| && c.obj[m].mutex
    ensures s.runtsk.Some? && Is(s, s.runtsk.value) && Sized(c, s)
    ensures var self := s.runtsk.value;
            Exec(c, s, UnlMtx(m)) == if s.held[self] == [] || s.held[self][0] != m then (s, E_OBJ)
                                     else (Dispatch(Unlock(c, s, self, m)), E_OK)
  {
    ByTask(c, s, UnlMtx(m));
  }

  // ---------- Whole wait queues ----------

  /** The ready queue after the tasks of `q` that are not suspended joined it, in this order. */
  function Readied(ready: seq<nat>, tcb: seq<Tcb>, q: seq<nat>): seq<nat>
    decreases |q|
  {
    if q == [] then ready
    else
      var t := q[0];
      Readied(if t < |tcb| && tcb[t].tstat.Alive? && !tcb[t].tstat.suspended
              then Insert(ready, Prios(tcb), t, false) else ready, tcb, q[1..])
  }

  lemma {:induction false} ReadiedAgrees(ready: seq<nat>, tcb: seq<Tcb>, tcb': seq<Tcb>, q: seq<nat>)
    requires Prios(tcb') == Prios(tcb) && |tcb'| == |tcb|
    requires forall t :: t in q && t < |tcb| ==> tcb'[t] == tcb[t]
    ensures Readied(ready, tcb', q) == Readied(ready, tcb, q)
    decreases |q|
  {
    if q != [] {
      assert q[0] in q && forall t :: t in q[1..] ==> t in q;
      var t := q[0];
      ReadiedAgrees(if t < |tcb| && tcb[t].tstat.Alive? && !tcb[t].tstat.suspended
                    then Insert(ready, Prios(tcb), t, false) else ready, tcb, tcb', q[1..]);
    }
  }

  /** All tasks that waited for the object have the result E_DLT, and can run in the order in which they
      waited, those of one priority behind each other. */
  ghost predicate Flushed(s: State, s': State, o: nat) {
    && o < |s.waitq| && |s'.tcb| == |s.tcb|
    && s' == s.(tcb := s'.tcb, ready := Readied(s.ready, s.tcb, s.waitq[o]), waitq := s.waitq[o := []],
                timers := s'.timers, runtsk := s'.runtsk)
    && (forall x: nat :: x < |s.tcb| ==>
          if x in s.waitq[o] then
            s.tcb[x].tstat.Alive? &&
            s'.tcb[x] == s.tcb[x].(tstat := Alive(NoWait, s.tcb[x].tstat.suspended), winfo := Wercd(E_DLT))
          else s'.tcb[x] == s.tcb[x])
    && (forall x: nat :: x in s'.timers <==> x in s.timers && x !in s.waitq[o])
  }

  lemma {:induction false} FlushEffect(c: Config, s: State, o: nat)
    requires Core(c, s, {}, None, None) && o < |c.obj|
    ensures Flushed(s, FlushQueue(s, o), o) && FlushQueue(s, o).runtsk == s.runtsk
    decreases |s.waitq[o]|
  {
    assert QueueOk(c.obj[o].tpri, s.tcb, s.waitq[o], o, {});
    if s.waitq[o] == [] {
      assert s.waitq[o := []] == s.waitq;
    } else {
      FirstFlushed(c, s, o);
      FlushEffect(c, WakeHead(s, o, E_DLT), o);
      FlushedBoth(s, WakeHead(s, o, E_DLT), FlushQueue(s, o), o);
    }
  }

  /** The first task of the queue is released. */
  ghost predicate HeadReleased(s: State, s': State, o: nat, ercd: Ercd) {
    && o < |s.waitq| && s.waitq[o] != [] && s.waitq[o][0] < |s.tcb|
    && var t := s.waitq[o][0];
       var v := s.tcb[t];
       v.tstat.Alive? &&
       s' == s.(tcb := s.tcb[t := v.(tstat := Alive(NoWait, v.tstat.suspended), winfo := Wercd(ercd))],
                ready := if v.tstat.suspended then s.ready else Insert(s.ready, Prios(s.tcb), t, false),
                waitq := s.waitq[o := s.waitq[o][1..]], timers := s.timers - {t}, runtsk := s'.runtsk)
  }

  lemma WakeHeadEffect(c: Config, s: State, o: nat, ercd: Ercd)
    requires Core(c, s, {}, None, None) && o < |c.obj| && s.waitq[o] != []
    ensures HeadReleased(s, WakeHead(s, o, ercd), o, ercd) && WakeHead(s, o, ercd).runtsk == s.runtsk
  {
    var t := s.waitq[o][0];
    WakeHeadCore(c, s, o, ercd);
    EndWaitEffect(s, t, ercd);
    assert WakeHead(s, o, ercd).waitq == s.waitq[o := s.waitq[o][1..]];
  }

  lemma FirstFlushed(c: Config, s: State, o: nat)
    requires Core(c, s, {}, None, None) && o < |c.obj| && s.waitq[o] != []
    ensures NoDuplicates(s.waitq[o]) && Core(c, WakeHead(s, o, E_DLT), {}, None, None)
    ensures HeadReleased(s, WakeHead(s, o, E_DLT), o, E_DLT) && WakeHead(s, o, E_DLT).runtsk == s.runtsk
    ensures FlushQueue(s, o) == FlushQueue(WakeHead(s, o, E_DLT), o)
  {
    assert QueueOk(c.obj[o].tpri, s.tcb, s.waitq[o], o, {});
    WakeHeadEffect(c, s, o, E_DLT);
    WakeCore(c, s, o, E_DLT);
  }

  lemma FlushedBoth(s: State, s1: State, s': State, o: nat)
    requires HeadReleased(s, s1, o, E_DLT) && Flushed(s1, s', o) && NoDuplicates(s.waitq[o])
    ensures Flushed(s, s', o)
  {
    var q := s.waitq[o];
    TailContents(q);
    assert q == [q[0]] + q[1..];
    assert s1.waitq[o := []] == s.waitq[o := []];
    SamePrios(s.tcb, q[0], s1.tcb[q[0]]);
    ReadiedAgrees(s1.ready, s.tcb, s1.tcb, q[1..]);
  }

  /** The calls that end the first wait, or all waits, for an object. */
  lemma WakeObjectEffect(c: Config, s: State, o: nat)
    requires Inv(c, s) && Permitted(s, WakeObject(o)) && o < |c.obj| && !c.obj[o].mutex
    ensures Sized(c, s)
    ensures var (s', ercd) := Exec(c, s, WakeObject(o));
            ercd == E_OK &&
            if s.waitq[o] == [] then s' == s else HeadReleased(s, s', o, E_OK) && Redispatched(s, s')
  {
    FromAny(c, s, WakeObject(o));
    RunsAlready(c, s);
    if s.waitq[o] != [] {
      WakeHeadEffect(c, s, o, E_OK);
      DispatchEffect(s, WakeHead(s, o, E_OK));
    }
  }

  lemma IniObjectEffect(c: Config, s: State, o: nat)
    requires Inv(c, s) && Permitted(s, IniObject(o)) && o < |c.obj| && !c.obj[o].mutex
    ensures Sized(c, s)
    ensures Exec(c, s, IniObject(o)).1 == E_OK && Flushed(s, Exec(c, s, IniObject(o)).0, o)
    ensures Redispatched(s, Exec(c, s, IniObject(o)).0)
  {
    ByTask(c, s, IniObject(o));
    FlushEffect(c, s, o);
    DispatchEffect(s, FlushQueue(s, o));
  }

  /** The waiting part of the calls on an object. */
  lemma WaitObjectEffect(c: Config, s: State, o: nat, limited: bool)
    requires Inv(c, s) && Permitted(s, WaitObject(o, limited)) && o < |c.obj| && !c.obj[o].mutex
    ensures s.runtsk.Some? && Is(s, s.runtsk.value) && Sized(c, s)
    ensures var (s', ercd) := Exec(c, s, WaitObject(o, limited));
            var self := s.runtsk.value;
            if s.tcb[self].raster then ercd == E_RASTER && s' == s
            else ercd == E_OK && BeganToWait(c, s, s', self, OnObject(o), limited) && Redispatched(s, s')
  {
    ByTask(c, s, WaitObject(o, limited));
    EnterWaitEffect(c, s, s.runtsk.value, OnObject(o), limited);
  }

  /** The holder no longer has the mutex; its priority is what the ceilings it still holds make it. */
  ghost predicate TakenAway(c: Config, s: State, s': State, t: nat, m: nat) {
    && Is(s, t) && t < |s.held| && |s.waitq| == |c.obj|
    && var p := CeilingOf(c, Without(s.held[t], m), s.tcb[t].bpriority);
       s'.held == s.held[t := Without(s.held[t], m)] &&
       if p == s.tcb[t].priority then s'.(held := s.held) == s.(runtsk := s'.runtsk)
       else Moved(c, s, s'.(held := s.held), t, s.tcb[t].(priority := p), true)
  }

  lemma TakeAwayEffect(c: Config, s: State, t: nat, m: nat)
    requires Is(s, t) && |s.held| == |s.tcb| && |s.waitq| == |c.obj|
    ensures var s' := Reprioritize(c, SetHeld(s, t, Without(s.held[t], m)), t);
            TakenAway(c, s, s', t, m) && s'.runtsk == s.runtsk
  {
    var s1 := SetHeld(s, t, Without(s.held[t], m));
    var p := CeilingOf(c, s1.held[t], s.tcb[t].bpriority);
    assert s1.tcb[t := s1.tcb[t]] == s1.tcb;
    ChangePriorityEffect(c, s1, s1.tcb[t], t, p, true);
  }

  /** All waiting tasks are released with E_DLT, in between the state is `s1`, and the holder, if there is one, loses
      the mutex. */
  ghost predicate Initialized(c: Config, s: State, s1: State, s': State, m: nat) {
    && Flushed(s, s1, m)
    && (forall t: nat :: t < |s.held| && m in s.held[t] ==> TakenAway(c, s1, s', t, m))
    && ((forall t: nat :: t < |s.held| ==> m !in s.held[t]) ==> s' == s1.(runtsk := s'.runtsk))
  }

  lemma IniMtxEffect(c: Config, s: State, m: nat)
    requires Inv(c, s) && Permitted(s, IniMtx(m)) && m < |c.obj| && c.obj[m].mutex
    ensures Sized(c, s)
    ensures var (s', ercd) := Exec(c, s, IniMtx(m));
            ercd == E_OK && Redispatched(s, s') && exists s1: State :: Initialized(c, s, s1, s', m)
  {
    ExecIniMtx(c, s, m);
    var s1, s2 := FlushQueue(s, m), Reinitialize(c, s, m);
    FlushEffect(c, s, m);
    ReinitializeEffect(c, s, m);
    DispatchEffect(s, s2);
    assert Initialized(c, s, s1, Dispatch(s2), m);
  }

  lemma ExecIniMtx(c: Config, s: State, m: nat)
    requires Inv(c, s) && Permitted(s, IniMtx(m)) && m < |c.obj| && c.obj[m].mutex
    ensures Sized(c, s) && Exec(c, s, IniMtx(m)) == (Dispatch(Reinitialize(c, s, m)), E_OK)
  {
    ByTask(c, s, IniMtx(m));
  }

  lemma ReinitializeEffect(c: Config, s: State, m: nat)
    requires Inv(c, s) && m < |c.obj| && c.obj[m].mutex
    ensures Sized(c, s)
    ensures var s1, s2 := FlushQueue(s, m), Reinitialize(c, s, m);
            s2.enadsp == s.enadsp && s2.ipmOpen == s.ipmOpen && s2.inHandler == s.inHandler && s2.runtsk == s.runtsk &&
            (forall t: nat :: t < |s.held| && m in s.held[t] ==> TakenAway(c, s1, Dispatch(s2), t, m)) &&
            ((forall t: nat :: t < |s.held| ==> m !in s.held[t]) ==> s2 == s1)
  {
    var s1 := FlushQueue(s, m);
    FlushEffect(c, s, m);
    forall t: nat | t < |s.held| && m in s.held[t]
      ensures TakenAway(c, s1, Dispatch(Reinitialize(c, s, m)), t, m)
      ensures Reinitialize(c, s, m) == Reprioritize(c, SetHeld(s1, t, Without(s1.held[t], m)), t)
    {
      assert Owned(s.held, m) && Holder(s.held, m) == t;
      TakeAwayEffect(c, s1, t, m);
      TakenAwayStill(c, s1, Reinitialize(c, s, m), t, m);
    }
    if Owned(s.held, m) {
      ReprioritizeUndisturbed(c, SetHeld(s1, Holder(s.held, m), Without(s1.held[Holder(s.held, m)], m)),
                              Holder(s.held, m));
    }
  }

  lemma TakenAwayStill(c: Config, s: State, s': State, t: nat, m: nat)
    requires TakenAway(c, s, s', t, m)
    ensures TakenAway(c, s, Dispatch(s'), t, m)
  {
  }

  // ---------- Kinds of calls ----------

  /** The calls that may end a task, or switch dispatching. */
  predicate EndsTasks(call: Call) {
    call.TerTsk? || call.ExtTsk? || call.RasTer? || call.EnaTer? || call.DisDsp? || call.EnaDsp? || call.ChgIpm?
  }

  predicate OnMutex(call: Call) {
    call.LocMtx? || call.PlocMtx? || call.UnlMtx? || call.IniMtx?
  }

  predicate OnWaitObject(call: Call) {
    call.WaitObject? || call.WakeObject? || call.IniObject?
  }

  predicate OnTask(call: Call) {
    call.SlpTsk? || call.DlyTsk? || call.WupTsk? || call.RelWai? || call.TimeOut? || call.SusTsk? || call.RsmTsk? ||
    call.ChgPri?
  }
}
