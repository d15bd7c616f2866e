/**
 Reference model of the kernel's tasks, mutexes and wait queues
 (asp3/kernel/task.c, wait.c, wait.h, task_sync.c, task_term.c, task_manage.c, mutex.c,
 sys_manage.c, interrupt.c).

 The ready queue is one list in order of precedence, the mutexes a task holds are one list with
 the last locked first, and the task to be run is defined, not stored.  The kernel's own data
 (queues per priority with a bitmap, linked mutex blocks, the cached p_schedtsk) are in class
 Kernel, which is shown to follow this model.

 Tasks and wait objects are numbered.  A wait object is anything with a wait queue; mutexes are
 those with `mutex` set.
 */
module KernelModel {
  import opened Options
  import opened Precedence

  const TNUM_TPRI: nat := 16

  datatype Ercd = E_OK | E_CTX | E_PAR | E_OBJ | E_ILUSE | E_QOVR | E_RLWAI | E_TMOUT | E_DLT | E_RASTER

  /** Task states (task.h:71-108); RUNNABLE is Alive(NoWait, false). */
  datatype Wait = NoWait | Sleep | Delay | OnObject(obj: nat)
  datatype Tstat = Dormant | Alive(wait: Wait, suspended: bool)

  /** The union WINFO (task.h:168-171): a time event block while waiting, a result afterwards. */
  datatype Winfo = TimeBlock(registered: bool) | Wercd(ercd: Ercd)

  datatype Tcb = Tcb(tstat: Tstat, bpriority: nat, priority: nat, actque: bool, wupque: bool,
                     raster: bool, enater: bool, winfo: Winfo)

  datatype ObjectInit = ObjectInit(tpri: bool, mutex: bool, ceiling: Option<nat>)

  datatype Config = Config(ipriority: seq<nat>, noactque: seq<bool>, obj: seq<ObjectInit>)

  datatype State = State(
    tcb: seq<Tcb>, held: seq<seq<nat>>, ready: seq<nat>, waitq: seq<seq<nat>>, timers: set<nat>,
    runtsk: Option<nat>, enadsp: bool, ipmOpen: bool, inHandler: bool)

  datatype Tmo = TMO_POL | TMO_FEVR | Limited

  // ---------- Task states ----------

  predicate Is(s: State, t: nat) {
    t < |s.tcb|
  }

  predicate Runs(v: Tcb) {
    v.tstat == Alive(NoWait, false)
  }

  predicate Waits(v: Tcb) {
    v.tstat.Alive? && !v.tstat.wait.NoWait?
  }

  predicate WaitsFor(v: Tcb, o: nat) {
    v.tstat.Alive? && v.tstat.wait == OnObject(o)
  }

  predicate Runnable(s: State, t: nat) {
    Is(s, t) && Runs(s.tcb[t])
  }

  predicate Waiting(s: State, t: nat) {
    Is(s, t) && Waits(s.tcb[t])
  }

  function Prios(tcb: seq<Tcb>): (p: seq<nat>)
    ensures |p| == |tcb| && forall i :: 0 <= i < |tcb| ==> p[i] == tcb[i].priority
  {
    seq(|tcb|, i requires 0 <= i < |tcb| => tcb[i].priority)
  }

  // ---------- Scheduling ----------

  predicate Dispatching(s: State) {
    s.enadsp && s.ipmOpen
  }

  /** The task to be run: the first in precedence, or, while dispatching is off, the running one. */
  function Scheduled(s: State): Option<nat> {
    if !Dispatching(s) then s.runtsk
    else if s.ready == [] then None
    else Some(s.ready[0])
  }

  /** A handler only asks for a dispatch, which then takes place when it returns. */
  function Dispatch(s: State): State {
    if s.inHandler then s else s.(runtsk := Scheduled(s))
  }

  function SetTcb(s: State, t: nat, v: Tcb): State
    requires Is(s, t)
  {
    s.(tcb := s.tcb[t := v])
  }

  function SetStat(s: State, t: nat, tstat: Tstat): State
    requires Is(s, t)
  {
    SetTcb(s, t, s.tcb[t].(tstat := tstat))
  }

  function MakeRunnable(s: State, t: nat): State {
    s.(ready := Insert(s.ready, Prios(s.tcb), t, false))
  }

  function MakeNonRunnable(s: State, t: nat): State {
    s.(ready := Without(s.ready, t))
  }

  function SetHeld(s: State, t: nat, ms: seq<nat>): State
    requires t < |s.held|
  {
    s.(held := s.held[t := ms])
  }

  function SetQueue(s: State, o: nat, q: seq<nat>): State
    requires o < |s.waitq|
  {
    s.(waitq := s.waitq[o := q])
  }

  /** The task moves to its new place in precedence: behind its equals, or, when a mutex changed
      its priority, before them. */
  function ChangePriority(c: Config, s: State, t: nat, newpri: nat, mtxmode: bool): State
    requires Is(s, t) && |s.waitq| == |c.obj|
  {
    var s1 := SetTcb(s, t, s.tcb[t].(priority := newpri));
    if Runnable(s, t) then
      s1.(ready := Insert(Without(s.ready, t), Prios(s1.tcb), t, mtxmode))
    else match s.tcb[t].tstat
      case Alive(OnObject(o), _) =>
        if o < |c.obj| && c.obj[o].tpri then
          SetQueue(s1, o, Insert(Without(s.waitq[o], t), Prios(s1.tcb), t, false))
        else s1
      case _ => s1
  }

  // ---------- Waiting ----------

  /** The task goes into a wait, on an object in that object's queue. */
  function EnterWait(c: Config, s: State, t: nat, wait: Wait, limited: bool): State
    requires Is(s, t) && |s.waitq| == |c.obj|
  {
    var s1 := MakeNonRunnable(SetStat(s, t, Alive(wait, false)), t);
    var s2 := SetTcb(s1, t, s1.tcb[t].(winfo := TimeBlock(limited)));
    var s3 := if limited then s2.(timers := s2.timers + {t}) else s2;
    JoinQueue(c, s3, t, wait)
  }

  function JoinQueue(c: Config, s: State, t: nat, wait: Wait): State
    requires |s.waitq| == |c.obj|
  {
    match wait
    case OnObject(o) =>
      if o >= |c.obj| then s
      else if c.obj[o].tpri then SetQueue(s, o, Insert(s.waitq[o], Prios(s.tcb), t, false))
      else SetQueue(s, o, s.waitq[o] + [t])
    case _ => s
  }

  function LeaveQueue(s: State, t: nat): State
    requires Is(s, t)
  {
    match s.tcb[t].tstat
    case Alive(OnObject(o), _) =>
      if o < |s.waitq| then SetQueue(s, o, Without(s.waitq[o], t)) else s
    case _ => s
  }

  function StopTimer(s: State, t: nat): State {
    s.(timers := s.timers - {t})
  }

  function SetResult(s: State, t: nat, ercd: Ercd): State
    requires Is(s, t)
  {
    SetTcb(s, t, s.tcb[t].(winfo := Wercd(ercd)))
  }

  function MakeNonWait(s: State, t: nat): State
    requires Is(s, t) && s.tcb[t].tstat.Alive?
  {
    if s.tcb[t].tstat.suspended then SetStat(s, t, Alive(NoWait, true))
    else MakeRunnable(SetStat(s, t, Alive(NoWait, false)), t)
  }

  /** The end of a wait for any reason. */
  function EndWait(s: State, t: nat, ercd: Ercd): State
    requires Is(s, t) && s.tcb[t].tstat.Alive?
  {
    MakeNonWait(SetResult(StopTimer(LeaveQueue(s, t), t), t, ercd), t)
  }

  // ---------- Mutexes ----------

  /** The current priority a task must have: its base priority, or the ceiling of a mutex it holds
      if that is higher. */
  function CeilingOf(c: Config, ms: seq<nat>, bpriority: nat): nat {
    if ms == [] then bpriority
    else
      var p := CeilingOf(c, ms[1..], bpriority);
      if ms[0] < |c.obj| && c.obj[ms[0]].ceiling.Some? && c.obj[ms[0]].ceiling.value < p
      then c.obj[ms[0]].ceiling.value else p
  }

  predicate Owned(held: seq<seq<nat>>, m: nat) {
    exists t :: 0 <= t < |held| && m in held[t]
  }

  /** Gives the task the current priority that it must have. */
  function Reprioritize(c: Config, s: State, t: nat): State
    requires Is(s, t) && t < |s.held| && |s.waitq| == |c.obj|
  {
    var p := CeilingOf(c, s.held[t], s.tcb[t].bpriority);
    if p != s.tcb[t].priority then ChangePriority(c, s, t, p, true) else s
  }

  function Acquire(c: Config, s: State, t: nat, m: nat): State
    requires Is(s, t) && t < |s.held| && |s.waitq| == |c.obj|
  {
    Reprioritize(c, SetHeld(s, t, [m] + s.held[t]), t)
  }

  /** The mutex, just taken from its holder, goes to the head of its wait queue. */
  function Release(c: Config, s: State, m: nat): State
    requires |s.held| == |s.tcb| && |s.waitq| == |c.obj|
  {
    if m >= |c.obj| || s.waitq[m] == [] then s
    else
      var t := s.waitq[m][0];
      if !Is(s, t) || s.tcb[t].tstat.Dormant? then s else HandOver(c, s, m, t)
  }

  function HandOver(c: Config, s: State, m: nat, t: nat): State
    requires |s.held| == |s.tcb| && |s.waitq| == |c.obj| && m < |c.obj| && s.waitq[m] != []
    requires Is(s, t) && s.tcb[t].tstat.Alive?
  {
    var s1 := SetResult(StopTimer(SetQueue(s, m, s.waitq[m][1..]), t), t, E_OK);
    var s2 := SetHeld(s1, t, [m] + s.held[t]);
    var s3 := SetTcb(s2, t, s2.tcb[t].(priority := CeilingOf(c, s2.held[t], s2.tcb[t].bpriority)));
    MakeNonWait(s3, t)
  }

  /** Releases the last `n` mutexes the task locked, last locked first. */
  function ReleaseLast(c: Config, s: State, t: nat, n: nat): (r: State)
    requires |s.held| == |s.tcb| && |s.waitq| == |c.obj| && Is(s, t)
    ensures |r.held| == |r.tcb| == |s.tcb| && |r.waitq| == |c.obj|
    decreases n
  {
    if n == 0 || s.held[t] == [] then s
    else ReleaseLast(c, Release(c, SetHeld(s, t, s.held[t][1..]), s.held[t][0]), t, n - 1)
  }

  // ---------- Start and end of tasks ----------

  function MakeDormant(c: Config, s: State, t: nat): State
    requires Is(s, t) && t < |c.ipriority|
  {
    SetTcb(s, t, s.tcb[t].(tstat := Dormant, bpriority := c.ipriority[t], priority := c.ipriority[t],
                           wupque := false, raster := false, enater := true))
  }

  function MakeActive(s: State, t: nat): State
    requires Is(s, t)
  {
    MakeRunnable(SetStat(s, t, Alive(NoWait, false)), t)
  }

  /** The task is taken from wherever it is linked. */
  function Detach(s: State, t: nat): State
    requires Is(s, t)
  {
    if Runnable(s, t) then MakeNonRunnable(s, t)
    else if Waiting(s, t) then StopTimer(LeaveQueue(s, t), t)
    else s
  }

  function Terminate(c: Config, s: State, t: nat): State
    requires Is(s, t) && |s.held| == |s.tcb| == |c.ipriority| && |s.waitq| == |c.obj|
  {
    Restart(c, ReleaseLast(c, Detach(s, t), t, |s.held[t]|), t)
  }

  /** The task becomes dormant, and starts again if an activation is queued. */
  function Restart(c: Config, s: State, t: nat): State
    requires Is(s, t) && t < |c.ipriority|
  {
    var s2 := MakeDormant(c, s, t);
    if s2.tcb[t].actque
    then MakeActive(SetTcb(s2, t, s2.tcb[t].(actque := false)), t)
    else s2
  }

  /** The first task of the queue leaves it, and its wait ends. */
  function WakeHead(s: State, o: nat, ercd: Ercd): (r: State)
    requires o < |s.waitq| && s.waitq[o] != []
    ensures r.waitq == s.waitq[o := s.waitq[o][1..]] && |r.tcb| == |s.tcb| && r.held == s.held
  {
    var t := s.waitq[o][0];
    var s1 := SetQueue(s, o, s.waitq[o][1..]);
    if !Is(s, t) || s.tcb[t].tstat.Dormant? then s1
    else MakeNonWait(SetResult(StopTimer(s1, t), t, ercd), t)
  }

  /** init_wait_queue: all waiting tasks get E_DLT. */
  function FlushQueue(s: State, o: nat): (r: State)
    requires o < |s.waitq|
    ensures |r.waitq| == |s.waitq| && |r.tcb| == |s.tcb| && r.held == s.held && r.waitq[o] == []
    decreases |s.waitq[o]|
  {
    if s.waitq[o] == [] then s else FlushQueue(WakeHead(s, o, E_DLT), o)
  }

  // ---------- Service calls ----------

  datatype Call =
    | ActTsk(t: nat) | TerTsk(t: nat) | ExtTsk | RasTer(t: nat) | DisTer | EnaTer
    | SlpTsk(tmo: Tmo) | DlyTsk | WupTsk(t: nat) | RelWai(t: nat) | SusTsk(t: nat) | RsmTsk(t: nat)
    | ChgPri(t: nat, newbpri: nat) | RotRdq(pri: nat)
    | DisDsp | EnaDsp | ChgIpm(open: bool)
    | LocMtx(m: nat, tmo: Tmo) | PlocMtx(m: nat) | UnlMtx(m: nat) | IniMtx(m: nat)
    | WaitObject(o: nat, limited: bool)   // the waiting part of wai_sem, rcv_dtq and their like
    | WakeObject(o: nat)                  // the waking part of sig_sem, snd_dtq and their like
    | IniObject(o: nat)                   // init_wait_queue by ini_sem, ini_dtq and their like
    | TimeOut(t: nat)                     // the callback of the task's time event block
    | EnterHandler | ExitHandler

  predicate Sized(c: Config, s: State) {
    && |s.held| == |s.tcb| == |c.ipriority| == |c.noactque|
    && |s.waitq| == |c.obj|
  }

  /** The call may come from a handler as well (CHECK_UNL). */
  predicate FromAnywhere(call: Call) {
    call.ActTsk? || call.WupTsk? || call.RelWai? || call.RotRdq? || call.WakeObject?
  }

  /** The call suspends its caller and needs dispatching to be on (CHECK_DISPATCH). */
  predicate NeedsDispatch(call: Call) {
    call.SlpTsk? || call.DlyTsk? || call.LocMtx? || call.WaitObject?
  }

  /** The context the service calls check for. */
  predicate Permitted(s: State, call: Call) {
    if call.EnterHandler? then !s.inHandler
    else if call.ExitHandler? || call.TimeOut? then s.inHandler
    else if FromAnywhere(call) then s.inHandler || s.runtsk.Some?
    else !s.inHandler && s.runtsk.Some? && (NeedsDispatch(call) ==> Dispatching(s))
  }

  /** The ID and parameter checks. */
  predicate ValidCall(c: Config, call: Call) {
    match call
    case ActTsk(t) => t < |c.ipriority|
    case TerTsk(t) => t < |c.ipriority|
    case RasTer(t) => t < |c.ipriority|
    case WupTsk(t) => t < |c.ipriority|
    case RelWai(t) => t < |c.ipriority|
    case SusTsk(t) => t < |c.ipriority|
    case RsmTsk(t) => t < |c.ipriority|
    case ChgPri(t, newbpri) => t < |c.ipriority| && newbpri < TNUM_TPRI
    case RotRdq(pri) => pri < TNUM_TPRI
    case LocMtx(m, _) => m < |c.obj| && c.obj[m].mutex
    case PlocMtx(m) => m < |c.obj| && c.obj[m].mutex
    case UnlMtx(m) => m < |c.obj| && c.obj[m].mutex
    case IniMtx(m) => m < |c.obj| && c.obj[m].mutex
    case WaitObject(o, _) => o < |c.obj| && !c.obj[o].mutex
    case WakeObject(o) => o < |c.obj| && !c.obj[o].mutex
    case IniObject(o) => o < |c.obj| && !c.obj[o].mutex
    case _ => true
  }

  ghost function Exec(c: Config, s: State, call: Call): (State, Ercd)
    requires Sized(c, s)
  {
    if !Permitted(s, call) then (s, E_CTX)
    else if !ValidCall(c, call) then (s, E_PAR)
    else if FromAnywhere(call) then ExecAnywhere(c, s, call)
    else if FromOutside(call) then ExecOutside(s, call)
    else if s.runtsk.Some? && Is(s, s.runtsk.value) then ExecInTask(c, s, call, s.runtsk.value)
    else (s, E_CTX)
  }

  /** Not a service call: a handler starts or returns, or a time event fires. */
  predicate FromOutside(call: Call) {
    call.EnterHandler? || call.ExitHandler? || call.TimeOut?
  }

  ghost function ExecOutside(s: State, call: Call): (State, Ercd) {
    match call
    case EnterHandler => (s.(inHandler := true), E_OK)
    case ExitHandler => (Dispatch(s.(inHandler := false)), E_OK)
    case TimeOut(t) => TimeOutOf(s, t)
    case _ => (s, E_CTX)
  }

  ghost function ExecAnywhere(c: Config, s: State, call: Call): (State, Ercd)
    requires Sized(c, s) && ValidCall(c, call)
  {
    match call
    case ActTsk(t) => ActivateTask(c, s, t)
    case WupTsk(t) => WakeUp(s, t)
    case RelWai(t) => ReleaseWait(s, t)
    case RotRdq(pri) => (Dispatch(Rotate(s, pri)), E_OK)
    case WakeObject(o) => (Dispatch(WakeFirst(s, o)), E_OK)
    case _ => (s, E_CTX)
  }

  ghost function ExecInTask(c: Config, s: State, call: Call, self: nat): (State, Ercd)
    requires Sized(c, s) && Is(s, self) && ValidCall(c, call)
  {
    match call
    case TerTsk(t) => TerminateOther(c, s, self, t)
    case ExtTsk => (Dispatch(Terminate(c, s.(enadsp := true, ipmOpen := true), self)), E_OK)
    case RasTer(t) => RequestTermination(c, s, self, t)
    case DisTer => (SetTcb(s, self, s.tcb[self].(enater := false)), E_OK)
    case EnaTer => EnableTermination(c, s, self)
    case SlpTsk(tmo) => SleepSelf(c, s, self, tmo)
    case DlyTsk =>
      if s.tcb[self].raster then (s, E_RASTER)
      else (Dispatch(EnterWait(c, s, self, Delay, true)), E_OK)
    case SusTsk(t) => Suspend(s, self, t)
    case RsmTsk(t) => Resume(s, t)
    case ChgPri(t, newbpri) => ChangeBase(c, s, t, newbpri)
    case DisDsp => (s.(enadsp := false), E_OK)
    case EnaDsp => ReopenDispatch(c, s.(enadsp := true), self)
    case ChgIpm(open) => ReopenDispatch(c, s.(ipmOpen := open), self)
    case LocMtx(m, tmo) =>
      if s.tcb[self].raster then (s, E_RASTER)
      else Lock(c, s, self, m, tmo)
    case PlocMtx(m) => Lock(c, s, self, m, TMO_POL)
    case UnlMtx(m) =>
      if s.held[self] == [] || s.held[self][0] != m then (s, E_OBJ)
      else (Dispatch(Unlock(c, s, self, m)), E_OK)
    case IniMtx(m) => (Dispatch(Reinitialize(c, s, m)), E_OK)
    case WaitObject(o, limited) =>
      if s.tcb[self].raster then (s, E_RASTER)
      else (Dispatch(EnterWait(c, s, self, OnObject(o), limited)), E_OK)
    case IniObject(o) => (Dispatch(FlushQueue(s, o)), E_OK)
    case _ => (s, E_CTX)
  }

  function ActivateTask(c: Config, s: State, t: nat): (State, Ercd)
    requires Sized(c, s) && Is(s, t)
  {
    if s.tcb[t].tstat.Dormant? then (Dispatch(MakeActive(s, t)), E_OK)
    else if c.noactque[t] || s.tcb[t].actque then (s, E_QOVR)
    else (SetTcb(s, t, s.tcb[t].(actque := true)), E_OK)
  }

  function TerminateOther(c: Config, s: State, self: nat, t: nat): (State, Ercd)
    requires Sized(c, s) && Is(s, t)
  {
    if t == self then (s, E_ILUSE)
    else if s.tcb[t].tstat.Dormant? then (s, E_OBJ)
    else (Dispatch(Terminate(c, s, t)), E_OK)
  }

  /** ras_ter: a task that does not allow its termination is only marked, and brought out of any
      wait or suspension. */
  function RequestTermination(c: Config, s: State, self: nat, t: nat): (State, Ercd)
    requires Sized(c, s) && Is(s, t)
  {
    if t == self then (s, E_ILUSE)
    else if s.tcb[t].tstat.Dormant? then (s, E_OBJ)
    else if s.tcb[t].enater then (Dispatch(Terminate(c, s, t)), E_OK)
    else if Runnable(s, t) then (SetTcb(s, t, s.tcb[t].(raster := true)), E_OK)
    else (Dispatch(Unblock(s, t)), E_OK)
  }

  /** The task as ras_ter brings it out of a wait or suspension. */
  function Requested(v: Tcb): Tcb {
    v.(raster := true, tstat := Alive(NoWait, false), winfo := if Waits(v) then Wercd(E_RASTER) else v.winfo)
  }

  function Unblock(s: State, t: nat): State
    requires Is(s, t)
  {
    MakeRunnable(SetTcb(Detach(s, t), t, Requested(s.tcb[t])), t)
  }

  function EnableTermination(c: Config, s: State, self: nat): (State, Ercd)
    requires Sized(c, s) && Is(s, self)
  {
    if s.tcb[self].raster && Dispatching(s) then (Dispatch(Terminate(c, s, self)), E_OK)
    else (SetTcb(s, self, s.tcb[self].(enater := true)), E_OK)
  }

  /** ena_dsp and chg_ipm: when dispatching comes back, a pending termination takes effect. */
  function ReopenDispatch(c: Config, s: State, self: nat): (State, Ercd)
    requires Sized(c, s) && Is(s, self)
  {
    if Dispatching(s) && s.tcb[self].raster && s.tcb[self].enater
    then (Dispatch(Terminate(c, s, self)), E_OK)
    else (Dispatch(s), E_OK)
  }

  function SleepSelf(c: Config, s: State, self: nat, tmo: Tmo): (State, Ercd)
    requires Sized(c, s) && Is(s, self)
  {
    if s.tcb[self].raster then (s, E_RASTER)
    else if s.tcb[self].wupque then (SetTcb(s, self, s.tcb[self].(wupque := false)), E_OK)
    else if tmo == TMO_POL then (s, E_TMOUT)
    else (Dispatch(EnterWait(c, s, self, Sleep, tmo.Limited?)), E_OK)
  }

  function WakeUp(s: State, t: nat): (State, Ercd)
    requires Is(s, t)
  {
    if s.tcb[t].tstat.Dormant? then (s, E_OBJ)
    else if s.tcb[t].tstat.wait == Sleep then (Dispatch(EndWait(s, t, E_OK)), E_OK)
    else if !s.tcb[t].wupque then (SetTcb(s, t, s.tcb[t].(wupque := true)), E_OK)
    else (s, E_QOVR)
  }

  function ReleaseWait(s: State, t: nat): (State, Ercd)
    requires Is(s, t)
  {
    if !Waiting(s, t) then (s, E_OBJ) else (Dispatch(EndWait(s, t, E_RLWAI)), E_OK)
  }

  function Suspend(s: State, self: nat, t: nat): (State, Ercd)
    requires Is(s, t)
  {
    if t == self && !Dispatching(s) then (s, E_CTX)
    else if s.tcb[t].tstat.Dormant? then (s, E_OBJ)
    else if s.tcb[t].raster then (s, E_RASTER)
    else if Runnable(s, t) then
      (Dispatch(MakeNonRunnable(SetStat(s, t, Alive(NoWait, true)), t)), E_OK)
    else if s.tcb[t].tstat.suspended then (s, E_QOVR)
    else (SetStat(s, t, Alive(s.tcb[t].tstat.wait, true)), E_OK)
  }

  function Resume(s: State, t: nat): (State, Ercd)
    requires Is(s, t)
  {
    if s.tcb[t].tstat.Dormant? || !s.tcb[t].tstat.suspended then (s, E_OBJ)
    else if !Waiting(s, t) then (Dispatch(MakeRunnable(SetStat(s, t, Alive(NoWait, false)), t)), E_OK)
    else (SetStat(s, t, Alive(s.tcb[t].tstat.wait, false)), E_OK)
  }

  /** Some ceiling the task holds or waits for would be below its base priority. */
  predicate CeilingViolated(c: Config, s: State, t: nat, bpriority: nat)
    requires Sized(c, s) && Is(s, t)
  {
    exists m :: 0 <= m < |c.obj| && (m in s.held[t] || WaitsFor(s.tcb[t], m)) && c.obj[m].mutex &&
                c.obj[m].ceiling.Some? && bpriority < c.obj[m].ceiling.value
  }

  predicate HoldsCeiling(c: Config, s: State, t: nat)
    requires Sized(c, s) && Is(s, t)
  {
    exists m :: m in s.held[t] && m < |c.obj| && c.obj[m].ceiling.Some?
  }

  function ChangeBase(c: Config, s: State, t: nat, newbpri: nat): (State, Ercd)
    requires Sized(c, s) && Is(s, t)
  {
    if s.tcb[t].tstat.Dormant? then (s, E_OBJ)
    else if CeilingViolated(c, s, t, newbpri) then (s, E_ILUSE)
    else
      var s1 := SetTcb(s, t, s.tcb[t].(bpriority := newbpri));
      if HoldsCeiling(c, s, t) then (s1, E_OK)
      else (Dispatch(ChangePriority(c, s1, t, newbpri, false)), E_OK)
  }

  /** The first task of priority `pri` goes behind its equals. */
  function Rotate(s: State, pri: nat): State {
    if exists t :: t in s.ready && Of(Prios(s.tcb), t) == pri then
      var t := FirstOf(s.ready, Prios(s.tcb), pri);
      s.(ready := Insert(Without(s.ready, t), Prios(s.tcb), t, false))
    else s
  }

  function FirstOf(q: seq<nat>, p: seq<nat>, pri: nat): nat
    requires exists t :: t in q && Of(p, t) == pri
  {
    if Of(p, q[0]) == pri then q[0]
    else
      assert q == [q[0]] + q[1..];
      FirstOf(q[1..], p, pri)
  }

  function WakeFirst(s: State, o: nat): State
    requires o < |s.waitq|
  {
    if s.waitq[o] == [] then s else WakeHead(s, o, E_OK)
  }

  /** wait_tmout, and wait_tmout_ok for dly_tsk. */
  function TimeOutOf(s: State, t: nat): (State, Ercd) {
    if t !in s.timers || !Is(s, t) || s.tcb[t].tstat.Dormant? then (s, E_OBJ)
    else (EndWait(s, t, if s.tcb[t].tstat.wait == Delay then E_OK else E_TMOUT), E_OK)
  }

  function Lock(c: Config, s: State, self: nat, m: nat, tmo: Tmo): (State, Ercd)
    requires Sized(c, s) && Is(s, self) && m < |c.obj|
  {
    if c.obj[m].ceiling.Some? && s.tcb[self].bpriority < c.obj[m].ceiling.value then (s, E_ILUSE)
    else if !Owned(s.held, m) then (Acquire(c, s, self, m), E_OK)
    else if m in s.held[self] then (s, E_OBJ)
    else if tmo == TMO_POL then (s, E_TMOUT)
    else (Dispatch(EnterWait(c, s, self, OnObject(m), tmo.Limited?)), E_OK)
  }

  function Unlock(c: Config, s: State, self: nat, m: nat): State
    requires Sized(c, s) && Is(s, self) && s.held[self] != []
  {
    Release(c, Reprioritize(c, SetHeld(s, self, s.held[self][1..]), self), m)
  }

  /** ini_mtx: the waiting tasks get E_DLT and the holder loses the mutex. */
  ghost function Reinitialize(c: Config, s: State, m: nat): State
    requires Sized(c, s) && m < |c.obj|
  {
    var s1 := FlushQueue(s, m);
    if Owned(s.held, m) then
      var t := Holder(s.held, m);
      Reprioritize(c, SetHeld(s1, t, Without(s1.held[t], m)), t)
    else s1
  }

  ghost function Holder(held: seq<seq<nat>>, m: nat): (t: nat)
    requires Owned(held, m)
    ensures t < |held| && m in held[t]
  {
    var t :| 0 <= t < |held| && m in held[t];
    t
  }
}
