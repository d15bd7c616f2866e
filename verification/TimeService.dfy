/**
 The calls that the time management takes while the kernel runs, as operations on the unbounded
 clock (asp3/kernel/time_manage.c, alarm.c, cyclic.c, time_event.c).
 */
module TimeService {
  import opened TimeModel
  import opened Firing
  import opened Signal

  /** set_tim, get_tim, adj_tim, ref_alm or ref_cyc, sta_alm or sta_cyc or the start of a wait with a
      time limit, stp_alm or stp_cyc or the end of such a wait, and the timer interrupt.  Each reads the
      timer the given number of counts after its last reading. */
  datatype Service =
    | SetSystim(systim: nat, d: nat)
    | GetSystim(d: nat)
    | AdjSystim(adjtim: int, d: nat)
    | LeftOf(b: nat, d: nat)
    | StartOf(b: nat, time: nat, d1: nat, d2: nat)
    | StopOf(b: nat, d: nat)
    | Interrupt(advances: seq<nat>, handlers: seq<seq<Request>>)

  predicate Acceptable(s: Service, kinds: seq<Kind>, tcyc: nat) {
    match s
    case SetSystim(_, d) => d < tcyc
    case GetSystim(d) => d < tcyc
    case AdjSystim(adjtim, d) => TMIN_ADJTIM <= adjtim <= TMAX_ADJTIM && d < tcyc
    case LeftOf(b, d) => b < |kinds| && d < tcyc
    case StartOf(b, time, d1, d2) => b < |kinds| && time <= TMAX_RELTIM && d1 < tcyc && d2 < tcyc
    case StopOf(b, d) => b < |kinds| && d < tcyc
    case Interrupt(advances, handlers) =>
      && (forall i :: 0 <= i < |advances| ==> advances[i] < tcyc)
      && (forall i :: 0 <= i < |handlers| ==> AllLegal(handlers[i], kinds, tcyc))
  }

  /** `reading` tells whether a removal reads the timer, `turns` what signal_time did. */
  ghost function ServiceOps(c: Clock, s: Service, kinds: seq<Kind>, tstep: nat, reading: bool, turns: Turns): seq<Op> {
    match s
    case SetSystim(systim, d) => [Tick(InTime(c, d)), SetTim(systim)]
    case GetSystim(d) => [Tick(InTime(c, d))]
    case AdjSystim(adjtim, d) => [Tick(InTime(c, d)), AdjTim(adjtim)]
    case LeftOf(b, d) => if b in c.events then [Tick(InTime(c, d))] else []
    case StartOf(b, time, d1, d2) => StartOps(c, b, time, tstep, reading, d1, d2)
    case StopOf(b, d) => RemovalOps(c, b, reading, d)
    case Interrupt(advances, handlers) => SignalOps(c, Plan(kinds, tstep, advances, handlers), turns)
  }

  predicate NoSetting(ops: seq<Op>) {
    forall i :: 0 <= i < |ops| ==> !ops[i].SetTim?
  }

  /** Every call makes a regular run, and only set_tim sets the time. */
  lemma ServiceIsRegular(c: Clock, s: Service, kinds: seq<Kind>, tstep: nat, tcyc: nat, reading: bool, turns: Turns)
    requires InWindow(c) && Acceptable(s, kinds, tcyc) && tstep <= TSTEP_LIMIT
    requires forall b: nat :: Period(kinds, b) <= TMAX_RELTIM
    requires s.Interrupt? ==> Possible(c, Plan(kinds, tstep, s.advances, s.handlers), turns)
    ensures var ops := ServiceOps(c, s, kinds, tstep, reading, turns);
            Regular(c, ops, kinds) && (s.SetSystim? || NoSetting(ops))
  {
    match s
    case SetSystim(systim, d) => ReadingThen(c, d, SetTim(systim), kinds);
    case GetSystim(d) => ReadingThen(c, d, Tick(0), kinds);
    case AdjSystim(adjtim, d) => ReadingThen(c, d, AdjTim(adjtim), kinds);
    case LeftOf(b, d) => ReadingThen(c, d, Tick(0), kinds);
    case StartOf(b, time, d1, d2) => StartIsRegular(c, b, time, tstep, reading, d1, d2, kinds);
    case StopOf(b, d) => RemovalIsRegular(c, b, reading, d, kinds);
    case Interrupt(advances, handlers) =>
      var p := Plan(kinds, tstep, advances, handlers);
      SignalIsRegular(c, p, turns, tcyc);
      SignalSetsNothing(c, p, turns, tcyc);
  }

  lemma ReadingThen(c: Clock, d: nat, op: Op, kinds: seq<Kind>)
    requires InWindow(c)
    ensures Regular(c, [Tick(InTime(c, d))], kinds)
    ensures Proper(Advance(c, InTime(c, d)), op, kinds) ==> Regular(c, [Tick(InTime(c, d)), op], kinds)
  {
    InTimeIsTimely(c, d);
    TwoSteps(c, Tick(InTime(c, d)), op, kinds);
  }

  lemma SignalSetsNothing(c: Clock, p: Plan, turns: Turns, tcyc: nat)
    requires GoodPlan(p, tcyc)
    ensures NoSetting(SignalOps(c, p, turns))
  {
    SignalIsModest(c, p, turns, tcyc, true);
  }

  // ---------- What the calls promise ----------

  /** What a call returns: the system time, the time left until an event, or that the adjustment was
      refused or the block is not pending. */
  datatype Answer = Done | Systim(systim: nat) | TimeLeft(left: nat) | Refused | Stopped

  /** What each call brings about.  A reading that comes in time comes as meant (TimeModel.InTime). */
  ghost predicate Affected(c: Clock, s: Service, kinds: seq<Kind>, tstep: nat, c': Clock) {
    match s
    case SetSystim(systim, d) => SystemTime(c') == systim && c' == Advance(c, InTime(c, d)).(base := c'.base)
    case GetSystim(d) => c' == Advance(c, InTime(c, d))
    case AdjSystim(adjtim, d) => ReadAndAdjusted(c, adjtim, d, c')
    case LeftOf(b, d) => c' == if b in c.events then Advance(c, InTime(c, d)) else c
    case StartOf(b, time, d1, d2) => c'.events == c.events[b := c'.now + tstep + time] && TimePassed(c, c')
    case StopOf(b, d) => c'.events == c.events - {b} && TimePassed(c, c')
    case Interrupt(advances, handlers) =>
      && NothingDue(c')
      && exists turns :: Signalled(c, Plan(kinds, tstep, advances, handlers), turns, c')
  }

  ghost predicate Signalled(c: Clock, p: Plan, turns: Turns, c': Clock) {
    Complete(c, p, turns) && c' == After(c, p, turns)
  }

  ghost predicate Answered(c: Clock, s: Service, tstep: nat, c': Clock, answer: Answer) {
    match s
    case GetSystim(_) => answer == Systim(SystemTime(c') % WRAP64)
    case AdjSystim(adjtim, d) => answer == if AdjustRefused(Advance(c, InTime(c, d)), adjtim) then Refused else Done
    case LeftOf(b, _) => answer == if b in c.events then TimeLeft(Max(0, c.events[b] - (c'.now + tstep))) else Stopped
    case _ => answer == Done
  }

  lemma ServiceEffect(c: Clock, s: Service, kinds: seq<Kind>, tstep: nat, tcyc: nat, reading: bool, turns: Turns)
    requires InWindow(c) && Acceptable(s, kinds, tcyc) && tstep <= TSTEP_LIMIT
    requires s.Interrupt? ==> Complete(c, Plan(kinds, tstep, s.advances, s.handlers), turns)
    ensures Affected(c, s, kinds, tstep, Run(c, ServiceOps(c, s, kinds, tstep, reading, turns)))
  {
    match s
    case SetSystim(systim, d) => TwoSteps(c, Tick(InTime(c, d)), SetTim(systim), kinds);
    case GetSystim(d) => TwoSteps(c, Tick(InTime(c, d)), Tick(0), kinds);
    case AdjSystim(adjtim, d) => TwoSteps(c, Tick(InTime(c, d)), AdjTim(adjtim), kinds);
    case LeftOf(b, d) => TwoSteps(c, Tick(InTime(c, d)), Tick(0), kinds);
    case StartOf(b, time, d1, d2) => StartEffect(c, b, time, tstep, reading, d1, d2);
    case StopOf(b, d) => RemovalEffect(c, b, reading, d);
    case Interrupt(advances, handlers) =>
      var p := Plan(kinds, tstep, advances, handlers);
      AfterIsRun(c, p, turns);
      assert Signalled(c, p, turns, After(c, p, turns));
  }

  // ---------- Sequences of calls ----------

  /** A call that was made, the operations it consisted of, and the clock after it. */
  datatype Entry = Entry(service: Service, answer: Answer, ops: seq<Op>, after: Clock)

  ghost predicate Ran(c: Clock, e: Entry, kinds: seq<Kind>) {
    && Regular(c, e.ops, kinds) && e.after == Run(c, e.ops)
    && (e.service.SetSystim? || NoSetting(e.ops))
  }

  ghost predicate Entered(c: Clock, e: Entry, kinds: seq<Kind>, tstep: nat) {
    && Ran(c, e, kinds)
    && Affected(c, e.service, kinds, tstep, e.after) && Answered(c, e.service, tstep, e.after, e.answer)
  }

  /** The clock after the first `i` calls. */
  function ClockAt(c: Clock, h: seq<Entry>, i: nat): Clock
    requires i <= |h|
  {
    if i == 0 then c else h[i - 1].after
  }

  /** Every call did what it promises. */
  ghost predicate History(c: Clock, h: seq<Entry>, kinds: seq<Kind>, tstep: nat)
    decreases |h|, 1
  {
    h == [] || LastEntered(c, h, kinds, tstep)
  }

  ghost predicate LastEntered(c: Clock, h: seq<Entry>, kinds: seq<Kind>, tstep: nat)
    requires h != []
    decreases |h|, 0
  {
    var n := |h| - 1;
    History(c, h[..n], kinds, tstep) && Entered(ClockAt(c, h, n), h[n], kinds, tstep)
  }

  lemma OneMoreEntry(c: Clock, h: seq<Entry>, e: Entry, kinds: seq<Kind>, tstep: nat)
    requires History(c, h, kinds, tstep) && Entered(ClockAt(c, h, |h|), e, kinds, tstep)
    ensures History(c, h + [e], kinds, tstep)
  {
    assert (h + [e])[..|h|] == h && ClockAt(c, h + [e], |h|) == ClockAt(c, h, |h|);
    assert LastEntered(c, h + [e], kinds, tstep);
  }

  /** Each call of a history does what it promises. */
  lemma {:induction false} EntryAt(c: Clock, h: seq<Entry>, kinds: seq<Kind>, tstep: nat, i: nat)
    requires History(c, h, kinds, tstep) && i < |h|
    ensures Entered(ClockAt(c, h, i), h[i], kinds, tstep)
    decreases |h|
  {
    assert LastEntered(c, h, kinds, tstep);
    var n := |h| - 1;
    if i < n {
      EntryAt(c, h[..n], kinds, tstep, i);
      assert ClockAt(c, h[..n], i) == ClockAt(c, h, i);
    }
  }

  lemma {:induction false} RanAt(c: Clock, h: seq<Entry>, kinds: seq<Kind>, tstep: nat, i: nat)
    requires History(c, h, kinds, tstep) && i < |h|
    ensures Ran(ClockAt(c, h, i), h[i], kinds)
  {
    EntryAt(c, h, kinds, tstep, i);
  }

  /** The history is that of the first calls of `services`, and `answers` is what they returned. */
  ghost predicate HistoryOf(h: seq<Entry>, services: seq<Service>, answers: seq<Answer>) {
    && |answers| == |h| <= |services|
    && forall i :: 0 <= i < |h| ==> h[i].service == services[i] && h[i].answer == answers[i]
  }

  lemma OneMoreAnswer(h: seq<Entry>, services: seq<Service>, answers: seq<Answer>, e: Entry)
    requires HistoryOf(h, services, answers) && |h| < |services| && e.service == services[|h|]
    ensures HistoryOf(h + [e], services, answers + [e.answer])
  {
  }

  /** The operations of the calls from `i` up to `j`. */
  function OpsOf(h: seq<Entry>, i: nat, j: nat): seq<Op>
    requires i <= j <= |h|
  {
    if i == j then [] else OpsOf(h, i, j - 1) + h[j - 1].ops
  }

  /** No setting from call `i` up to `j`. */
  predicate NoSettingIn(h: seq<Entry>, i: nat, j: nat)
    requires j <= |h|
  {
    forall k :: i <= k < j ==> !h[k].service.SetSystim?
  }

  lemma {:induction false} HistoryRuns(c: Clock, h: seq<Entry>, kinds: seq<Kind>, tstep: nat, i: nat, j: nat)
    requires History(c, h, kinds, tstep) && i <= j <= |h|
    ensures Run(ClockAt(c, h, i), OpsOf(h, i, j)) == ClockAt(c, h, j)
    ensures Regular(ClockAt(c, h, i), OpsOf(h, i, j), kinds)
    ensures NoSettingIn(h, i, j) ==> NoSetting(OpsOf(h, i, j))
    decreases j
  {
    if i < j {
      HistoryRuns(c, h, kinds, tstep, i, j - 1);
      RanAt(c, h, kinds, tstep, j - 1);
      RunAppend(ClockAt(c, h, i), OpsOf(h, i, j - 1), h[j - 1].ops);
      RegularAppend(ClockAt(c, h, i), OpsOf(h, i, j - 1), h[j - 1].ops, kinds);
    }
  }

  lemma HistoryKeepsWindow(c: Clock, h: seq<Entry>, kinds: seq<Kind>, tstep: nat, i: nat)
    requires History(c, h, kinds, tstep) && InWindow(c) && i <= |h|
    ensures InWindow(ClockAt(c, h, i))
  {
    HistoryRuns(c, h, kinds, tstep, 0, i);
    RegularIsTimely(c, OpsOf(h, 0, i), kinds);
    RunKeepsWindow(c, OpsOf(h, 0, i));
  }

  lemma SettingAt(c: Clock, h: seq<Entry>, kinds: seq<Kind>, tstep: nat, i: nat)
    requires History(c, h, kinds, tstep) && i < |h| && h[i].service.SetSystim?
    ensures SystemTime(h[i].after) == h[i].service.systim
  {
    EntryAt(c, h, kinds, tstep, i);
  }

  lemma GettingAt(c: Clock, h: seq<Entry>, kinds: seq<Kind>, tstep: nat, i: nat)
    requires History(c, h, kinds, tstep) && i < |h| && h[i].service.GetSystim?
    ensures h[i].answer == Systim(SystemTime(h[i].after) % WRAP64)
  {
    EntryAt(c, h, kinds, tstep, i);
  }

  lemma StartAt(c: Clock, h: seq<Entry>, kinds: seq<Kind>, tstep: nat, i: nat)
    requires History(c, h, kinds, tstep) && i < |h| && h[i].service.StartOf?
    ensures h[i].service.b in h[i].after.events
    ensures h[i].after.events[h[i].service.b] == h[i].after.now + tstep + h[i].service.time
  {
    EntryAt(c, h, kinds, tstep, i);
  }

  lemma StopAt(c: Clock, h: seq<Entry>, kinds: seq<Kind>, tstep: nat, i: nat)
    requires History(c, h, kinds, tstep) && i < |h| && h[i].service.StopOf?
    ensures h[i].service.b !in h[i].after.events
  {
    EntryAt(c, h, kinds, tstep, i);
  }

  lemma InterruptAt(c: Clock, h: seq<Entry>, kinds: seq<Kind>, tstep: nat, i: nat)
    requires History(c, h, kinds, tstep) && i < |h| && h[i].service.Interrupt?
    ensures NothingDue(h[i].after)
  {
    EntryAt(c, h, kinds, tstep, i);
  }

  // ---------- The system time ----------

  /** get_tim returns the time last set, and what the highest event time has grown by since. */
  lemma GetTimFollowsSetTim(c: Clock, h: seq<Entry>, kinds: seq<Kind>, tstep: nat, i: nat, j: nat)
    requires History(c, h, kinds, tstep) && InWindow(c) && i < j < |h|
    requires h[i].service.SetSystim? && h[j].service.GetSystim? && NoSettingIn(h, i + 1, j)
    ensures var peak := h[i].after.peak;
            var highest := Max(peak, HighestNow(h[i].after, OpsOf(h, i + 1, j + 1)));
            h[j].answer == Systim((h[i].service.systim + (highest - peak)) % WRAP64)
  {
    SettingAt(c, h, kinds, tstep, i);
    GettingAt(c, h, kinds, tstep, j);
    SystemTimeGrows(c, h, kinds, tstep, i + 1, j + 1);
  }

  lemma SystemTimeGrows(c: Clock, h: seq<Entry>, kinds: seq<Kind>, tstep: nat, i: nat, j: nat)
    requires History(c, h, kinds, tstep) && InWindow(c) && i <= j <= |h| && NoSettingIn(h, i, j)
    ensures var c1, c2 := ClockAt(c, h, i), ClockAt(c, h, j);
            SystemTime(c2) - SystemTime(c1) == Max(c1.peak, HighestNow(c1, OpsOf(h, i, j))) - c1.peak >= 0
  {
    HistoryRuns(c, h, kinds, tstep, i, j);
    HistoryKeepsWindow(c, h, kinds, tstep, i);
    SystemTimeFollowsPeak(ClockAt(c, h, i), OpsOf(h, i, j));
  }

  /** Between two settings what get_tim returns never decreases, as long as 64 bits hold it. */
  lemma GetTimNeverDecreases(c: Clock, h: seq<Entry>, kinds: seq<Kind>, tstep: nat, i: nat, j: nat)
    requires History(c, h, kinds, tstep) && InWindow(c) && i < j < |h|
    requires h[i].service.GetSystim? && h[j].service.GetSystim? && NoSettingIn(h, i, j)
    ensures h[i].answer == Systim(SystemTime(h[i].after) % WRAP64)
    ensures h[j].answer == Systim(SystemTime(h[j].after) % WRAP64)
    ensures SystemTime(h[i].after) <= SystemTime(h[j].after)
  {
    GettingAt(c, h, kinds, tstep, i);
    GettingAt(c, h, kinds, tstep, j);
    SystemTimeGrows(c, h, kinds, tstep, i + 1, j + 1);
  }

  // ---------- Alarms, cyclic events and time limits ----------

  /** After a start with delay `time`, the next call back of the block that is not preceded by another
      start or stop of it is logged under the time asked for: `time` after the upper bound of the time
      at the call.  It does not come before that time. */
  lemma CalledBackAsAsked(c: Clock, h: seq<Entry>, kinds: seq<Kind>, tstep: nat, i: nat, j: nat, mid: seq<Op>,
                          fire: Op, rest: seq<Op>)
    requires History(c, h, kinds, tstep) && i < j <= |h| && h[i].service.StartOf?
    requires OpsOf(h, i + 1, j) == mid + [fire] + rest && fire.Fire? && fire.b == h[i].service.b
    requires Leaves(mid, fire.b) && NeverFires(mid, fire.b)
    ensures var start := h[i].after;
            var due := start.now + tstep + h[i].service.time;
            var at := Run(start, mid).now;
            Count(Log(start, mid), fire.b) == 0 && due <= at &&
            Log(start, OpsOf(h, i + 1, j)) ==
              Log(start, mid) + [Fired(fire.b, due, at)] + Log(Run(start, mid + [fire]), rest)
  {
    HistoryRuns(c, h, kinds, tstep, i + 1, j);
    StartAt(c, h, kinds, tstep, i);
    NextCallBack(h[i].after, mid, fire, rest, kinds, fire.b);
  }

  /** Nor is it forgotten: once signal_time has run when the time asked for has come, the block was
      called back, unless it was started anew or stopped. */
  lemma CalledBackInTheEnd(c: Clock, h: seq<Entry>, kinds: seq<Kind>, tstep: nat, i: nat, j: nat)
    requires History(c, h, kinds, tstep) && i < j < |h| && h[i].service.StartOf? && h[j].service.Interrupt?
    requires h[i].after.now + tstep + h[i].service.time <= h[j].after.now
    requires Leaves(OpsOf(h, i + 1, j + 1), h[i].service.b)
    ensures !NeverFires(OpsOf(h, i + 1, j + 1), h[i].service.b)
  {
    StartAt(c, h, kinds, tstep, i);
    NothingDueAfter(c, h, kinds, tstep, i, j);
    NotForgotten(h[i].after, OpsOf(h, i + 1, j + 1), kinds, h[i].service.b);
  }

  lemma NothingDueAfter(c: Clock, h: seq<Entry>, kinds: seq<Kind>, tstep: nat, i: nat, j: nat)
    requires History(c, h, kinds, tstep) && i < j < |h| && h[j].service.Interrupt?
    ensures var ops := OpsOf(h, i + 1, j + 1);
            Regular(h[i].after, ops, kinds) && Run(h[i].after, ops) == h[j].after && NothingDue(h[j].after)
  {
    HistoryRuns(c, h, kinds, tstep, i + 1, j + 1);
    InterruptAt(c, h, kinds, tstep, j);
  }

  /** A stopped block is not called back until it is started again. */
  lemma StoppedStaysSilent(c: Clock, h: seq<Entry>, kinds: seq<Kind>, tstep: nat, i: nat, j: nat)
    requires History(c, h, kinds, tstep) && i < j <= |h| && h[i].service.StopOf?
    requires Leaves(OpsOf(h, i + 1, j), h[i].service.b)
    ensures Count(Log(h[i].after, OpsOf(h, i + 1, j)), h[i].service.b) == 0
  {
    HistoryRuns(c, h, kinds, tstep, i + 1, j);
    StopAt(c, h, kinds, tstep, i);
    NotPendingNotFired(h[i].after, OpsOf(h, i + 1, j), kinds, h[i].service.b);
  }

  lemma {:induction false} NotPendingNotFired(c: Clock, ops: seq<Op>, kinds: seq<Kind>, b: nat)
    requires Regular(c, ops, kinds) && Leaves(ops, b) && b !in c.events
    ensures Count(Log(c, ops), b) == 0
    decreases |ops|
  {
    if ops != [] {
      assert !Touches(ops[0], b);
      NotPendingNotFired(Step(c, ops[0]), ops[1..], kinds, b);
      LogFirst(c, ops, b);
    }
  }
}
