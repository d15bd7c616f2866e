/**
 What one run of signal_time does: which events it calls back, in which order, and what their
 handlers start and stop (asp3/kernel/time_event.c:556-599, cyclic.c:229-255, alarm.c:225-244).

 Everything that happens to the clock and the events is a sequence of operations of TimeModel.
 The call backs of such a run, with their due times, can be read off it.
 */
module Firing {
  import opened TimeModel

  type Due = map<nat, int>

  /** What the callback of a block does: wake a task whose wait timed out, notify an alarm, or
      notify a cyclic event and register it again. */
  datatype Kind = Timeout | Alarm | Cyclic(cyctim: nat, cycphs: nat)

  function Period(kinds: seq<Kind>, b: nat): nat {
    if b < |kinds| && kinds[b].Cyclic? then kinds[b].cyctim else 0
  }

  // ---------- Runs that the kernel can make ----------

  /** The block comes first, and is due. */
  ghost predicate FirstDue(c: Clock, b: nat) {
    IsFirst(c.events, b) && c.events[b] <= c.now
  }

  ghost predicate NothingDue(c: Clock) {
    forall b :: b in c.events ==> c.now < c.events[b]
  }

  /** The timer is read in time; only a first and due event is called back, and registered again
      with its own period; only a block not registered is registered, and only one registered
      removed. */
  ghost predicate Proper(c: Clock, op: Op, kinds: seq<Kind>) {
    match op
    case Tick(d) => WithinMargin(Advance(c, d))
    case Enqueue(b, tstep, time) =>
      b !in c.events && b < |kinds| && tstep <= TSTEP_LIMIT && time <= TMAX_RELTIM
    case Start(b, phase) => b !in c.events && b < |kinds| && c.now == 0 && phase <= TMAX_RELTIM
    case Dequeue(b) => b in c.events
    case Fire(b, period) => FirstDue(c, b) && b < |kinds| && period == Period(kinds, b) <= TMAX_RELTIM
    case AdjTim(adjtim) => TMIN_ADJTIM <= adjtim <= TMAX_ADJTIM
    case SetTim(_) => true
  }

  ghost predicate Regular(c: Clock, ops: seq<Op>, kinds: seq<Kind>)
    decreases |ops|
  {
    ops == [] || (Proper(c, ops[0], kinds) && Regular(Step(c, ops[0]), ops[1..], kinds))
  }

  lemma {:induction false} RegularAppend(c: Clock, ops: seq<Op>, more: seq<Op>, kinds: seq<Kind>)
    requires Regular(c, ops, kinds) && Regular(Run(c, ops), more, kinds)
    ensures Regular(c, ops + more, kinds)
    decreases |ops|
  {
    if ops == [] {
      assert ops + more == more;
    } else {
      assert (ops + more)[1..] == ops[1..] + more;
      RegularAppend(Step(c, ops[0]), ops[1..], more, kinds);
    }
  }

  lemma {:induction false} RegularIsTimely(c: Clock, ops: seq<Op>, kinds: seq<Kind>)
    requires Regular(c, ops, kinds)
    ensures TimelyReadings(c, ops)
    decreases |ops|
  {
    if ops != [] {
      RegularIsTimely(Step(c, ops[0]), ops[1..], kinds);
    }
  }

  // ---------- Call backs ----------

  /** Block `b`, due at event time `due`, was called back at event time `at`. */
  datatype Fired = Fired(b: nat, due: int, at: int)

  /** The call backs of a run, each with the due time under which its block was registered. */
  ghost function Log(c: Clock, ops: seq<Op>): seq<Fired>
    decreases |ops|
  {
    if ops == [] then []
    else
      (if ops[0].Fire? && ops[0].b in c.events then [Fired(ops[0].b, c.events[ops[0].b], c.now)] else [])
      + Log(Step(c, ops[0]), ops[1..])
  }

  lemma {:induction false} LogAppend(c: Clock, ops: seq<Op>, more: seq<Op>)
    ensures Log(c, ops + more) == Log(c, ops) + Log(Run(c, ops), more)
    decreases |ops|
  {
    if ops == [] {
      assert ops + more == more;
    } else {
      assert (ops + more)[1..] == ops[1..] + more;
      LogAppend(Step(c, ops[0]), ops[1..], more);
    }
  }

  function Count(log: seq<Fired>, b: nat): nat {
    if log == [] then 0 else (if log[0].b == b then 1 else 0) + Count(log[1..], b)
  }

  predicate NoneBackward(ops: seq<Op>) {
    forall i :: 0 <= i < |ops| ==> ops[i].AdjTim? ==> ops[i].adjtim >= 0
  }

  // ---------- Order ----------

  /** Called back when due, never earlier, and in the order of the due times. */
  ghost predicate InOrder(log: seq<Fired>) {
    && (forall i :: 0 <= i < |log| ==> log[i].due <= log[i].at)
    && (forall i, j :: 0 <= i < j < |log| ==> log[i].due <= log[j].due)
  }

  ghost predicate NoneBefore(c: Clock, x: int) {
    x <= c.now && forall b :: b in c.events ==> x <= c.events[b]
  }

  lemma NoneBeforeAfter(c: Clock, op: Op, kinds: seq<Kind>, x: int)
    requires NoneBefore(c, x) && Proper(c, op, kinds) && (op.AdjTim? ==> op.adjtim >= 0)
    requires op.Start? ==> x <= 0
    ensures NoneBefore(Step(c, op), x)
  {
  }

  lemma {:induction false} NoneFiredBefore(c: Clock, ops: seq<Op>, kinds: seq<Kind>, x: int)
    requires NoneBefore(c, x) && Regular(c, ops, kinds) && NoneBackward(ops)
    requires forall i :: 0 <= i < |ops| ==> !ops[i].Start?
    ensures forall i :: 0 <= i < |Log(c, ops)| ==> x <= Log(c, ops)[i].due
    ensures NoneBefore(Run(c, ops), x)
    decreases |ops|
  {
    if ops != [] {
      assert ops[0] in ops;
      NoneBeforeAfter(c, ops[0], kinds, x);
      NoneFiredBefore(Step(c, ops[0]), ops[1..], kinds, x);
    }
  }

  /** Call backs come in the order of their due times, none before it is due, and before all that is
      still registered at the end, unless the clock was set back meanwhile. */
  lemma {:induction false} FiredInOrder(c: Clock, ops: seq<Op>, kinds: seq<Kind>)
    requires Regular(c, ops, kinds) && NoneBackward(ops)
    requires forall i :: 0 <= i < |ops| ==> !ops[i].Start?
    ensures InOrder(Log(c, ops))
    ensures forall i :: 0 <= i < |Log(c, ops)| ==> NoneBefore(Run(c, ops), Log(c, ops)[i].due)
    decreases |ops|
  {
    if ops != [] {
      assert ops[0] in ops;
      var c' := Step(c, ops[0]);
      FiredInOrder(c', ops[1..], kinds);
      if ops[0].Fire? {
        NoneBeforeAfter(c, ops[0], kinds, c.events[ops[0].b]);
        NoneFiredBefore(c', ops[1..], kinds, c.events[ops[0].b]);
      }
    }
  }

  lemma OneStep(c: Clock, op: Op, rest: seq<Op>, kinds: seq<Kind>)
    requires Proper(c, op, kinds) && Regular(Step(c, op), rest, kinds)
    ensures Regular(c, [op] + rest, kinds)
    ensures Log(c, [op] + rest) ==
            if op.Fire? then [Fired(op.b, c.events[op.b], c.now)] + Log(Step(c, op), rest) else Log(Step(c, op), rest)
  {
    assert ([op] + rest)[1..] == rest;
  }

  /** A clock set back can break the order: in this run the second event called back is due earlier
      than the first. */
  lemma SettingBackBreaksOrder() returns (c: Clock, ops: seq<Op>, kinds: seq<Kind>)
    ensures Regular(c, ops, kinds) && !InOrder(Log(c, ops))
  {
    kinds := [Alarm, Alarm];
    var c1, c2 := Clock(1000, 1000, 0, map[]), Clock(0, 1000, 0, map[]);
    var c3, c4 := Clock(0, 1000, 0, map[1 := 1]), Clock(1, 1000, 0, map[1 := 1]);
    c := Clock(1000, 1000, 0, map[0 := 1000]);
    ops := [];
    OneStep(c4, Fire(1, 0), ops, kinds);
    ops := [Fire(1, 0)] + ops;
    assert Log(c4, ops)[0] == Fired(1, 1, 1);
    OneStep(c3, Tick(1), ops, kinds);
    ops := [Tick(1)] + ops;
    OneStep(c2, Enqueue(1, 1, 0), ops, kinds);
    ops := [Enqueue(1, 1, 0)] + ops;
    OneStep(c1, AdjTim(-1000), ops, kinds);
    ops := [AdjTim(-1000)] + ops;
    assert Step(c, Fire(0, 0)) == c1;
    OneStep(c, Fire(0, 0), ops, kinds);
    ops := [Fire(0, 0)] + ops;
    assert Log(c, ops)[0].due == 1000 && Log(c, ops)[1].due == 1;
  }

  // ---------- How often, and when ----------

  predicate Touches(op: Op, b: nat) {
    match op
    case Enqueue(x, _, _) => x == b
    case Start(x, _) => x == b
    case Dequeue(x) => x == b
    case _ => false
  }

  predicate Leaves(ops: seq<Op>, b: nat) {
    forall i :: 0 <= i < |ops| ==> !Touches(ops[i], b)
  }

  /** Registrations, and removals other than by a call back. */
  function Registered(ops: seq<Op>, b: nat): nat {
    if ops == [] then 0
    else (if (ops[0].Enqueue? || ops[0].Start?) && ops[0].b == b then 1 else 0) + Registered(ops[1..], b)
  }

  function Removed(ops: seq<Op>, b: nat): nat {
    if ops == [] then 0 else (if ops[0].Dequeue? && ops[0].b == b then 1 else 0) + Removed(ops[1..], b)
  }

  function Pending(c: Clock, b: nat): nat {
    if b in c.events then 1 else 0
  }

  /** An event that is not cyclic is called back exactly once for each registration that is neither
      removed before nor still pending. */
  lemma {:induction false} CalledBackPerRegistration(c: Clock, ops: seq<Op>, kinds: seq<Kind>, b: nat)
    requires Regular(c, ops, kinds) && (b < |kinds| && kinds[b].Cyclic? ==> kinds[b].cyctim == 0)
    ensures Pending(c, b) + Registered(ops, b) ==
            Count(Log(c, ops), b) + Removed(ops, b) + Pending(Run(c, ops), b)
    decreases |ops|
  {
    if ops != [] {
      var c' := Step(c, ops[0]);
      CalledBackPerRegistration(c', ops[1..], kinds, b);
      LogFirst(c, ops, b);
    }
  }

  lemma LogFirst(c: Clock, ops: seq<Op>, b: nat)
    requires ops != []
    ensures Count(Log(c, ops), b) ==
            (if ops[0].Fire? && ops[0].b == b && b in c.events then 1 else 0) + Count(Log(Step(c, ops[0]), ops[1..]), b)
  {
    var rest := Log(Step(c, ops[0]), ops[1..]);
    if ops[0].Fire? && ops[0].b in c.events {
      assert Log(c, ops)[1..] == rest;
    } else {
      assert Log(c, ops) == rest;
    }
  }

  /** A cyclic event that nobody starts or stops is called back at every cycle: after each call back
      it is due exactly one period later. */
  lemma {:induction false} PhaseIsKept(c: Clock, ops: seq<Op>, kinds: seq<Kind>, b: nat)
    requires Regular(c, ops, kinds) && Leaves(ops, b) && b in c.events
    requires b < |kinds| && kinds[b].Cyclic? && kinds[b].cyctim > 0
    ensures b in Run(c, ops).events
    ensures Run(c, ops).events[b] == c.events[b] + kinds[b].cyctim * Count(Log(c, ops), b)
    decreases |ops|
  {
    if ops != [] {
      assert !Touches(ops[0], b);
      var c' := Step(c, ops[0]);
      PhaseIsKept(c', ops[1..], kinds, b);
      LogFirst(c, ops, b);
      OneMorePeriod(kinds[b].cyctim, Count(Log(c', ops[1..]), b));
    }
  }

  lemma OneMorePeriod(period: nat, n: nat)
    ensures period * (n + 1) == period * n + period
  {
  }

  predicate NeverFires(ops: seq<Op>, b: nat) {
    forall i :: 0 <= i < |ops| ==> !(ops[i].Fire? && ops[i].b == b)
  }

  lemma {:induction false} StaysRegistered(c: Clock, ops: seq<Op>, kinds: seq<Kind>, b: nat)
    requires Regular(c, ops, kinds) && Leaves(ops, b) && b in c.events
    requires NeverFires(ops, b)
    ensures b in Run(c, ops).events && Run(c, ops).events[b] == c.events[b]
    decreases |ops|
  {
    if ops != [] {
      assert !Touches(ops[0], b) && ops[0] in ops;
      StaysRegistered(Step(c, ops[0]), ops[1..], kinds, b);
    }
  }

  /** An event registered with a delay `time` is next called back at that delay after the upper bound
      of the current time, or later: never early. */
  lemma NeverEarly(c: Clock, b: nat, tstep: nat, time: nat, mid: seq<Op>, period: nat, kinds: seq<Kind>)
    requires Regular(c, [Enqueue(b, tstep, time)] + mid + [Fire(b, period)], kinds)
    requires Leaves(mid, b) && NeverFires(mid, b)
    ensures var ops := [Enqueue(b, tstep, time)] + mid;
            var due := c.now + tstep + time;
            Log(c, ops + [Fire(b, period)]) == Log(c, ops) + [Fired(b, due, Run(c, ops).now)] &&
            Run(c, ops).now >= due
  {
    var first, last := [Enqueue(b, tstep, time)], [Fire(b, period)];
    var c1 := Step(c, Enqueue(b, tstep, time));
    assert first + mid + last == first + (mid + last) && (first + (mid + last))[1..] == mid + last;
    RegularSplits(c1, mid, last, kinds);
    StaysRegistered(c1, mid, kinds, b);
    assert (first + mid)[1..] == mid;
    LogAppend(c, first + mid, last);
    assert last[1..] == [];
  }

  /** The next call back of a pending event is logged under the due time it is registered with, and
      does not come before that time. */
  lemma NextCallBack(c: Clock, mid: seq<Op>, fire: Op, rest: seq<Op>, kinds: seq<Kind>, b: nat)
    requires Regular(c, mid + [fire] + rest, kinds) && b in c.events && Leaves(mid, b)
    requires NeverFires(mid, b) && fire.Fire? && fire.b == b
    ensures Count(Log(c, mid), b) == 0 && c.events[b] <= Run(c, mid).now
    ensures Log(c, mid + [fire] + rest) ==
            Log(c, mid) + [Fired(b, c.events[b], Run(c, mid).now)] + Log(Run(c, mid + [fire]), rest)
  {
    RegularSplits(c, mid + [fire], rest, kinds);
    RegularSplits(c, mid, [fire], kinds);
    StaysRegistered(c, mid, kinds, b);
    NeverLogged(c, mid, b);
    LogAppend(c, mid + [fire], rest);
    LogAppend(c, mid, [fire]);
    assert [fire][1..] == [];
  }

  lemma {:induction false} NeverLogged(c: Clock, ops: seq<Op>, b: nat)
    requires NeverFires(ops, b)
    ensures Count(Log(c, ops), b) == 0
    decreases |ops|
  {
    if ops != [] {
      assert ops[0] in ops && NeverFires(ops[1..], b);
      NeverLogged(Step(c, ops[0]), ops[1..], b);
      LogFirst(c, ops, b);
    }
  }

  /** No pending event is forgotten: when nothing is due any more and its time has come, it was called
      back, unless it was stopped or started anew. */
  lemma NotForgotten(c: Clock, ops: seq<Op>, kinds: seq<Kind>, b: nat)
    requires Regular(c, ops, kinds) && b in c.events && Leaves(ops, b)
    requires NothingDue(Run(c, ops)) && c.events[b] <= Run(c, ops).now
    ensures !NeverFires(ops, b)
  {
    if NeverFires(ops, b) {
      StaysRegistered(c, ops, kinds, b);
    }
  }

  lemma {:induction false} RegularSplits(c: Clock, ops: seq<Op>, more: seq<Op>, kinds: seq<Kind>)
    requires Regular(c, ops + more, kinds)
    ensures Regular(c, ops, kinds) && Regular(Run(c, ops), more, kinds)
    decreases |ops|
  {
    if ops == [] {
      assert ops + more == more;
    } else {
      assert (ops + more)[1..] == ops[1..] + more;
      RegularSplits(Step(c, ops[0]), ops[1..], more, kinds);
    }
  }

  // ---------- Start of the kernel ----------

  /** The cyclic events among the first `n` blocks that start with the kernel. */
  ghost function InitialEvents(kinds: seq<Kind>, start: seq<bool>, n: nat): Due
    requires n <= |kinds| == |start|
  {
    map b: nat | b < n && kinds[b].Cyclic? && start[b] :: kinds[b].cycphs
  }

  lemma OneMoreInitial(kinds: seq<Kind>, start: seq<bool>, n: nat)
    requires n < |kinds| == |start|
    ensures n !in InitialEvents(kinds, start, n)
    ensures InitialEvents(kinds, start, n + 1) ==
            if kinds[n].Cyclic? && start[n] then InitialEvents(kinds, start, n)[n := kinds[n].cycphs]
            else InitialEvents(kinds, start, n)
  {
  }

  // ---------- Termination ----------

  /** Total time by which the registered events are overdue. */
  ghost function Overdue(events: Due, now: int, n: nat): nat {
    if n == 0 then 0
    else Overdue(events, now, n - 1) +
         (if n - 1 in events && events[n - 1] <= now then now - events[n - 1] + 1 else 0)
  }

  lemma {:induction false} OverdueDrops(events: Due, events': Due, now: int, n: nat, top: nat)
    requires top in events && events[top] <= now && top < n
    requires forall b :: b in events' && b != top ==> b in events && events'[b] == events[b]
    requires top in events' ==> events'[top] > events[top]
    ensures Overdue(events', now, n) < Overdue(events, now, n)
    decreases n
  {
    if top < n - 1 {
      OverdueDrops(events, events', now, n - 1, top);
    } else {
      OverdueBelow(events, events', now, n - 1, top);
    }
  }

  lemma {:induction false} OverdueBelow(events: Due, events': Due, now: int, n: nat, top: nat)
    requires n <= top
    requires forall b :: b in events' && b != top ==> b in events && events'[b] == events[b]
    ensures Overdue(events', now, n) <= Overdue(events, now, n)
    decreases n
  {
    if n > 0 {
      OverdueBelow(events, events', now, n - 1, top);
    }
  }
}
