/**
 Unbounded-integer model of the kernel's clocks (asp3/kernel/time_event.c, time_manage.c).

 The kernel keeps every time in 32-bit words that wrap around.  Here the same quantities are
 plain integers: `now` is the current event time, `peak` the most advanced event time ever
 reached, `base + peak` the system time, and `events` gives the due time of every registered
 time event block.  The words of the kernel are shown to be these integers modulo 2^32.
 */
module TimeModel {

  const WRAP32: int := 0x1_0000_0000
  const WRAP64: int := 0x1_0000_0000_0000_0000
  const BOUNDARY_MARGIN: int := 200000000
  const TMAX_RELTIM: int := 4000000000
  const TMAX_ADJTIM: int := 1000000
  const TMIN_ADJTIM: int := -1000000
  const TSTEP_LIMIT: int := 4000

  datatype Clock = Clock(now: int, peak: int, base: int, events: map<nat, int>)

  function Max(x: int, y: int): int {
    if x < y then y else x
  }

  function SystemTime(c: Clock): int {
    c.base + c.peak
  }

  // ---------- One step of the clocks ----------

  function Advance(c: Clock, d: int): Clock {
    c.(now := c.now + d, peak := Max(c.peak, c.now + d))
  }

  function Add(c: Clock, b: nat, due: int): Clock {
    c.(events := c.events[b := due])
  }

  function Remove(c: Clock, b: nat): Clock {
    c.(events := c.events - {b})
  }

  /** The adjustment is refused when an event is already a second overdue (forward), or when the
      clock is already a second behind its peak (backward). */
  ghost predicate AdjustRefused(c: Clock, d: int) {
    || (d > 0 && exists b :: b in c.events && c.events[b] <= c.now - TMAX_ADJTIM)
    || (d < 0 && c.peak - c.now >= -TMIN_ADJTIM)
  }

  ghost function Adjust(c: Clock, d: int): Clock {
    if AdjustRefused(c, d) then c else Advance(c, d)
  }

  function SetTime(c: Clock, systim: int): Clock {
    c.(base := systim - c.peak)
  }

  lemma PutAgain(events: map<nat, int>, b: nat, due: int)
    ensures (events - {b})[b := due] == events[b := due]
  {
  }

  // ---------- The window ----------

  /** No event is overdue by more than the margin. */
  ghost predicate WithinMargin(c: Clock) {
    forall b :: b in c.events ==> c.now - BOUNDARY_MARGIN <= c.events[b]
  }

  /** What keeps 32-bit comparison relative to the boundary meaningful. */
  ghost predicate InWindow(c: Clock) {
    && 0 <= c.peak - c.now <= 1999999
    && WithinMargin(c)
    && forall b :: b in c.events ==> c.events[b] <= c.peak + TSTEP_LIMIT + TMAX_RELTIM
  }

  // ---------- Comparison in 32-bit words ----------

  /** Times that 32-bit words can tell apart while the current event time is `now`. */
  ghost predicate Inside(now: int, t: int) {
    now - BOUNDARY_MARGIN <= t < now - BOUNDARY_MARGIN + WRAP32
  }

  lemma WindowIsInside(c: Clock)
    requires InWindow(c)
    ensures forall b :: b in c.events ==> Inside(c.now, c.events[b])
  {
  }

  function Word(x: int): (w: nat)
    ensures w < WRAP32
  {
    x % WRAP32
  }

  /** EVTTIM_ADVANCE: distance of the word `t` from the boundary, computed in 32 bits. */
  function EvttimAdvance(boundary: int, t: int): int {
    (t - boundary) % WRAP32
  }

  predicate EvttimLt(boundary: int, t1: int, t2: int) {
    EvttimAdvance(boundary, t1) < EvttimAdvance(boundary, t2)
  }

  predicate EvttimLe(boundary: int, t1: int, t2: int) {
    EvttimAdvance(boundary, t1) <= EvttimAdvance(boundary, t2)
  }

  lemma SubWords(x: int, y: int)
    requires 0 <= x - y < WRAP32
    ensures (Word(x) - Word(y)) % WRAP32 == x - y
  {
    assert Word(x) - Word(y) == (x - y) - (x / WRAP32 - y / WRAP32) * WRAP32;
  }

  lemma AddWords(x: int, d: int)
    ensures (Word(x) + d) % WRAP32 == Word(x + d)
  {
    assert Word(x) + d == (x + d) - (x / WRAP32) * WRAP32;
  }

  /** Within the window the 32-bit comparisons agree with the comparison of the unbounded times. */
  lemma CompareExact(now: int, t1: int, t2: int)
    requires Inside(now, t1) && Inside(now, t2)
    ensures EvttimLe(Word(now - BOUNDARY_MARGIN), Word(t1), Word(t2)) <==> t1 <= t2
    ensures EvttimLt(Word(now - BOUNDARY_MARGIN), Word(t1), Word(t2)) <==> t1 < t2
  {
    SubWords(t1, now - BOUNDARY_MARGIN);
    SubWords(t2, now - BOUNDARY_MARGIN);
  }

  /** update_current_evttim computes the timer's advance from two readings of a counter that
      wraps at `cycle`. */
  function CountUp(count: nat, d: nat, cycle: nat): nat
    requires count < cycle && d < cycle
  {
    if count + d < cycle then count + d else count + d - cycle
  }

  function ReadAdvance(count: nat, count': nat, cycle: nat): int {
    ((count' - count) % WRAP32 + (if count' < count then cycle else 0)) % WRAP32
  }

  lemma AdvanceIsElapsed(count: nat, d: nat, cycle: nat)
    requires count < cycle <= WRAP32 && d < cycle
    ensures ReadAdvance(count, CountUp(count, d, cycle), cycle) == d
  {
    if count + d < cycle {
    } else {
      assert (CountUp(count, d, cycle) - count) % WRAP32 == d - cycle + (if d == cycle then 0 else WRAP32);
    }
  }

  /** The carry into the 64-bit offset when the word of the peak wraps. */
  lemma OffsetCarry(offset: nat, base: int, peak: int, peak': int)
    requires (offset + Word(peak)) % WRAP64 == (base + peak) % WRAP64
    requires 0 < peak' - peak < WRAP32
    ensures var offset' := if Word(peak') < Word(peak) then (offset + WRAP32) % WRAP64 else offset;
            (offset' + Word(peak')) % WRAP64 == (base + peak') % WRAP64
  {
    var carry := if Word(peak') < Word(peak) then WRAP32 else 0;
    assert Word(peak') + carry == Word(peak) + (peak' - peak) by {
      AddWords(peak, peak' - peak);
    }
    SameResidue(offset + carry + Word(peak'), offset + Word(peak) + (peak' - peak));
    ShiftResidue(offset + Word(peak), base + peak, peak' - peak);
    ShiftResidue((offset + carry) % WRAP64, offset + carry, Word(peak'));
  }

  lemma SameResidue(x: int, y: int)
    requires x == y
    ensures x % WRAP64 == y % WRAP64
  {
  }

  lemma ShiftResidue(x: int, y: int, d: int)
    requires x % WRAP64 == y % WRAP64
    ensures (x + d) % WRAP64 == (y + d) % WRAP64
  {
    assert x == y + (x / WRAP64 - y / WRAP64) * WRAP64;
  }

  // ---------- The programmed interrupt ----------

  ghost predicate IsFirst(events: map<nat, int>, b: nat) {
    b in events && forall b' :: b' in events ==> events[b] <= events[b']
  }

  lemma {:induction false} FirstExists(events: map<nat, int>, s: set<nat>) returns (b: nat)
    requires s != {} && s <= events.Keys
    ensures b in s && forall b' :: b' in s ==> events[b] <= events[b']
    decreases s
  {
    var x :| x in s;
    b := x;
    if s != {x} {
      var y := FirstExists(events, s - {x});
      if events[y] < events[x] {
        b := y;
      }
    }
  }

  lemma SomeFirst(events: map<nat, int>)
    requires events != map[]
    ensures exists b :: IsFirst(events, b)
  {
    var b := FirstExists(events, events.Keys);
    assert IsFirst(events, b);
  }

  /** The earliest due time. */
  ghost function FirstTime(events: map<nat, int>): int
    requires events != map[]
  {
    SomeFirst(events);
    var b :| IsFirst(events, b);
    events[b]
  }

  lemma FirstTimeOf(events: map<nat, int>, b: nat)
    requires IsFirst(events, b)
    ensures events != map[] && FirstTime(events) == events[b]
  {
    SomeFirst(events);
  }

  /** Event time until the timer must interrupt: until the first event is due, at once if it was
      due already, and never more than `bound`. */
  ghost function Wait(events: map<nat, int>, now: int, bound: int): int {
    if events == map[] then bound
    else
      var w := FirstTime(events) - now;
      if w <= 0 then 0 else if w > bound then bound else w
  }

  /** The timer, last programmed at count `setAt`, raises its interrupt at count `alarm`.
      `count` is the timer count that belongs to `c.now`. */
  ghost predicate AlarmSet(c: Clock, count: int, setAt: int, alarm: int, bound: int) {
    && setAt <= count
    && alarm == setAt + Wait(c.events, c.now - (count - setAt), bound)
  }

  /** No event is due before the interrupt, unless the interrupt is already pending. */
  lemma AlarmNeverLate(c: Clock, count: int, setAt: int, alarm: int, bound: int, b: nat)
    requires AlarmSet(c, count, setAt, alarm, bound) && bound >= 0
    ensures alarm <= count + bound
    ensures b in c.events ==> alarm <= count || alarm + (c.now - count) <= c.events[b]
  {
    if b in c.events {
      SomeFirst(c.events);
      var first :| IsFirst(c.events, first);
      FirstTimeOf(c.events, first);
    }
  }

  /** Nor is it early: it comes when the first event is due, at once if that was so when it was
      programmed, and after `bound` counts if there is no event until then. */
  lemma AlarmIsForFirst(c: Clock, count: int, setAt: int, alarm: int, bound: int, b: nat)
    requires AlarmSet(c, count, setAt, alarm, bound) && bound >= 0
    ensures c.events == map[] ==> alarm == setAt + bound
    ensures IsFirst(c.events, b) ==>
              var atSetting := c.now - (count - setAt);
              (c.events[b] <= atSetting ==> alarm == setAt) &&
              (atSetting < c.events[b] <= atSetting + bound ==> c.now + (alarm - count) == c.events[b]) &&
              (c.events[b] > atSetting + bound ==> alarm == setAt + bound)
  {
    if IsFirst(c.events, b) {
      FirstTimeOf(c.events, b);
    }
  }

  lemma FirstWithout(events: map<nat, int>, b: nat, due: int, first: nat)
    requires b !in events && first != b && IsFirst(events[b := due], first)
    ensures IsFirst(events, first) && FirstTime(events[b := due]) == FirstTime(events)
  {
    forall x | x in events
      ensures events[first] <= events[x]
    {
      assert x in events[b := due];
    }
    FirstTimeOf(events, first);
    FirstTimeOf(events[b := due], first);
  }

  lemma FirstAfterRemoval(events: map<nat, int>, b: nat, first: nat)
    requires first != b && IsFirst(events, first)
    ensures IsFirst(events - {b}, first) && FirstTime(events - {b}) == FirstTime(events)
  {
    FirstTimeOf(events, first);
    FirstTimeOf(events - {b}, first);
  }

  lemma AdjustIsSafe(c: Clock, d: int)
    requires InWindow(c) && TMIN_ADJTIM <= d <= TMAX_ADJTIM && !AdjustRefused(c, d)
    ensures InWindow(Advance(c, d))
  {
  }

  // ---------- Whole runs ----------

  datatype Op =
    | Tick(d: nat)                    // the timer is read, d counts later
    | Enqueue(b: nat, tstep: nat, time: nat)
    | Start(b: nat, phase: nat)       // registration at kernel start
    | Dequeue(b: nat)
    | Fire(b: nat, period: nat)       // a due event is called back; with a period it is registered again
    | AdjTim(adjtim: int)
    | SetTim(systim: int)

  ghost function Step(c: Clock, op: Op): Clock {
    match op
    case Tick(d) => Advance(c, d)
    case Enqueue(b, tstep, time) =>
      if tstep <= TSTEP_LIMIT && time <= TMAX_RELTIM then Add(c, b, c.now + tstep + time) else c
    case Start(b, phase) => if c.now == 0 && phase <= TMAX_RELTIM then Add(c, b, phase) else c
    case Dequeue(b) => Remove(c, b)
    case Fire(b, period) =>
      if b !in c.events || c.events[b] > c.now || period > TMAX_RELTIM then c
      else if period == 0 then Remove(c, b)
      else Add(c, b, c.events[b] + period)
    case AdjTim(adjtim) => if TMIN_ADJTIM <= adjtim <= TMAX_ADJTIM then Adjust(c, adjtim) else c
    case SetTim(systim) => SetTime(c, systim)
  }

  /** adj_tim takes effect unless, forward, an event is a second or more overdue, or, backward, the
      clock is a second or more behind the highest value it had. */
  lemma AdjustmentTakesEffect(c: Clock, d: int)
    requires -1000000 <= d <= 1000000 && c.now <= c.peak
    ensures Step(c, AdjTim(d)) ==
            if && (d > 0 ==> forall b :: b in c.events ==> c.now - c.events[b] < 1000000)
               && (d < 0 ==> c.peak - c.now < 1000000)
            then c.(now := c.now + d, peak := if c.now + d > c.peak then c.now + d else c.peak)
            else c
  {
  }

  /** An adjustment that takes effect leaves no event two seconds overdue that was not before, and the
      clock less than two seconds behind its highest value. */
  lemma AdjustmentIsBounded(c: Clock, d: int)
    requires -1000000 <= d <= 1000000 && 0 <= c.peak - c.now < 2000000
    ensures 0 <= Step(c, AdjTim(d)).peak - Step(c, AdjTim(d)).now < 2000000
    ensures forall b :: b in c.events && Step(c, AdjTim(d)).now - c.events[b] >= 2000000 ==>
              c.now - c.events[b] >= 2000000
  {
  }

  ghost function Run(c: Clock, ops: seq<Op>): Clock
    decreases |ops|
  {
    if ops == [] then c else Run(Step(c, ops[0]), ops[1..])
  }

  lemma {:induction false} RunAppend(c: Clock, ops: seq<Op>, more: seq<Op>)
    ensures Run(c, ops + more) == Run(Run(c, ops), more)
    decreases |ops|
  {
    if ops == [] {
      assert ops + more == more;
    } else {
      assert (ops + more)[1..] == ops[1..] + more;
      RunAppend(Step(c, ops[0]), ops[1..], more);
    }
  }

  /** The environment's part: no reading of the timer comes so late that an event is more than
      the margin overdue.  Adjustments need no such promise. */
  ghost predicate TimelyReadings(c: Clock, ops: seq<Op>)
    decreases |ops|
  {
    ops != [] ==>
      && (ops[0].Tick? ==> WithinMargin(Step(c, ops[0])))
      && TimelyReadings(Step(c, ops[0]), ops[1..])
  }

  /** The environment's part for one reading that it means to make `want` counts after the last
      one: if that were too late for the first event, it comes at the last good moment instead. */
  ghost function InTime(c: Clock, want: nat): nat {
    if c.events == map[] || WithinMargin(Advance(c, want)) then want
    else Max(0, FirstTime(c.events) + BOUNDARY_MARGIN - c.now)
  }

  /** Every timely reading is made as meant, and no other is made. */
  lemma InTimeIsTimely(c: Clock, want: nat)
    requires InWindow(c)
    ensures InTime(c, want) <= want && WithinMargin(Advance(c, InTime(c, want)))
    ensures InTime(c, want) == want <==> WithinMargin(Advance(c, want))
  {
    if c.events != map[] {
      SomeFirst(c.events);
      var b :| IsFirst(c.events, b);
      FirstTimeOf(c.events, b);
    }
  }

  lemma StepKeepsWindow(c: Clock, op: Op)
    requires InWindow(c)
    requires op.Tick? ==> WithinMargin(Step(c, op))
    ensures InWindow(Step(c, op))
  {
  }

  lemma {:induction false} RunKeepsWindow(c: Clock, ops: seq<Op>)
    requires InWindow(c) && TimelyReadings(c, ops)
    ensures InWindow(Run(c, ops))
    decreases |ops|
  {
    if ops != [] {
      StepKeepsWindow(c, ops[0]);
      RunKeepsWindow(Step(c, ops[0]), ops[1..]);
    }
  }

  /** In every state of a timely run, for every pair of registered events, the kernel's 32-bit
      comparison gives the true order. */
  lemma RunComparesExactly(c: Clock, ops: seq<Op>, b1: nat, b2: nat)
    requires InWindow(c) && TimelyReadings(c, ops)
    requires b1 in Run(c, ops).events && b2 in Run(c, ops).events
    ensures var r := Run(c, ops);
            EvttimLe(Word(r.now - BOUNDARY_MARGIN), Word(r.events[b1]), Word(r.events[b2])) ==
            (r.events[b1] <= r.events[b2])
  {
    RunKeepsWindow(c, ops);
    var r := Run(c, ops);
    CompareExact(r.now, r.events[b1], r.events[b2]);
  }

  /** The most advanced event time over all states of a run. */
  ghost function HighestNow(c: Clock, ops: seq<Op>): int
    decreases |ops|
  {
    if ops == [] then c.now else Max(c.now, HighestNow(Step(c, ops[0]), ops[1..]))
  }

  /** Between settings, the system time grows exactly as the highest event time reached; in
      particular it never goes back, whatever adj_tim did. */
  lemma {:induction false} SystemTimeFollowsPeak(c: Clock, ops: seq<Op>)
    requires c.now <= c.peak
    requires forall i :: 0 <= i < |ops| ==> !ops[i].SetTim?
    ensures Run(c, ops).peak == Max(c.peak, HighestNow(c, ops))
    ensures SystemTime(Run(c, ops)) - SystemTime(c) == Run(c, ops).peak - c.peak >= 0
    decreases |ops|
  {
    if ops != [] {
      var c' := Step(c, ops[0]);
      assert c'.now <= c'.peak && c'.base == c.base;
      assert c'.peak == Max(c.peak, c'.now);
      SystemTimeFollowsPeak(c', ops[1..]);
    }
  }

  /** The adjustments that took effect. */
  ghost function Adjusted(c: Clock, ops: seq<Op>): int
    decreases |ops|
  {
    if ops == [] then 0
    else
      var op := ops[0];
      (if op.AdjTim? && TMIN_ADJTIM <= op.adjtim <= TMAX_ADJTIM && !AdjustRefused(c, op.adjtim) then op.adjtim else 0)
      + Adjusted(Step(c, op), ops[1..])
  }

  /** The clock shows the time elapsed on the timer and the adjustments that were accepted. */
  lemma {:induction false} TicksAreElapsedTime(c: Clock, ops: seq<Op>)
    ensures Run(c, ops).now == c.now + Elapsed(ops) + Adjusted(c, ops)
    decreases |ops|
  {
    if ops != [] {
      TicksAreElapsedTime(Step(c, ops[0]), ops[1..]);
    }
  }

  function Elapsed(ops: seq<Op>): nat {
    if ops == [] then 0
    else (if ops[0].Tick? then ops[0].d else 0) + Elapsed(ops[1..])
  }
}
