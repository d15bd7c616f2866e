/**
 The runs of signal_time (asp3/kernel/time_event.c:556-599): it reads the timer, calls back the due
 events one after the other, and reads the timer again until nothing was left to call back.

 A run is a list of turns.  Which operations it consists of follows from the turns, from what the
 handlers ask for, and from how far the timer advances before each reading; only the choice
 among events that are due at the same time is left open.
 */
module Signal {
  import opened TimeModel
  import opened Firing

  /** What a handler may ask of the time event manager while signal_time waits for it: sta_alm,
      stp_alm or the end of a wait with a time limit, and adj_tim; the timer is read `d` counts
      after the last reading. */
  datatype Request =
    | Arm(b: nat, almtim: nat, d: nat)
    | Disarm(b: nat)
    | AdjustBy(adjtim: int, d: nat)

  predicate Legal(r: Request, kinds: seq<Kind>, tcyc: nat) {
    match r
    case Arm(b, almtim, d) => b < |kinds| && kinds[b].Alarm? && almtim <= TMAX_RELTIM && d < tcyc
    case Disarm(b) => b < |kinds| && !kinds[b].Cyclic?
    case AdjustBy(adjtim, d) => TMIN_ADJTIM <= adjtim <= TMAX_ADJTIM && d < tcyc
  }

  predicate AllLegal(requests: seq<Request>, kinds: seq<Kind>, tcyc: nat) {
    forall i :: 0 <= i < |requests| ==> Legal(requests[i], kinds, tcyc)
  }

  // ---------- What a request does ----------

  /** tmevtb_dequeue for a block that may not be registered; `reading` tells whether it reads the timer. */
  ghost function RemovalOps(c: Clock, b: nat, reading: bool, d: nat): seq<Op> {
    if b !in c.events then []
    else if reading then [Dequeue(b), Tick(InTime(c, d))]
    else [Dequeue(b)]
  }

  /** sta_alm and sta_cyc. */
  ghost function StartOps(c: Clock, b: nat, time: nat, tstep: nat, reading: bool, d1: nat, d2: nat): seq<Op> {
    var ops := RemovalOps(c, b, reading, d1);
    ops + [Tick(InTime(Run(c, ops), d2)), Op.Enqueue(b, tstep, time)]
  }

  ghost function RequestOps(c: Clock, r: Request, tstep: nat): seq<Op> {
    match r
    case Arm(b, almtim, d) => StartOps(c, b, almtim, tstep, false, 0, d)
    case Disarm(b) => RemovalOps(c, b, false, 0)
    case AdjustBy(adjtim, d) => [Tick(InTime(c, d)), AdjTim(adjtim)]
  }

  ghost function HandlerOps(c: Clock, requests: seq<Request>, tstep: nat): seq<Op>
    decreases |requests|
  {
    if requests == [] then []
    else
      var ops := RequestOps(c, requests[0], tstep);
      ops + HandlerOps(Run(c, ops), requests[1..], tstep)
  }

  /** One call back with its handler. */
  ghost function CallOps(c: Clock, b: nat, requests: seq<Request>, kinds: seq<Kind>, tstep: nat): seq<Op> {
    var fire := Fire(b, Period(kinds, b));
    [fire] + HandlerOps(Step(c, fire), requests, tstep)
  }

  // ---------- Whole runs ----------

  /** `advances[i]` counts pass before reading `i` of the timer, and call back `i` runs `handlers[i]`;
      beyond them the timer stands still and handlers ask for nothing. */
  datatype Plan = Plan(kinds: seq<Kind>, tstep: nat, advances: seq<nat>, handlers: seq<seq<Request>>)

  function Advances(p: Plan, i: nat): nat {
    if i < |p.advances| then p.advances[i] else 0
  }

  function Handler(p: Plan, i: nat): seq<Request> {
    if i < |p.handlers| then p.handlers[i] else []
  }

  datatype Turn = Read | Call(b: nat)

  /** The turns made so far, the last one outermost. */
  datatype Turns = NoTurns | Then(before: Turns, turn: Turn)

  predicate EndsWithRead(turns: Turns) {
    turns.Then? && turns.turn.Read?
  }

  predicate EndsWithCall(turns: Turns) {
    turns.Then? && turns.turn.Call?
  }

  function Calls(turns: Turns): nat {
    match turns
    case NoTurns => 0
    case Then(before, turn) => Calls(before) + (if turn.Call? then 1 else 0)
  }

  function Reads(turns: Turns): nat {
    match turns
    case NoTurns => 0
    case Then(before, turn) => Reads(before) + (if turn.Read? then 1 else 0)
  }

  function CallsOf(turns: Turns, b: nat): nat {
    match turns
    case NoTurns => 0
    case Then(before, turn) => CallsOf(before, b) + (if turn == Call(b) then 1 else 0)
  }

  ghost function TurnOps(c: Clock, p: Plan, before: Turns, turn: Turn): seq<Op> {
    match turn
    case Read => [Tick(InTime(c, Advances(p, Reads(before))))]
    case Call(b) => CallOps(c, b, Handler(p, Calls(before)), p.kinds, p.tstep)
  }

  /** The clock after the turns. */
  ghost function After(c: Clock, p: Plan, turns: Turns): Clock {
    match turns
    case NoTurns => c
    case Then(before, turn) => Run(After(c, p, before), TurnOps(After(c, p, before), p, before, turn))
  }

  ghost function SignalOps(c: Clock, p: Plan, turns: Turns): seq<Op> {
    match turns
    case NoTurns => []
    case Then(before, turn) => SignalOps(c, p, before) + TurnOps(After(c, p, before), p, before, turn)
  }

  lemma {:induction false} AfterIsRun(c: Clock, p: Plan, turns: Turns)
    ensures After(c, p, turns) == Run(c, SignalOps(c, p, turns))
  {
    if turns.Then? {
      AfterIsRun(c, p, turns.before);
      RunAppend(c, SignalOps(c, p, turns.before), TurnOps(After(c, p, turns.before), p, turns.before, turns.turn));
    }
  }

  /** The turn may be made when the clock is `c`: the timer is read first, and again only when
      nothing is due and something was called back; what is called back is first and due. */
  ghost predicate MayTurn(c: Clock, p: Plan, before: Turns, turn: Turn) {
    match turn
    case Read => before.NoTurns? || (EndsWithCall(before) && NothingDue(c))
    case Call(b) => before.Then? && b < |p.kinds| && FirstDue(c, b)
  }

  ghost predicate Possible(c: Clock, p: Plan, turns: Turns) {
    match turns
    case NoTurns => true
    case Then(before, turn) => Possible(c, p, before) && MayTurn(After(c, p, before), p, before, turn)
  }

  /** signal_time stops at a reading after which nothing is due. */
  ghost predicate Complete(c: Clock, p: Plan, turns: Turns) {
    Possible(c, p, turns) && EndsWithRead(turns) && NothingDue(After(c, p, turns))
  }

  /** Since the clock was `c` these turns were made, and now it is `now`. */
  ghost predicate Turned(c: Clock, p: Plan, turns: Turns, now: Clock) {
    Possible(c, p, turns) && now == After(c, p, turns)
  }

  lemma TurnedOnce(c: Clock, p: Plan, turns: Turns, now: Clock, turn: Turn)
    requires Turned(c, p, turns, now) && MayTurn(now, p, turns, turn)
    ensures Turned(c, p, Then(turns, turn), Run(now, TurnOps(now, p, turns, turn)))
  {
  }

  /** A call back whose handler asks for nothing makes the events less overdue. */
  lemma IdleCallBack(c: Clock, b: nat, kinds: seq<Kind>, tstep: nat, n: nat)
    requires FirstDue(c, b) && b < n && Period(kinds, b) <= TMAX_RELTIM
    ensures var c' := Run(c, CallOps(c, b, [], kinds, tstep));
            Overdue(c'.events, c'.now, n) < Overdue(c.events, c.now, n)
  {
    var fire := Fire(b, Period(kinds, b));
    assert [fire] + [] == [fire];
    TwoSteps(c, fire, fire, kinds);
    OverdueDrops(c.events, Step(c, fire).events, c.now, n, b);
  }

  // ---------- All of them are regular ----------

  ghost predicate GoodPlan(p: Plan, tcyc: nat) {
    && p.tstep <= TSTEP_LIMIT
    && (forall b: nat :: Period(p.kinds, b) <= TMAX_RELTIM)
    && forall i :: 0 <= i < |p.handlers| ==> AllLegal(p.handlers[i], p.kinds, tcyc)
  }

  lemma TwoSteps(c: Clock, op1: Op, op2: Op, kinds: seq<Kind>)
    ensures Run(c, [op1]) == Step(c, op1)
    ensures Run(c, [op1, op2]) == Step(Step(c, op1), op2)
    ensures Regular(c, [op1], kinds) <==> Proper(c, op1, kinds)
    ensures Regular(c, [op1, op2], kinds) <==> Proper(c, op1, kinds) && Proper(Step(c, op1), op2, kinds)
  {
    var c1 := Step(c, op1);
    assert [op1, op2][1..] == [op2] && [op1][1..] == [] && [op2][1..] == [];
    assert Run(c1, [op2]) == Run(Step(c1, op2), []) && Run(c, [op1, op2]) == Run(c1, [op2]);
    assert Regular(c1, [op2], kinds) <==> Proper(c1, op2, kinds);
  }

  lemma RemovalIsRegular(c: Clock, b: nat, reading: bool, d: nat, kinds: seq<Kind>)
    requires InWindow(c)
    ensures var ops := RemovalOps(c, b, reading, d);
            Regular(c, ops, kinds) && InWindow(Run(c, ops)) && b !in Run(c, ops).events
  {
    InTimeIsTimely(c, d);
    TwoSteps(c, Dequeue(b), Tick(InTime(c, d)), kinds);
  }

  lemma StartIsRegular(c: Clock, b: nat, time: nat, tstep: nat, reading: bool, d1: nat, d2: nat, kinds: seq<Kind>)
    requires InWindow(c) && b < |kinds| && time <= TMAX_RELTIM && tstep <= TSTEP_LIMIT
    ensures Regular(c, StartOps(c, b, time, tstep, reading, d1, d2), kinds)
  {
    RemovalIsRegular(c, b, reading, d1, kinds);
    var ops := RemovalOps(c, b, reading, d1);
    var c1 := Run(c, ops);
    InTimeIsTimely(c1, d2);
    TwoSteps(c1, Tick(InTime(c1, d2)), Op.Enqueue(b, tstep, time), kinds);
    RegularAppend(c, ops, [Tick(InTime(c1, d2)), Op.Enqueue(b, tstep, time)], kinds);
  }

  lemma RequestIsRegular(c: Clock, r: Request, tstep: nat, kinds: seq<Kind>, tcyc: nat)
    requires InWindow(c) && Legal(r, kinds, tcyc) && tstep <= TSTEP_LIMIT
    ensures Regular(c, RequestOps(c, r, tstep), kinds) && InWindow(Run(c, RequestOps(c, r, tstep)))
  {
    match r {
      case Arm(b, almtim, d) => StartIsRegular(c, b, almtim, tstep, false, 0, d, kinds);
      case Disarm(b) => RemovalIsRegular(c, b, false, 0, kinds);
      case AdjustBy(adjtim, d) =>
        InTimeIsTimely(c, d);
        TwoSteps(c, Tick(InTime(c, d)), AdjTim(adjtim), kinds);
    }
    RegularIsTimely(c, RequestOps(c, r, tstep), kinds);
    RunKeepsWindow(c, RequestOps(c, r, tstep));
  }

  // ---------- What requests bring about ----------

  /** From `c` to `c'` the clock was only read. */
  ghost predicate TimePassed(c: Clock, c': Clock) {
    c.now <= c'.now && c'.peak == Max(c.peak, c'.now) && c'.base == c.base
  }

  lemma RemovalEffect(c: Clock, b: nat, reading: bool, d: nat)
    requires InWindow(c)
    ensures var c' := Run(c, RemovalOps(c, b, reading, d));
            c'.events == c.events - {b} && TimePassed(c, c') && (!reading ==> c'.now == c.now)
  {
    InTimeIsTimely(c, d);
    TwoSteps(c, Dequeue(b), Tick(InTime(c, d)), []);
    assert b !in c.events ==> c.events - {b} == c.events;
  }

  /** What is started is due at the given time after the upper bound of the time read, whether it was
      pending before or not; the other events stay. */
  lemma StartEffect(c: Clock, b: nat, time: nat, tstep: nat, reading: bool, d1: nat, d2: nat)
    requires InWindow(c) && time <= TMAX_RELTIM && tstep <= TSTEP_LIMIT
    ensures var c' := Run(c, StartOps(c, b, time, tstep, reading, d1, d2));
            c'.events == c.events[b := c'.now + tstep + time] && TimePassed(c, c')
  {
    var ops := RemovalOps(c, b, reading, d1);
    var c1 := Run(c, ops);
    var tick := Tick(InTime(c1, d2));
    RemovalEffect(c, b, reading, d1);
    RunAppend(c, ops, [tick, Op.Enqueue(b, tstep, time)]);
    TwoSteps(c1, tick, Op.Enqueue(b, tstep, time), []);
    PutAgain(c.events, b, c1.now + tick.d + tstep + time);
  }

  /** A reading of the timer, and an adjustment that is made unless it is refused. */
  ghost predicate ReadAndAdjusted(c: Clock, adjtim: int, d: nat, c': Clock) {
    var read := Advance(c, InTime(c, d));
    c' == if AdjustRefused(read, adjtim) then read else Advance(read, adjtim)
  }

  /** What the kernel promises for a request of a handler. */
  ghost predicate Requested(c: Clock, r: Request, tstep: nat, c': Clock) {
    match r
    case Arm(b, almtim, d) => c'.events == c.events[b := c'.now + tstep + almtim] && TimePassed(c, c')
    case Disarm(b) => c' == c.(events := c.events - {b})
    case AdjustBy(adjtim, d) => ReadAndAdjusted(c, adjtim, d, c')
  }

  lemma RequestEffect(c: Clock, r: Request, tstep: nat, kinds: seq<Kind>, tcyc: nat)
    requires InWindow(c) && Legal(r, kinds, tcyc) && tstep <= TSTEP_LIMIT
    ensures Requested(c, r, tstep, Run(c, RequestOps(c, r, tstep)))
  {
    match r
    case Arm(b, almtim, d) => StartEffect(c, b, almtim, tstep, false, 0, d);
    case Disarm(b) =>
      TwoSteps(c, Dequeue(b), Dequeue(b), []);
      assert b !in c.events ==> c.events - {b} == c.events;
    case AdjustBy(adjtim, d) => TwoSteps(c, Tick(InTime(c, d)), AdjTim(adjtim), []);
  }

  predicate Concerns(r: Request, b: nat) {
    !r.AdjustBy? && r.b == b
  }

  predicate NoneConcerns(requests: seq<Request>, b: nat) {
    forall i :: 0 <= i < |requests| ==> !Concerns(requests[i], b)
  }

  /** The two clocks have the same registration of the block, or none. */
  predicate SameFor(c: Clock, c': Clock, b: nat) {
    (b in c'.events <==> b in c.events) && (b in c.events ==> c'.events[b] == c.events[b])
  }

  lemma SingleRequest(c: Clock, r: Request, tstep: nat, kinds: seq<Kind>, tcyc: nat)
    requires InWindow(c) && Legal(r, kinds, tcyc) && tstep <= TSTEP_LIMIT
    ensures Run(c, HandlerOps(c, [], tstep)) == c
    ensures Requested(c, r, tstep, Run(c, HandlerOps(c, [r], tstep)))
  {
    RequestEffect(c, r, tstep, kinds, tcyc);
    assert [r][1..] == [];
    RunAppend(c, RequestOps(c, r, tstep), []);
  }

  /** Requests are served one after the other. */
  lemma HandlerSplits(c: Clock, requests: seq<Request>, more: seq<Request>, tstep: nat, kinds: seq<Kind>, tcyc: nat)
    requires InWindow(c) && AllLegal(requests + more, kinds, tcyc) && tstep <= TSTEP_LIMIT
    ensures var c' := Run(c, HandlerOps(c, requests, tstep));
            InWindow(c') && AllLegal(more, kinds, tcyc) &&
            Run(c, HandlerOps(c, requests + more, tstep)) == Run(c', HandlerOps(c', more, tstep))
    decreases |requests|
  {
    forall i | 0 <= i < |more|
      ensures Legal(more[i], kinds, tcyc)
    {
      assert (requests + more)[|requests| + i] == more[i];
    }
    if requests == [] {
      assert requests + more == more;
    } else {
      assert (requests + more)[0] == requests[0] && (requests + more)[1..] == requests[1..] + more;
      var ops := RequestOps(c, requests[0], tstep);
      var c1 := Run(c, ops);
      RequestIsRegular(c, requests[0], tstep, kinds, tcyc);
      HandlerSplits(c1, requests[1..], more, tstep, kinds, tcyc);
      RunAppend(c, ops, HandlerOps(c1, requests[1..], tstep));
      RunAppend(c, ops, HandlerOps(c1, requests[1..] + more, tstep));
    }
  }

  /** A handler leaves alone the events it does not ask for. */
  lemma {:induction false} UnconcernedStays(c: Clock, requests: seq<Request>, tstep: nat, kinds: seq<Kind>, tcyc: nat,
                                            b: nat)
    requires InWindow(c) && AllLegal(requests, kinds, tcyc) && tstep <= TSTEP_LIMIT && NoneConcerns(requests, b)
    ensures SameFor(c, Run(c, HandlerOps(c, requests, tstep)), b)
    decreases |requests|
  {
    if requests != [] {
      assert !Concerns(requests[0], b);
      var ops := RequestOps(c, requests[0], tstep);
      RequestEffect(c, requests[0], tstep, kinds, tcyc);
      RequestIsRegular(c, requests[0], tstep, kinds, tcyc);
      UnconcernedStays(Run(c, ops), requests[1..], tstep, kinds, tcyc, b);
      RunAppend(c, ops, HandlerOps(Run(c, ops), requests[1..], tstep));
    }
  }

  /** The last request of a handler for a block decides about it: stopped, it is not pending; started,
      it is due at the time asked for, counted from the reading made for that request. */
  lemma LastRequestDecides(c: Clock, before: seq<Request>, r: Request, more: seq<Request>, tstep: nat,
                           kinds: seq<Kind>, tcyc: nat, b: nat)
    requires InWindow(c) && AllLegal(before + ([r] + more), kinds, tcyc) && tstep <= TSTEP_LIMIT
    requires Concerns(r, b) && NoneConcerns(more, b)
    ensures var c1 := Run(c, HandlerOps(c, before, tstep));
            var c2 := Run(c1, HandlerOps(c1, [r], tstep));
            var c' := Run(c, HandlerOps(c, before + ([r] + more), tstep));
            c1.now <= c2.now &&
            if r.Disarm? then b !in c'.events
            else b in c'.events && c'.events[b] == c2.now + tstep + r.almtim
  {
    HandlerSplits(c, before, [r] + more, tstep, kinds, tcyc);
    var c1 := Run(c, HandlerOps(c, before, tstep));
    HandlerSplits(c1, [r], more, tstep, kinds, tcyc);
    var c2 := Run(c1, HandlerOps(c1, [r], tstep));
    assert ([r] + more)[0] == r;
    SingleRequest(c1, r, tstep, kinds, tcyc);
    UnconcernedStays(c2, more, tstep, kinds, tcyc, b);
  }

  lemma {:induction false} HandlerIsRegular(c: Clock, requests: seq<Request>, tstep: nat, kinds: seq<Kind>, tcyc: nat)
    requires InWindow(c) && AllLegal(requests, kinds, tcyc) && tstep <= TSTEP_LIMIT
    ensures Regular(c, HandlerOps(c, requests, tstep), kinds)
    decreases |requests|
  {
    if requests != [] {
      var ops := RequestOps(c, requests[0], tstep);
      RequestIsRegular(c, requests[0], tstep, kinds, tcyc);
      HandlerIsRegular(Run(c, ops), requests[1..], tstep, kinds, tcyc);
      RegularAppend(c, ops, HandlerOps(Run(c, ops), requests[1..], tstep), kinds);
    }
  }

  lemma TurnIsRegular(c: Clock, p: Plan, before: Turns, turn: Turn, tcyc: nat)
    requires InWindow(c) && GoodPlan(p, tcyc)
    requires turn.Call? ==> FirstDue(c, turn.b) && turn.b < |p.kinds|
    ensures Regular(c, TurnOps(c, p, before, turn), p.kinds)
  {
    match turn
    case Read =>
      var tick := Tick(InTime(c, Advances(p, Reads(before))));
      InTimeIsTimely(c, Advances(p, Reads(before)));
      TwoSteps(c, tick, tick, p.kinds);
    case Call(b) =>
      var fire := Fire(b, Period(p.kinds, b));
      var c1 := Step(c, fire);
      var requests := Handler(p, Calls(before));
      HandlerIsRegular(c1, requests, p.tstep, p.kinds, tcyc);
      assert ([fire] + HandlerOps(c1, requests, p.tstep))[1..] == HandlerOps(c1, requests, p.tstep);
  }

  /** Every run that signal_time can make is one of timely readings and proper call backs. */
  lemma {:induction false} SignalIsRegular(c: Clock, p: Plan, turns: Turns, tcyc: nat)
    requires InWindow(c) && GoodPlan(p, tcyc) && Possible(c, p, turns)
    ensures Regular(c, SignalOps(c, p, turns), p.kinds) && InWindow(After(c, p, turns))
  {
    if turns.Then? {
      var before, turn := turns.before, turns.turn;
      SignalIsRegular(c, p, before, tcyc);
      AfterIsRun(c, p, before);
      TurnIsRegular(After(c, p, before), p, before, turn, tcyc);
      RegularAppend(c, SignalOps(c, p, before), TurnOps(After(c, p, before), p, before, turn), p.kinds);
    }
    AfterIsRun(c, p, turns);
    RegularIsTimely(c, SignalOps(c, p, turns), p.kinds);
    RunKeepsWindow(c, SignalOps(c, p, turns));
  }

  // ---------- What one turn brings about ----------

  /** A turn that reads the timer lets pass what the plan says, unless that were too late. */
  lemma ReadEffect(c: Clock, p: Plan, before: Turns)
    requires InWindow(After(c, p, before))
    ensures var c1 := After(c, p, before);
            var c2 := After(c, p, Then(before, Read));
            var want := if Reads(before) < |p.advances| then p.advances[Reads(before)] else 0;
            c2.events == c1.events && TimePassed(c1, c2) && c2.now <= c1.now + want && WithinMargin(c2) &&
            (WithinMargin(Advance(c1, want)) ==> c2 == Advance(c1, want))
  {
    var c1 := After(c, p, before);
    InTimeIsTimely(c1, Advances(p, Reads(before)));
    TwoSteps(c1, Tick(InTime(c1, Advances(p, Reads(before)))), Tick(0), []);
  }

  /** A turn that calls a block back registers it again one cycle later if it is cyclic, and otherwise
      leaves it stopped; then its handler does what the plan says. */
  lemma CallEffect(c: Clock, p: Plan, before: Turns, b: nat, tcyc: nat)
    requires InWindow(c) && GoodPlan(p, tcyc) && Possible(c, p, Then(before, Call(b)))
    requires b < |p.kinds| && (p.kinds[b].Cyclic? ==> p.kinds[b].cyctim > 0)
    ensures var c1 := After(c, p, before);
            var c2 := if p.kinds[b].Cyclic? then c1.(events := c1.events[b := c1.events[b] + p.kinds[b].cyctim])
                      else c1.(events := c1.events - {b});
            var k := Calls(before);
            FirstDue(c1, b) && InWindow(c2) &&
            After(c, p, Then(before, Call(b))) ==
              if k < |p.handlers| then Run(c2, HandlerOps(c2, p.handlers[k], p.tstep)) else c2
  {
    SignalIsRegular(c, p, before, tcyc);
    var c1 := After(c, p, before);
    var fire := Fire(b, Period(p.kinds, b));
    var c2 := Step(c1, fire);
    var rest := HandlerOps(c2, Handler(p, Calls(before)), p.tstep);
    StepKeepsWindow(c1, fire);
    assert ([fire] + rest)[1..] == rest;
    assert Run(c1, [fire] + rest) == Run(c2, rest);
  }

  // ---------- What follows for the call backs ----------

  /** Operations that handlers may cause: none on cyclic blocks, and adjustments forward unless
      `backward`. */
  predicate Modest(op: Op, kinds: seq<Kind>, backward: bool) {
    match op
    case Enqueue(b, _, _) => Period(kinds, b) == 0
    case Dequeue(b) => Period(kinds, b) == 0
    case AdjTim(adjtim) => backward || adjtim >= 0
    case Tick(_) => true
    case _ => false
  }

  predicate AllModest(ops: seq<Op>, kinds: seq<Kind>, backward: bool) {
    forall i :: 0 <= i < |ops| ==> ops[i].Fire? || Modest(ops[i], kinds, backward)
  }

  predicate NoFire(ops: seq<Op>) {
    forall i :: 0 <= i < |ops| ==> !ops[i].Fire?
  }

  predicate Forward(requests: seq<Request>) {
    forall i :: 0 <= i < |requests| ==> requests[i].AdjustBy? ==> requests[i].adjtim >= 0
  }

  predicate ForwardPlan(p: Plan) {
    forall i :: 0 <= i < |p.handlers| ==> Forward(p.handlers[i])
  }

  lemma RequestIsModest(c: Clock, r: Request, tstep: nat, kinds: seq<Kind>, tcyc: nat, backward: bool)
    requires Legal(r, kinds, tcyc) && (r.AdjustBy? ==> backward || r.adjtim >= 0)
    ensures var ops := RequestOps(c, r, tstep); AllModest(ops, kinds, backward) && NoFire(ops)
  {
  }

  lemma {:induction false} HandlerIsModest(c: Clock, requests: seq<Request>, tstep: nat, kinds: seq<Kind>, tcyc: nat,
                                           backward: bool)
    requires AllLegal(requests, kinds, tcyc) && (backward || Forward(requests))
    ensures var ops := HandlerOps(c, requests, tstep); AllModest(ops, kinds, backward) && NoFire(ops)
    decreases |requests|
  {
    if requests != [] {
      RequestIsModest(c, requests[0], tstep, kinds, tcyc, backward);
      HandlerIsModest(Run(c, RequestOps(c, requests[0], tstep)), requests[1..], tstep, kinds, tcyc, backward);
    }
  }

  lemma {:induction false} SignalIsModest(c: Clock, p: Plan, turns: Turns, tcyc: nat, backward: bool)
    requires GoodPlan(p, tcyc) && (backward || ForwardPlan(p))
    ensures AllModest(SignalOps(c, p, turns), p.kinds, backward)
  {
    if turns.Then? {
      var before, turn := turns.before, turns.turn;
      SignalIsModest(c, p, before, tcyc, backward);
      var c1 := After(c, p, before);
      if turn.Call? {
        HandlerIsModest(Step(c1, Fire(turn.b, Period(p.kinds, turn.b))), Handler(p, Calls(before)), p.tstep, p.kinds,
                        tcyc, backward);
      }
      assert AllModest(TurnOps(c1, p, before, turn), p.kinds, backward);
    }
  }

  lemma {:induction false} NoFireNoLog(c: Clock, ops: seq<Op>)
    requires NoFire(ops)
    ensures Log(c, ops) == []
    decreases |ops|
  {
    if ops != [] {
      assert !ops[0].Fire?;
      NoFireNoLog(Step(c, ops[0]), ops[1..]);
    }
  }

  /** What one turn adds to the log: its call back, with the due time the event was registered
      under and the time at which it is called back. */
  lemma TurnIsLogged(c: Clock, p: Plan, before: Turns, turn: Turn, tcyc: nat)
    requires GoodPlan(p, tcyc) && (turn.Call? ==> turn.b in c.events)
    ensures Log(c, TurnOps(c, p, before, turn)) ==
            if turn.Call? then [Fired(turn.b, c.events[turn.b], c.now)] else []
  {
    if turn.Call? {
      var fire := Fire(turn.b, Period(p.kinds, turn.b));
      var rest := HandlerOps(Step(c, fire), Handler(p, Calls(before)), p.tstep);
      HandlerIsModest(Step(c, fire), Handler(p, Calls(before)), p.tstep, p.kinds, tcyc, true);
      NoFireNoLog(Step(c, fire), rest);
      assert ([fire] + rest)[1..] == rest;
    }
  }

  lemma {:induction false} CountAppend(log: seq<Fired>, f: Fired, b: nat)
    ensures Count(log + [f], b) == Count(log, b) + (if f.b == b then 1 else 0)
  {
    if log != [] {
      assert (log + [f])[1..] == log[1..] + [f];
      CountAppend(log[1..], f, b);
    }
  }

  lemma OneMoreLogged(c: Clock, p: Plan, before: Turns, turn: Turn, tcyc: nat)
    requires GoodPlan(p, tcyc) && (turn.Call? ==> turn.b in After(c, p, before).events)
    ensures var c1 := After(c, p, before);
            var log := Log(c, SignalOps(c, p, before));
            Log(c, SignalOps(c, p, before) + TurnOps(c1, p, before, turn)) ==
            if turn.Call? then log + [Fired(turn.b, c1.events[turn.b], c1.now)] else log
  {
    TurnIsLogged(After(c, p, before), p, before, turn, tcyc);
    AfterIsRun(c, p, before);
    LogAppend(c, SignalOps(c, p, before), TurnOps(After(c, p, before), p, before, turn));
  }

  /** The log has one entry for each call back that is made. */
  lemma {:induction false} CallsAreLogged(c: Clock, p: Plan, turns: Turns, tcyc: nat, b: nat)
    requires GoodPlan(p, tcyc) && Possible(c, p, turns)
    ensures Count(Log(c, SignalOps(c, p, turns)), b) == CallsOf(turns, b)
    ensures |Log(c, SignalOps(c, p, turns))| == Calls(turns)
  {
    if turns.Then? {
      var before, turn := turns.before, turns.turn;
      CallsAreLogged(c, p, before, tcyc, b);
      OneMoreLogged(c, p, before, turn, tcyc);
      if turn.Call? {
        var c1 := After(c, p, before);
        CountAppend(Log(c, SignalOps(c, p, before)), Fired(turn.b, c1.events[turn.b], c1.now), b);
      }
    }
  }

  /** Call backs come in non-decreasing order of their due times, each when due or later, and all
      that is registered in the end is due no earlier; provided that handlers do not set the clock
      back. */
  lemma SignalFiresInOrder(c: Clock, p: Plan, turns: Turns, tcyc: nat)
    requires InWindow(c) && GoodPlan(p, tcyc) && Possible(c, p, turns) && ForwardPlan(p)
    ensures var log := Log(c, SignalOps(c, p, turns));
            InOrder(log) && forall i :: 0 <= i < |log| ==> NoneBefore(After(c, p, turns), log[i].due)
  {
    SignalIsRegular(c, p, turns, tcyc);
    SignalIsModest(c, p, turns, tcyc, false);
    AfterIsRun(c, p, turns);
    FiredInOrder(c, SignalOps(c, p, turns), p.kinds);
  }

  /** A cyclic event is called back for every cycle that has become due, and for no other. */
  lemma SignalKeepsPhase(c: Clock, p: Plan, turns: Turns, tcyc: nat, b: nat)
    requires InWindow(c) && GoodPlan(p, tcyc) && Complete(c, p, turns)
    requires b in c.events && b < |p.kinds| && p.kinds[b].Cyclic? && p.kinds[b].cyctim > 0
    ensures var c' := After(c, p, turns);
            b in c'.events && c'.events[b] == c.events[b] + p.kinds[b].cyctim * CallsOf(turns, b) &&
            c'.now < c'.events[b]
  {
    SignalIsRegular(c, p, turns, tcyc);
    SignalIsModest(c, p, turns, tcyc, true);
    AfterIsRun(c, p, turns);
    PhaseIsKept(c, SignalOps(c, p, turns), p.kinds, b);
    CallsAreLogged(c, p, turns, tcyc, b);
  }

  // ---------- How often alarms and time limits are called back ----------

  function ArmsOf(requests: seq<Request>, b: nat): nat {
    if requests == [] then 0
    else (if requests[0].Arm? && requests[0].b == b then 1 else 0) + ArmsOf(requests[1..], b)
  }

  /** How often the handlers that ran started block `b`. */
  function ArmsBy(p: Plan, turns: Turns, b: nat): nat {
    match turns
    case NoTurns => 0
    case Then(before, turn) =>
      ArmsBy(p, before, b) + (if turn.Call? then ArmsOf(Handler(p, Calls(before)), b) else 0)
  }

  lemma {:induction false} RegisteredAppend(ops: seq<Op>, more: seq<Op>, b: nat)
    ensures Registered(ops + more, b) == Registered(ops, b) + Registered(more, b)
  {
    if ops == [] {
      assert ops + more == more;
    } else {
      assert (ops + more)[1..] == ops[1..] + more;
      RegisteredAppend(ops[1..], more, b);
    }
  }

  lemma TwoRegistered(op1: Op, op2: Op, b: nat)
    ensures Registered([op1], b) == if (op1.Enqueue? || op1.Start?) && op1.b == b then 1 else 0
    ensures Registered([op1, op2], b) == Registered([op1], b) + Registered([op2], b)
  {
    assert [op1][1..] == [] && [op1, op2][1..] == [op2];
  }

  lemma RequestRegisters(c: Clock, r: Request, tstep: nat, b: nat)
    ensures Registered(RequestOps(c, r, tstep), b) == ArmsOf([r], b)
  {
    assert [r][1..] == [];
    match r
    case Arm(x, almtim, d) =>
      var ops := RemovalOps(c, x, false, 0);
      var tick, enqueue := Tick(InTime(Run(c, ops), d)), Op.Enqueue(x, tstep, almtim);
      RegisteredAppend(ops, [tick, enqueue], b);
      TwoRegistered(Dequeue(x), tick, b);
      TwoRegistered(tick, enqueue, b);
      TwoRegistered(enqueue, tick, b);
    case Disarm(x) => TwoRegistered(Dequeue(x), Dequeue(x), b);
    case AdjustBy(adjtim, d) =>
      TwoRegistered(Tick(InTime(c, d)), AdjTim(adjtim), b);
      TwoRegistered(AdjTim(adjtim), AdjTim(adjtim), b);
  }

  lemma {:induction false} HandlerRegisters(c: Clock, requests: seq<Request>, tstep: nat, b: nat)
    ensures Registered(HandlerOps(c, requests, tstep), b) == ArmsOf(requests, b)
    decreases |requests|
  {
    if requests != [] {
      var ops := RequestOps(c, requests[0], tstep);
      RequestRegisters(c, requests[0], tstep, b);
      assert [requests[0]][1..] == [];
      HandlerRegisters(Run(c, ops), requests[1..], tstep, b);
      RegisteredAppend(ops, HandlerOps(Run(c, ops), requests[1..], tstep), b);
    }
  }

  lemma {:induction false} SignalRegisters(c: Clock, p: Plan, turns: Turns, b: nat)
    ensures Registered(SignalOps(c, p, turns), b) == ArmsBy(p, turns, b)
  {
    if turns.Then? {
      var before, turn := turns.before, turns.turn;
      var c1 := After(c, p, before);
      var ops := TurnOps(c1, p, before, turn);
      SignalRegisters(c, p, before, b);
      RegisteredAppend(SignalOps(c, p, before), ops, b);
      if turn.Call? {
        var fire := Fire(turn.b, Period(p.kinds, turn.b));
        HandlerRegisters(Step(c1, fire), Handler(p, Calls(before)), p.tstep, b);
        assert ops[1..] == HandlerOps(Step(c1, fire), Handler(p, Calls(before)), p.tstep);
      } else {
        TwoRegistered(ops[0], ops[0], b);
      }
    }
  }

  /** An alarm or time limit is called back once for each registration that no handler took back and
      that is not pending in the end. */
  lemma SignalCallsPerRegistration(c: Clock, p: Plan, turns: Turns, tcyc: nat, b: nat)
    requires InWindow(c) && GoodPlan(p, tcyc) && Possible(c, p, turns)
    requires b < |p.kinds| && p.kinds[b].Cyclic? ==> p.kinds[b].cyctim == 0
    ensures CallsOf(turns, b) + Pending(After(c, p, turns), b) + Removed(SignalOps(c, p, turns), b) ==
            Pending(c, b) + ArmsBy(p, turns, b)
  {
    SignalIsRegular(c, p, turns, tcyc);
    CallsAreLogged(c, p, turns, tcyc, b);
    SignalRegisters(c, p, turns, b);
    AfterIsRun(c, p, turns);
    CalledBackPerRegistration(c, SignalOps(c, p, turns), p.kinds, b);
  }
}
