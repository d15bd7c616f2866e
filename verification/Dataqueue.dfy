/**
 Data queues (asp3/kernel/dataqueue.c).

 A data queue is a ring of data, the tasks that wait to send, each with its datum, and the tasks
 that wait to receive.  What can still be received is the ring followed by the data of the waiting
 senders.
 */
module DataqueueModel {
  import opened Subsequence
  import opened Options
  import opened WaitQueue
  import Counting
  import Precedence

  datatype Dtq = Dtq(capacity: nat, tpri: bool, ring: seq<int>, senders: seq<Waiter<int>>, receivers: seq<nat>)

  /** The task whose wait a call ended, with the datum it was given. */
  datatype Woken = Nobody | Sender(task: nat) | Receiver(task: nat, data: int)

  function Contents(s: Dtq): seq<int> {
    s.ring + Infos(s.senders)
  }

  predicate WaitsHere(s: Dtq, task: nat) {
    Queued(s.senders, task) || task in s.receivers
  }

  /** Waiting senders mean a full ring; waiting receivers mean that there is nothing to receive. */
  ghost predicate Ok(s: Dtq) {
    && |s.ring| <= s.capacity
    && (s.senders != [] ==> |s.ring| == s.capacity)
    && (s.receivers != [] ==> s.ring == [] && s.senders == [])
    && Ordered(s.tpri, s.senders) && Precedence.NoDuplicates(s.receivers)
  }

  // ---------- The operations ----------

  function SendData(s: Dtq, data: int): (Dtq, bool, Woken) {
    if s.receivers != [] then (s.(receivers := s.receivers[1..]), true, Receiver(s.receivers[0], data))
    else if |s.ring| < s.capacity then (s.(ring := s.ring + [data]), true, Nobody)
    else (s, false, Nobody)
  }

  /** The oldest datum of a full ring is lost. */
  function ForceSendData(s: Dtq, data: int): (Dtq, Woken) {
    if s.receivers != [] then (s.(receivers := s.receivers[1..]), Receiver(s.receivers[0], data))
    else (s.(ring := (if s.ring != [] && |s.ring| >= s.capacity then s.ring[1..] else s.ring) + [data]), Nobody)
  }

  function ReceiveData(s: Dtq): (Dtq, Option<int>, Woken) {
    if s.ring != [] then
      if s.senders != [] then
        (s.(ring := s.ring[1..] + [s.senders[0].info], senders := s.senders[1..]), Some(s.ring[0]),
         Sender(s.senders[0].task))
      else (s.(ring := s.ring[1..]), Some(s.ring[0]), Nobody)
    else if s.senders != [] then
      (s.(senders := s.senders[1..]), Some(s.senders[0].info), Sender(s.senders[0].task))
    else (s, None, Nobody)
  }

  datatype Op =
    | Snd(task: nat, pri: nat, data: int) // snd_dtq, tsnd_dtq
    | Psnd(data: int)
    | Fsnd(data: int)
    | Rcv(task: nat)                      // rcv_dtq, trcv_dtq
    | Prcv
    | EndWait(task: nat)                  // a time limit, rel_wai, ras_ter or ter_tsk
    | ChgPri(task: nat, pri: nat)
    | Ini

  /** What goes in and comes out in one step: `sent` was accepted, now or by letting its sender
      wait; `out` left at the front, received or, by fsnd_dtq, lost; `gone` left in another way. */
  datatype Step = Step(after: Dtq, sent: seq<int>, out: seq<int>, gone: seq<int>)

  /** Only a task that is running, so not waiting, calls snd_dtq or rcv_dtq. */
  predicate Legal(s: Dtq, op: Op) {
    (op.Snd? || op.Rcv?) ==> !WaitsHere(s, op.task)
  }

  function Handed(w: Woken): seq<int> {
    if w.Receiver? then [w.data] else []
  }

  function Do(s: Dtq, op: Op): Step {
    match op
    case Snd(task, pri, data) =>
      var (s', done, w) := SendData(s, data);
      Step(if done then s' else s'.(senders := Join(s.tpri, s.senders, Waiter(task, pri, data))), [data], Handed(w), [])
    case Psnd(data) =>
      var (s', done, w) := SendData(s, data);
      Step(s', if done then [data] else [], Handed(w), [])
    case Fsnd(data) =>
      if s.capacity == 0 then Step(s, [], [], [])
      else
        var (s', w) := ForceSendData(s, data);
        Step(s', [data], if w.Receiver? then [data] else if |s.ring| >= s.capacity then s.ring[..1] else [], [])
    case Rcv(task) =>
      var (s', d, _) := ReceiveData(s);
      if d.Some? then Step(s', [], [d.value], [])
      else Step(s'.(receivers := s.receivers + [task]), [], [], [])
    case Prcv =>
      var (s', d, _) := ReceiveData(s);
      Step(s', [], if d.Some? then [d.value] else [], [])
    case EndWait(task) =>
      Step(s.(senders := Leave(s.senders, task), receivers := Precedence.Without(s.receivers, task)),
           [], [], InfosOfTask(s.senders, task))
    case ChgPri(task, pri) =>
      Step(s.(senders := Reprioritized(s.tpri, s.senders, task, pri)), [], [], [])
    case Ini => Step(s.(ring := [], senders := [], receivers := []), [], [], Contents(s))
  }

  /** The task that the operation wakes. */
  function Wakes(s: Dtq, op: Op): Woken {
    match op
    case Snd(_, _, data) => SendData(s, data).2
    case Psnd(data) => SendData(s, data).2
    case Fsnd(data) => if s.capacity == 0 then Nobody else ForceSendData(s, data).1
    case Rcv(_) => ReceiveData(s).2
    case Prcv => ReceiveData(s).2
    case _ => Nobody
  }

  // ---------- One operation ----------

  lemma DoKeeps(s: Dtq, op: Op)
    requires Ok(s) && Legal(s, op)
    ensures Ok(Do(s, op).after)
  {
    match op
    case Snd(task, pri, data) => JoinKeepsOrder(s.tpri, s.senders, Waiter(task, pri, data));
    case EndWait(task) =>
      LeaveKeepsOrder(s.tpri, s.senders, task);
      WithoutTask(s.receivers, task);
    case ChgPri(task, pri) => ReprioritizedKeepsOrder(s.tpri, s.senders, task, pri);
    case _ =>
  }

  /** A receive takes the first datum of the contents, and waits only if there is none. */
  lemma ReceiveTakesFirst(s: Dtq)
    requires Ok(s)
    ensures var (s', d, w) := ReceiveData(s);
            if Contents(s) == [] then d == None && s' == s
            else d == Some(Contents(s)[0]) && Contents(s') == Contents(s)[1..] &&
                 (if s.senders == [] then w == Nobody else w == Sender(s.senders[0].task))
  {
    if s.senders != [] {
      InfosOfFirst(s.senders);
      MoveUp(s.ring, s.senders[0].info, Infos(s.senders[1..]));
    }
  }

  lemma MoveUp(ring: seq<int>, x: int, rest: seq<int>)
    ensures ring != [] ==> (ring + ([x] + rest))[0] == ring[0] && (ring + ([x] + rest))[1..] == ring[1..] + [x] + rest
    ensures ring == [] ==> (ring + ([x] + rest))[0] == x && (ring + ([x] + rest))[1..] == ring + rest
  {
  }

  /** A send puts the datum last, or gives it to the first waiting receiver. */
  lemma SendPutsLast(s: Dtq, data: int)
    requires Ok(s)
    ensures var (s', done, w) := SendData(s, data);
            if s.receivers != [] then
              done && w == Receiver(s.receivers[0], data) && Contents(s) == Contents(s') == [] &&
              s'.receivers == s.receivers[1..]
            else w == Nobody && done == (|s.ring| < s.capacity) &&
                 Contents(s') == if done then Contents(s) + [data] else Contents(s)
  {
  }

  /** A forced send to a full ring loses exactly the oldest datum, and overtakes waiting senders. */
  lemma ForceSendDropsOldest(s: Dtq, data: int)
    requires Ok(s) && s.capacity > 0 && s.receivers == []
    ensures var s' := ForceSendData(s, data).0;
            Contents(s') == (if |s.ring| == s.capacity then s.ring[1..] else s.ring) + [data] + Infos(s.senders)
  {
  }

  /** A sender gives its datum to the first waiting receiver, or puts it last; without room the caller of
      snd_dtq waits with it, and psnd_dtq does nothing. */
  lemma SendEffect(s: Dtq, op: Op)
    requires Ok(s) && (op.Snd? || op.Psnd?) && Legal(s, op)
    ensures var x := Do(s, op);
            var s' := x.after;
            x.gone == [] &&
            if s.receivers != [] then
              Wakes(s, op) == Receiver(s.receivers[0], op.data) && s' == s.(receivers := s.receivers[1..]) &&
              x.sent == x.out == [op.data]
            else
              Wakes(s, op) == Nobody && x.out == [] &&
              if |s.ring| < s.capacity then s' == s.(ring := s.ring + [op.data]) && x.sent == [op.data]
              else if op.Psnd? then s' == s && x.sent == []
              else s' == s.(senders := s'.senders) && x.sent == [op.data] &&
                   exists k :: JoinedAt(s.tpri, s.senders, Waiter(op.task, op.pri, op.data), s'.senders, k)
  {
    if op.Snd? {
      JoinKeepsOrder(s.tpri, s.senders, Waiter(op.task, op.pri, op.data));
    }
  }

  /** fsnd_dtq never waits; it is refused by a queue without a ring. */
  lemma ForceSendEffect(s: Dtq, data: int)
    requires Ok(s)
    ensures var x := Do(s, Fsnd(data));
            var s' := x.after;
            x.gone == [] &&
            if s.capacity == 0 then Wakes(s, Fsnd(data)) == Nobody && s' == s && x.sent == x.out == []
            else if s.receivers != [] then
              Wakes(s, Fsnd(data)) == Receiver(s.receivers[0], data) && s' == s.(receivers := s.receivers[1..]) &&
              x.sent == x.out == [data]
            else
              Wakes(s, Fsnd(data)) == Nobody && x.sent == [data] && s' == s.(ring := s'.ring) &&
              x.out + s'.ring == s.ring + [data] && |x.out| == if |s.ring| == s.capacity then 1 else 0
  {
    if s.ring != [] {
      assert s.ring == s.ring[..1] + s.ring[1..];
      assert s.ring[..1] + (s.ring[1..] + [data]) == s.ring + [data];
    }
  }

  /** A receive takes the first datum, and the first waiting sender can go on; without a datum the caller of
      rcv_dtq waits behind the other receivers, and prcv_dtq does nothing. */
  lemma ReceiveEffect(s: Dtq, op: Op)
    requires Ok(s) && (op.Rcv? || op.Prcv?)
    ensures var x := Do(s, op);
            x.sent == x.gone == [] &&
            if Contents(s) == [] then
              Wakes(s, op) == Nobody && x.out == [] &&
              x.after == if op.Rcv? then s.(receivers := s.receivers + [op.task]) else s
            else
              x.out == [Contents(s)[0]] && Contents(x.after) == Contents(s)[1..] &&
              x.after == s.(ring := x.after.ring, senders := x.after.senders) &&
              if s.senders == [] then Wakes(s, op) == Nobody && x.after.senders == []
              else Wakes(s, op) == Sender(s.senders[0].task) && x.after.senders == s.senders[1..]
  {
    ReceiveTakesFirst(s);
  }

  /** A task whose wait ends early is in no queue any more, and a sender takes its datum back; a change of its
      priority moves a sender in a queue by priority and nothing else; ini_dtq empties everything. */
  lemma LeavingEffect(s: Dtq, op: Op)
    requires Ok(s) && (op.EndWait? || op.ChgPri? || op.Ini?)
    ensures var x := Do(s, op);
            var s' := x.after;
            x.sent == x.out == [] && Wakes(s, op) == Nobody &&
            match op
            case EndWait(task) =>
              s' == s.(senders := s'.senders, receivers := s'.receivers) && !WaitsHere(s', task) &&
              (forall t :: t != task ==> (t in s'.receivers <==> t in s.receivers)) && Sub(s'.receivers, s.receivers) &&
              Left(s.senders, task, s'.senders, x.gone)
            case ChgPri(task, pri) =>
              s' == s.(senders := s'.senders) && x.gone == [] &&
              (if s.tpri && Queued(s.senders, task)
               then exists w, k :: w in s.senders && w.task == task &&
                      JoinedAt(true, Leave(s.senders, task), w.(pri := pri), s'.senders, k)
               else s' == s)
            case Ini => s'.ring == [] && s'.senders == [] && s'.receivers == [] && x.gone == Contents(s)
            case _ => true
  {
    match op
    case EndWait(task) =>
      WithoutTask(s.receivers, task);
      LeaveEffect(s.senders, task);
    case ChgPri(task, pri) => ReprioritizedMoves(s.tpri, s.senders, task, pri);
    case _ =>
  }

  // ---------- Runs ----------

  ghost predicate LegalRun(s: Dtq, ops: seq<Op>)
    decreases |ops|
  {
    ops == [] || (Legal(s, ops[0]) && LegalRun(Do(s, ops[0]).after, ops[1..]))
  }

  function Run(s: Dtq, ops: seq<Op>): Step
    decreases |ops|
  {
    if ops == [] then Step(s, [], [], [])
    else
      var x := Do(s, ops[0]);
      var y := Run(x.after, ops[1..]);
      Step(y.after, x.sent + y.sent, x.out + y.out, x.gone + y.gone)
  }

  lemma {:induction false} RunKeeps(s: Dtq, ops: seq<Op>)
    requires Ok(s) && LegalRun(s, ops)
    ensures Ok(Run(s, ops).after)
    decreases |ops|
  {
    if ops != [] {
      DoKeeps(s, ops[0]);
      RunKeeps(Do(s, ops[0]).after, ops[1..]);
    }
  }

  ghost predicate Balanced(s: Dtq, x: Step) {
    multiset(Contents(s)) + multiset(x.sent) == multiset(Contents(x.after)) + multiset(x.out) + multiset(x.gone)
  }

  /** No operation makes or loses a datum, beyond what it says. */
  lemma DoConserves(s: Dtq, op: Op)
    requires Ok(s) && Legal(s, op)
    ensures Balanced(s, Do(s, op))
  {
    match op
    case Snd(task, pri, data) => SendConserves(s, task, pri, data);
    case Psnd(data) => SendPutsLast(s, data);
    case Fsnd(data) => ForceSendConserves(s, data);
    case Rcv(task) => ReceiveConserves(s, task);
    case Prcv => PollConserves(s);
    case EndWait(task) => LeaveInfos(s.senders, task);
    case ChgPri(task, pri) => MoveConserves(s, task, pri);
    case Ini =>
  }

  lemma MoveConserves(s: Dtq, task: nat, pri: nat)
    ensures Balanced(s, Do(s, ChgPri(task, pri)))
  {
    ReprioritizedInfos(s.tpri, s.senders, task, pri);
  }

  lemma SendConserves(s: Dtq, task: nat, pri: nat, data: int)
    requires Ok(s)
    ensures Balanced(s, Do(s, Snd(task, pri, data)))
  {
    SendPutsLast(s, data);
    JoinInfos(s.tpri, s.senders, Waiter(task, pri, data));
  }

  lemma ForceSendConserves(s: Dtq, data: int)
    requires Ok(s)
    ensures Balanced(s, Do(s, Fsnd(data)))
  {
    if s.capacity > 0 && s.receivers == [] {
      ForceSendDropsOldest(s, data);
      if |s.ring| >= s.capacity {
        assert s.ring == s.ring[..1] + s.ring[1..];
      }
    }
  }

  lemma TakingFirst(c: seq<int>)
    ensures c != [] ==> multiset(c) == multiset(c[1..]) + multiset([c[0]])
  {
    if c != [] {
      assert c == [c[0]] + c[1..];
    }
  }

  lemma ReceivedConserves(s: Dtq)
    requires Ok(s)
    ensures var (s', d, _) := ReceiveData(s);
            multiset(Contents(s)) == multiset(Contents(s')) + multiset(if d.Some? then [d.value] else [])
  {
    ReceiveTakesFirst(s);
    TakingFirst(Contents(s));
  }

  lemma ReceiveConserves(s: Dtq, task: nat)
    requires Ok(s)
    ensures Balanced(s, Do(s, Rcv(task)))
  {
    ReceivedConserves(s);
    var (s', d, _) := ReceiveData(s);
    if d == None {
      assert Contents(Do(s, Rcv(task)).after) == Contents(s');
    }
  }

  lemma PollConserves(s: Dtq)
    requires Ok(s)
    ensures Balanced(s, Do(s, Prcv))
  {
    ReceivedConserves(s);
  }

  lemma BalanceAdds(s: Dtq, x: Step, y: Step)
    requires Balanced(s, x) && Balanced(x.after, y)
    ensures Balanced(s, Step(y.after, x.sent + y.sent, x.out + y.out, x.gone + y.gone))
  {
    Counting.BalancesAdd(multiset(Contents(s)), multiset(x.sent),
                multiset(Contents(x.after)), multiset(x.out), multiset(x.gone),
                multiset(y.sent), multiset(Contents(y.after)), multiset(y.out), multiset(y.gone));
  }

  /** Over any run: everything sent is received or lost once, or can still be received. */
  lemma {:induction false} RunConserves(s: Dtq, ops: seq<Op>)
    requires Ok(s) && LegalRun(s, ops)
    ensures Balanced(s, Run(s, ops))
    decreases |ops|
  {
    if ops != [] {
      DoKeeps(s, ops[0]);
      DoConserves(s, ops[0]);
      RunConserves(Do(s, ops[0]).after, ops[1..]);
      BalanceAdds(s, Do(s, ops[0]), Run(Do(s, ops[0]).after, ops[1..]));
    }
  }

  /** A forced send that does not find waiting senders. */
  predicate InTurn(s: Dtq, op: Op) {
    op.Fsnd? ==> s.senders == [] || s.capacity == 0
  }

  ghost predicate RunInTurn(s: Dtq, ops: seq<Op>)
    decreases |ops|
  {
    ops == [] || (InTurn(s, ops[0]) && RunInTurn(Do(s, ops[0]).after, ops[1..]))
  }

  ghost predicate StepIsFifo(s: Dtq, x: Step) {
    Fifo(Contents(s), x.sent, x.out, Contents(x.after), x.gone)
  }

  lemma DoIsFifo(s: Dtq, op: Op)
    requires Ok(s) && !s.tpri && InTurn(s, op)
    ensures StepIsFifo(s, Do(s, op))
  {
    match op
    case Snd(task, pri, data) => SendIsFifo(s, task, pri, data);
    case Psnd(data) => PollSendIsFifo(s, data);
    case Fsnd(data) => ForceSendIsFifo(s, data);
    case Rcv(task) => ReceiveIsFifo(s, task);
    case Prcv => ReceiveIsFifo(s, 0);
    case EndWait(task) => EndWaitIsFifo(s, task);
    case ChgPri(task, pri) => FifoWithout(Contents(s), Contents(s), []);
    case Ini => FifoWithout(Contents(s), [], Contents(s));
  }

  lemma SendIsFifo(s: Dtq, task: nat, pri: nat, data: int)
    requires Ok(s) && !s.tpri
    ensures StepIsFifo(s, Do(s, Snd(task, pri, data)))
  {
    SendPutsLast(s, data);
    var w := Waiter(task, pri, data);
    assert Infos(s.senders + [w]) == Infos(s.senders) + [data];
    var x := Do(s, Snd(task, pri, data));
    FifoInFull(Contents(s), x.sent, x.out, Contents(x.after), x.gone);
  }

  lemma PollSendIsFifo(s: Dtq, data: int)
    requires Ok(s)
    ensures StepIsFifo(s, Do(s, Psnd(data)))
  {
    SendPutsLast(s, data);
    var x := Do(s, Psnd(data));
    FifoInFull(Contents(s), x.sent, x.out, Contents(x.after), x.gone);
  }

  lemma ForceSendIsFifo(s: Dtq, data: int)
    requires Ok(s) && (s.senders == [] || s.capacity == 0)
    ensures StepIsFifo(s, Do(s, Fsnd(data)))
  {
    var x := Do(s, Fsnd(data));
    if s.capacity == 0 {
      FifoWithout(Contents(s), Contents(s), []);
    } else {
      if s.receivers == [] {
        ForceSendDropsOldest(s, data);
        RingMoves(s.ring, data);
        assert Infos(s.senders) == [];
      }
      FifoInFull(Contents(s), x.sent, x.out, Contents(x.after), x.gone);
    }
  }

  lemma RingMoves(ring: seq<int>, data: int)
    ensures ring != [] ==> ring[..1] + (ring[1..] + [data]) == ring + [data]
    ensures forall r: seq<int> :: r + [] == r && [] + r == r
  {
  }

  lemma ReceiveIsFifo(s: Dtq, task: nat)
    requires Ok(s)
    ensures StepIsFifo(s, Do(s, Rcv(task))) && StepIsFifo(s, Do(s, Prcv))
  {
    ReceiveTakesFirst(s);
    var x := Do(s, Prcv);
    assert Contents(Do(s, Rcv(task)).after) == Contents(x.after);
    if Contents(s) == [] {
      FifoWithout(Contents(s), Contents(s), []);
    } else {
      assert Contents(s) == [Contents(s)[0]] + Contents(s)[1..] && Contents(s) + [] == Contents(s);
      FifoInFull(Contents(s), x.sent, x.out, Contents(x.after), x.gone);
    }
  }

  /** A sender that stops waiting takes its datum with it, and nothing else changes. */
  lemma EndWaitIsFifo(s: Dtq, task: nat)
    ensures StepIsFifo(s, Do(s, EndWait(task)))
  {
    var rest := Leave(s.senders, task);
    LeavingKeepsOrder(s.senders, task);
    SubBehind(s.ring, Infos(rest), Infos(s.senders));
    FifoWithout(Contents(s), s.ring + Infos(rest), InfosOfTask(s.senders, task));
  }

  lemma {:induction false} LeavingKeepsOrder(q: seq<Waiter<int>>, task: nat)
    ensures Sub(Infos(Leave(q, task)), Infos(q))
    ensures InfosOfTask(q, task) == [] ==> Leave(q, task) == q
  {
    if q != [] {
      InfosOfFirst(q);
      if q[0].task == task {
        SubSelf(Infos(q[1..]));
      } else {
        LeavingKeepsOrder(q[1..], task);
        InfosOfFirst(Leave(q, task));
        assert Leave(q, task)[1..] == Leave(q[1..], task);
      }
    }
  }

  /** Over any run of a queue in order of arrival without such forced sends, data come out in the
      order sent, also when senders or receivers stop waiting or the queue is initialized; none is
      missing unless its sender stopped waiting or the queue was initialized. */
  lemma {:induction false} RunIsFifo(s: Dtq, ops: seq<Op>)
    requires Ok(s) && !s.tpri && LegalRun(s, ops) && RunInTurn(s, ops)
    ensures StepIsFifo(s, Run(s, ops))
    decreases |ops|
  {
    if ops == [] {
      FifoWithout(Contents(s), Contents(s), []);
    } else {
      var x := Do(s, ops[0]);
      var y := Run(x.after, ops[1..]);
      DoKeeps(s, ops[0]);
      DoIsFifo(s, ops[0]);
      RunIsFifo(x.after, ops[1..]);
      FifoAdds(Contents(s), x.sent, x.out, Contents(x.after), x.gone, y.sent, y.out, Contents(y.after), y.gone);
    }
  }

  // ---------- Receivers ----------

  /** The task begins to wait for a datum, is handed one, or stops waiting without one. */
  function BeginsToWait(s: Dtq, op: Op): seq<nat> {
    if op.Rcv? && Contents(s) == [] then [op.task] else []
  }

  function Served(w: Woken): seq<nat> {
    if w.Receiver? then [w.task] else []
  }

  function Quits(s: Dtq, op: Op): seq<nat> {
    if op.EndWait? && op.task in s.receivers then [op.task] else if op.Ini? then s.receivers else []
  }

  function AllBegin(s: Dtq, ops: seq<Op>): seq<nat>
    decreases |ops|
  {
    if ops == [] then [] else BeginsToWait(s, ops[0]) + AllBegin(Do(s, ops[0]).after, ops[1..])
  }

  function AllServed(s: Dtq, ops: seq<Op>): seq<nat>
    decreases |ops|
  {
    if ops == [] then [] else Served(Wakes(s, ops[0])) + AllServed(Do(s, ops[0]).after, ops[1..])
  }

  function AllQuit(s: Dtq, ops: seq<Op>): seq<nat>
    decreases |ops|
  {
    if ops == [] then [] else Quits(s, ops[0]) + AllQuit(Do(s, ops[0]).after, ops[1..])
  }

  ghost predicate InTurnFor(s: Dtq, op: Op) {
    Fifo(s.receivers, BeginsToWait(s, op), Served(Wakes(s, op)), Do(s, op).after.receivers, Quits(s, op))
  }

  lemma SendsInTurn(s: Dtq, op: Op)
    requires Ok(s) && Legal(s, op) && (op.Snd? || op.Psnd? || op.Fsnd?)
    ensures InTurnFor(s, op)
  {
    FifoSteps<nat>(s.receivers, 0);
    if op.Fsnd? {
      ForceSendEffect(s, op.data);
    } else {
      SendEffect(s, op);
    }
  }

  lemma ReceivesInTurn(s: Dtq, op: Op)
    requires Ok(s) && (op.Rcv? || op.Prcv?)
    ensures InTurnFor(s, op)
  {
    FifoSteps<nat>(s.receivers, if op.Rcv? then op.task else 0);
    ReceiveEffect(s, op);
  }

  lemma ServedInTurn(s: Dtq, op: Op)
    requires Ok(s) && Legal(s, op)
    ensures InTurnFor(s, op)
  {
    match op
    case EndWait(task) =>
      WithoutTask(s.receivers, task);
      FifoWithout(s.receivers, Do(s, op).after.receivers, Quits(s, op));
    case Ini => FifoWithout(s.receivers, [], s.receivers);
    case ChgPri(_, _) => FifoSteps<nat>(s.receivers, 0);
    case Rcv(_) => ReceivesInTurn(s, op);
    case Prcv => ReceivesInTurn(s, op);
    case _ => SendsInTurn(s, op);
  }

  /** Over any run, waiting receivers are handed data in the order in which they began to wait; none is passed
      over, unless it stopped waiting or the queue was initialized. */
  lemma {:induction false} ReceiversInTurn(s: Dtq, ops: seq<Op>)
    requires Ok(s) && LegalRun(s, ops)
    ensures Fifo(s.receivers, AllBegin(s, ops), AllServed(s, ops), Run(s, ops).after.receivers, AllQuit(s, ops))
    decreases |ops|
  {
    if ops == [] {
      FifoWithout(s.receivers, s.receivers, []);
    } else {
      var s1 := Do(s, ops[0]).after;
      DoKeeps(s, ops[0]);
      ServedInTurn(s, ops[0]);
      ReceiversInTurn(s1, ops[1..]);
      FifoAdds(s.receivers, BeginsToWait(s, ops[0]), Served(Wakes(s, ops[0])), s1.receivers, Quits(s, ops[0]),
               AllBegin(s1, ops[1..]), AllServed(s1, ops[1..]), Run(s1, ops[1..]).after.receivers,
               AllQuit(s1, ops[1..]));
    }
  }

  // ---------- A forced send that overtakes ----------

  /** With waiting senders a forced send is not in order: it goes before what they sent earlier. */
  lemma ForceSendOvertakes(s: Dtq, data: int)
    requires Ok(s) && s.senders != [] && s.capacity > 0
    ensures var x := Do(s, Fsnd(data));
            x.out == s.ring[..1] && Contents(x.after) == s.ring[1..] + [data] + Infos(s.senders)
    ensures data != s.senders[0].info ==>
              Do(s, Fsnd(data)).out + Contents(Do(s, Fsnd(data)).after) != Contents(s) + [data]
  {
    var x := Do(s, Fsnd(data));
    var n := |s.ring|;
    assert (x.out + Contents(x.after))[n] == data;
    assert (Contents(s) + [data])[n] == s.senders[0].info;
  }
}

/** The ring in memory and the service calls on it. */
module Dataqueue {
  import opened Options
  import opened WaitQueue
  import Precedence
  import opened DataqueueModel

  function Slot(head: nat, i: nat, capacity: nat): nat {
    if head + i < capacity then head + i else head + i - capacity
  }

  function Ring(b: seq<int>, head: nat, count: nat): (r: seq<int>)
    requires (head < |b| || count == 0) && count <= |b|
    ensures |r| == count
  {
    seq(count, i requires 0 <= i < count => b[Slot(head, i, |b|)])
  }

  class DataQueue {
    const tpri: bool
    const dtqmb: array<int>
    var head: nat
    var tail: nat
    var count: nat
    var swait: seq<Waiter<int>>
    var rwait: seq<nat>

    ghost predicate Valid()
      reads `head, `tail, `count
    {
      && count <= dtqmb.Length
      && if dtqmb.Length == 0 then head == 0 && tail == 0
         else head < dtqmb.Length && tail == Slot(head, count, dtqmb.Length)
    }

    ghost function Abs(): Dtq
      requires Valid()
      reads this, dtqmb
    {
      Dtq(dtqmb.Length, tpri, Ring(dtqmb[..], head, count), swait, rwait)
    }

    // initialize_dataqueue
    constructor (dtqcnt: nat, tpri: bool)
      ensures Valid() && fresh(dtqmb) && Abs() == Dtq(dtqcnt, tpri, [], [], []) && Ok(Abs())
    {
      this.tpri := tpri;
      dtqmb := new int[dtqcnt];
      head, tail, count := 0, 0, 0;
      swait, rwait := [], [];
    }

    // enqueue_data
    method EnqueueData(data: int)
      requires Valid() && count < dtqmb.Length
      modifies dtqmb, `count, `tail
      ensures Valid() && Abs() == old(Abs()).(ring := old(Abs()).ring + [data])
    {
      dtqmb[tail] := data;
      count := count + 1;
      tail := tail + 1;
      if tail >= dtqmb.Length {
        tail := 0;
      }
    }

    // force_enqueue_data
    method ForceEnqueueData(data: int)
      requires Valid() && dtqmb.Length > 0
      modifies dtqmb, `count, `tail, `head
      ensures Valid()
      ensures Abs() == old(Abs()).(ring :=
                (if old(count) == dtqmb.Length then old(Abs()).ring[1..] else old(Abs()).ring) + [data])
    {
      dtqmb[tail] := data;
      tail := tail + 1;
      if tail >= dtqmb.Length {
        tail := 0;
      }
      if count < dtqmb.Length {
        count := count + 1;
      } else {
        head := tail;
      }
    }

    // dequeue_data
    method DequeueData() returns (data: int)
      requires Valid() && count > 0
      modifies `count, `head
      ensures Valid() && data == old(Abs()).ring[0]
      ensures Abs() == old(Abs()).(ring := old(Abs()).ring[1..])
    {
      data := dtqmb[head];
      count := count - 1;
      head := head + 1;
      if head >= dtqmb.Length {
        head := 0;
      }
    }

    // send_data
    method SendData(data: int) returns (done: bool, woken: Woken)
      requires Valid()
      modifies this, dtqmb
      ensures Valid() && (Abs(), done, woken) == DataqueueModel.SendData(old(Abs()), data)
    {
      if rwait != [] {
        woken := Receiver(rwait[0], data);
        rwait := rwait[1..];
        done := true;
      } else if count < dtqmb.Length {
        EnqueueData(data);
        done, woken := true, Nobody;
      } else {
        done, woken := false, Nobody;
      }
    }

    // force_send_data
    method ForceSendData(data: int) returns (woken: Woken)
      requires Valid() && dtqmb.Length > 0
      modifies this, dtqmb
      ensures Valid() && (Abs(), woken) == DataqueueModel.ForceSendData(old(Abs()), data)
    {
      if rwait != [] {
        woken := Receiver(rwait[0], data);
        rwait := rwait[1..];
      } else {
        ForceEnqueueData(data);
        woken := Nobody;
      }
    }

    // receive_data
    method ReceiveData() returns (data: Option<int>, woken: Woken)
      requires Valid()
      modifies this, dtqmb
      ensures Valid() && (Abs(), data, woken) == DataqueueModel.ReceiveData(old(Abs()))
    {
      woken := Nobody;
      if count > 0 {
        var d := DequeueData();
        data := Some(d);
        if swait != [] {
          woken := Sender(swait[0].task);
          d := swait[0].info;
          swait := swait[1..];
          EnqueueData(d);
        }
      } else if swait != [] {
        data, woken := Some(swait[0].info), Sender(swait[0].task);
        swait := swait[1..];
      } else {
        data := None;
      }
    }

    // snd_dtq and tsnd_dtq; `raster` tells whether the termination of the caller is requested,
    // `polling` that the time limit is TMO_POL
    method Snd(task: nat, pri: nat, data: int, raster: bool, polling: bool) returns (ercd: Ercd, woken: Woken)
      requires Valid()
      modifies this, dtqmb
      ensures Valid()
      ensures ercd == if raster then E_RASTER else if DataqueueModel.SendData(old(Abs()), data).1 then E_OK
                      else if polling then E_TMOUT else Waits
      ensures Abs() == if raster then old(Abs())
                       else Do(old(Abs()), if polling then Op.Psnd(data) else Op.Snd(task, pri, data)).after
      ensures woken == if raster then Nobody else DataqueueModel.SendData(old(Abs()), data).2
    {
      if raster {
        return E_RASTER, Nobody;
      }
      var done;
      done, woken := SendData(data);
      ercd := if done then E_OK else if polling then E_TMOUT else Waits;
      if ercd == Waits {
        if tpri {
          swait := InsertTpri(swait, Waiter(task, pri, data));
        } else {
          swait := swait + [Waiter(task, pri, data)];
        }
      }
    }

    // psnd_dtq
    method Psnd(data: int) returns (done: bool, woken: Woken)
      requires Valid()
      modifies this, dtqmb
      ensures Valid() && Abs() == Do(old(Abs()), Op.Psnd(data)).after
      ensures done <==> Do(old(Abs()), Op.Psnd(data)).sent == [data]
      ensures woken == DataqueueModel.SendData(old(Abs()), data).2
    {
      done, woken := SendData(data);
    }

    // fsnd_dtq; E_ILUSE if the ring has no room at all
    method Fsnd(data: int) returns (done: bool, woken: Woken)
      requires Valid()
      modifies this, dtqmb
      ensures Valid() && Abs() == Do(old(Abs()), Op.Fsnd(data)).after && done == (dtqmb.Length > 0)
      ensures woken == if done then DataqueueModel.ForceSendData(old(Abs()), data).1 else Nobody
    {
      done, woken := dtqmb.Length > 0, Nobody;
      if done {
        woken := ForceSendData(data);
      }
    }

    // rcv_dtq, trcv_dtq and, with `polling` and never E_RASTER, prcv_dtq
    method Rcv(task: nat, raster: bool, polling: bool) returns (ercd: Ercd, data: Option<int>, woken: Woken)
      requires Valid()
      modifies this, dtqmb
      ensures Valid()
      ensures ercd == if raster then E_RASTER else if DataqueueModel.ReceiveData(old(Abs())).1.Some? then E_OK
                      else if polling then E_TMOUT else Waits
      ensures Abs() == if raster then old(Abs())
                       else Do(old(Abs()), if polling then Op.Prcv else Op.Rcv(task)).after
      ensures (data, woken) == if raster then (None, Nobody)
                               else (DataqueueModel.ReceiveData(old(Abs())).1, DataqueueModel.ReceiveData(old(Abs())).2)
    {
      if raster {
        return E_RASTER, None, Nobody;
      }
      data, woken := ReceiveData();
      ercd := if data != None then E_OK else if polling then E_TMOUT else Waits;
      if ercd == Waits {
        rwait := rwait + [task];
      }
    }

    // the wait of a task ends early: its time limit, rel_wai, ras_ter or ter_tsk
    method EndWait(task: nat)
      requires Valid()
      modifies `swait, `rwait
      ensures Valid() && Abs() == Do(old(Abs()), Op.EndWait(task)).after
    {
      swait := Leave(swait, task);
      rwait := Precedence.Without(rwait, task);
    }

    // wobj_change_priority, which only concerns the senders
    method ChgPri(task: nat, pri: nat)
      requires Valid()
      modifies `swait
      ensures Valid() && Abs() == Do(old(Abs()), Op.ChgPri(task, pri)).after
    {
      if tpri && Queued(swait, task) {
        swait := InsertTpri(Leave(swait, task), WaiterOf(swait, task).(pri := pri));
      }
    }

    // ini_dtq
    method Ini()
      requires Valid()
      modifies this
      ensures Valid() && Abs() == Do(old(Abs()), Op.Ini).after
    {
      swait, rwait := [], [];
      count, head, tail := 0, 0, 0;
    }
  }
}
