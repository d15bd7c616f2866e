/**
 Priority data queues (asp3/kernel/pridataq.c).

 The data are kept in order of their priority, and within a priority in order of arrival.
 */
module PridataqModel {
  import opened Options
  import opened Subsequence
  import opened WaitQueue
  import Counting
  import Precedence

  datatype Item = Item(data: int, pri: nat)

  datatype Pdq = Pdq(capacity: nat, tpri: bool, list: seq<Item>, senders: seq<Waiter<Item>>, receivers: seq<nat>)

  datatype Woken = Nobody | Sender(task: nat) | Receiver(task: nat, item: Item)

  /** The item goes behind those of its priority and before the less urgent ones. */
  function Enqueue(l: seq<Item>, it: Item): seq<Item> {
    if l == [] || it.pri < l[0].pri then [it] + l else [l[0]] + Enqueue(l[1..], it)
  }

  ghost predicate Sorted(l: seq<Item>) {
    forall i, j :: 0 <= i < j < |l| ==> l[i].pri <= l[j].pri
  }

  /** Waiting senders mean a full queue; waiting receivers an empty one without senders. */
  ghost predicate Ok(s: Pdq) {
    && |s.list| <= s.capacity && Sorted(s.list)
    && (s.senders != [] ==> |s.list| == s.capacity)
    && (s.receivers != [] ==> s.list == [] && s.senders == [])
    && Ordered(s.tpri, s.senders) && Precedence.NoDuplicates(s.receivers)
  }

  lemma {:induction false} EnqueueSplits(l: seq<Item>, it: Item) returns (k: nat)
    ensures k <= |l| && Enqueue(l, it) == l[..k] + [it] + l[k..]
    ensures forall i :: 0 <= i < k ==> l[i].pri <= it.pri
    ensures k < |l| ==> it.pri < l[k].pri
  {
    if l == [] || it.pri < l[0].pri {
      k := 0;
    } else {
      var k' := EnqueueSplits(l[1..], it);
      k := k' + 1;
      assert l == [l[0]] + l[1..];
    }
  }

  lemma {:induction false} EnqueueAt(l: seq<Item>, it: Item, k: nat)
    requires k <= |l| && forall i :: 0 <= i < k ==> l[i].pri <= it.pri
    requires k < |l| ==> it.pri < l[k].pri
    ensures Enqueue(l, it) == l[..k] + [it] + l[k..]
  {
    if k > 0 {
      assert l[0].pri <= it.pri;
      EnqueueAt(l[1..], it, k - 1);
    }
  }

  lemma {:induction false} EnqueueContents(l: seq<Item>, it: Item)
    ensures multiset(Enqueue(l, it)) == multiset(l) + multiset{it} && |Enqueue(l, it)| == |l| + 1
  {
    if l != [] && !(it.pri < l[0].pri) {
      assert l == [l[0]] + l[1..];
      EnqueueContents(l[1..], it);
    }
  }

  lemma EnqueueSorted(l: seq<Item>, it: Item)
    requires Sorted(l)
    ensures Sorted(Enqueue(l, it))
  {
    var k := EnqueueSplits(l, it);
    forall i | k <= i < |l|
      ensures it.pri <= l[i].pri
    {
      assert l[k].pri <= l[i].pri;
    }
  }

  // ---------- The operations ----------

  function SendPridata(s: Pdq, it: Item): (Pdq, bool, Woken) {
    if s.receivers != [] then (s.(receivers := s.receivers[1..]), true, Receiver(s.receivers[0], it))
    else if |s.list| < s.capacity then (s.(list := Enqueue(s.list, it)), true, Nobody)
    else (s, false, Nobody)
  }

  function ReceivePridata(s: Pdq): (Pdq, Option<Item>, Woken) {
    if s.list != [] then
      if s.senders != [] then
        (s.(list := Enqueue(s.list[1..], s.senders[0].info), senders := s.senders[1..]), Some(s.list[0]),
         Sender(s.senders[0].task))
      else (s.(list := s.list[1..]), Some(s.list[0]), Nobody)
    else if s.senders != [] then
      (s.(senders := s.senders[1..]), Some(s.senders[0].info), Sender(s.senders[0].task))
    else (s, None, Nobody)
  }

  datatype Op =
    | Snd(task: nat, pri: nat, item: Item)
    | Psnd(item: Item)
    | Rcv(task: nat)
    | Prcv
    | EndWait(task: nat)
    | ChgPri(task: nat, pri: nat)
    | Ini

  predicate Legal(s: Pdq, op: Op) {
    (op.Snd? || op.Rcv?) ==> !Queued(s.senders, op.task) && op.task !in s.receivers
  }

  /** What goes in and comes out in one step: `sent` was accepted, now or by letting its sender
      wait; `joined` joined the queue or went through it; `out` was received; `withdrawn` is what
      senders took back; `dropped` left the queue without being received. */
  datatype Step = Step(after: Pdq, sent: seq<Item>, joined: seq<Item>, out: seq<Item>, withdrawn: seq<Item>,
                       dropped: seq<Item>)

  function Handed(w: Woken): seq<Item> {
    if w.Receiver? then [w.item] else []
  }

  function Taken(it: Option<Item>): seq<Item> {
    if it.Some? then [it.value] else []
  }

  /** What a receive brings into the queue: the datum of the first waiting sender. */
  function Moved(s: Pdq): seq<Item> {
    if s.senders != [] then [s.senders[0].info] else []
  }

  function Do(s: Pdq, op: Op): Step {
    match op
    case Snd(task, pri, it) =>
      var (s', done, w) := SendPridata(s, it);
      if done then Step(s', [it], [it], Handed(w), [], [])
      else Step(s'.(senders := Join(s.tpri, s.senders, Waiter(task, pri, it))), [it], [], [], [], [])
    case Psnd(it) =>
      var (s', done, w) := SendPridata(s, it);
      if done then Step(s', [it], [it], Handed(w), [], []) else Step(s, [], [], [], [], [])
    case Rcv(task) =>
      var (s', it, _) := ReceivePridata(s);
      Step(if it.Some? then s' else s'.(receivers := s.receivers + [task]), [], Moved(s), Taken(it), [], [])
    case Prcv =>
      var (s', it, _) := ReceivePridata(s);
      Step(s', [], Moved(s), Taken(it), [], [])
    case EndWait(task) =>
      Step(s.(senders := Leave(s.senders, task), receivers := Precedence.Without(s.receivers, task)), [], [], [],
           InfosOfTask(s.senders, task), [])
    case ChgPri(task, pri) =>
      Step(s.(senders := Reprioritized(s.tpri, s.senders, task, pri)), [], [], [], [], [])
    case Ini => Step(s.(list := [], senders := [], receivers := []), [], [], [], Infos(s.senders), s.list)
  }

  /** The task that the operation wakes. */
  function Wakes(s: Pdq, op: Op): Woken {
    match op
    case Snd(_, _, it) => SendPridata(s, it).2
    case Psnd(it) => SendPridata(s, it).2
    case Rcv(_) => ReceivePridata(s).2
    case Prcv => ReceivePridata(s).2
    case _ => Nobody
  }

  lemma ReceiveKeeps(s: Pdq)
    requires Ok(s)
    ensures Ok(ReceivePridata(s).0)
  {
    if s.list != [] && s.senders != [] {
      EnqueueSorted(s.list[1..], s.senders[0].info);
      EnqueueContents(s.list[1..], s.senders[0].info);
    }
  }

  lemma SendKeeps(s: Pdq, it: Item)
    requires Ok(s)
    ensures Ok(SendPridata(s, it).0)
  {
    EnqueueSorted(s.list, it);
    EnqueueContents(s.list, it);
  }

  lemma DoKeeps(s: Pdq, op: Op)
    requires Ok(s) && Legal(s, op)
    ensures Ok(Do(s, op).after)
  {
    match op
    case Snd(task, pri, it) =>
      SendKeeps(s, it);
      JoinKeepsOrder(s.tpri, s.senders, Waiter(task, pri, it));
    case Psnd(it) => SendKeeps(s, it);
    case Rcv(task) => ReceiveKeeps(s);
    case Prcv => ReceiveKeeps(s);
    case EndWait(task) =>
      LeaveKeepsOrder(s.tpri, s.senders, task);
      WithoutTask(s.receivers, task);
    case ChgPri(task, pri) => ReprioritizedKeepsOrder(s.tpri, s.senders, task, pri);
    case Ini =>
  }

  ghost predicate LegalRun(s: Pdq, ops: seq<Op>)
    decreases |ops|
  {
    ops == [] || (Legal(s, ops[0]) && LegalRun(Do(s, ops[0]).after, ops[1..]))
  }

  function Run(s: Pdq, ops: seq<Op>): Step
    decreases |ops|
  {
    if ops == [] then Step(s, [], [], [], [], [])
    else
      var x := Do(s, ops[0]);
      var y := Run(x.after, ops[1..]);
      Step(y.after, x.sent + y.sent, x.joined + y.joined, x.out + y.out, x.withdrawn + y.withdrawn,
           x.dropped + y.dropped)
  }

  lemma {:induction false} RunKeeps(s: Pdq, ops: seq<Op>)
    requires Ok(s) && LegalRun(s, ops)
    ensures Ok(Run(s, ops).after)
    decreases |ops|
  {
    if ops != [] {
      DoKeeps(s, ops[0]);
      RunKeeps(Do(s, ops[0]).after, ops[1..]);
    }
  }

  /** A receive takes a datum than which none in the queue is more urgent; what stays is what was
      there, and the datum of the sender that could now go on. */
  lemma ReceiveTakesMostUrgent(s: Pdq)
    requires Ok(s) && s.list != []
    ensures var (s', it, w) := ReceivePridata(s);
            it == Some(s.list[0]) && (forall x :: x in s.list ==> it.value.pri <= x.pri) &&
            multiset(s'.list) + multiset{it.value} ==
              multiset(s.list) + (if s.senders == [] then multiset{} else multiset{s.senders[0].info})
  {
    assert s.list == [s.list[0]] + s.list[1..];
    if s.senders != [] {
      EnqueueSorted(s.list[1..], s.senders[0].info);
      EnqueueContents(s.list[1..], s.senders[0].info);
    }
    forall x | x in s.list
      ensures s.list[0].pri <= x.pri
    {
      var i :| 0 <= i < |s.list| && s.list[i] == x;
    }
  }

  /** The datum is at place `k`, behind all of its priority and before the less urgent ones. */
  ghost predicate PlacedAt(l: seq<Item>, it: Item, l': seq<Item>, k: nat) {
    && k <= |l| && l' == l[..k] + [it] + l[k..]
    && forall i :: 0 <= i < |l| ==> (i < k <==> l[i].pri <= it.pri)
  }

  /** Of two data of the same priority the one sent first comes first. */
  lemma SamePriorityInOrder(l: seq<Item>, it: Item)
    requires Sorted(l)
    ensures exists k :: PlacedAt(l, it, Enqueue(l, it), k)
  {
    var k := EnqueueSplits(l, it);
    forall i | 0 <= i < |l|
      ensures i < k <==> l[i].pri <= it.pri
    {
      if i >= k {
        assert l[k].pri <= l[i].pri;
      }
    }
    assert PlacedAt(l, it, Enqueue(l, it), k);
  }

  // ---------- One operation ----------

  /** A sender gives its datum to the first waiting receiver, or puts it in its place; without room the caller
      of snd_pdq waits with it, and psnd_pdq does nothing. */
  lemma SendEffect(s: Pdq, op: Op)
    requires Ok(s) && (op.Snd? || op.Psnd?) && Legal(s, op)
    ensures var x := Do(s, op);
            var s' := x.after;
            x.withdrawn == [] && x.dropped == [] &&
            if s.receivers != [] then
              Wakes(s, op) == Receiver(s.receivers[0], op.item) && s' == s.(receivers := s.receivers[1..]) &&
              x.sent == x.joined == x.out == [op.item]
            else
              Wakes(s, op) == Nobody && x.out == [] &&
              if |s.list| < s.capacity then
                s' == s.(list := s'.list) && x.sent == x.joined == [op.item] &&
                exists k :: PlacedAt(s.list, op.item, s'.list, k)
              else if op.Psnd? then s' == s && x.sent == x.joined == []
              else s' == s.(senders := s'.senders) && x.sent == [op.item] && x.joined == [] &&
                   exists k :: JoinedAt(s.tpri, s.senders, Waiter(op.task, op.pri, op.item), s'.senders, k)
  {
    SamePriorityInOrder(s.list, op.item);
    if op.Snd? {
      JoinKeepsOrder(s.tpri, s.senders, Waiter(op.task, op.pri, op.item));
    }
  }

  /** A receive takes the first datum, and the first waiting sender can go on; without a datum the caller of
      rcv_pdq waits behind the other receivers, and prcv_pdq does nothing. */
  lemma ReceiveEffect(s: Pdq, op: Op)
    requires Ok(s) && (op.Rcv? || op.Prcv?)
    ensures var x := Do(s, op);
            var s' := x.after;
            x.sent == x.withdrawn == x.dropped == [] &&
            if s.list == [] && s.senders == [] then
              Wakes(s, op) == Nobody && x.joined == x.out == [] &&
              s' == if op.Rcv? then s.(receivers := s.receivers + [op.task]) else s
            else if s.senders == [] then
              Wakes(s, op) == Nobody && x.joined == [] && x.out == [s.list[0]] && s' == s.(list := s.list[1..])
            else
              Wakes(s, op) == Sender(s.senders[0].task) && x.joined == [s.senders[0].info] &&
              s' == s.(list := s'.list, senders := s.senders[1..]) &&
              if s.list == [] then x.out == [s.senders[0].info] && s'.list == []
              else x.out == [s.list[0]] && exists k :: PlacedAt(s.list[1..], s.senders[0].info, s'.list, k)
  {
    if s.list != [] && s.senders != [] {
      SamePriorityInOrder(s.list[1..], s.senders[0].info);
    }
  }

  /** A task whose wait ends early is in no queue any more, and a sender takes its datum back; a change of its
      priority moves a sender in a queue by priority and nothing else; ini_pdq empties everything. */
  lemma LeavingEffect(s: Pdq, op: Op)
    requires Ok(s) && (op.EndWait? || op.ChgPri? || op.Ini?)
    ensures var x := Do(s, op);
            var s' := x.after;
            x.sent == x.joined == x.out == [] && Wakes(s, op) == Nobody &&
            match op
            case EndWait(task) =>
              s' == s.(senders := s'.senders, receivers := s'.receivers) && x.dropped == [] &&
              !Queued(s'.senders, task) && task !in s'.receivers &&
              (forall t :: t != task ==> (t in s'.receivers <==> t in s.receivers)) && Sub(s'.receivers, s.receivers) &&
              Left(s.senders, task, s'.senders, x.withdrawn)
            case ChgPri(task, pri) =>
              s' == s.(senders := s'.senders) && x.withdrawn == x.dropped == [] &&
              (if s.tpri && Queued(s.senders, task)
               then exists w, k :: w in s.senders && w.task == task &&
                      JoinedAt(true, Leave(s.senders, task), w.(pri := pri), s'.senders, k)
               else s' == s)
            case Ini =>
              s'.list == [] && s'.senders == [] && s'.receivers == [] && x.dropped == s.list &&
              x.withdrawn == Infos(s.senders)
            case _ => true
  {
    match op
    case EndWait(task) =>
      WithoutTask(s.receivers, task);
      LeaveEffect(s.senders, task);
    case ChgPri(task, pri) => ReprioritizedMoves(s.tpri, s.senders, task, pri);
    case _ =>
  }

  // ---------- Receivers ----------

  /** The task begins to wait for a datum, is handed one, or stops waiting without one. */
  function BeginsToWait(s: Pdq, op: Op): seq<nat> {
    if op.Rcv? && s.list == [] && s.senders == [] then [op.task] else []
  }

  function Served(w: Woken): seq<nat> {
    if w.Receiver? then [w.task] else []
  }

  function Quits(s: Pdq, op: Op): seq<nat> {
    if op.EndWait? && op.task in s.receivers then [op.task] else if op.Ini? then s.receivers else []
  }

  function AllBegin(s: Pdq, ops: seq<Op>): seq<nat>
    decreases |ops|
  {
    if ops == [] then [] else BeginsToWait(s, ops[0]) + AllBegin(Do(s, ops[0]).after, ops[1..])
  }

  function AllServed(s: Pdq, ops: seq<Op>): seq<nat>
    decreases |ops|
  {
    if ops == [] then [] else Served(Wakes(s, ops[0])) + AllServed(Do(s, ops[0]).after, ops[1..])
  }

  function AllQuit(s: Pdq, ops: seq<Op>): seq<nat>
    decreases |ops|
  {
    if ops == [] then [] else Quits(s, ops[0]) + AllQuit(Do(s, ops[0]).after, ops[1..])
  }

  lemma ServedInTurn(s: Pdq, op: Op)
    requires Ok(s) && Legal(s, op)
    ensures Fifo(s.receivers, BeginsToWait(s, op), Served(Wakes(s, op)), Do(s, op).after.receivers, Quits(s, op))
  {
    FifoSteps<nat>(s.receivers, if op.Rcv? then op.task else 0);
    match op
    case EndWait(task) =>
      WithoutTask(s.receivers, task);
      FifoWithout(s.receivers, Do(s, op).after.receivers, Quits(s, op));
    case Ini => FifoWithout(s.receivers, [], s.receivers);
    case Snd(_, _, _) => SendEffect(s, op);
    case Psnd(_) => SendEffect(s, op);
    case Rcv(_) => ReceiveEffect(s, op);
    case Prcv => ReceiveEffect(s, op);
    case ChgPri(_, _) =>
  }

  /** Over any run, waiting receivers are handed data in the order in which they began to wait; none is passed
      over, unless it stopped waiting or the queue was initialized. */
  lemma {:induction false} ReceiversInTurn(s: Pdq, ops: seq<Op>)
    requires Ok(s) && LegalRun(s, ops)
    ensures Fifo(s.receivers, AllBegin(s, ops), AllServed(s, ops), Run(s, ops).after.receivers, AllQuit(s, ops))
    decreases |ops|
  {
    if ops == [] {
      FifoWithout(s.receivers, s.receivers, []);
    } else {
      var s1 := Do(s, ops[0]).after;
      DoKeeps(s, ops[0]);
      ServedInTurn(s, ops[0]);
      ReceiversInTurn(s1, ops[1..]);
      FifoAdds(s.receivers, BeginsToWait(s, ops[0]), Served(Wakes(s, ops[0])), s1.receivers, Quits(s, ops[0]),
               AllBegin(s1, ops[1..]), AllServed(s1, ops[1..]), Run(s1, ops[1..]).after.receivers,
               AllQuit(s1, ops[1..]));
    }
  }

  // ---------- Conservation ----------

  ghost function Held(s: Pdq): multiset<Item> {
    multiset(s.list) + multiset(Infos(s.senders))
  }

  ghost function Discarded(x: Step): multiset<Item> {
    multiset(x.withdrawn) + multiset(x.dropped)
  }

  ghost predicate Balanced(s: Pdq, x: Step) {
    Held(s) + multiset(x.sent) == Held(x.after) + multiset(x.out) + Discarded(x)
  }

  lemma FirstOf(l: seq<Item>)
    requires l != []
    ensures multiset(l) == multiset{l[0]} + multiset(l[1..])
  {
    assert l == [l[0]] + l[1..];
  }

  lemma SendConserves(s: Pdq, task: nat, pri: nat, it: Item)
    ensures Balanced(s, Do(s, Snd(task, pri, it)))
  {
    var x := Do(s, Snd(task, pri, it));
    if s.receivers != [] {
      assert Held(x.after) == Held(s);
    } else if |s.list| < s.capacity {
      EnqueueContents(s.list, it);
      assert Held(x.after) == Held(s) + multiset{it};
    } else {
      JoinInfos(s.tpri, s.senders, Waiter(task, pri, it));
      assert Held(x.after) == Held(s) + multiset{it};
    }
  }

  lemma PollSendConserves(s: Pdq, it: Item)
    ensures Balanced(s, Do(s, Psnd(it)))
  {
    var x := Do(s, Psnd(it));
    if s.receivers != [] {
      assert Held(x.after) == Held(s);
    } else if |s.list| < s.capacity {
      EnqueueContents(s.list, it);
      assert Held(x.after) == Held(s) + multiset{it};
    }
  }

  lemma FirstInfo(q: seq<Waiter<Item>>)
    requires q != []
    ensures multiset(Infos(q)) == multiset{q[0].info} + multiset(Infos(q[1..]))
  {
    InfosOfFirst(q);
  }

  lemma ReceivedConserves(s: Pdq)
    ensures Held(s) == Held(ReceivePridata(s).0) + multiset(Taken(ReceivePridata(s).1))
  {
    var (s', it, _) := ReceivePridata(s);
    if s.list != [] && s.senders != [] {
      FirstOf(s.list);
      FirstInfo(s.senders);
      EnqueueContents(s.list[1..], s.senders[0].info);
      assert multiset(s'.list) == multiset(s.list[1..]) + multiset{s.senders[0].info};
    } else if s.list != [] {
      FirstOf(s.list);
    } else if s.senders != [] {
      FirstInfo(s.senders);
    }
  }

  lemma ReceiveConserves(s: Pdq, task: nat)
    ensures Balanced(s, Do(s, Rcv(task))) && Balanced(s, Do(s, Prcv))
  {
    ReceivedConserves(s);
    assert Held(Do(s, Rcv(task)).after) == Held(Do(s, Prcv).after);
  }

  lemma DoConserves(s: Pdq, op: Op)
    ensures Balanced(s, Do(s, op))
  {
    match op
    case Snd(task, pri, it) => SendConserves(s, task, pri, it);
    case Psnd(it) => PollSendConserves(s, it);
    case Rcv(task) => ReceiveConserves(s, task);
    case Prcv => ReceiveConserves(s, 0);
    case EndWait(task) => LeaveInfos(s.senders, task);
    case ChgPri(task, pri) => ReprioritizedInfos(s.tpri, s.senders, task, pri);
    case Ini =>
  }

  /** Over any run: everything sent is received or discarded once, or is still there. */
  lemma {:induction false} RunConserves(s: Pdq, ops: seq<Op>)
    ensures Balanced(s, Run(s, ops))
    decreases |ops|
  {
    if ops != [] {
      var x := Do(s, ops[0]);
      var y := Run(x.after, ops[1..]);
      DoConserves(s, ops[0]);
      RunConserves(x.after, ops[1..]);
      DiscardedAdds(x, y, Run(s, ops));
      Counting.BalancesAdd(Held(s), multiset(x.sent), Held(x.after), multiset(x.out), Discarded(x),
                           multiset(y.sent), Held(y.after), multiset(y.out), Discarded(y));
    }
  }

  lemma DiscardedAdds(x: Step, y: Step, z: Step)
    requires z.withdrawn == x.withdrawn + y.withdrawn && z.dropped == x.dropped + y.dropped
    ensures Discarded(z) == Discarded(x) + Discarded(y)
  {
  }

  // ---------- Order within a priority ----------

  /** The data of priority `pri`. */
  function Only(l: seq<Item>, pri: nat): seq<Item> {
    if l == [] then []
    else if l[0].pri == pri then [l[0]] + Only(l[1..], pri)
    else Only(l[1..], pri)
  }

  lemma {:induction false} OnlyAppend(l: seq<Item>, m: seq<Item>, pri: nat)
    ensures Only(l + m, pri) == Only(l, pri) + Only(m, pri)
  {
    if l == [] {
      assert l + m == m;
    } else {
      assert (l + m)[1..] == l[1..] + m;
      OnlyAppend(l[1..], m, pri);
    }
  }

  lemma {:induction false} NoneOf(l: seq<Item>, pri: nat)
    requires forall i :: 0 <= i < |l| ==> l[i].pri != pri
    ensures Only(l, pri) == []
  {
    if l != [] {
      NoneOf(l[1..], pri);
    }
  }

  lemma OnlyOne(it: Item, pri: nat)
    ensures Only([it], pri) == if it.pri == pri then [it] else []
  {
    assert [it][1..] == [];
  }

  /** A datum that is put into the queue becomes the last of its priority. */
  lemma EnqueueIsLast(l: seq<Item>, it: Item, pri: nat)
    requires Sorted(l)
    ensures Only(Enqueue(l, it), pri) == Only(l, pri) + Only([it], pri)
  {
    var k := EnqueueSplits(l, it);
    assert l == l[..k] + l[k..] && Enqueue(l, it) == l[..k] + ([it] + l[k..]);
    OnlyAppend(l[..k], l[k..], pri);
    OnlyAppend(l[..k], [it] + l[k..], pri);
    OnlyAppend([it], l[k..], pri);
    OnlyOne(it, pri);
    if it.pri == pri {
      forall i | k <= i < |l|
        ensures l[i].pri != pri
      {
        assert l[k].pri <= l[i].pri;
      }
      NoneOf(l[k..], pri);
    }
  }

  /** Among data of priority `pri`: first in, first out. */
  ghost predicate FifoWithin(s: Pdq, x: Step, pri: nat) {
    Fifo(Only(s.list, pri), Only(x.joined, pri), Only(x.out, pri), Only(x.after.list, pri), Only(x.dropped, pri))
  }

  lemma SendIsFifo(s: Pdq, task: nat, pri: nat, it: Item, p: nat)
    requires Ok(s)
    ensures FifoWithin(s, Do(s, Snd(task, pri, it)), p) && FifoWithin(s, Do(s, Psnd(it)), p)
  {
    EnqueueIsLast(s.list, it, p);
    FifoWithout(Only(s.list, p), Only(s.list, p), []);
    if s.receivers != [] {
      assert Only([it], p) + [] == [] + Only([it], p);
      FifoInFull(Only(s.list, p), Only([it], p), Only([it], p), Only(s.list, p), []);
    } else if |s.list| < s.capacity {
      assert [] + Only(Enqueue(s.list, it), p) == Only(s.list, p) + Only([it], p);
      FifoInFull(Only(s.list, p), Only([it], p), [], Only(Enqueue(s.list, it), p), []);
    }
  }

  lemma ReceiveIsFifo(s: Pdq, task: nat, p: nat)
    requires Ok(s)
    ensures FifoWithin(s, Do(s, Rcv(task)), p) && FifoWithin(s, Do(s, Prcv), p)
  {
    var x := Do(s, Prcv);
    if s.list != [] {
      assert s.list == [s.list[0]] + s.list[1..];
      OnlyAppend([s.list[0]], s.list[1..], p);
      if s.senders != [] {
        EnqueueIsLast(s.list[1..], s.senders[0].info, p);
      }
      assert Only(x.out, p) + Only(x.after.list, p) == Only(s.list, p) + Only(x.joined, p);
    } else {
      assert Only(x.out, p) + [] == [] + Only(x.joined, p);
    }
    FifoInFull(Only(s.list, p), Only(x.joined, p), Only(x.out, p), Only(x.after.list, p), []);
  }

  lemma DoIsFifo(s: Pdq, op: Op, p: nat)
    requires Ok(s)
    ensures FifoWithin(s, Do(s, op), p)
  {
    match op
    case Snd(task, pri, it) => SendIsFifo(s, task, pri, it, p);
    case Psnd(it) => SendIsFifo(s, 0, 0, it, p);
    case Rcv(task) => ReceiveIsFifo(s, task, p);
    case Prcv => ReceiveIsFifo(s, 0, p);
    case EndWait(task) => FifoWithout(Only(s.list, p), Only(s.list, p), []);
    case ChgPri(task, pri) => FifoWithout(Only(s.list, p), Only(s.list, p), []);
    case Ini => FifoWithout(Only(s.list, p), [], Only(s.list, p));
  }

  /** Over any run, data of one priority come out in the order in which they joined the queue, and
      none is missing unless the queue was initialized. */
  lemma {:induction false} RunIsFifo(s: Pdq, ops: seq<Op>, p: nat)
    requires Ok(s) && LegalRun(s, ops)
    ensures FifoWithin(s, Run(s, ops), p)
    decreases |ops|
  {
    if ops == [] {
      FifoWithout(Only(s.list, p), Only(s.list, p), []);
    } else {
      var x := Do(s, ops[0]);
      var y := Run(x.after, ops[1..]);
      DoKeeps(s, ops[0]);
      DoIsFifo(s, ops[0], p);
      RunIsFifo(x.after, ops[1..], p);
      OnlyAppend(x.joined, y.joined, p);
      OnlyAppend(x.out, y.out, p);
      OnlyAppend(x.dropped, y.dropped, p);
      FifoAdds(Only(s.list, p), Only(x.joined, p), Only(x.out, p), Only(x.after.list, p), Only(x.dropped, p),
               Only(y.joined, p), Only(y.out, p), Only(y.after.list, p), Only(y.dropped, p));
    }
  }
}

/** The lists in memory and the service calls on them. */
module Pridataq {
  import opened Options
  import opened Counting
  import Precedence
  import opened LinkedList
  import opened WaitQueue
  import opened PridataqModel

  function Items(blocks: seq<nat>, data: seq<int>, pri: seq<nat>): (r: seq<Item>)
    requires |data| == |pri| && InTable(blocks, |data|)
    ensures |r| == |blocks|
  {
    seq(|blocks|, i requires 0 <= i < |blocks| => assert blocks[i] in blocks; Item(data[blocks[i]], pri[blocks[i]]))
  }

  predicate InTable(blocks: seq<nat>, n: nat) {
    forall b: nat :: b in blocks ==> b < n
  }

  lemma ItemsFrame(blocks: seq<nat>, data: seq<int>, pri: seq<nat>, b: nat, it: Item)
    requires |data| == |pri| && InTable(blocks, |data|) && b < |data| && b !in blocks
    ensures Items(blocks, data[b := it.data], pri[b := it.pri]) == Items(blocks, data, pri)
  {
    assert forall i :: 0 <= i < |blocks| ==> blocks[i] in blocks;
  }

  lemma ItemsInsert(blocks: seq<nat>, data: seq<int>, pri: seq<nat>, b: nat, k: nat)
    requires |data| == |pri| && InTable(blocks, |data|) && b < |data| && k <= |blocks|
    ensures var r := blocks[..k] + [b] + blocks[k..];
            InTable(r, |data|) &&
            Items(r, data, pri) ==
              Items(blocks, data, pri)[..k] + [Item(data[b], pri[b])] + Items(blocks, data, pri)[k..]
  {
    var r := blocks[..k] + [b] + blocks[k..];
    assert blocks == blocks[..k] + blocks[k..];
    assert forall x :: x in r ==> x == b || x in blocks;
  }

  /** The blocks that were used so far are on one of the two lists. */
  ghost predicate Cover(used: seq<nat>, free: seq<nat>, unused: nat) {
    && Precedence.NoDuplicates(used) && Precedence.NoDuplicates(free)
    && (forall b :: b in used ==> b !in free)
    && (forall b: nat :: b < unused <==> b in used || b in free)
  }

  /** So many blocks, and no more, were ever used: `unused` never passes the end of the table. */
  lemma CoverCount(used: seq<nat>, free: seq<nat>, unused: nat)
    requires Cover(used, free, unused)
    ensures |used| + |free| == unused
  {
    var a, b := set x: nat | x in used, set x: nat | x in free;
    Members(used);
    Members(free);
    BeforeCount(unused);
    assert Before(unused) == a + b && a !! b;
  }

  lemma CoverInsert(used: seq<nat>, free: seq<nat>, unused: nat, b: nat, k: nat)
    requires Cover(used + [b], free, unused) && k <= |used|
    ensures Cover(used[..k] + [b] + used[k..], free, unused)
    ensures Precedence.NoDuplicates(used) && b !in used && b !in free
  {
    var u, u' := used + [b], used[..k] + [b] + used[k..];
    assert u[|used|] == b;
    assert used == used[..k] + used[k..];
    assert forall x :: x in u' <==> x in u;
    assert forall i :: 0 <= i < |used| ==> u[i] == used[i];
    assert forall i :: 0 <= i < |u'| ==> u'[i] == if i < k then u[i] else if i == k then b else u[i - 1];
  }

  lemma CoverMove(used: seq<nat>, free: seq<nat>, unused: nat)
    requires Cover(used, free, unused) && used != []
    ensures Cover(used[1..], [used[0]] + free, unused)
  {
    Precedence.TailContents(used);
    var f := [used[0]] + free;
    assert used[0] in used && used[0] !in free;
    assert forall i :: 0 < i < |f| ==> f[i] == free[i - 1];
  }

  class PriDataQueue {
    const tpri: bool
    const next: array<Option<nat>>
    const data: array<int>
    const datapri: array<nat>
    var head: Option<nat>
    var freelist: Option<nat>
    var count: nat
    var unused: nat
    var swait: seq<Waiter<Item>>
    var rwait: seq<nat>
    ghost var used: seq<nat>
    ghost var free: seq<nat>

    ghost predicate Valid()
      reads `head, `freelist, `count, `unused, `used, `free, next
    {
      && next.Length == data.Length == datapri.Length
      && Cover(used, free, unused) && count == |used| && unused <= next.Length
      && Chain(next[..], head, used) && Chain(next[..], freelist, free)
    }

    ghost function Abs(): Pdq
      requires Valid()
      reads this, next, data, datapri
    {
      Pdq(next.Length, tpri, Items(used, data[..], datapri[..]), swait, rwait)
    }

    // initialize_pridataq
    constructor (pdqcnt: nat, tpri: bool)
      ensures Valid() && fresh(next) && fresh(data) && fresh(datapri)
      ensures Abs() == Pdq(pdqcnt, tpri, [], [], []) && Ok(Abs())
    {
      this.tpri := tpri;
      next := new Option<nat>[pdqcnt];
      data := new int[pdqcnt];
      datapri := new nat[pdqcnt];
      head, freelist, count, unused := None, None, 0, 0;
      swait, rwait, used, free := [], [], [], [];
    }

    // enqueue_pridata, the choice of a block
    method TakeBlock() returns (b: nat)
      requires Valid() && count < next.Length
      modifies `freelist, `unused, `free
      ensures next.Length == data.Length == datapri.Length && b < next.Length && unused <= next.Length
      ensures Chain(next[..], head, used) && Chain(next[..], freelist, free)
      ensures b !in used && b !in free && Cover(used + [b], free, unused) && InTable(used, next.Length)
    {
      CoverCount(used, free, unused);
      if freelist != None {
        b := freelist.value;
        freelist := next[b];
        Precedence.TailContents(free);
        assert b == free[0];
        free := free[1..];
      } else {
        assert free == [];
        b := unused;
        unused := unused + 1;
      }
    }

    // enqueue_pridata, the search for the place; `at` is the block whose p_next is looked at, or
    // none for p_head
    method FindPlace(pri: nat) returns (at: Option<nat>, cur: Option<nat>, ghost k: nat)
      requires Chain(next[..], head, used) && next.Length == datapri.Length
      ensures k <= |used| && cur == Link(used, k) && at == if k == 0 then None else Some(used[k - 1])
      ensures forall j :: 0 <= j < k ==> used[j] < datapri.Length && datapri[used[j]] <= pri
      ensures k < |used| ==> used[k] < datapri.Length && pri < datapri[used[k]]
    {
      at, cur := None, head;
      k := 0;
      assert used[0..] == used;
      while cur != None
        invariant k <= |used| && cur == Link(used, k) && Chain(next[..], cur, used[k..])
        invariant at == if k == 0 then None else Some(used[k - 1])
        invariant forall j :: 0 <= j < k ==> used[j] < datapri.Length && datapri[used[j]] <= pri
        decreases |used| - k
      {
        if datapri[cur.value] > pri {
          break;
        }
        ChainAt(next[..], cur, used[k..], 0);
        at := cur;
        cur := next[cur.value];
        k := k + 1;
      }
    }

    // enqueue_pridata, the linking
    method LinkBlock(b: nat, at: Option<nat>, cur: Option<nat>, ghost k: nat)
      requires Chain(next[..], head, used) && Chain(next[..], freelist, free) && b < next.Length
      requires Cover(used + [b], free, unused) && k <= |used|
      requires cur == Link(used, k) && at == if k == 0 then None else Some(used[k - 1])
      modifies next, `head, `used
      ensures used == old(used)[..k] + [b] + old(used)[k..]
      ensures Chain(next[..], head, used) && Chain(next[..], freelist, free)
      ensures Cover(used, free, unused)
    {
      CoverInsert(used, free, unused, b, k);
      ghost var p := next[..];
      ChainFrame(p, b, cur, freelist, free);
      next[b] := cur;
      assert next[..] == p[b := cur];
      if at == None {
        ChainPush(p, head, used, b);
        head := Some(b);
        assert used[..0] + [b] + used[0..] == [b] + used;
      } else {
        ChainInsert(p, head, used, k, b);
        assert used[k - 1] in used;
        ChainFrame(next[..], at.value, Some(b), freelist, free);
        next[at.value] := Some(b);
        assert next[..] == p[b := cur][at.value := Some(b)];
      }
      used := used[..k] + [b] + used[k..];
    }

    // enqueue_pridata
    method EnqueuePridata(it: Item)
      requires Valid() && count < next.Length
      modifies this, next, data, datapri
      ensures Valid() && Abs() == old(Abs()).(list := Enqueue(old(Abs()).list, it))
    {
      ghost var l := Abs().list;
      var b := TakeBlock();
      Store(b, it);
      var at, cur;
      ghost var k;
      at, cur, k := FindPlace(it.pri);
      EnqueueAt(l, it, k);
      ItemsInsert(used, data[..], datapri[..], b, k);
      LinkBlock(b, at, cur, k);
      count := count + 1;
    }

    method Store(b: nat, it: Item)
      requires data.Length == datapri.Length && b < data.Length && InTable(used, data.Length) && b !in used
      modifies data, datapri
      ensures data[b] == it.data && datapri[b] == it.pri
      ensures Items(used, data[..], datapri[..]) == old(Items(used, data[..], datapri[..]))
    {
      ItemsFrame(used, data[..], datapri[..], b, it);
      ghost var d, p := data[..], datapri[..];
      data[b] := it.data;
      datapri[b] := it.pri;
      assert data[..] == d[b := it.data] && datapri[..] == p[b := it.pri];
    }

    // dequeue_pridata
    method DequeuePridata() returns (it: Item)
      requires Valid() && count > 0
      modifies `head, `freelist, `count, `used, `free, next
      ensures Valid() && it == old(Abs()).list[0] && count == old(count) - 1
      ensures Abs() == old(Abs()).(list := old(Abs()).list[1..])
    {
      var b := head.value;
      ghost var p := next[..];
      Precedence.TailContents(used);
      head := next[b];
      count := count - 1;
      it := Item(data[b], datapri[b]);
      ChainFrame(p, b, freelist, next[b], used[1..]);
      ChainPush(p, freelist, free, b);
      next[b] := freelist;
      assert next[..] == p[b := freelist];
      freelist := Some(b);
      used, free := used[1..], [b] + free;
      CoverMove(old(used), old(free), unused);
    }

    // send_pridata
    method SendPridata(it: Item) returns (done: bool, woken: Woken)
      requires Valid()
      modifies this, next, data, datapri
      ensures Valid() && (Abs(), done, woken) == PridataqModel.SendPridata(old(Abs()), it)
    {
      if rwait != [] {
        woken := Receiver(rwait[0], it);
        rwait := rwait[1..];
        done := true;
      } else if count < next.Length {
        EnqueuePridata(it);
        done, woken := true, Nobody;
      } else {
        done, woken := false, Nobody;
      }
    }

    // receive_pridata
    method ReceivePridata() returns (it: Option<Item>, woken: Woken)
      requires Valid()
      modifies this, next, data, datapri
      ensures Valid() && (Abs(), it, woken) == PridataqModel.ReceivePridata(old(Abs()))
    {
      woken := Nobody;
      if count > 0 {
        CoverCount(used, free, unused);
        var x := DequeuePridata();
        it := Some(x);
        if swait != [] {
          woken := Sender(swait[0].task);
          x := swait[0].info;
          swait := swait[1..];
          EnqueuePridata(x);
        }
      } else if swait != [] {
        it, woken := Some(swait[0].info), Sender(swait[0].task);
        swait := swait[1..];
      } else {
        it := None;
      }
    }

    // snd_pdq and tsnd_pdq; `raster` tells whether the termination of the caller is requested,
    // `polling` that the time limit is TMO_POL
    method Snd(task: nat, pri: nat, it: Item, raster: bool, polling: bool) returns (ercd: Ercd, woken: Woken)
      requires Valid()
      modifies this, next, data, datapri
      ensures Valid()
      ensures ercd == if raster then E_RASTER else if PridataqModel.SendPridata(old(Abs()), it).1 then E_OK
                      else if polling then E_TMOUT else Waits
      ensures Abs() == if raster then old(Abs())
                       else Do(old(Abs()), if polling then Op.Psnd(it) else Op.Snd(task, pri, it)).after
      ensures woken == if raster then Nobody else PridataqModel.SendPridata(old(Abs()), it).2
    {
      if raster {
        return E_RASTER, Nobody;
      }
      var done;
      done, woken := SendPridata(it);
      ercd := if done then E_OK else if polling then E_TMOUT else Waits;
      if ercd == Waits {
        if tpri {
          swait := InsertTpri(swait, Waiter(task, pri, it));
        } else {
          swait := swait + [Waiter(task, pri, it)];
        }
      }
    }

    // rcv_pdq, trcv_pdq and, with `polling` and never E_RASTER, prcv_pdq
    method Rcv(task: nat, raster: bool, polling: bool) returns (ercd: Ercd, it: Option<Item>, woken: Woken)
      requires Valid()
      modifies this, next, data, datapri
      ensures Valid()
      ensures ercd == if raster then E_RASTER else if PridataqModel.ReceivePridata(old(Abs())).1.Some? then E_OK
                      else if polling then E_TMOUT else Waits
      ensures Abs() == if raster then old(Abs())
                       else Do(old(Abs()), if polling then Op.Prcv else Op.Rcv(task)).after
      ensures (it, woken) == if raster then (None, Nobody)
                             else (PridataqModel.ReceivePridata(old(Abs())).1,
                                   PridataqModel.ReceivePridata(old(Abs())).2)
    {
      if raster {
        return E_RASTER, None, Nobody;
      }
      it, woken := ReceivePridata();
      ercd := if it != None then E_OK else if polling then E_TMOUT else Waits;
      if ercd == Waits {
        rwait := rwait + [task];
      }
    }

    // the wait of a task ends early
    method EndWait(task: nat)
      requires Valid()
      modifies `swait, `rwait
      ensures Valid() && Abs() == Do(old(Abs()), Op.EndWait(task)).after
    {
      swait := Leave(swait, task);
      rwait := Precedence.Without(rwait, task);
    }

    // wobj_change_priority, which only concerns the senders
    method ChgPri(task: nat, pri: nat)
      requires Valid()
      modifies `swait
      ensures Valid() && Abs() == Do(old(Abs()), Op.ChgPri(task, pri)).after
    {
      if tpri && Queued(swait, task) {
        swait := InsertTpri(Leave(swait, task), WaiterOf(swait, task).(pri := pri));
      }
    }

    // ini_pdq
    method Ini()
      requires Valid()
      modifies this
      ensures Valid() && Abs() == Do(old(Abs()), Op.Ini).after
    {
      swait, rwait := [], [];
      count, head, unused, freelist := 0, None, 0, None;
      used, free := [], [];
    }
  }
}
