/**
 Event flags (asp3/kernel/eventflag.c): a bit pattern, and tasks that wait for all (TWF_ANDW) or any
 (TWF_ORW) of the bits they name.
 */
module EventflagModel {
  import opened Subsequence
  import opened WaitQueue

  /** What a task waits for. */
  datatype Cond = Cond(waiptn: bv32, orw: bool)

  datatype Flag = Flag(tpri: bool, wmul: bool, clr: bool, iflgptn: bv32, flgptn: bv32, wait: seq<Waiter<Cond>>)

  /** The task whose wait ended, with the pattern it was given. */
  datatype Released = Released(task: nat, ptn: bv32)

  function Common(p: bv32, q: bv32): bv32 {
    p & q
  }

  function Either(p: bv32, q: bv32): bv32 {
    p | q
  }

  predicate Satisfied(ptn: bv32, c: Cond) {
    if c.orw then Common(ptn, c.waiptn) != 0 else Common(ptn, c.waiptn) == c.waiptn
  }

  /** No waiting task's condition holds, and without TA_WMUL one task waits at most. */
  ghost predicate Ok(s: Flag) {
    && Ordered(s.tpri, s.wait)
    && (!s.wmul ==> |s.wait| <= 1)
    && forall i :: 0 <= i < |s.wait| ==> s.wait[i].info.waiptn != 0 && !Satisfied(s.flgptn, s.wait[i].info)
  }

  // ---------- The patterns ----------

  lemma NothingSatisfies(c: Cond)
    requires c.waiptn != 0
    ensures !Satisfied(0, c)
  {
  }

  lemma FewerBits(p: bv32, q: bv32, w: bv32)
    ensures p & q & w != 0 ==> p & w != 0
    ensures p & q & w == w ==> p & w == w
  {
    assert p & q & w == p & w & q;
    assert p & w & q == w ==> p & w & w == w;
  }

  /** Clearing bits satisfies nobody. */
  lemma ClearingSatisfiesNobody(ptn: bv32, clrptn: bv32, c: Cond)
    ensures Satisfied(Common(ptn, clrptn), c) ==> Satisfied(ptn, c)
  {
    FewerBits(ptn, clrptn, c.waiptn);
  }

  // ---------- Setting ----------

  /** The waiting tasks whose condition holds, and those whose does not, in queue order. */
  function Satisfying(ptn: bv32, q: seq<Waiter<Cond>>): (r: seq<Released>)
  {
    if q == [] then []
    else (if Satisfied(ptn, q[0].info) then [Released(q[0].task, ptn)] else []) + Satisfying(ptn, q[1..])
  }

  function Remaining(ptn: bv32, q: seq<Waiter<Cond>>): (r: seq<Waiter<Cond>>)
  {
    if q == [] then []
    else (if Satisfied(ptn, q[0].info) then [] else [q[0]]) + Remaining(ptn, q[1..])
  }

  /** The queue without its first task whose condition holds. */
  function WithoutFirst(ptn: bv32, q: seq<Waiter<Cond>>): seq<Waiter<Cond>> {
    if q == [] then []
    else if Satisfied(ptn, q[0].info) then q[1..]
    else [q[0]] + WithoutFirst(ptn, q[1..])
  }

  /** What set_flg does to the queue: without TA_CLR all tasks whose condition holds are released,
      with it the first, and the pattern is cleared. */
  function Scan(clr: bool, ptn: bv32, q: seq<Waiter<Cond>>): (r: (bv32, seq<Waiter<Cond>>, seq<Released>)) {
    if !clr then (ptn, Remaining(ptn, q), Satisfying(ptn, q))
    else if Satisfying(ptn, q) == [] then (ptn, q, [])
    else (0, WithoutFirst(ptn, q), Satisfying(ptn, q)[..1])
  }

  function Set(s: Flag, setptn: bv32): (Flag, seq<Released>) {
    var (ptn, q, r) := Scan(s.clr, Either(s.flgptn, setptn), s.wait);
    (s.(flgptn := ptn, wait := q), r)
  }

  lemma {:induction false} NoneSatisfied(ptn: bv32, q: seq<Waiter<Cond>>)
    ensures Satisfying(ptn, q) == [] <==> forall i :: 0 <= i < |q| ==> !Satisfied(ptn, q[i].info)
  {
    if q != [] {
      NoneSatisfied(ptn, q[1..]);
      assert forall i :: 1 <= i < |q| ==> q[i] == q[1..][i - 1];
      assert Satisfying(ptn, q[1..]) == [] ==> forall i :: 0 <= i < |q[1..]| ==> !Satisfied(ptn, q[1..][i].info);
      if !Satisfied(ptn, q[0].info) && Satisfying(ptn, q[1..]) != [] {
        var i :| 0 <= i < |q[1..]| && Satisfied(ptn, q[1..][i].info);
        assert Satisfied(ptn, q[i + 1].info);
      }
    }
  }

  lemma {:induction false} RemainingAreUnsatisfied(ptn: bv32, q: seq<Waiter<Cond>>)
    ensures |Remaining(ptn, q)| <= |q|
    ensures forall i :: 0 <= i < |Remaining(ptn, q)| ==>
              !Satisfied(ptn, Remaining(ptn, q)[i].info) && Remaining(ptn, q)[i] in q
  {
    if q != [] {
      RemainingAreUnsatisfied(ptn, q[1..]);
    }
  }

  /** A task keeps waiting exactly if its condition does not hold. */
  lemma {:induction false} RemainingExactly(ptn: bv32, q: seq<Waiter<Cond>>, w: Waiter<Cond>)
    ensures w in Remaining(ptn, q) <==> w in q && !Satisfied(ptn, w.info)
  {
    if q != [] {
      RemainingExactly(ptn, q[1..], w);
      assert q == [q[0]] + q[1..];
    }
  }

  /** A task is released exactly if it waited and its condition holds. */
  lemma {:induction false} ReleasedExactly(ptn: bv32, q: seq<Waiter<Cond>>, r: Released)
    ensures r in Satisfying(ptn, q) <==> exists w :: w in q && Satisfied(ptn, w.info) && r == Released(w.task, ptn)
  {
    if q != [] {
      ReleasedExactly(ptn, q[1..], r);
      assert q == [q[0]] + q[1..];
    }
  }

  lemma {:induction false} RemainingOrdered(tpri: bool, ptn: bv32, q: seq<Waiter<Cond>>)
    requires Ordered(tpri, q)
    ensures Ordered(tpri, Remaining(ptn, q))
  {
    if q != [] {
      RemainingOrdered(tpri, ptn, q[1..]);
      var r := Remaining(ptn, q[1..]);
      forall i | 0 <= i < |r|
        ensures r[i].task != q[0].task && (tpri ==> q[0].pri <= r[i].pri)
      {
        RemainingExactly(ptn, q[1..], r[i]);
        var j :| 0 <= j < |q[1..]| && q[1..][j] == r[i];
        assert q[j + 1] == r[i];
      }
    }
  }

  /** Under TA_CLR the first task whose condition holds leaves, and no other. */
  lemma {:induction false} FirstLeaves(ptn: bv32, q: seq<Waiter<Cond>>) returns (k: nat)
    requires Satisfying(ptn, q) != []
    ensures k < |q| && Satisfied(ptn, q[k].info) && (forall i :: 0 <= i < k ==> !Satisfied(ptn, q[i].info))
    ensures Satisfying(ptn, q)[0] == Released(q[k].task, ptn)
    ensures WithoutFirst(ptn, q) == q[..k] + q[k + 1..]
  {
    if Satisfied(ptn, q[0].info) {
      k := 0;
    } else {
      assert Satisfying(ptn, q) == Satisfying(ptn, q[1..]);
      var k' := FirstLeaves(ptn, q[1..]);
      k := k' + 1;
      assert forall i :: 1 <= i < k ==> q[i] == q[1..][i - 1];
      assert q[..k] == [q[0]] + q[1..][..k'] && q[k + 1..] == q[1..][k' + 1..];
    }
  }

  // ---------- The scan of the queue ----------

  /** The first `i` tasks of what is left of queue `q` were passed over, those in `released` left. */
  ghost predicate Scanned(ptn: bv32, q: seq<Waiter<Cond>>, wait: seq<Waiter<Cond>>, i: nat, released: seq<Released>) {
    && i <= |wait|
    && Satisfying(ptn, q) == released + Satisfying(ptn, wait[i..])
    && Remaining(ptn, q) == wait[..i] + Remaining(ptn, wait[i..])
  }

  ghost predicate ScannedForFirst(ptn: bv32, q: seq<Waiter<Cond>>, i: nat) {
    && i <= |q|
    && Satisfying(ptn, q) == Satisfying(ptn, q[i..])
    && WithoutFirst(ptn, q) == q[..i] + WithoutFirst(ptn, q[i..])
  }

  lemma ScannedAll(ptn: bv32, q: seq<Waiter<Cond>>, wait: seq<Waiter<Cond>>, i: nat, released: seq<Released>)
    requires Scanned(ptn, q, wait, i, released) && i >= |wait|
    ensures released == Satisfying(ptn, q) && wait == Remaining(ptn, q)
  {
    assert wait[i..] == [] && wait[..i] == wait;
  }

  lemma PassOver(ptn: bv32, q: seq<Waiter<Cond>>, wait: seq<Waiter<Cond>>, i: nat, released: seq<Released>)
    requires Scanned(ptn, q, wait, i, released) && i < |wait| && !Satisfied(ptn, wait[i].info)
    ensures Scanned(ptn, q, wait, i + 1, released)
  {
    assert wait[i..][1..] == wait[i + 1..];
    assert wait[..i + 1] == wait[..i] + [wait[i]];
  }

  lemma PassOverFirst(ptn: bv32, q: seq<Waiter<Cond>>, i: nat)
    requires ScannedForFirst(ptn, q, i) && i < |q| && !Satisfied(ptn, q[i].info)
    ensures ScannedForFirst(ptn, q, i + 1)
  {
    assert q[i..][1..] == q[i + 1..];
    assert q[..i + 1] == q[..i] + [q[i]];
  }

  lemma Release(ptn: bv32, q: seq<Waiter<Cond>>, wait: seq<Waiter<Cond>>, i: nat, released: seq<Released>)
    requires Scanned(ptn, q, wait, i, released) && i < |wait| && Satisfied(ptn, wait[i].info)
    ensures Scanned(ptn, q, wait[..i] + wait[i + 1..], i, released + [Released(wait[i].task, ptn)])
  {
    var wait' := wait[..i] + wait[i + 1..];
    assert wait'[i..] == wait[i..][1..] && wait'[..i] == wait[..i];
  }

  lemma ReleaseFirst(ptn: bv32, q: seq<Waiter<Cond>>, i: nat)
    requires ScannedForFirst(ptn, q, i) && i < |q| && Satisfied(ptn, q[i].info)
    ensures Satisfying(ptn, q) != [] && Satisfying(ptn, q)[..1] == [Released(q[i].task, ptn)]
    ensures WithoutFirst(ptn, q) == q[..i] + q[i + 1..]
  {
    assert q[i..][1..] == q[i + 1..];
  }

  /** After set_flg nobody waits whose condition holds. */
  lemma SetKeeps(s: Flag, setptn: bv32)
    requires Ok(s)
    ensures Ok(Set(s, setptn).0)
  {
    var ptn := Either(s.flgptn, setptn);
    if !s.clr {
      RemainingOrdered(s.tpri, ptn, s.wait);
      RemainingAreUnsatisfied(ptn, s.wait);
    } else if Satisfying(ptn, s.wait) == [] {
      NoneSatisfied(ptn, s.wait);
    } else {
      var k := FirstLeaves(ptn, s.wait);
      ClearedKeeps(s, k);
    }
  }

  /** With all bits cleared nobody's condition holds. */
  lemma ClearedKeeps(s: Flag, k: nat)
    requires Ok(s) && k < |s.wait|
    ensures Ok(s.(flgptn := 0, wait := s.wait[..k] + s.wait[k + 1..]))
  {
    forall w | w in s.wait
      ensures w.info.waiptn != 0 && !Satisfied(0, w.info)
    {
      NothingSatisfies(w.info);
    }
  }

  // ---------- The other operations ----------

  function Clear(s: Flag, clrptn: bv32): Flag {
    s.(flgptn := Common(s.flgptn, clrptn))
  }

  /** check_flg_cond. */
  function Check(s: Flag, c: Cond): (Flag, bool) {
    if Satisfied(s.flgptn, c) then (if s.clr then s.(flgptn := 0) else s, true) else (s, false)
  }

  function Wait(s: Flag, task: nat, pri: nat, c: Cond): (Flag, Ercd) {
    if c.waiptn == 0 then (s, E_PAR)
    else if !s.wmul && s.wait != [] then (s, E_ILUSE)
    else if Check(s, c).1 then (Check(s, c).0, E_OK)
    else (s.(wait := Join(s.tpri, s.wait, Waiter(task, pri, c))), Waits)
  }

  function Poll(s: Flag, c: Cond): (Flag, Ercd) {
    if c.waiptn == 0 then (s, E_PAR)
    else if !s.wmul && s.wait != [] then (s, E_ILUSE)
    else if Check(s, c).1 then (Check(s, c).0, E_OK)
    else (s, E_TMOUT)
  }

  // ---------- What the operations do ----------

  lemma PatternsExactly(p: bv32, q: bv32)
    ensures Common(p, q) == p & q && Either(p, q) == p | q
  {
  }

  /** The bits of `m` are among those of `p`. */
  predicate Within(m: bv32, p: bv32) {
    m & p == m
  }

  /** The condition as wai_flg defines it: with TWF_ORW some bits of the pattern, with TWF_ANDW all of them. */
  lemma AnyOfThem(ptn: bv32, waiptn: bv32)
    ensures Satisfied(ptn, Cond(waiptn, true)) <==> exists m: bv32 :: m != 0 && Within(m, waiptn) && Within(m, ptn)
  {
    if ptn & waiptn != 0 {
      CommonIsWithin(ptn, waiptn);
    }
    if m: bv32 :| m != 0 && Within(m, waiptn) && Within(m, ptn) {
      WithinBoth(m, ptn, waiptn);
    }
  }

  lemma AllOfThem(ptn: bv32, waiptn: bv32)
    ensures Satisfied(ptn, Cond(waiptn, false)) <==> forall m: bv32 :: Within(m, waiptn) ==> Within(m, ptn)
  {
    WithinItself(ptn, waiptn);
    if ptn & waiptn == waiptn {
      forall m: bv32 | Within(m, waiptn)
        ensures Within(m, ptn)
      {
        WithinAll(m, ptn, waiptn);
      }
    }
  }

  lemma WithinItself(p: bv32, q: bv32)
    ensures Within(q, q) && (Within(q, p) <==> p & q == q)
  {
  }

  lemma CommonIsWithin(p: bv32, q: bv32)
    ensures Within(p & q, p) && Within(p & q, q)
  {
  }

  lemma WithinBoth(m: bv32, p: bv32, q: bv32)
    requires m != 0 && Within(m, p) && Within(m, q)
    ensures p & q != 0
  {
    assert m & (p & q) == m;
  }

  lemma WithinAll(m: bv32, p: bv32, q: bv32)
    requires p & q == q && Within(m, q)
    ensures Within(m, p)
  {
    assert m & (p & q) == (m & q) & p;
  }

  /** wai_flg and pol_flg: refused for an empty pattern, and when another task waits on a flag without TA_WMUL;
      done at once, with all bits cleared under TA_CLR, if the condition holds; otherwise wai_flg waits. */
  lemma WaitEffect(s: Flag, task: nat, pri: nat, c: Cond)
    requires Ok(s) && !Queued(s.wait, task)
    ensures var (s', ercd) := Wait(s, task, pri, c);
            if c.waiptn == 0 then ercd == E_PAR && s' == s
            else if !s.wmul && s.wait != [] then ercd == E_ILUSE && s' == s
            else if Satisfied(s.flgptn, c) then ercd == E_OK && s' == s.(flgptn := if s.clr then 0 else s.flgptn)
            else ercd == Waits && s' == s.(wait := s'.wait) &&
                 exists k :: JoinedAt(s.tpri, s.wait, Waiter(task, pri, c), s'.wait, k)
    ensures var (s', ercd) := Poll(s, c);
            if c.waiptn == 0 then ercd == E_PAR && s' == s
            else if !s.wmul && s.wait != [] then ercd == E_ILUSE && s' == s
            else if Satisfied(s.flgptn, c) then ercd == E_OK && s' == s.(flgptn := if s.clr then 0 else s.flgptn)
            else ercd == E_TMOUT && s' == s
  {
    JoinKeepsOrder(s.tpri, s.wait, Waiter(task, pri, c));
  }

  /** All tasks of the queue, as they would be released with the pattern. */
  function EachReleased(ptn: bv32, q: seq<Waiter<Cond>>): seq<Released> {
    if q == [] then [] else [Released(q[0].task, ptn)] + EachReleased(ptn, q[1..])
  }

  lemma {:induction false} ScanInOrder(ptn: bv32, q: seq<Waiter<Cond>>)
    ensures Sub(Satisfying(ptn, q), EachReleased(ptn, q)) && Sub(Remaining(ptn, q), q)
  {
    if q != [] {
      ScanInOrder(ptn, q[1..]);
      var first := [Released(q[0].task, ptn)];
      assert EachReleased(ptn, q)[1..] == EachReleased(ptn, q[1..]) && EachReleased(ptn, q)[0] == first[0];
      if Satisfied(ptn, q[0].info) {
        assert Satisfying(ptn, q) == first + Satisfying(ptn, q[1..]);
        assert (first + Satisfying(ptn, q[1..]))[1..] == Satisfying(ptn, q[1..]);
        assert Remaining(ptn, q) == Remaining(ptn, q[1..]);
      } else {
        assert Satisfying(ptn, q) == Satisfying(ptn, q[1..]);
        assert Remaining(ptn, q) == [q[0]] + Remaining(ptn, q[1..]);
        assert ([q[0]] + Remaining(ptn, q[1..]))[1..] == Remaining(ptn, q[1..]);
      }
    }
  }

  /** set_flg without TA_CLR: the bits are added, the tasks whose condition holds then are released in queue order
      with the new pattern, and the others go on waiting. */
  lemma SetEffect(s: Flag, setptn: bv32)
    requires !s.clr
    ensures var (s', released) := Set(s, setptn);
            var ptn := Either(s.flgptn, setptn);
            s' == s.(flgptn := ptn, wait := s'.wait) && Sub(s'.wait, s.wait) &&
            Sub(released, EachReleased(ptn, s.wait)) &&
            (forall w :: w in s'.wait <==> w in s.wait && !Satisfied(ptn, w.info)) &&
            (forall r :: r in released <==>
               exists w :: w in s.wait && Satisfied(ptn, w.info) && r == Released(w.task, ptn))
  {
    var ptn := Either(s.flgptn, setptn);
    ScanInOrder(ptn, s.wait);
    forall w
      ensures w in Remaining(ptn, s.wait) <==> w in s.wait && !Satisfied(ptn, w.info)
    {
      RemainingExactly(ptn, s.wait, w);
    }
    forall r
      ensures r in Satisfying(ptn, s.wait) <==>
              exists w :: w in s.wait && Satisfied(ptn, w.info) && r == Released(w.task, ptn)
    {
      ReleasedExactly(ptn, s.wait, r);
    }
  }

  /** Under TA_CLR only the first such task is released, and all bits are cleared. */
  lemma SetClearEffect(s: Flag, setptn: bv32)
    requires s.clr
    ensures var (s', released) := Set(s, setptn);
            var ptn := Either(s.flgptn, setptn);
            if forall i :: 0 <= i < |s.wait| ==> !Satisfied(ptn, s.wait[i].info)
            then s' == s.(flgptn := ptn) && released == []
            else exists k :: 0 <= k < |s.wait| && Satisfied(ptn, s.wait[k].info) &&
                             (forall i :: 0 <= i < k ==> !Satisfied(ptn, s.wait[i].info)) &&
                             released == [Released(s.wait[k].task, ptn)] &&
                             s' == s.(flgptn := 0, wait := s.wait[..k] + s.wait[k + 1..])
  {
    var ptn := Either(s.flgptn, setptn);
    NoneSatisfied(ptn, s.wait);
    if Satisfying(ptn, s.wait) != [] {
      var k := FirstLeaves(ptn, s.wait);
      assert Satisfied(ptn, s.wait[k].info) && Set(s, setptn).1 == [Released(s.wait[k].task, ptn)];
    }
  }

  /** clr_flg takes bits away; ini_flg restores the initial pattern and releases all; a task whose wait ends early
      is not in the queue any more; a change of its priority moves it, and nothing else. */
  lemma OtherEffect(s: Flag, op: Op)
    requires Ok(s) && (op.ClrFlg? || op.EndWait? || op.ChgPri? || op.IniFlg?)
    ensures var s' := Do(s, op);
            match op
            case ClrFlg(clrptn) => s' == s.(flgptn := Common(s.flgptn, clrptn))
            case EndWait(task) =>
              s' == s.(wait := s'.wait) && !Queued(s'.wait, task) &&
              exists infos :: Left(s.wait, task, s'.wait, infos)
            case ChgPri(task, pri) =>
              s' == s.(wait := s'.wait) &&
              (if s.tpri && Queued(s.wait, task)
               then exists w, k :: w in s.wait && w.task == task &&
                      JoinedAt(true, Leave(s.wait, task), w.(pri := pri), s'.wait, k)
               else s' == s)
            case IniFlg => s' == s.(flgptn := s.iflgptn, wait := [])
            case _ => true
  {
    match op
    case EndWait(task) => LeaveEffect(s.wait, task);
    case ChgPri(task, pri) => ReprioritizedMoves(s.tpri, s.wait, task, pri);
    case _ =>
  }

  // ---------- No satisfied task waits ----------

  lemma ClearKeeps(s: Flag, clrptn: bv32)
    requires Ok(s)
    ensures Ok(Clear(s, clrptn))
  {
    forall i | 0 <= i < |s.wait|
      ensures !Satisfied(Common(s.flgptn, clrptn), s.wait[i].info)
    {
      ClearingSatisfiesNobody(s.flgptn, clrptn, s.wait[i].info);
    }
  }

  lemma CheckKeeps(s: Flag, c: Cond)
    requires Ok(s)
    ensures Ok(Check(s, c).0)
  {
    forall i | 0 <= i < |s.wait|
      ensures !Satisfied(0, s.wait[i].info)
    {
      NothingSatisfies(s.wait[i].info);
    }
  }

  lemma {:induction false} InsertContents(q: seq<Waiter<Cond>>, w: Waiter<Cond>)
    ensures forall x :: x in Insert(q, w) <==> x == w || x in q
  {
    if q != [] && !(w.pri < q[0].pri) {
      InsertContents(q[1..], w);
      assert q == [q[0]] + q[1..];
    }
  }

  lemma WaitKeeps(s: Flag, task: nat, pri: nat, c: Cond)
    requires Ok(s) && !Queued(s.wait, task)
    ensures Ok(Wait(s, task, pri, c).0)
  {
    CheckKeeps(s, c);
    var w := Waiter(task, pri, c);
    JoinKeepsOrder(s.tpri, s.wait, w);
    InsertContents(s.wait, w);
    var q := Join(s.tpri, s.wait, w);
    if !Satisfied(s.flgptn, c) && c.waiptn != 0 {
      forall i | 0 <= i < |q|
        ensures q[i].info.waiptn != 0 && !Satisfied(s.flgptn, q[i].info)
      {
        assert q[i] in q;
      }
    }
  }

  lemma LeaveKeeps(s: Flag, task: nat)
    requires Ok(s)
    ensures Ok(s.(wait := Leave(s.wait, task)))
  {
    LeaveKeepsOrder(s.tpri, s.wait, task);
    if Queued(s.wait, task) {
      var k := LeaveSplits(s.wait, task);
      assert forall x :: x in Leave(s.wait, task) ==> x in s.wait;
    } else {
      LeaveAbsent(s.wait, task);
    }
  }

  lemma MoveKeeps(s: Flag, task: nat, pri: nat)
    requires Ok(s)
    ensures Ok(s.(wait := Reprioritized(s.tpri, s.wait, task, pri)))
  {
    ReprioritizedKeepsOrder(s.tpri, s.wait, task, pri);
    if s.tpri && Queued(s.wait, task) {
      var q, w := Leave(s.wait, task), WaiterOf(s.wait, task).(pri := pri);
      var k := LeaveSplits(s.wait, task);
      WaiterOfIsIn(s.wait, task);
      InsertContents(q, w);
      assert forall x :: x in q ==> x in s.wait;
      forall i | 0 <= i < |Insert(q, w)|
        ensures Insert(q, w)[i].info.waiptn != 0 && !Satisfied(s.flgptn, Insert(q, w)[i].info)
      {
        assert Insert(q, w)[i] in Insert(q, w);
      }
    }
  }

  // ---------- Runs ----------

  datatype Op =
    | SetFlg(setptn: bv32)
    | ClrFlg(clrptn: bv32)
    | WaiFlg(task: nat, pri: nat, cond: Cond)
    | PolFlg(cond: Cond)
    | EndWait(task: nat)
    | ChgPri(task: nat, pri: nat)
    | IniFlg

  predicate Legal(s: Flag, op: Op) {
    op.WaiFlg? ==> !Queued(s.wait, op.task)
  }

  function Do(s: Flag, op: Op): Flag {
    match op
    case SetFlg(setptn) => Set(s, setptn).0
    case ClrFlg(clrptn) => Clear(s, clrptn)
    case WaiFlg(task, pri, c) => Wait(s, task, pri, c).0
    case PolFlg(c) => Poll(s, c).0
    case EndWait(task) => s.(wait := Leave(s.wait, task))
    case ChgPri(task, pri) => s.(wait := Reprioritized(s.tpri, s.wait, task, pri))
    case IniFlg => s.(flgptn := s.iflgptn, wait := [])
  }

  function Run(s: Flag, ops: seq<Op>): Flag
    decreases |ops|
  {
    if ops == [] || !Legal(s, ops[0]) then s else Run(Do(s, ops[0]), ops[1..])
  }

  /** Over any run, no task waits whose condition holds. */
  lemma {:induction false} RunKeeps(s: Flag, ops: seq<Op>)
    requires Ok(s)
    ensures Ok(Run(s, ops))
    decreases |ops|
  {
    if ops != [] && Legal(s, ops[0]) {
      match ops[0] {
        case SetFlg(setptn) => SetKeeps(s, setptn);
        case ClrFlg(clrptn) => ClearKeeps(s, clrptn);
        case WaiFlg(task, pri, c) => WaitKeeps(s, task, pri, c);
        case PolFlg(c) => CheckKeeps(s, c);
        case EndWait(task) => LeaveKeeps(s, task);
        case ChgPri(task, pri) => MoveKeeps(s, task, pri);
        case IniFlg =>
      }
      RunKeeps(Do(s, ops[0]), ops[1..]);
    }
  }
}

/** The service calls. */
module Eventflag {
  import opened WaitQueue
  import opened EventflagModel

  class EventFlag {
    const tpri: bool
    const wmul: bool
    const clr: bool
    const iflgptn: bv32
    var flgptn: bv32
    var wait: seq<Waiter<Cond>>

    function Abs(): Flag
      reads this
    {
      Flag(tpri, wmul, clr, iflgptn, flgptn, wait)
    }

    // initialize_eventflag
    constructor (tpri: bool, wmul: bool, clr: bool, iflgptn: bv32)
      ensures Abs() == Flag(tpri, wmul, clr, iflgptn, iflgptn, []) && Ok(Abs())
    {
      this.tpri, this.wmul, this.clr, this.iflgptn := tpri, wmul, clr, iflgptn;
      flgptn, wait := iflgptn, [];
    }

    // check_flg_cond
    method CheckFlgCond(c: Cond) returns (holds: bool, ptn: bv32)
      modifies `flgptn
      ensures (Abs(), holds) == Check(old(Abs()), c) && (holds ==> ptn == old(flgptn))
    {
      holds := if c.orw then Common(flgptn, c.waiptn) != 0 else Common(flgptn, c.waiptn) == c.waiptn;
      ptn := flgptn;
      if holds && clr {
        flgptn := 0;
      }
    }

    // set_flg
    method SetFlg(setptn: bv32) returns (released: seq<Released>)
      modifies this
      ensures (Abs(), released) == Set(old(Abs()), setptn)
    {
      flgptn := Either(flgptn, setptn);
      released := ScanQueue();
    }

    // the loop of set_flg
    method ScanQueue() returns (released: seq<Released>)
      modifies this
      ensures (flgptn, wait, released) == Scan(clr, old(flgptn), old(wait))
    {
      released := [];
      var i := 0;
      ghost var ptn := flgptn;
      ghost var q := wait;
      assert q[0..] == q;
      while i < |wait|
        invariant i <= |wait| && flgptn == ptn
        invariant if clr then wait == q && released == [] && ScannedForFirst(ptn, q, i)
                  else Scanned(ptn, q, wait, i, released)
        decreases |wait| - i
      {
        var w := wait[i];
        var holds, got := CheckFlgCond(w.info);
        if holds {
          if clr {
            ReleaseFirst(ptn, q, i);
          } else {
            Release(ptn, q, wait, i, released);
          }
          wait := wait[..i] + wait[i + 1..];
          released := released + [Released(w.task, got)];
          if clr {
            assert released == [Released(q[i].task, ptn)] && flgptn == 0;
            return;
          }
        } else {
          if clr {
            PassOverFirst(ptn, q, i);
          } else {
            PassOver(ptn, q, wait, i, released);
          }
          i := i + 1;
        }
      }
      if clr {
        assert q[i..] == [];
      } else {
        ScannedAll(ptn, q, wait, i, released);
      }
    }

    // clr_flg
    method ClrFlg(clrptn: bv32)
      modifies `flgptn
      ensures Abs() == Clear(old(Abs()), clrptn) && flgptn == Common(old(flgptn), clrptn)
    {
      flgptn := Common(flgptn, clrptn);
    }

    // wai_flg and twai_flg; `raster` tells whether the termination of the caller is requested,
    // `polling` that the time limit is TMO_POL
    method WaiFlg(task: nat, pri: nat, c: Cond, raster: bool, polling: bool) returns (ercd: Ercd, ptn: bv32)
      modifies this
      ensures (Abs(), ercd) == if c.waiptn == 0 then (old(Abs()), E_PAR)
                               else if raster then (old(Abs()), E_RASTER)
                               else if polling then Poll(old(Abs()), c)
                               else Wait(old(Abs()), task, pri, c)
      ensures ercd == E_OK ==> ptn == old(flgptn)
    {
      ptn := 0;
      if c.waiptn == 0 {
        ercd := E_PAR;
      } else if raster {
        ercd := E_RASTER;
      } else if !wmul && wait != [] {
        ercd := E_ILUSE;
      } else {
        var holds;
        holds, ptn := CheckFlgCond(c);
        if holds {
          ercd := E_OK;
        } else if polling {
          ercd := E_TMOUT;
        } else {
          if tpri {
            wait := InsertTpri(wait, Waiter(task, pri, c));
          } else {
            wait := wait + [Waiter(task, pri, c)];
          }
          ercd := Waits;
        }
      }
    }

    // pol_flg
    method PolFlg(c: Cond) returns (ercd: Ercd, ptn: bv32)
      modifies this
      ensures (Abs(), ercd) == Poll(old(Abs()), c) && (ercd == E_OK ==> ptn == old(flgptn))
    {
      ptn := 0;
      if c.waiptn == 0 {
        ercd := E_PAR;
      } else if !wmul && wait != [] {
        ercd := E_ILUSE;
      } else {
        var holds;
        holds, ptn := CheckFlgCond(c);
        ercd := if holds then E_OK else E_TMOUT;
      }
    }

    // the wait of a task ends early
    method EndWait(task: nat)
      modifies `wait
      ensures Abs() == Do(old(Abs()), Op.EndWait(task))
    {
      wait := Leave(wait, task);
    }

    // wobj_change_priority
    method ChgPri(task: nat, pri: nat)
      modifies `wait
      ensures Abs() == Do(old(Abs()), Op.ChgPri(task, pri))
    {
      if tpri && Queued(wait, task) {
        wait := InsertTpri(Leave(wait, task), WaiterOf(wait, task).(pri := pri));
      }
    }

    // ini_flg
    method IniFlg()
      modifies this
      ensures Abs() == Do(old(Abs()), Op.IniFlg)
    {
      wait := [];
      flgptn := iflgptn;
    }
  }
}
