/**
 The order in which tasks wait: over any run, in every wait queue, nobody who waits behind another is
 served before it.
 */
module KernelOrder {
  import opened Options
  import opened Precedence
  import opened KernelModel
  import opened KernelSafety
  import opened KernelRuns
  import opened KernelEffects

  // ---------- Order in a list ----------

  ghost predicate Before(q: seq<nat>, x: nat, y: nat) {
    exists i, j :: 0 <= i < j < |q| && q[i] == x && q[j] == y
  }

  lemma BeforeAppend(q: seq<nat>, t: nat, x: nat, y: nat)
    requires Before(q, x, y)
    ensures Before(q + [t], x, y)
  {
    var i, j :| 0 <= i < j < |q| && q[i] == x && q[j] == y;
    assert (q + [t])[i] == x && (q + [t])[j] == y;
  }

  lemma BeforeTail(q: seq<nat>, x: nat, y: nat)
    requires Before(q, x, y) && NoDuplicates(q)
    ensures q != [] && y != q[0] && (if x == q[0] then x !in q[1..] else Before(q[1..], x, y))
  {
    var i, j :| 0 <= i < j < |q| && q[i] == x && q[j] == y;
    if i > 0 {
      assert q[1..][i - 1] == x && q[1..][j - 1] == y;
    }
  }

  lemma BeforeWithout(q: seq<nat>, t: nat, x: nat, y: nat)
    requires Before(q, x, y) && t != x && t != y
    ensures Before(Without(q, t), x, y)
  {
    var i, j :| 0 <= i < j < |q| && q[i] == x && q[j] == y;
    if t in q {
      var k := WithoutSplits(q, t);
      var r := Without(q, t);
      assert i != k && j != k;
      var i', j' := if i < k then i else i - 1, if j < k then j else j - 1;
      assert r[i'] == x && r[j'] == y && 0 <= i' < j' < |r|;
    } else {
      WithoutAbsent(q, t);
    }
  }

  lemma BeforeInsert(q: seq<nat>, p: seq<nat>, t: nat, front: bool, x: nat, y: nat)
    requires Before(q, x, y)
    ensures Before(Insert(q, p, t, front), x, y)
  {
    var i, j :| 0 <= i < j < |q| && q[i] == x && q[j] == y;
    var k := InsertSplits(q, p, t, front);
    var r := Insert(q, p, t, front);
    var i', j' := if i < k then i else i + 1, if j < k then j else j + 1;
    assert r[i'] == x && r[j'] == y && 0 <= i' < j' < |r|;
  }

  /** Who is put behind its equals is behind all that are not less urgent. */
  lemma BeforeNewcomer(q: seq<nat>, p: seq<nat>, x: nat, y: nat)
    requires x in q && Sorted(q, p) && Of(p, x) <= Of(p, y)
    ensures Before(Insert(q, p, y, false), x, y)
  {
    var i :| 0 <= i < |q| && q[i] == x;
    assert forall j :: 0 <= j <= i ==> Of(p, q[j]) <= Of(p, q[i]);
    var k := InsertSplits(q, p, y, false);
    assert Insert(q, p, y, false)[i] == x && Insert(q, p, y, false)[k] == y;
  }

  // ---------- Turns ----------

  /** Task `x` has left, or `y` is still behind it, or the wait of `y` ended early: by a time limit, a release by
      force, or its termination. */
  ghost predicate TurnKept(s: State, s': State, o: nat, x: nat, y: nat) {
    && o < |s.waitq| == |s'.waitq| && Is(s', y)
    && (|| x !in s'.waitq[o] || Before(s'.waitq[o], x, y)
        || (y !in s'.waitq[o] && s'.tcb[y].winfo != Wercd(E_OK)))
  }

  /** Task `y` waits for the object behind `x`. */
  ghost predicate Behind(c: Config, s: State, o: nat, x: nat, y: nat) {
    Inv(c, s) && o < |c.obj| && Before(s.waitq[o], x, y)
  }

  lemma QueueFacts(c: Config, s: State, o: nat, x: nat, y: nat)
    requires Behind(c, s, o, x, y)
    ensures NoDuplicates(s.waitq[o]) && x in s.waitq[o] && y in s.waitq[o] && x != y
    ensures Is(s, x) && Is(s, y) && WaitsFor(s.tcb[x], o) && WaitsFor(s.tcb[y], o) && s.tcb[y].winfo.TimeBlock?
    ensures c.obj[o].tpri ==> Sorted(s.waitq[o], Prios(s.tcb)) && s.tcb[x].priority <= s.tcb[y].priority
  {
    assert QueueOk(c.obj[o].tpri, s.tcb, s.waitq[o], o, {});
    var i, j :| 0 <= i < j < |s.waitq[o]| && s.waitq[o][i] == x && s.waitq[o][j] == y;
    assert x in s.waitq[o] && y in s.waitq[o];
    assert StatOk(c, y, s.tcb[y], s.held[y]);
    assert c.obj[o].tpri ==> Of(Prios(s.tcb), s.waitq[o][i]) <= Of(Prios(s.tcb), s.waitq[o][j]);
  }

  lemma SameQueue(c: Config, s: State, s': State, o: nat, x: nat, y: nat)
    requires Behind(c, s, o, x, y) && |s'.waitq| == |s.waitq| && |s'.tcb| == |s.tcb| && s'.waitq[o] == s.waitq[o]
    ensures TurnKept(s, s', o, x, y)
  {
    QueueFacts(c, s, o, x, y);
  }

  lemma WaitTurn(c: Config, s: State, s': State, o: nat, x: nat, y: nat, t: nat, wait: Wait, limited: bool)
    requires Behind(c, s, o, x, y) && BeganToWait(c, s, s', t, wait, limited)
    ensures TurnKept(s, s', o, x, y)
  {
    QueueFacts(c, s, o, x, y);
    BeforeAppend(s.waitq[o], t, x, y);
    BeforeInsert(s.waitq[o], Prios(s.tcb), t, false, x, y);
  }

  /** A task leaves the queue, and unless its wait ends with E_OK nobody is served. */
  lemma LeaveTurn(c: Config, s: State, s': State, o: nat, x: nat, y: nat, t: nat)
    requires Behind(c, s, o, x, y) && |s'.waitq| == |s.waitq| && |s'.tcb| == |s.tcb|
    requires s'.waitq[o] == Without(s.waitq[o], t)
    requires t == y ==> Is(s', y) && s'.tcb[y].winfo != Wercd(E_OK)
    ensures TurnKept(s, s', o, x, y)
  {
    QueueFacts(c, s, o, x, y);
    if t == x || t == y {
      WithoutContents(s.waitq[o], t);
    } else {
      BeforeWithout(s.waitq[o], t, x, y);
    }
  }

  lemma EndTurn(c: Config, s: State, s': State, o: nat, x: nat, y: nat, t: nat, ercd: Ercd)
    requires Behind(c, s, o, x, y) && WaitEnded(s, s', t, ercd) && (ercd == E_OK ==> !WaitsFor(s.tcb[t], o))
    ensures TurnKept(s, s', o, x, y)
  {
    QueueFacts(c, s, o, x, y);
    if WaitsFor(s.tcb[t], o) {
      LeaveTurn(c, s, s', o, x, y, t);
    } else {
      SameQueue(c, s, s', o, x, y);
    }
  }

  lemma HeadTurn(c: Config, s: State, s': State, o: nat, x: nat, y: nat)
    requires Behind(c, s, o, x, y) && |s'.waitq| == |s.waitq| && |s'.tcb| == |s.tcb|
    requires s.waitq[o] != [] && s'.waitq[o] == s.waitq[o][1..]
    ensures TurnKept(s, s', o, x, y)
  {
    QueueFacts(c, s, o, x, y);
    BeforeTail(s.waitq[o], x, y);
  }

  lemma TerminationTurn(c: Config, s: State, s1: State, s': State, o: nat, x: nat, y: nat, t: nat)
    requires Behind(c, s, o, x, y) && Terminated(c, s1, s', t)
    requires s1 == s.(enadsp := s1.enadsp, ipmOpen := s1.ipmOpen)
    ensures TurnKept(s, s', o, x, y)
  {
    QueueFacts(c, s, o, x, y);
    assert TaskOk(c, t, s.tcb[t], s.held[t]);
    if o in s.held[t] {
      HeadTurn(c, s, s', o, x, y);
    } else if WaitsFor(s.tcb[t], o) {
      LeaveTurn(c, s, s', o, x, y, t);
    } else {
      SameQueue(c, s, s', o, x, y);
    }
  }

  /** What a queue by priority asks for: the priorities of the two stay, and the first is not put behind its
      equals by chg_pri. */
  ghost predicate Steady(c: Config, s: State, s': State, call: Call, o: nat, x: nat, y: nat) {
    o < |c.obj| && c.obj[o].tpri ==>
      && Is(s, x) && Is(s', x) && s'.tcb[x].priority == s.tcb[x].priority
      && Is(s, y) && Is(s', y) && s'.tcb[y].priority == s.tcb[y].priority
      && !(call.ChgPri? && call.t == x)
  }

  lemma MoveTurn(c: Config, s: State, s': State, o: nat, x: nat, y: nat, t: nat, v: Tcb, front: bool)
    requires Behind(c, s, o, x, y) && Moved(c, s, s', t, v, front) && v.tstat == s.tcb[t].tstat
    requires Is(s, y) && Is(s', y)
    requires c.obj[o].tpri ==> t != x && s'.tcb[y].priority == s.tcb[y].priority
    ensures TurnKept(s, s', o, x, y)
  {
    QueueFacts(c, s, o, x, y);
    if !(WaitsFor(v, o) && c.obj[o].tpri) {
      SameQueue(c, s, s', o, x, y);
    } else {
      MovedBehind(c, s, o, x, y, t, v);
    }
  }

  lemma MovedBehind(c: Config, s: State, o: nat, x: nat, y: nat, t: nat, v: Tcb)
    requires Behind(c, s, o, x, y) && Is(s, t) && WaitsFor(s.tcb[t], o) && c.obj[o].tpri && t != x
    requires t == y ==> v.priority == s.tcb[y].priority
    ensures Before(Insert(Without(s.waitq[o], t), Prios(s.tcb[t := v]), t, false), x, y)
  {
    QueueFacts(c, s, o, x, y);
    var q, p := Without(s.waitq[o], t), Prios(s.tcb[t := v]);
    if t == y {
      SamePrios(s.tcb, t, v);
      assert QueueOk(c.obj[o].tpri, s.tcb, s.waitq[o], o, {});
      WithoutContents(s.waitq[o], t);
      WithoutSorted(s.waitq[o], p, t);
      BeforeNewcomer(q, p, x, y);
    } else {
      BeforeWithout(s.waitq[o], t, x, y);
      BeforeInsert(q, p, t, false, x, y);
    }
  }

  // ---------- Every call ----------

  lemma TerTurn(c: Config, s: State, t: nat, o: nat, x: nat, y: nat)
    requires Behind(c, s, o, x, y) && Permitted(s, TerTsk(t)) && t < |c.ipriority|
    ensures TurnKept(s, Exec(c, s, TerTsk(t)).0, o, x, y)
  {
    TerTskEffect(c, s, t);
    var s' := Exec(c, s, TerTsk(t)).0;
    if s.runtsk == Some(t) || s.tcb[t].tstat.Dormant? {
      SameQueue(c, s, s', o, x, y);
    } else {
      TerminationTurn(c, s, s, s', o, x, y, t);
    }
  }

  lemma RasTurn(c: Config, s: State, t: nat, o: nat, x: nat, y: nat)
    requires Behind(c, s, o, x, y) && Permitted(s, RasTer(t)) && t < |c.ipriority|
    ensures TurnKept(s, Exec(c, s, RasTer(t)).0, o, x, y)
  {
    RasTerEffect(c, s, t);
    var s' := Exec(c, s, RasTer(t)).0;
    if s.runtsk == Some(t) || s.tcb[t].tstat.Dormant? {
      SameQueue(c, s, s', o, x, y);
    } else if s.tcb[t].enater {
      TerminationTurn(c, s, s, s', o, x, y, t);
    } else if s.tcb[t].tstat == Alive(NoWait, false) {
      SameQueue(c, s, s', o, x, y);
    } else if WaitsFor(s.tcb[t], o) {
      LeaveTurn(c, s, s', o, x, y, t);
    } else {
      SameQueue(c, s, s', o, x, y);
    }
  }

  lemma ExtTurn(c: Config, s: State, o: nat, x: nat, y: nat)
    requires Behind(c, s, o, x, y) && Permitted(s, ExtTsk)
    ensures TurnKept(s, Exec(c, s, ExtTsk).0, o, x, y)
  {
    ExtTskEffect(c, s);
    TerminationTurn(c, s, s.(enadsp := true, ipmOpen := true), Exec(c, s, ExtTsk).0, o, x, y, s.runtsk.value);
  }

  lemma EnaTerTurn(c: Config, s: State, o: nat, x: nat, y: nat)
    requires Behind(c, s, o, x, y) && Permitted(s, EnaTer)
    ensures TurnKept(s, Exec(c, s, EnaTer).0, o, x, y)
  {
    EnaTerEffect(c, s);
    var s' := Exec(c, s, EnaTer).0;
    var self := s.runtsk.value;
    if s.tcb[self].raster && s.enadsp && s.ipmOpen {
      TerminationTurn(c, s, s, s', o, x, y, self);
    } else {
      SameQueue(c, s, s', o, x, y);
    }
  }

  lemma MaskTurn(c: Config, s: State, call: Call, o: nat, x: nat, y: nat)
    requires Behind(c, s, o, x, y) && Permitted(s, call) && (call == DisDsp || call == EnaDsp || call.ChgIpm?)
    ensures TurnKept(s, Exec(c, s, call).0, o, x, y)
  {
    MaskEffect(c, s, call);
    var s' := Exec(c, s, call).0;
    var self := s.runtsk.value;
    var s1 := s.(enadsp := if call == DisDsp then false else if call == EnaDsp then true else s.enadsp,
                 ipmOpen := if call.ChgIpm? then call.open else s.ipmOpen);
    if call != DisDsp && s1.enadsp && s1.ipmOpen && s.tcb[self].raster && s.tcb[self].enater {
      TerminationTurn(c, s, s1, s', o, x, y, self);
    } else {
      SameQueue(c, s, s', o, x, y);
    }
  }

  lemma SleepTurn(c: Config, s: State, tmo: Tmo, o: nat, x: nat, y: nat)
    requires Behind(c, s, o, x, y) && Permitted(s, SlpTsk(tmo))
    ensures TurnKept(s, Exec(c, s, SlpTsk(tmo)).0, o, x, y)
  {
    SlpTskEffect(c, s, tmo);
    SameQueue(c, s, Exec(c, s, SlpTsk(tmo)).0, o, x, y);
  }

  lemma DelayTurn(c: Config, s: State, o: nat, x: nat, y: nat)
    requires Behind(c, s, o, x, y) && Permitted(s, DlyTsk)
    ensures TurnKept(s, Exec(c, s, DlyTsk).0, o, x, y)
  {
    DlyTskEffect(c, s);
    SameQueue(c, s, Exec(c, s, DlyTsk).0, o, x, y);
  }

  lemma WakeUpTurn(c: Config, s: State, t: nat, o: nat, x: nat, y: nat)
    requires Behind(c, s, o, x, y) && Permitted(s, WupTsk(t)) && t < |c.ipriority|
    ensures TurnKept(s, Exec(c, s, WupTsk(t)).0, o, x, y)
  {
    WupTskEffect(c, s, t);
    var s' := Exec(c, s, WupTsk(t)).0;
    if s.tcb[t].tstat.Alive? && s.tcb[t].tstat.wait == Sleep {
      EndTurn(c, s, s', o, x, y, t, E_OK);
    } else {
      SameQueue(c, s, s', o, x, y);
    }
  }

  lemma ReleaseTurn(c: Config, s: State, t: nat, o: nat, x: nat, y: nat)
    requires Behind(c, s, o, x, y) && Permitted(s, RelWai(t)) && t < |c.ipriority|
    ensures TurnKept(s, Exec(c, s, RelWai(t)).0, o, x, y)
  {
    RelWaiEffect(c, s, t);
    var s' := Exec(c, s, RelWai(t)).0;
    if s.tcb[t].tstat.Dormant? || s.tcb[t].tstat.wait == NoWait {
      SameQueue(c, s, s', o, x, y);
    } else {
      EndTurn(c, s, s', o, x, y, t, E_RLWAI);
    }
  }

  lemma TimeOutTurn(c: Config, s: State, t: nat, o: nat, x: nat, y: nat)
    requires Behind(c, s, o, x, y) && s.inHandler
    ensures TurnKept(s, Exec(c, s, TimeOut(t)).0, o, x, y)
  {
    TimeOutEffect(c, s, t);
    var s' := Exec(c, s, TimeOut(t)).0;
    if t in s.timers {
      EndTurn(c, s, s', o, x, y, t, if s.tcb[t].tstat.wait == Delay then E_OK else E_TMOUT);
    } else {
      SameQueue(c, s, s', o, x, y);
    }
  }

  lemma SuspendTurn(c: Config, s: State, t: nat, o: nat, x: nat, y: nat)
    requires Behind(c, s, o, x, y) && Permitted(s, SusTsk(t)) && t < |c.ipriority|
    ensures TurnKept(s, Exec(c, s, SusTsk(t)).0, o, x, y)
  {
    SusTskEffect(c, s, t);
    SameQueue(c, s, Exec(c, s, SusTsk(t)).0, o, x, y);
  }

  lemma ResumeTurn(c: Config, s: State, t: nat, o: nat, x: nat, y: nat)
    requires Behind(c, s, o, x, y) && Permitted(s, RsmTsk(t)) && t < |c.ipriority|
    ensures TurnKept(s, Exec(c, s, RsmTsk(t)).0, o, x, y)
  {
    RsmTskEffect(c, s, t);
    SameQueue(c, s, Exec(c, s, RsmTsk(t)).0, o, x, y);
  }

  lemma BaseTurn(c: Config, s: State, s': State, t: nat, newbpri: nat, o: nat, x: nat, y: nat)
    requires Behind(c, s, o, x, y) && Is(s, t) && Steady(c, s, s', ChgPri(t, newbpri), o, x, y)
    requires Moved(c, s, s', t, s.tcb[t].(bpriority := newbpri, priority := newbpri), false)
    ensures TurnKept(s, s', o, x, y)
  {
    QueueFacts(c, s, o, x, y);
    MoveTurn(c, s, s', o, x, y, t, s.tcb[t].(bpriority := newbpri, priority := newbpri), false);
  }

  lemma ChgPriTurn(c: Config, s: State, t: nat, newbpri: nat, o: nat, x: nat, y: nat)
    requires Behind(c, s, o, x, y) && Permitted(s, ChgPri(t, newbpri)) && t < |c.ipriority| && newbpri < TNUM_TPRI
    requires Steady(c, s, Exec(c, s, ChgPri(t, newbpri)).0, ChgPri(t, newbpri), o, x, y)
    ensures TurnKept(s, Exec(c, s, ChgPri(t, newbpri)).0, o, x, y)
  {
    ChgPriEffect(c, s, t, newbpri);
    var s' := Exec(c, s, ChgPri(t, newbpri)).0;
    if s'.waitq == s.waitq {
      SameQueue(c, s, s', o, x, y);
    } else {
      BaseTurn(c, s, s', t, newbpri, o, x, y);
    }
  }

  lemma LockTurn(c: Config, s: State, s': State, ercd: Ercd, self: nat, m: nat, tmo: Tmo, o: nat, x: nat, y: nat)
    requires Behind(c, s, o, x, y) && LockDone(c, s, s', ercd, self, m, tmo)
    ensures TurnKept(s, s', o, x, y)
  {
    if BeganToWait(c, s, s', self, OnObject(m), tmo == Limited) {
      WaitTurn(c, s, s', o, x, y, self, OnObject(m), tmo == Limited);
    } else {
      SameQueue(c, s, s', o, x, y);
    }
  }

  lemma LocTurn(c: Config, s: State, m: nat, tmo: Tmo, o: nat, x: nat, y: nat)
    requires Behind(c, s, o, x, y) && Permitted(s, LocMtx(m, tmo)) && m < |c.obj| && c.obj[m].mutex
    ensures TurnKept(s, Exec(c, s, LocMtx(m, tmo)).0, o, x, y)
  {
    LocMtxEffect(c, s, m, tmo);
    var (s', ercd) := Exec(c, s, LocMtx(m, tmo));
    if s.tcb[s.runtsk.value].raster {
      SameQueue(c, s, s', o, x, y);
    } else {
      LockTurn(c, s, s', ercd, s.runtsk.value, m, tmo, o, x, y);
    }
  }

  lemma PlocTurn(c: Config, s: State, m: nat, o: nat, x: nat, y: nat)
    requires Behind(c, s, o, x, y) && Permitted(s, PlocMtx(m)) && m < |c.obj| && c.obj[m].mutex
    ensures TurnKept(s, Exec(c, s, PlocMtx(m)).0, o, x, y)
  {
    PlocMtxEffect(c, s, m);
    var (s', ercd) := Exec(c, s, PlocMtx(m));
    LockTurn(c, s, s', ercd, s.runtsk.value, m, TMO_POL, o, x, y);
  }

  lemma UnlockedTurn(c: Config, s: State, s': State, t: nat, m: nat, o: nat, x: nat, y: nat)
    requires Behind(c, s, o, x, y) && Unlocked(c, s, s', t, m)
    ensures TurnKept(s, s', o, x, y)
  {
    if o == m && s.waitq[m] != [] {
      HeadTurn(c, s, s', o, x, y);
    } else {
      SameQueue(c, s, s', o, x, y);
    }
  }

  lemma UnlTurn(c: Config, s: State, m: nat, o: nat, x: nat, y: nat)
    requires Behind(c, s, o, x, y) && Permitted(s, UnlMtx(m)) && m < |c.obj| && c.obj[m].mutex
    ensures TurnKept(s, Exec(c, s, UnlMtx(m)).0, o, x, y)
  {
    UnlMtxEffect(c, s, m);
    var (s', ercd) := Exec(c, s, UnlMtx(m));
    if ercd == E_OK {
      UnlockedTurn(c, s, s', s.runtsk.value, m, o, x, y);
    } else {
      SameQueue(c, s, s', o, x, y);
    }
  }

  lemma FlushTurn(c: Config, s: State, s': State, o': nat, o: nat, x: nat, y: nat)
    requires Behind(c, s, o, x, y) && Flushed(s, s', o')
    ensures TurnKept(s, s', o, x, y) && (o != o' ==> s'.waitq[o] == s.waitq[o])
    ensures o == o' ==> x !in s'.waitq[o]
    ensures forall t: nat :: Is(s, t) && t !in s.waitq[o'] ==> s'.tcb[t] == s.tcb[t]
  {
    QueueFacts(c, s, o, x, y);
  }

  lemma WaitObjectTurn(c: Config, s: State, o': nat, limited: bool, o: nat, x: nat, y: nat)
    requires Behind(c, s, o, x, y) && Permitted(s, WaitObject(o', limited)) && o' < |c.obj| && !c.obj[o'].mutex
    ensures TurnKept(s, Exec(c, s, WaitObject(o', limited)).0, o, x, y)
  {
    WaitObjectEffect(c, s, o', limited);
    var s' := Exec(c, s, WaitObject(o', limited)).0;
    if s.tcb[s.runtsk.value].raster {
      SameQueue(c, s, s', o, x, y);
    } else {
      WaitTurn(c, s, s', o, x, y, s.runtsk.value, OnObject(o'), limited);
    }
  }

  lemma WakeObjectTurn(c: Config, s: State, o': nat, o: nat, x: nat, y: nat)
    requires Behind(c, s, o, x, y) && Permitted(s, WakeObject(o')) && o' < |c.obj| && !c.obj[o'].mutex
    ensures TurnKept(s, Exec(c, s, WakeObject(o')).0, o, x, y)
  {
    WakeObjectEffect(c, s, o');
    var s' := Exec(c, s, WakeObject(o')).0;
    if o == o' && s.waitq[o] != [] {
      HeadTurn(c, s, s', o, x, y);
    } else {
      SameQueue(c, s, s', o, x, y);
    }
  }

  lemma IniObjectTurn(c: Config, s: State, o': nat, o: nat, x: nat, y: nat)
    requires Behind(c, s, o, x, y) && Permitted(s, IniObject(o')) && o' < |c.obj| && !c.obj[o'].mutex
    ensures TurnKept(s, Exec(c, s, IniObject(o')).0, o, x, y)
  {
    IniObjectEffect(c, s, o');
    FlushTurn(c, s, Exec(c, s, IniObject(o')).0, o', o, x, y);
  }

  lemma RestTurn(c: Config, s: State, call: Call, o: nat, x: nat, y: nat)
    requires Behind(c, s, o, x, y) && Permitted(s, call) && ValidCall(c, call)
    requires call.ActTsk? || call.DisTer? || call.RotRdq? || call.EnterHandler? || call.ExitHandler?
    ensures TurnKept(s, Exec(c, s, call).0, o, x, y)
  {
    match call {
      case ActTsk(t) => ActTskEffect(c, s, t);
      case DisTer => DisTerEffect(c, s);
      case RotRdq(pri) => RotRdqEffect(c, s, pri);
      case EnterHandler => HandlerEffect(c, s);
      case ExitHandler => HandlerEffect(c, s);
    }
    SameQueue(c, s, Exec(c, s, call).0, o, x, y);
  }

  /** The holder is in no way concerned by the release of the tasks that wait for its mutex. */
  lemma HolderStays(c: Config, s: State, s1: State, m: nat, t: nat)
    requires Inv(c, s) && Flushed(s, s1, m) && m < |c.obj| && t < |s.held| && m in s.held[t]
    ensures Is(s, t) && Is(s1, t) && s1.tcb[t] == s.tcb[t] && s1.held == s.held
  {
    assert StatOk(c, t, s.tcb[t], s.held[t]);
    assert QueueOk(c.obj[m].tpri, s.tcb, s.waitq[m], m, {});
  }

  lemma FlushedPrios(s: State, s1: State, m: nat, t: nat, v: Tcb)
    requires Flushed(s, s1, m) && Is(s, t)
    ensures Is(s1, t) && Prios(s1.tcb[t := v]) == Prios(s.tcb[t := v])
  {
    forall i | 0 <= i < |s.tcb|
      ensures s1.tcb[i].priority == s.tcb[i].priority
    {
      assert i in s.waitq[m] || i !in s.waitq[m];
    }
  }

  lemma TakenTurn(c: Config, s: State, s1: State, s': State, m: nat, t: nat, o: nat, x: nat, y: nat)
    requires Behind(c, s, o, x, y) && Flushed(s, s1, m) && m < |c.obj| && m != o
    requires t < |s.held| && m in s.held[t] && TakenAway(c, s1, s', t, m)
    requires Steady(c, s, s', IniMtx(m), o, x, y)
    ensures TurnKept(s, s', o, x, y)
  {
    QueueFacts(c, s, o, x, y);
    HolderStays(c, s, s1, m, t);
    var p := CeilingOf(c, Without(s.held[t], m), s.tcb[t].bpriority);
    var v := s.tcb[t].(priority := p);
    FlushedPrios(s, s1, m, t, v);
    if p != s.tcb[t].priority && WaitsFor(v, o) && c.obj[o].tpri {
      MovedBehind(c, s, o, x, y, t, v);
    } else {
      SameQueue(c, s, s', o, x, y);
    }
  }

  lemma IniMtxTurn(c: Config, s: State, m: nat, o: nat, x: nat, y: nat)
    requires Behind(c, s, o, x, y) && Permitted(s, IniMtx(m)) && m < |c.obj| && c.obj[m].mutex
    requires Steady(c, s, Exec(c, s, IniMtx(m)).0, IniMtx(m), o, x, y)
    ensures TurnKept(s, Exec(c, s, IniMtx(m)).0, o, x, y)
  {
    IniMtxEffect(c, s, m);
    var s' := Exec(c, s, IniMtx(m)).0;
    var s1: State :| Initialized(c, s, s1, s', m);
    IniMtxCases(c, s, s1, s', m, o, x, y);
  }

  lemma IniMtxCases(c: Config, s: State, s1: State, s': State, m: nat, o: nat, x: nat, y: nat)
    requires Behind(c, s, o, x, y) && Initialized(c, s, s1, s', m) && m < |c.obj|
    requires Steady(c, s, s', IniMtx(m), o, x, y)
    ensures TurnKept(s, s', o, x, y)
  {
    QueueFacts(c, s, o, x, y);
    FlushTurn(c, s, s1, m, o, x, y);
    OwnedExactly(s.held, m);
    if Owned(s.held, m) {
      var t := Holder(s.held, m);
      if o == m {
        NotMovedInto(c, s, s1, s', m, t);
      } else {
        TakenTurn(c, s, s1, s', m, t, o, x, y);
      }
    }
  }

  /** The emptied queue stays empty: the holder does not wait for its own mutex. */
  lemma NotMovedInto(c: Config, s: State, s1: State, s': State, m: nat, t: nat)
    requires Inv(c, s) && Flushed(s, s1, m) && m < |c.obj| && t < |s.held| && m in s.held[t]
    requires TakenAway(c, s1, s', t, m)
    ensures |s'.waitq| == |s.waitq| && |s'.tcb| == |s.tcb| && s'.waitq[m] == []
  {
    HolderStays(c, s, s1, m, t);
    assert StatOk(c, t, s.tcb[t], s.held[t]);
  }

  lemma EndingTurn(c: Config, s: State, call: Call, o: nat, x: nat, y: nat)
    requires Behind(c, s, o, x, y) && Permitted(s, call) && ValidCall(c, call) && EndsTasks(call)
    ensures TurnKept(s, Exec(c, s, call).0, o, x, y)
  {
    match call
    case TerTsk(t) => TerTurn(c, s, t, o, x, y);
    case RasTer(t) => RasTurn(c, s, t, o, x, y);
    case ExtTsk => ExtTurn(c, s, o, x, y);
    case EnaTer => EnaTerTurn(c, s, o, x, y);
    case _ => MaskTurn(c, s, call, o, x, y);
  }

  lemma MutexTurn(c: Config, s: State, call: Call, o: nat, x: nat, y: nat)
    requires Behind(c, s, o, x, y) && Permitted(s, call) && ValidCall(c, call) && OnMutex(call)
    requires Steady(c, s, Exec(c, s, call).0, call, o, x, y)
    ensures TurnKept(s, Exec(c, s, call).0, o, x, y)
  {
    match call
    case LocMtx(m, tmo) => LocTurn(c, s, m, tmo, o, x, y);
    case PlocMtx(m) => PlocTurn(c, s, m, o, x, y);
    case UnlMtx(m) => UnlTurn(c, s, m, o, x, y);
    case IniMtx(m) => IniMtxTurn(c, s, m, o, x, y);
  }

  lemma ObjectTurn(c: Config, s: State, call: Call, o: nat, x: nat, y: nat)
    requires Behind(c, s, o, x, y) && Permitted(s, call) && ValidCall(c, call) && OnWaitObject(call)
    ensures TurnKept(s, Exec(c, s, call).0, o, x, y)
  {
    match call
    case WaitObject(o', limited) => WaitObjectTurn(c, s, o', limited, o, x, y);
    case WakeObject(o') => WakeObjectTurn(c, s, o', o, x, y);
    case IniObject(o') => IniObjectTurn(c, s, o', o, x, y);
  }

  lemma TaskTurn(c: Config, s: State, call: Call, o: nat, x: nat, y: nat)
    requires Behind(c, s, o, x, y) && Permitted(s, call) && ValidCall(c, call) && OnTask(call)
    requires Steady(c, s, Exec(c, s, call).0, call, o, x, y)
    ensures TurnKept(s, Exec(c, s, call).0, o, x, y)
  {
    match call
    case SlpTsk(tmo) => SleepTurn(c, s, tmo, o, x, y);
    case DlyTsk => DelayTurn(c, s, o, x, y);
    case WupTsk(t) => WakeUpTurn(c, s, t, o, x, y);
    case RelWai(t) => ReleaseTurn(c, s, t, o, x, y);
    case TimeOut(t) => TimeOutTurn(c, s, t, o, x, y);
    case SusTsk(t) => SuspendTurn(c, s, t, o, x, y);
    case RsmTsk(t) => ResumeTurn(c, s, t, o, x, y);
    case ChgPri(t, newbpri) => ChgPriTurn(c, s, t, newbpri, o, x, y);
  }

  /** No call serves a task before another that waits in front of it. */
  lemma EveryCallKeepsTurns(c: Config, s: State, call: Call, o: nat, x: nat, y: nat)
    requires Behind(c, s, o, x, y)
    requires Steady(c, s, Exec(c, s, call).0, call, o, x, y)
    ensures TurnKept(s, Exec(c, s, call).0, o, x, y)
  {
    if !Permitted(s, call) || !ValidCall(c, call) {
      SameQueue(c, s, s, o, x, y);
    } else if EndsTasks(call) {
      EndingTurn(c, s, call, o, x, y);
    } else if OnMutex(call) {
      MutexTurn(c, s, call, o, x, y);
    } else if OnWaitObject(call) {
      ObjectTurn(c, s, call, o, x, y);
    } else if OnTask(call) {
      TaskTurn(c, s, call, o, x, y);
    } else {
      RestTurn(c, s, call, o, x, y);
    }
  }

  // ---------- Whole runs ----------

  /** During the whole run both tasks go on waiting for the object; where it queues by priority, their
      priorities stay, and the first is not put behind its equals by chg_pri. */
  ghost predicate BothStay(c: Config, s: State, calls: seq<Call>, o: nat, x: nat, y: nat)
    requires Inv(c, s) && o < |c.obj|
    decreases |calls|
  {
    && x in s.waitq[o] && y in s.waitq[o]
    && (calls == [] ||
        (ExecKeeps(c, s, calls[0]);
         Steady(c, s, Exec(c, s, calls[0]).0, calls[0], o, x, y) &&
         BothStay(c, Exec(c, s, calls[0]).0, calls[1..], o, x, y)))
  }

  lemma {:induction false} OrderStays(c: Config, s: State, calls: seq<Call>, o: nat, x: nat, y: nat)
    requires Behind(c, s, o, x, y) && BothStay(c, s, calls, o, x, y)
    ensures Behind(c, RunCalls(c, s, calls), o, x, y)
    decreases |calls|
  {
    if calls != [] {
      var s' := Exec(c, s, calls[0]).0;
      ExecKeeps(c, s, calls[0]);
      EveryCallKeepsTurns(c, s, calls[0], o, x, y);
      assert BothStay(c, s', calls[1..], o, x, y);
      OrderStays(c, s', calls[1..], o, x, y);
    }
  }

  /** Nobody overtakes: after any run in which both wait, the one behind is not served while the one in front
      still waits, whatever call comes next; its wait can only end early. */
  lemma NobodyOvertakes(c: Config, s: State, calls: seq<Call>, next: Call, o: nat, x: nat, y: nat)
    requires Behind(c, s, o, x, y) && BothStay(c, s, calls, o, x, y)
    requires var s1 := RunCalls(c, s, calls);
             (RunsKeep(c, s, calls); Steady(c, s1, Exec(c, s1, next).0, next, o, x, y))
    ensures Sized(c, RunCalls(c, s, calls))
    ensures var s' := Exec(c, RunCalls(c, s, calls), next).0;
            o < |s'.waitq| && Is(s', y) &&
            (x in s'.waitq[o] && y !in s'.waitq[o] ==> s'.tcb[y].winfo != Wercd(E_OK))
  {
    OrderStays(c, s, calls, o, x, y);
    var s1 := RunCalls(c, s, calls);
    EveryCallKeepsTurns(c, s1, next, o, x, y);
  }
}
