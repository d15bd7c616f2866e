/**
 The time event heap and the time event services
 (asp3/kernel/time_event.c, time_manage.c, cyclic.c, alarm.c).

 Time event blocks are numbered; `heap[1..last]` holds block numbers, `node[b]` is the position of
 block `b` in the heap and `evttim[b]` the 32-bit word of its due time.  The ghost field `clock`
 is the unbounded picture of the same state (module TimeModel).
 */
module TimeEvent {
  import opened TimeModel
  import opened Heap
  import opened Firing
  import opened Signal
  import opened TimeService

  class TimeEvents {
    const tstep: nat       // TSTEP_HRTCNT
    const hrtBound: nat    // HRTCNT_BOUND
    const tcyc: nat        // TCYC_HRTCNT; 2^32 where it is not defined
    const kinds: seq<Kind>
    const heap: array<nat>
    const evttim: array<nat>
    const node: array<nat>
    var last: nat
    var boundary: nat
    var current: nat
    var hrtcnt: nat
    var monotonic: nat
    var systimOffset: nat
    var inSignalTime: bool
    var active: seq<bool>  // almsta or cycsta of the block's owner, or its task waits with a time limit
    ghost var clock: Clock
    ghost var count: int   // unbounded timer count at the last reading
    ghost var setAt: int   // timer count when the interrupt was last programmed
    ghost var alarm: int   // timer count at which it is raised

    // The checks of time_event.c:53-68 and of cyclic.trb.
    ghost predicate Config() {
      && tstep <= TSTEP_LIMIT && hrtBound < 4294000000 && hrtBound < tcyc <= WRAP32
      && |kinds| == node.Length
      && forall b :: 0 <= b < |kinds| && kinds[b].Cyclic? ==>
           0 < kinds[b].cyctim <= TMAX_RELTIM && kinds[b].cycphs <= TMAX_RELTIM
    }

    ghost predicate Fixed() {
      && heap.Length == node.Length + 1 && evttim.Length == node.Length
      && heap != node && heap != evttim && node != evttim
    }

    /** The heap, ordered by the unbounded due times, with `hole` empty. */
    ghost predicate Shaped(due: Times, hole: nat)
      reads `last, heap, node
    {
      && Fixed()
      && Linked(heap[..], node[..], last, due, hole)
      && Ordered(heap[..], last, due, hole)
    }

    /** The words of the blocks are their due times modulo 2^32. */
    ghost predicate Worded(due: Times)
      reads evttim
    {
      && Fixed()
      && forall b :: b in due ==> b < evttim.Length && evttim[b] == Word(due[b])
    }

    /** 32-bit comparison relative to the boundary orders the given times. */
    ghost predicate Comparable(due: Times, now: int)
      reads `boundary, evttim
    {
      && Worded(due)
      && boundary == Word(now - BOUNDARY_MARGIN)
      && forall b :: b in due ==> Inside(now, due[b])
    }

    lemma CompareNode(due: Times, now: int, hole: nat, i: nat, time: int)
      requires Shaped(due, hole) && Comparable(due, now) && Inside(now, time)
      requires 1 <= i <= last && i != hole
      ensures heap[i] < evttim.Length
      ensures EvttimLe(boundary, evttim[heap[i]], Word(time)) <==> Key(heap[..], due, i) <= time
      ensures EvttimLe(boundary, Word(time), evttim[heap[i]]) <==> time <= Key(heap[..], due, i)
      ensures EvttimLt(boundary, evttim[heap[i]], Word(time)) <==> Key(heap[..], due, i) < time
    {
      assert heap[..][i] in due;
      CompareExact(now, due[heap[i]], time);
      CompareExact(now, time, due[heap[i]]);
    }

    // The earlier of the one or two children (time_event.c:212-221).
    method EarlierChild(r: nat, ghost due: Times, ghost now: int) returns (child: nat)
      requires Shaped(due, r) && Comparable(due, now) && 1 <= r && 2 * r <= last
      ensures IsChild(r, child) && child <= last
      ensures BeforeChildren(heap[..], last, due, r, Key(heap[..], due, child))
    {
      child := 2 * r;
      if child + 1 <= last {
        assert heap[..][child] in due;
        CompareNode(due, now, r, child + 1, due[heap[child]]);
        if EvttimLt(boundary, evttim[heap[child + 1]], evttim[heap[child]]) {
          child := child + 1;
        }
      }
    }

    // *p_tmevtn = *p_from; p_tmevtn->p_tmevtb->p_tmevtn = p_tmevtn
    method MoveBlock(to: nat, from: nat)
      requires Fixed() && to < heap.Length && from < heap.Length && heap[from] < node.Length
      modifies heap, node
      ensures heap[..] == old(heap[..][to := heap[from]])
      ensures node[..] == old(node[..][heap[from] := to])
    {
      heap[to] := heap[from];
      node[heap[to]] := to;
    }

    method MoveParentDown(r: nat, parent: nat, ghost due: Times, ghost time: int)
      requires Shaped(due, r) && IsChild(parent, r) && r <= last
      requires BeforeChildren(heap[..], last, due, r, time) && time < Key(heap[..], due, parent)
      modifies heap, node
      ensures Shaped(due, parent) && BeforeChildren(heap[..], last, due, parent, time)
      ensures last + 1 < heap.Length ==> heap[last + 1] == old(heap[last + 1])
    {
      MoveLinked(heap[..], node[..], last, due, r, parent);
      MoveParent(heap[..], node[..], last, due, r, parent, time);
      MoveBlock(r, parent);
    }

    method MoveChildUp(r: nat, child: nat, ghost due: Times, ghost time: int)
      requires Shaped(due, r) && IsChild(r, child) && child <= last
      requires BeforeChildren(heap[..], last, due, r, Key(heap[..], due, child))
      requires Key(heap[..], due, child) < time
      modifies heap, node
      ensures Shaped(due, child) && AfterParent(heap[..], last, due, child, time)
      ensures last + 1 < heap.Length ==> heap[last + 1] == old(heap[last + 1])
    {
      MoveLinked(heap[..], node[..], last, due, r, child);
      MoveChild(heap[..], node[..], last, due, r, child, time);
      MoveBlock(r, child);
    }

    // tmevt_up
    method Up(p: nat, t: nat, ghost due: Times, ghost time: int, ghost now: int) returns (r: nat)
      requires Shaped(due, p) && 1 <= p <= last && BeforeChildren(heap[..], last, due, p, time)
      requires Comparable(due, now) && t == Word(time) && Inside(now, time)
      modifies heap, node
      ensures Shaped(due, r) && 1 <= r <= last
      ensures BeforeChildren(heap[..], last, due, r, time) && AfterParent(heap[..], last, due, r, time)
      ensures last + 1 < heap.Length ==> heap[last + 1] == old(heap[last + 1])
    {
      r := p;
      while r > 1
        invariant Shaped(due, r) && 1 <= r <= last
        invariant BeforeChildren(heap[..], last, due, r, time)
        invariant last + 1 < heap.Length ==> heap[last + 1] == old(heap[last + 1])
      {
        var parent := r / 2;
        CompareNode(due, now, r, parent, time);
        if EvttimLe(boundary, evttim[heap[parent]], t) {
          break;
        }
        MoveParentDown(r, parent, due, time);
        r := parent;
      }
    }

    // tmevt_down
    method Down(p: nat, t: nat, ghost due: Times, ghost time: int, ghost now: int) returns (r: nat)
      requires Shaped(due, p) && 1 <= p && AfterParent(heap[..], last, due, p, time)
      requires Comparable(due, now) && t == Word(time) && Inside(now, time)
      modifies heap, node
      ensures Shaped(due, r) && 1 <= r && (if p <= last then r <= last else r == p)
      ensures BeforeChildren(heap[..], last, due, r, time) && AfterParent(heap[..], last, due, r, time)
      ensures last + 1 < heap.Length ==> heap[last + 1] == old(heap[last + 1])
    {
      r := p;
      while 2 * r <= last
        invariant Shaped(due, r)
        invariant 1 <= r && (if p <= last then r <= last else r == p)
        invariant AfterParent(heap[..], last, due, r, time)
        invariant last + 1 < heap.Length ==> heap[last + 1] == old(heap[last + 1])
        decreases last - r
      {
        var child := EarlierChild(r, due, now);
        CompareNode(due, now, r, child, time);
        if EvttimLe(boundary, t, evttim[heap[child]]) {
          assert BeforeChildren(heap[..], last, due, r, time);
          return;
        }
        MoveChildUp(r, child, due, time);
        r := child;
      }
    }

    lemma ComparableChange(due: Times, due': Times, now: int)
      requires Comparable(due, now)
      requires forall b :: b in due' ==> if b in due then due'[b] == due[b] else
                 b < evttim.Length && evttim[b] == Word(due'[b]) && Inside(now, due'[b])
      ensures Comparable(due', now)
    {
    }

    // Puts a block into the empty node (time_event.c:251-252).
    method Settle(r: nat, b: nat, ghost due: Times, ghost time: int)
      requires Shaped(due, r) && 1 <= r <= last && b !in due && b < node.Length
      requires BeforeChildren(heap[..], last, due, r, time) && AfterParent(heap[..], last, due, r, time)
      modifies heap, node
      ensures Shaped(due[b := time], 0)
    {
      Place(heap[..], node[..], last, due, r, b, time);
      heap[r] := b;
      node[b] := r;
    }

    // tmevtb_insert
    method Insert(b: nat, ghost due: Times, ghost time: int, ghost now: int)
      requires Shaped(due, 0) && Comparable(due, now)
      requires b !in due && b < node.Length
      requires evttim[b] == Word(time) && Inside(now, time)
      modifies heap, node, `last
      ensures Shaped(due[b := time], 0)
    {
      RoomForOne(heap[..], node[..], last, due, b);
      OpenLast(heap[..], node[..], last, due, time);
      last := last + 1;
      var r := Up(last, evttim[b], due, time, now);
      Settle(r, b, due, time);
    }

    // Shrinks the heap by its last node, leaving the node of block `b` empty.
    method Withdraw(b: nat, ghost due: Times, ghost e: nat)
      requires Shaped(due, 0) && b in due && e == heap[last]
      modifies `last
      ensures last == old(last) - 1 && last + 1 < heap.Length && e in due && e !in due - {b} - {e}
      ensures Shaped(due - {b} - {e}, node[b]) && 1 <= node[b] <= last + 1
      ensures node[b] == last + 1 <==> e == b
      ensures node[b] == last + 1 ==> forall g {:trigger IsChild(g, last + 1)} :: IsChild(g, last + 1) ==>
                Key(heap[..], due - {b} - {e}, g) <= due[b]
      ensures due - {b} == if e == b then due - {b} - {e} else (due - {b} - {e})[e := due[e]]
    {
      TakeOut(heap[..], node[..], last, due, b);
      last := last - 1;
    }

    // Moves the block behind the last node into the empty node (time_event.c:306-307).
    method PutBack(r: nat, ghost rest: Times, ghost e: nat, ghost time: int)
      requires Shaped(rest, r) && last + 1 < heap.Length && e == heap[last + 1] < node.Length && e !in rest
      requires 1 <= r <= last + 1
      requires BeforeChildren(heap[..], last, rest, r, time) && AfterParent(heap[..], last, rest, r, time)
      modifies heap, node
      ensures Shaped(if r <= last then rest[e := time] else rest, 0)
    {
      if r <= last {
        Place(heap[..], node[..], last, rest, r, e, time);
      }
      MoveBlock(r, last + 1);
    }

    /** The block behind the last node, due at `time`, is to be put back. */
    ghost predicate Pending(rest: Times, e: nat, time: int, now: int)
      reads `last, `boundary, heap, evttim
    {
      && Comparable(rest, now) && last + 1 < heap.Length && e !in rest
      && e == heap[last + 1] < evttim.Length && evttim[e] == Word(time) && Inside(now, time)
    }

    method ComesBeforeParent(p: nat, ghost rest: Times, ghost e: nat, ghost time: int, ghost now: int)
      returns (earlier: bool)
      requires Shaped(rest, p) && Pending(rest, e, time, now) && 1 <= p <= last + 1
      ensures earlier <==> p > 1 && time < Key(heap[..], rest, p / 2)
      ensures !earlier ==> AfterParent(heap[..], last + 1, rest, p, time)
    {
      if p > 1 {
        CompareNode(rest, now, p, p / 2, time);
        earlier := EvttimLt(boundary, evttim[heap[last + 1]], evttim[heap[p / 2]]);
      } else {
        earlier := false;
      }
    }

    method RefillUpwards(p: nat, ghost rest: Times, ghost e: nat, ghost time: int, ghost now: int)
      requires Shaped(rest, p) && Pending(rest, e, time, now)
      requires 2 <= p <= last && time < Key(heap[..], rest, p / 2)
      modifies heap, node
      ensures Shaped(rest[e := time], 0)
    {
      var t := evttim[heap[last + 1]];
      BeforeParent(heap[..], last, rest, p, p / 2, time);
      MoveParentDown(p, p / 2, rest, time);
      var r := Up(p / 2, t, rest, time, now);
      PutBack(r, rest, e, time);
    }

    method RefillDownwards(p: nat, ghost rest: Times, ghost e: nat, ghost time: int, ghost now: int)
      requires Shaped(rest, p) && Pending(rest, e, time, now)
      requires 1 <= p <= last + 1 && AfterParent(heap[..], last, rest, p, time)
      modifies heap, node
      ensures Shaped(if p <= last then rest[e := time] else rest, 0)
    {
      var r := Down(p, evttim[heap[last + 1]], rest, time, now);
      PutBack(r, rest, e, time);
    }

    // The choice between the two (time_event.c:286-311).
    method Refill(p: nat, ghost rest: Times, ghost e: nat, ghost time: int, ghost now: int)
      requires Shaped(rest, p) && Pending(rest, e, time, now) && 1 <= p <= last + 1
      requires p == last + 1 ==> forall g {:trigger IsChild(g, p)} :: IsChild(g, p) ==> Key(heap[..], rest, g) <= time
      modifies heap, node
      ensures Shaped(if p <= last then rest[e := time] else rest, 0)
    {
      var earlier := ComesBeforeParent(p, rest, e, time, now);
      assert p > 1 ==> IsChild(p / 2, p);
      if earlier {
        RefillUpwards(p, rest, e, time, now);
      } else {
        RefillDownwards(p, rest, e, time, now);
      }
    }

    // tmevtb_delete
    method Delete(b: nat, ghost due: Times, ghost now: int)
      requires Shaped(due, 0) && Comparable(due, now) && b in due
      modifies heap, node, `last
      ensures Shaped(due - {b}, 0)
    {
      var p := node[b];
      ghost var e := heap[last];
      ghost var rest, time := due - {b} - {e}, due[e];
      Withdraw(b, due, e);
      if last < 1 {
        return;
      }
      ComparableChange(due, rest, now);
      Refill(p, rest, e, time, now);
    }

    // tmevtb_delete_top
    method DeleteTop(ghost due: Times, ghost now: int) returns (top: nat)
      requires Shaped(due, 0) && Comparable(due, now) && last >= 1
      modifies heap, node, `last
      ensures top in due && (forall b :: b in due ==> due[top] <= due[b])
      ensures Shaped(due - {top}, 0)
    {
      top := heap[1];
      ghost var e := heap[last];
      ghost var rest := due - {top} - {e};
      RootIsMinimum(heap[..], node[..], last, due);
      Withdraw(top, due, e);
      if last >= 1 {
        ComparableChange(due, rest, now);
        RefillDownwards(1, rest, e, due[e], now);
      }
    }

    // ---------- The clock words ----------

    ghost predicate Words(c: Clock)
      reads `current, `boundary, `monotonic, `systimOffset
    {
      && current == Word(c.now) && boundary == Word(c.now - BOUNDARY_MARGIN) && monotonic == Word(c.peak)
      && (systimOffset + monotonic) % WRAP64 == SystemTime(c) % WRAP64
    }

    ghost predicate Valid()
      reads `last, `current, `boundary, `hrtcnt, `monotonic, `systimOffset, `clock, heap, evttim, node
    {
      && Config() && hrtcnt < tcyc
      && Shaped(clock.events, 0) && Worded(clock.events)
      && Words(clock) && InWindow(clock)
    }

    ghost predicate AlarmReady()
      reads `clock, `count, `setAt, `alarm
    {
      AlarmSet(clock, count, setAt, alarm, hrtBound)
    }

    /** The timer shows `newHrtcnt`, `d` counts after it was last read, in good time. */
    ghost predicate Reading(newHrtcnt: nat, d: nat)
      reads `hrtcnt, `clock
    {
      && hrtcnt < tcyc && d < tcyc
      && newHrtcnt == CountUp(hrtcnt, d, tcyc)
      && WithinMargin(Advance(clock, d))
    }

    // time_event.c:375-381 and, for a forward adjustment, time_manage.c:164-172
    method MoveMonotonic(previous: nat, advance: nat, ghost c: Clock)
      requires 0 <= c.peak - c.now <= 1999999 && 0 <= advance < WRAP32
      requires previous == Word(c.now) && current == Word(c.now + advance) && monotonic == Word(c.peak)
      requires (systimOffset + monotonic) % WRAP64 == SystemTime(c) % WRAP64
      modifies `monotonic, `systimOffset
      ensures monotonic == Word(Advance(c, advance).peak)
      ensures (systimOffset + monotonic) % WRAP64 == SystemTime(Advance(c, advance)) % WRAP64
    {
      SubWords(c.peak, c.now);
      if (monotonic - previous) % WRAP32 < advance {
        OffsetCarry(systimOffset, c.base, c.peak, c.now + advance);
        if current < monotonic {
          systimOffset := (systimOffset + WRAP32) % WRAP64;
        }
        monotonic := current;
      }
    }

    // update_current_evttim
    method UpdateWords(newHrtcnt: nat, ghost d: nat)
      requires Words(clock) && 0 <= clock.peak - clock.now <= 1999999
      requires tcyc <= WRAP32 && Reading(newHrtcnt, d)
      modifies `current, `boundary, `hrtcnt, `monotonic, `systimOffset
      ensures Words(Advance(clock, d)) && hrtcnt == newHrtcnt
    {
      var advance := (newHrtcnt - hrtcnt) % WRAP32;
      if newHrtcnt < hrtcnt {
        advance := (advance + tcyc) % WRAP32;
      }
      AdvanceIsElapsed(hrtcnt, d, tcyc);
      assert advance == d;
      var previous := current;
      AddWords(clock.now, d);
      AddWords(clock.now + d, -BOUNDARY_MARGIN);
      current := (current + advance) % WRAP32;
      hrtcnt := newHrtcnt;
      boundary := (current - BOUNDARY_MARGIN) % WRAP32;
      MoveMonotonic(previous, advance, clock);
    }

    method UpdateCurrent(newHrtcnt: nat, ghost d: nat)
      requires Valid() && Reading(newHrtcnt, d)
      modifies `current, `boundary, `hrtcnt, `monotonic, `systimOffset, `clock, `count
      ensures Valid() && clock == Advance(old(clock), d) && count == old(count) + d
      ensures hrtcnt == newHrtcnt
      ensures old(AlarmReady()) ==> AlarmReady()
    {
      UpdateWords(newHrtcnt, d);
      clock, count := Advance(clock, d), count + d;
      WindowIsInside(clock);
    }

    lemma TopIsFirst()
      requires Valid() && last >= 1
      ensures heap[1] < evttim.Length && IsFirst(clock.events, heap[1])
      ensures evttim[heap[1]] == Word(clock.events[heap[1]])
      ensures Inside(clock.now, clock.events[heap[1]])
    {
      RootIsMinimum(heap[..], node[..], last, clock.events);
    }

    lemma EmptyIffNoEvents()
      requires Valid()
      ensures last == 0 <==> clock.events == map[]
    {
      if last >= 1 {
        assert heap[..][1] in clock.events;
      }
    }

    ghost predicate AnyDue()
      reads `clock
    {
      !NothingDue(clock)
    }

    // The loop test of signal_time and the test of set_hrt_event.
    method TopIsDue() returns (due: bool)
      requires Valid()
      ensures due == AnyDue()
    {
      if last >= 1 {
        TopIsFirst();
        CompareExact(clock.now, clock.events[heap[1]], clock.now);
        due := EvttimLe(boundary, evttim[heap[1]], current);
      } else {
        EmptyIffNoEvents();
        due := false;
      }
    }

    // target_hrt_set_event and target_hrt_raise_event (no delay), seen from the kernel
    method ProgramTimer(h: nat)
      modifies `setAt, `alarm
      ensures setAt == count && alarm == count + h
    {
      setAt, alarm := count, count + h;
    }

    // set_hrt_event: the count for target_hrt_set_event, 0 for target_hrt_raise_event
    method NextInterrupt() returns (h: nat)
      requires Valid()
      ensures h == Wait(clock.events, clock.now, hrtBound)
    {
      EmptyIffNoEvents();
      if last < 1 {
        h := hrtBound;
      } else {
        TopIsFirst();
        ghost var t := clock.events[heap[1]];
        CompareExact(clock.now, t, clock.now);
        FirstTimeOf(clock.events, heap[1]);
        if EvttimLe(boundary, evttim[heap[1]], current) {
          h := 0;
        } else {
          SubWords(t, clock.now);
          h := (evttim[heap[1]] - current) % WRAP32;
          if h > hrtBound {
            h := hrtBound;
          }
        }
      }
    }

    method SetHrtEvent()
      requires Valid()
      modifies `setAt, `alarm
      ensures AlarmReady() && setAt == count
    {
      var h := NextInterrupt();
      ProgramTimer(h);
    }

    // tmevtb_register, with the due time already in the block
    method Register(b: nat, ghost time: int)
      requires Valid() && b !in clock.events && b < node.Length
      requires evttim[b] == Word(time)
      requires clock.now - BOUNDARY_MARGIN <= time <= clock.peak + TSTEP_LIMIT + TMAX_RELTIM
      modifies heap, node, `last, `clock
      ensures Valid() && clock == Add(old(clock), b, time)
    {
      WindowIsInside(clock);
      Insert(b, clock.events, time, clock.now);
      clock := Add(clock, b, time);
    }

    // tmevtb_enqueue
    method Enqueue(b: nat, time: nat, newHrtcnt: nat, ghost d: nat)
      requires Valid() && Reading(newHrtcnt, d)
      requires b !in clock.events && b < node.Length && time <= TMAX_RELTIM
      modifies heap, node, evttim, `last, `current, `boundary, `hrtcnt, `monotonic, `systimOffset
      modifies `clock, `count, `setAt, `alarm
      ensures Valid()
      ensures var c := Advance(old(clock), d); clock == Add(c, b, c.now + tstep + time)
      ensures old(AlarmReady()) && !inSignalTime ==> AlarmReady()
    {
      UpdateCurrent(newHrtcnt, d);
      EnqueueNow(b, time);
    }

    method EnqueueNow(b: nat, time: nat)
      requires Valid() && b !in clock.events && b < node.Length && time <= TMAX_RELTIM
      modifies heap, node, evttim, `last, `clock, `setAt, `alarm
      ensures Valid() && clock == Add(old(clock), b, old(clock).now + tstep + time)
      ensures old(AlarmReady()) && !inSignalTime ==> AlarmReady()
    {
      ghost var due := clock.now + tstep + time;
      AddWords(clock.now, tstep + time);
      evttim[b] := (current + tstep + time) % WRAP32;
      ghost var before := clock;
      Register(b, due);
      ReprogramIfTop(b, before, due);
    }

    method ReprogramIfTop(b: nat, ghost before: Clock, ghost due: int)
      requires Valid() && b !in before.events && b < node.Length && clock == Add(before, b, due)
      modifies `setAt, `alarm
      ensures old(AlarmSet(before, count, setAt, alarm, hrtBound)) && !inSignalTime ==> AlarmReady()
    {
      if !inSignalTime && node[b] == 1 {
        SetHrtEvent();
      } else if !inSignalTime {
        TopIsFirst();
        assert node[..][heap[..][1]] == 1;
        FirstWithout(before.events, b, due, heap[1]);
      }
    }

    // tmevtb_dequeue
    method Dequeue(b: nat, newHrtcnt: nat, ghost d: nat)
      requires Valid() && b in clock.events
      requires Reading(newHrtcnt, d)
      modifies heap, node, `last, `current, `boundary, `hrtcnt, `monotonic, `systimOffset
      modifies `clock, `count, `setAt, `alarm
      ensures Valid()
      ensures clock == Remove(if !inSignalTime && old(node[b]) == 1 then Advance(old(clock), d) else old(clock), b)
      ensures old(AlarmReady()) && !inSignalTime ==> AlarmReady()
    {
      var wasTop := node[b] == 1;
      ghost var before, first := clock, heap[1];
      TopIsFirst();
      assert first != b || wasTop by {
        assert node[..][heap[..][1]] == 1;
      }
      Unregister(b);
      if !inSignalTime && wasTop {
        Reprogram(newHrtcnt, d);
      } else if !inSignalTime {
        FirstAfterRemoval(before.events, b, first);
      }
    }

    method Reprogram(newHrtcnt: nat, ghost d: nat)
      requires Valid() && Reading(newHrtcnt, d)
      modifies `current, `boundary, `hrtcnt, `monotonic, `systimOffset, `clock, `count, `setAt, `alarm
      ensures Valid() && clock == Advance(old(clock), d) && AlarmReady()
    {
      UpdateCurrent(newHrtcnt, d);
      SetHrtEvent();
    }

    method Unregister(b: nat)
      requires Valid() && b in clock.events
      modifies heap, node, `last, `clock
      ensures Valid() && clock == Remove(old(clock), b)
    {
      WindowIsInside(clock);
      Delete(b, clock.events, clock.now);
      clock := Remove(clock, b);
    }

    // check_adjtim
    method CheckAdjtim(adjtim: int) returns (refused: bool)
      requires Valid()
      ensures refused == AdjustRefused(clock, adjtim)
    {
      if adjtim > 0 {
        refused := last >= 1;
        if refused {
          TopIsFirst();
          AddWords(clock.now, -TMAX_ADJTIM);
          CompareExact(clock.now, clock.events[heap[1]], clock.now - TMAX_ADJTIM);
          refused := EvttimLe(boundary, evttim[heap[1]], (current - TMAX_ADJTIM) % WRAP32);
        } else {
          EmptyIffNoEvents();
        }
      } else if adjtim < 0 {
        SubWords(clock.peak, clock.now);
        refused := (monotonic - current) % WRAP32 >= -TMIN_ADJTIM;
      } else {
        refused := false;
      }
    }

    // tmevt_lefttim
    method LeftTime(b: nat, newHrtcnt: nat, ghost d: nat) returns (left: nat)
      requires Valid() && b in clock.events && Reading(newHrtcnt, d)
      modifies `current, `boundary, `hrtcnt, `monotonic, `systimOffset, `clock, `count
      ensures Valid() && clock == Advance(old(clock), d)
      ensures left == Max(0, clock.events[b] - (clock.now + tstep))
      ensures old(AlarmReady()) ==> AlarmReady()
    {
      UpdateCurrent(newHrtcnt, d);
      WindowIsInside(clock);
      AddWords(clock.now, tstep);
      var currentUb := (current + tstep) % WRAP32;
      CompareExact(clock.now, clock.events[b], clock.now + tstep);
      if EvttimLe(boundary, evttim[b], currentUb) {
        left := 0;
      } else {
        SubWords(clock.events[b], clock.now + tstep);
        left := (evttim[b] - currentUb) % WRAP32;
      }
    }

    // set_tim
    method SetTim(systim: nat, newHrtcnt: nat, ghost d: nat)
      requires Valid() && Reading(newHrtcnt, d)
      modifies `current, `boundary, `hrtcnt, `monotonic, `systimOffset, `clock, `count
      ensures Valid() && clock == SetTime(Advance(old(clock), d), systim) && SystemTime(clock) == systim
      ensures clock.now == old(clock).now + d && clock.peak == Max(old(clock).peak, clock.now)
      ensures clock.events == old(clock).events
      ensures old(AlarmReady()) ==> AlarmReady()
    {
      UpdateCurrent(newHrtcnt, d);
      systimOffset := (systim - monotonic) % WRAP64;
      ShiftResidue(systimOffset, systim - monotonic, monotonic);
      clock := SetTime(clock, systim);
    }

    // get_tim
    method GetTim(newHrtcnt: nat, ghost d: nat) returns (systim: nat)
      requires Valid() && Reading(newHrtcnt, d)
      modifies `current, `boundary, `hrtcnt, `monotonic, `systimOffset, `clock, `count
      ensures Valid() && clock == Advance(old(clock), d)
      ensures systim == SystemTime(clock) % WRAP64
      ensures old(AlarmReady()) ==> AlarmReady()
    {
      UpdateCurrent(newHrtcnt, d);
      systim := (systimOffset + monotonic) % WRAP64;
    }

    // adj_tim, after the parameter check
    method AdjTim(adjtim: int, newHrtcnt: nat, ghost d: nat) returns (ok: bool)
      requires Valid() && Reading(newHrtcnt, d)
      requires TMIN_ADJTIM <= adjtim <= TMAX_ADJTIM
      modifies `current, `boundary, `hrtcnt, `monotonic, `systimOffset, `clock, `count, `setAt, `alarm
      ensures Valid() && clock == Adjust(Advance(old(clock), d), adjtim)
      ensures ok == !AdjustRefused(Advance(old(clock), d), adjtim)
      ensures old(AlarmReady()) ==> AlarmReady()
    {
      UpdateCurrent(newHrtcnt, d);
      var refused := CheckAdjtim(adjtim);
      if !refused {
        MoveClock(adjtim);
      }
      ok := !refused;
    }

    method MoveClock(adjtim: int)
      requires Valid() && TMIN_ADJTIM <= adjtim <= TMAX_ADJTIM && !AdjustRefused(clock, adjtim)
      modifies `current, `boundary, `monotonic, `systimOffset, `clock, `setAt, `alarm
      ensures Valid() && clock == Advance(old(clock), adjtim) && AlarmReady()
    {
      AdjustIsSafe(clock, adjtim);
      AdjustWords(adjtim);
      clock := Advance(clock, adjtim);
      SetHrtEvent();
    }

    method AdjustWords(adjtim: int)
      requires Words(clock) && 0 <= clock.peak - clock.now <= 1999999
      requires TMIN_ADJTIM <= adjtim <= TMAX_ADJTIM
      modifies `current, `boundary, `monotonic, `systimOffset
      ensures Words(Advance(clock, adjtim))
    {
      var previous := current;
      AddWords(clock.now, adjtim);
      AddWords(clock.now + adjtim, -BOUNDARY_MARGIN);
      current := (current + adjtim) % WRAP32;
      boundary := (current - BOUNDARY_MARGIN) % WRAP32;
      if adjtim > 0 {
        MoveMonotonic(previous, adjtim, clock);
      }
    }

    // ---------- Alarms and cyclic events ----------

    ghost predicate Started()
      reads `active, `clock
    {
      && |active| == |kinds|
      && forall b :: 0 <= b < |kinds| ==> (active[b] <==> b in clock.events)
    }

    /** tmevtb_dequeue would read the timer: the block is the first, and no signal_time under way. */
    ghost predicate ReadsTimer(b: nat)
      reads `inSignalTime, node
    {
      !inSignalTime && b < node.Length && node[b] == 1
    }

    // The value of the timer, `d` counts after the last reading.
    function TimerValue(d: nat): nat
      reads `hrtcnt
      requires hrtcnt < tcyc && d < tcyc
    {
      CountUp(hrtcnt, d, tcyc)
    }

    // The environment: a reading of the timer that is to come `want` counts after the last one
    // comes then, or, where that would be too late, at the last good moment (TimeModel.InTime).
    method Elapsed(want: nat) returns (d: nat)
      requires Valid() && want < tcyc
      ensures d == InTime(clock, want) && d < tcyc && Reading(TimerValue(d), d)
    {
      InTimeIsTimely(clock, want);
      if last >= 1 {
        TopIsFirst();
        FirstTimeOf(clock.events, heap[1]);
        SubWords(clock.events[heap[1]], clock.now - BOUNDARY_MARGIN);
        var reserve := EvttimAdvance(boundary, evttim[heap[1]]);
        d := if want <= reserve then want else reserve;
      } else {
        EmptyIffNoEvents();
        d := want;
      }
    }

    // sta_alm and sta_cyc, reading the timer `d1` and `d2` counts after the readings before
    method Start(b: nat, time: nat, d1: nat, d2: nat)
      requires Valid() && Started() && d1 < tcyc && d2 < tcyc
      requires b < |kinds| && time <= TMAX_RELTIM
      modifies heap, node, evttim, `last, `current, `boundary, `hrtcnt, `monotonic, `systimOffset
      modifies `clock, `count, `setAt, `alarm, `active
      ensures Valid() && Started()
      ensures clock == Run(old(clock), StartOps(old(clock), b, time, tstep, old(ReadsTimer(b)), d1, d2))
      ensures clock.events == old(clock).events[b := clock.now + tstep + time] && TimePassed(old(clock), clock)
      ensures old(AlarmReady()) && !inSignalTime ==> AlarmReady()
    {
      StartEffect(clock, b, time, tstep, ReadsTimer(b), d1, d2);
      StartAnew(b, time, d1, d2);
    }

    method StartAnew(b: nat, time: nat, d1: nat, d2: nat)
      requires Valid() && Started() && d1 < tcyc && d2 < tcyc
      requires b < |kinds| && time <= TMAX_RELTIM
      modifies heap, node, evttim, `last, `current, `boundary, `hrtcnt, `monotonic, `systimOffset
      modifies `clock, `count, `setAt, `alarm, `active
      ensures Valid() && Started()
      ensures clock == Run(old(clock), StartOps(old(clock), b, time, tstep, old(ReadsTimer(b)), d1, d2))
      ensures old(AlarmReady()) && !inSignalTime ==> AlarmReady()
    {
      ghost var ops := RemovalOps(clock, b, ReadsTimer(b), d1);
      Restarting(b, d1);
      RunAppend(old(clock), ops, [Tick(InTime(clock, d2)), Op.Enqueue(b, tstep, time)]);
      StartBlock(b, time, d2);
    }

    method StartBlock(b: nat, time: nat, want: nat)
      requires Valid() && b !in clock.events && b < node.Length && want < tcyc && time <= TMAX_RELTIM
      modifies heap, node, evttim, `last, `current, `boundary, `hrtcnt, `monotonic, `systimOffset
      modifies `clock, `count, `setAt, `alarm
      ensures Valid() && clock.events.Keys == old(clock.events.Keys) + {b}
      ensures clock == Run(old(clock), [Tick(InTime(old(clock), want)), Op.Enqueue(b, tstep, time)])
      ensures old(AlarmReady()) && !inSignalTime ==> AlarmReady()
    {
      var d := Elapsed(want);
      TwoSteps(clock, Tick(d), Op.Enqueue(b, tstep, time), kinds);
      Enqueue(b, time, TimerValue(d), d);
    }

    method Restarting(b: nat, d1: nat)
      requires Valid() && Started() && d1 < tcyc && b < |kinds|
      modifies heap, node, `last, `current, `boundary, `hrtcnt, `monotonic, `systimOffset
      modifies `clock, `count, `setAt, `alarm, `active
      ensures Valid() && active == old(active)[b := true] && clock.events == old(clock).events - {b}
      ensures clock == Run(old(clock), RemovalOps(old(clock), b, old(ReadsTimer(b)), d1))
      ensures old(AlarmReady()) && !inSignalTime ==> AlarmReady()
    {
      if active[b] {
        RemoveBlock(b, d1);
      } else {
        active := active[b := true];
        assert clock.events == clock.events - {b};
      }
    }

    method RemoveBlock(b: nat, want: nat)
      requires Valid() && b in clock.events && want < tcyc
      modifies heap, node, `last, `current, `boundary, `hrtcnt, `monotonic, `systimOffset
      modifies `clock, `count, `setAt, `alarm
      ensures Valid() && clock.events == old(clock).events - {b}
      ensures clock == Run(old(clock), RemovalOps(old(clock), b, old(ReadsTimer(b)), want))
      ensures old(AlarmReady()) && !inSignalTime ==> AlarmReady()
    {
      var d := Elapsed(want);
      TwoSteps(clock, Op.Dequeue(b), Tick(d), kinds);
      Dequeue(b, TimerValue(d), d);
    }

    // stp_alm and stp_cyc
    method Stop(b: nat, d: nat)
      requires Valid() && Started() && d < tcyc && b < |kinds|
      modifies heap, node, `last, `current, `boundary, `hrtcnt, `monotonic, `systimOffset
      modifies `clock, `count, `setAt, `alarm, `active
      ensures Valid() && Started()
      ensures clock == Run(old(clock), RemovalOps(old(clock), b, old(ReadsTimer(b)), d))
      ensures clock.events == old(clock).events - {b} && TimePassed(old(clock), clock)
      ensures old(AlarmReady()) && !inSignalTime ==> AlarmReady()
    {
      RemovalEffect(clock, b, ReadsTimer(b), d);
      if active[b] {
        active := active[b := false];
        RemoveBlock(b, d);
      }
    }

    // ---------- signal_time ----------

    // One request of a handler, made while signal_time is under way.
    method Perform(r: Request)
      requires Valid() && Started() && inSignalTime && Legal(r, kinds, tcyc)
      modifies heap, node, evttim, `last, `current, `boundary, `hrtcnt, `monotonic, `systimOffset
      modifies `clock, `count, `setAt, `alarm, `active
      ensures Valid() && Started() && clock == Run(old(clock), RequestOps(old(clock), r, tstep))
      ensures Requested(old(clock), r, tstep, clock)
    {
      RequestEffect(clock, r, tstep, kinds, tcyc);
      match r
      case Arm(b, almtim, d) => Start(b, almtim, 0, d);
      case Disarm(b) => Stop(b, 0);
      case AdjustBy(adjtim, want) => var ok := ReadAndAdjust(adjtim, want);
    }

    method ReadAndAdjust(adjtim: int, want: nat) returns (ok: bool)
      requires Valid() && want < tcyc && TMIN_ADJTIM <= adjtim <= TMAX_ADJTIM
      modifies `current, `boundary, `hrtcnt, `monotonic, `systimOffset, `clock, `count, `setAt, `alarm
      ensures Valid() && clock.events == old(clock).events
      ensures clock == Run(old(clock), [Tick(InTime(old(clock), want)), Op.AdjTim(adjtim)])
      ensures ok == !AdjustRefused(Advance(old(clock), InTime(old(clock), want)), adjtim)
      ensures old(AlarmReady()) ==> AlarmReady()
    {
      var d := Elapsed(want);
      TwoSteps(clock, Tick(d), Op.AdjTim(adjtim), kinds);
      ok := AdjTim(adjtim, TimerValue(d), d);
    }

    method RunHandler(requests: seq<Request>)
      requires Valid() && Started() && inSignalTime && AllLegal(requests, kinds, tcyc)
      modifies heap, node, evttim, `last, `current, `boundary, `hrtcnt, `monotonic, `systimOffset
      modifies `clock, `count, `setAt, `alarm, `active
      ensures Valid() && Started() && clock == Run(old(clock), HandlerOps(old(clock), requests, tstep))
      decreases |requests|
    {
      if requests != [] {
        ghost var ops := RequestOps(clock, requests[0], tstep);
        Perform(requests[0]);
        RunAppend(old(clock), ops, HandlerOps(clock, requests[1..], tstep));
        RunHandler(requests[1..]);
      }
    }

    // One turn of the inner loop of signal_time: take the top event out and call it back.
    // call_cyclic registers the event again before its handler runs; call_alarm and the time
    // limit of a wait first mark their owner as stopped.
    method FireTop(requests: seq<Request>) returns (top: nat)
      requires Valid() && Started() && inSignalTime && last >= 1 && AnyDue()
      requires AllLegal(requests, kinds, tcyc)
      modifies heap, node, evttim, `last, `current, `boundary, `hrtcnt, `monotonic, `systimOffset
      modifies `clock, `count, `setAt, `alarm, `active
      ensures Valid() && Started() && top < |kinds| && FirstDue(old(clock), top)
      ensures clock == Run(old(clock), CallOps(old(clock), top, requests, kinds, tstep))
    {
      top := TakeTop();
      Renew(top, old(clock));
      ghost var fire := Fire(top, Period(kinds, top));
      assert ([fire] + HandlerOps(clock, requests, tstep))[1..] == HandlerOps(clock, requests, tstep);
      RunHandler(requests);
    }

    method TakeTop() returns (top: nat)
      requires Valid() && last >= 1
      modifies heap, node, `last, `clock
      ensures Valid() && clock == Remove(old(clock), top)
      ensures IsFirst(old(clock.events), top) && top < node.Length
      ensures old(AnyDue()) ==> FirstDue(old(clock), top)
    {
      WindowIsInside(clock);
      top := DeleteTop(clock.events, clock.now);
      clock := Remove(clock, top);
    }

    method Renew(top: nat, ghost c: Clock)
      requires Valid() && InWindow(c) && FirstDue(c, top) && clock == Remove(c, top)
      requires top < node.Length && evttim[top] == Word(c.events[top])
      requires |active| == |kinds| && forall b :: 0 <= b < |kinds| ==> (active[b] <==> b in c.events)
      modifies heap, node, evttim, `last, `clock, `active
      ensures Valid() && Started() && clock == Step(c, Fire(top, Period(kinds, top)))
    {
      if kinds[top].Cyclic? {
        NextCycle(top, c);
      } else {
        active := active[top := false];
      }
    }

    // call_cyclic, the part that registers the next cycle (cyclic.c:241-244)
    method NextCycle(top: nat, ghost c: Clock)
      requires Valid() && InWindow(c) && FirstDue(c, top) && clock == Remove(c, top)
      requires top < node.Length && evttim[top] == Word(c.events[top]) && kinds[top].Cyclic?
      modifies heap, node, evttim, `last, `clock
      ensures Valid() && clock == Step(c, Fire(top, kinds[top].cyctim))
    {
      ghost var due := c.events[top];
      AddWords(due, kinds[top].cyctim);
      evttim[top] := (evttim[top] + kinds[top].cyctim) % WRAP32;
      Register(top, due + kinds[top].cyctim);
      PutAgain(c.events, top, due + kinds[top].cyctim);
    }

    ghost predicate Signalling()
      reads this, heap, evttim, node
    {
      Valid() && Started() && inSignalTime
    }

    /** The plan of a run of signal_time with this kernel's events. */
    ghost predicate PlanFor(p: Plan) {
      && p.kinds == kinds && p.tstep == tstep
      && (forall i :: 0 <= i < |p.advances| ==> p.advances[i] < tcyc)
      && (forall i :: 0 <= i < |p.handlers| ==> AllLegal(p.handlers[i], kinds, tcyc))
    }

    method FireNext(p: Plan, turns: Turns, ghost c: Clock) returns (more: Turns)
      requires Signalling() && PlanFor(p) && Turned(c, p, turns, clock)
      requires turns.Then? && AnyDue()
      modifies heap, node, evttim, `last, `current, `boundary, `hrtcnt, `monotonic, `systimOffset
      modifies `clock, `count, `setAt, `alarm, `active
      ensures Signalling() && Turned(c, p, more, clock)
      ensures more.Then? && EndsWithCall(more) && FirstDue(old(clock), more.turn.b)
      ensures Calls(more) == Calls(turns) + 1 && Reads(more) == Reads(turns)
      ensures Calls(turns) >= |p.handlers| ==>
                Overdue(clock.events, clock.now, node.Length) < Overdue(old(clock.events), old(clock.now), node.Length)
    {
      EmptyIffNoEvents();
      var top := FireTop(Handler(p, Calls(turns)));
      TurnedOnce(c, p, turns, old(clock), Call(top));
      more := Then(turns, Call(top));
      if Calls(turns) >= |p.handlers| {
        IdleCallBack(old(clock), top, kinds, tstep, node.Length);
      }
    }

    // The inner loop of signal_time (time_event.c:583-588).
    method FireDue(p: Plan, turns: Turns, ghost c: Clock) returns (more: Turns, callflag: bool)
      requires Signalling() && PlanFor(p) && Turned(c, p, turns, clock) && turns.Then?
      modifies heap, node, evttim, `last, `current, `boundary, `hrtcnt, `monotonic, `systimOffset
      modifies `clock, `count, `setAt, `alarm, `active
      ensures Signalling() && Turned(c, p, more, clock) && !AnyDue()
      ensures more.Then? && Reads(more) == Reads(turns)
      ensures callflag == old(AnyDue())
      ensures if callflag then EndsWithCall(more) && Calls(more) > Calls(turns) else more == turns
    {
      more, callflag := turns, false;
      var due := TopIsDue();
      ghost var someDue := due;
      while due
        invariant Signalling() && Turned(c, p, more, clock) && more.Then?
        invariant due == AnyDue() && Reads(more) == Reads(turns)
        invariant if callflag then someDue && EndsWithCall(more) && Calls(more) > Calls(turns)
                  else more == turns && due == someDue
        decreases Left(|p.handlers|, Calls(more)), Overdue(clock.events, clock.now, node.Length)
      {
        more, due := FireAndLook(p, more, c);
        callflag := true;
      }
    }

    method FireAndLook(p: Plan, turns: Turns, ghost c: Clock) returns (more: Turns, due: bool)
      requires Signalling() && PlanFor(p) && Turned(c, p, turns, clock)
      requires turns.Then? && AnyDue()
      modifies heap, node, evttim, `last, `current, `boundary, `hrtcnt, `monotonic, `systimOffset
      modifies `clock, `count, `setAt, `alarm, `active
      ensures Signalling() && Turned(c, p, more, clock) && due == AnyDue()
      ensures more.Then? && EndsWithCall(more) && Calls(more) == Calls(turns) + 1 && Reads(more) == Reads(turns)
      ensures Calls(turns) >= |p.handlers| ==>
                Overdue(clock.events, clock.now, node.Length) < Overdue(old(clock.events), old(clock.now), node.Length)
    {
      more := FireNext(p, turns, c);
      due := TopIsDue();
    }

    function Left(n: nat, k: nat): nat {
      if k < n then n - k else 0
    }

    method ReadOnce(p: Plan, turns: Turns, ghost c: Clock) returns (more: Turns)
      requires Signalling() && PlanFor(p) && Turned(c, p, turns, clock)
      requires turns.NoTurns? || (EndsWithCall(turns) && !AnyDue())
      modifies `current, `boundary, `hrtcnt, `monotonic, `systimOffset, `clock, `count
      ensures Signalling() && Turned(c, p, more, clock) && more == Then(turns, Read)
      ensures Reads(more) == Reads(turns) + 1 && Calls(more) == Calls(turns)
      ensures Reads(turns) >= |p.advances| ==> clock == old(clock)
    {
      var want := Advances(p, Reads(turns));
      var d := Elapsed(want);
      TurnedOnce(c, p, turns, clock, Read);
      TwoSteps(clock, Tick(d), Tick(d), kinds);
      UpdateCurrent(TimerValue(d), d);
      more := Then(turns, Read);
    }

    // The outer loop of signal_time (time_event.c:568-589).
    method SignalLoop(p: Plan) returns (turns: Turns)
      requires Signalling() && PlanFor(p)
      modifies heap, node, evttim, `last, `current, `boundary, `hrtcnt, `monotonic, `systimOffset
      modifies `clock, `count, `setAt, `alarm, `active
      ensures Signalling()
      ensures Complete(old(clock), p, turns) && clock == After(old(clock), p, turns)
    {
      turns := NoTurns;
      var callflag := true;
      while callflag
        invariant Signalling() && Turned(old(clock), p, turns, clock)
        invariant callflag ==> turns.NoTurns? || (EndsWithCall(turns) && !AnyDue())
        invariant !callflag ==> EndsWithRead(turns) && !AnyDue()
        decreases Left(|p.advances|, Reads(turns)) + Left(|p.handlers|, Calls(turns)),
                  if AnyDue() then 1 else 0, callflag
      {
        turns, callflag := Round(p, turns, old(clock));
      }
    }

    // One reading of the timer, and the call backs that are due then.
    method Round(p: Plan, turns: Turns, ghost c: Clock) returns (more: Turns, callflag: bool)
      requires Signalling() && PlanFor(p) && Turned(c, p, turns, clock)
      requires turns.NoTurns? || (EndsWithCall(turns) && !AnyDue())
      modifies heap, node, evttim, `last, `current, `boundary, `hrtcnt, `monotonic, `systimOffset
      modifies `clock, `count, `setAt, `alarm, `active
      ensures Signalling() && Turned(c, p, more, clock) && !AnyDue()
      ensures more.Then? && (if callflag then EndsWithCall(more) else EndsWithRead(more))
      ensures Reads(more) == Reads(turns) + 1
      ensures if callflag then Calls(more) > Calls(turns) else Calls(more) == Calls(turns)
      ensures callflag && Reads(turns) >= |p.advances| ==> old(AnyDue())
    {
      more := ReadOnce(p, turns, c);
      more, callflag := FireDue(p, more, c);
    }

    // signal_time.  `advances` are the timer counts that pass before each of its readings; when they
    // are used up, the timer stands still.  Call back `i` runs `handlers[i]`; when they are used
    // up, handlers ask for nothing.  The result is what was done.
    method SignalTime(advances: seq<nat>, handlers: seq<seq<Request>>) returns (turns: Turns)
      requires Valid() && Started() && !inSignalTime && PlanFor(Plan(kinds, tstep, advances, handlers))
      modifies heap, node, evttim, `last, `current, `boundary, `hrtcnt, `monotonic, `systimOffset
      modifies `clock, `count, `setAt, `alarm, `active, `inSignalTime
      ensures Valid() && Started() && !inSignalTime && AlarmReady()
      ensures var p := Plan(kinds, tstep, advances, handlers);
              GoodPlan(p, tcyc) && Complete(old(clock), p, turns) && clock == After(old(clock), p, turns)
      ensures NothingDue(clock)
    {
      inSignalTime := true;
      turns := SignalLoop(Plan(kinds, tstep, advances, handlers));
      FinishSignal();
    }

    method FinishSignal()
      requires Valid()
      modifies `setAt, `alarm, `inSignalTime
      ensures Valid() && AlarmReady() && !inSignalTime
    {
      SetHrtEvent();
      inSignalTime := false;
    }

    // ---------- Start of the kernel ----------

    // initialize_tmevt
    constructor (kinds: seq<Kind>, tstep: nat, hrtBound: nat, tcyc: nat)
      requires tstep <= TSTEP_LIMIT && hrtBound < 4294000000 && hrtBound < tcyc <= WRAP32
      requires forall b :: 0 <= b < |kinds| && kinds[b].Cyclic? ==>
                 0 < kinds[b].cyctim <= TMAX_RELTIM && kinds[b].cycphs <= TMAX_RELTIM
      ensures Valid() && Started() && !inSignalTime
      ensures clock == Clock(0, 0, 0, map[]) && this.kinds == kinds
      ensures fresh(heap) && fresh(evttim) && fresh(node)
    {
      this.kinds, this.tstep, this.hrtBound, this.tcyc := kinds, tstep, hrtBound, tcyc;
      heap := new nat[|kinds| + 1](_ => 0);
      evttim := new nat[|kinds|](_ => 0);
      node := new nat[|kinds|](_ => 0);
      last, current, boundary := 0, 0, (0 - BOUNDARY_MARGIN) % WRAP32;
      hrtcnt, monotonic, systimOffset, inSignalTime := 0, 0, 0, false;
      active := seq(|kinds|, _ => false);
      clock, count, setAt, alarm := Clock(0, 0, 0, map[]), 0, 0, 0;
    }

    // initialize_cyclic; `start` tells which cyclic events have TA_STA
    method InitializeCyclic(start: seq<bool>)
      requires Valid() && Started() && |start| == |kinds|
      requires clock.now == clock.peak == 0 && clock.events == map[]
      modifies heap, node, evttim, `last, `clock, `active
      ensures Valid() && Started()
      ensures clock == old(clock).(events := InitialEvents(kinds, start, |kinds|))
    {
      var i := 0;
      while i < |kinds|
        invariant Valid() && Started() && i <= |kinds|
        invariant clock == old(clock).(events := InitialEvents(kinds, start, i))
      {
        OneMoreInitial(kinds, start, i);
        if kinds[i].Cyclic? && start[i] {
          StartCyclic(i);
        }
        i := i + 1;
      }
    }

    method StartCyclic(b: nat)
      requires Valid() && Started() && b < |kinds| && kinds[b].Cyclic?
      requires b !in clock.events && clock.now == clock.peak == 0
      modifies heap, node, evttim, `last, `clock, `active
      ensures Valid() && Started() && clock == Add(old(clock), b, kinds[b].cycphs)
    {
      active := active[b := true];
      evttim[b] := kinds[b].cycphs;
      Register(b, kinds[b].cycphs);
    }

    // sta_ker: the timer is read and programmed for the first time
    method StartKernel(newHrtcnt: nat)
      requires Valid() && newHrtcnt < tcyc
      modifies `hrtcnt, `setAt, `alarm
      ensures Valid() && AlarmReady() && hrtcnt == newHrtcnt
    {
      hrtcnt := newHrtcnt;
      SetHrtEvent();
    }

    // ---------- Any sequence of calls ----------

    ghost predicate Ready()
      reads this, heap, evttim, node
    {
      Valid() && Started() && !inSignalTime && AlarmReady()
    }

    method ReadSystim(want: nat) returns (systim: nat)
      requires Ready() && want < tcyc
      modifies `current, `boundary, `hrtcnt, `monotonic, `systimOffset, `clock, `count
      ensures Ready() && systim == SystemTime(clock) % WRAP64
      ensures clock == Run(old(clock), [Tick(InTime(old(clock), want))])
    {
      var d := Elapsed(want);
      TwoSteps(clock, Tick(d), Tick(0), kinds);
      systim := GetTim(TimerValue(d), d);
    }

    method WriteSystim(systim: nat, want: nat)
      requires Ready() && want < tcyc
      modifies `current, `boundary, `hrtcnt, `monotonic, `systimOffset, `clock, `count
      ensures Ready() && clock == Run(old(clock), [Tick(InTime(old(clock), want)), Op.SetTim(systim)])
    {
      var d := Elapsed(want);
      TwoSteps(clock, Tick(d), Op.SetTim(systim), kinds);
      SetTim(systim, TimerValue(d), d);
    }

    method ReadLeft(s: Service) returns (answer: Answer)
      requires Ready() && Acceptable(s, kinds, tcyc) && s.LeftOf?
      modifies `current, `boundary, `hrtcnt, `monotonic, `systimOffset, `clock, `count
      ensures Ready() && clock == Run(old(clock), ServiceOps(old(clock), s, kinds, tstep, false, NoTurns))
      ensures Answered(old(clock), s, tstep, clock, answer)
    {
      if active[s.b] {
        var d := Elapsed(s.d);
        TwoSteps(clock, Tick(d), Tick(0), kinds);
        var left := LeftTime(s.b, TimerValue(d), d);
        answer := TimeLeft(left);
      } else {
        answer := Stopped;
      }
    }

    /** Any call that is acceptable, at any time, does what it promises, as a regular run of the unbounded
        model, and leaves the alarm early enough. */
    method Serve(s: Service) returns (answer: Answer, ghost ops: seq<Op>)
      requires Ready() && Acceptable(s, kinds, tcyc)
      modifies heap, node, evttim, `last, `current, `boundary, `hrtcnt, `monotonic, `systimOffset
      modifies `clock, `count, `setAt, `alarm, `active, `inSignalTime
      ensures Ready() && Entered(old(clock), Entry(s, answer, ops, clock), kinds, tstep)
    {
      ghost var reading, c := s.StartOf? || s.StopOf?, clock;
      reading := reading && ReadsTimer(s.b);
      ghost var turns;
      answer, turns := Carry(s);
      ops := ServiceOps(c, s, kinds, tstep, reading, turns);
      ServiceIsRegular(c, s, kinds, tstep, tcyc, reading, turns);
      ServiceEffect(c, s, kinds, tstep, tcyc, reading, turns);
    }

    method Carry(s: Service) returns (answer: Answer, turns: Turns)
      requires Ready() && Acceptable(s, kinds, tcyc)
      modifies heap, node, evttim, `last, `current, `boundary, `hrtcnt, `monotonic, `systimOffset
      modifies `clock, `count, `setAt, `alarm, `active, `inSignalTime
      ensures Ready()
      ensures clock == Run(old(clock), ServiceOps(old(clock), s, kinds, tstep,
                                                  (s.StartOf? || s.StopOf?) && old(ReadsTimer(s.b)), turns))
      ensures s.Interrupt? ==> Complete(old(clock), Plan(kinds, tstep, s.advances, s.handlers), turns)
      ensures Answered(old(clock), s, tstep, clock, answer)
    {
      answer, turns := Done, NoTurns;
      match s {
        case StartOf(b, time, d1, d2) => Start(b, time, d1, d2);
        case StopOf(b, d) => Stop(b, d);
        case Interrupt(advances, handlers) =>
          turns := SignalTime(advances, handlers);
          AfterIsRun(old(clock), Plan(kinds, tstep, advances, handlers), turns);
        case LeftOf(_, _) => answer := ReadLeft(s);
        case _ => answer := ReadOrSet(s);
      }
    }

    predicate OnTimeOnly(s: Service) {
      s.SetSystim? || s.GetSystim? || s.AdjSystim?
    }

    method ReadOrSet(s: Service) returns (answer: Answer)
      requires Ready() && Acceptable(s, kinds, tcyc) && OnTimeOnly(s)
      modifies `current, `boundary, `hrtcnt, `monotonic, `systimOffset, `clock, `count, `setAt, `alarm
      ensures Ready()
      ensures clock == Run(old(clock), ServiceOps(old(clock), s, kinds, tstep, false, NoTurns))
      ensures Answered(old(clock), s, tstep, clock, answer)
    {
      answer := Done;
      match s {
        case SetSystim(x, d) => WriteSystim(x, d);
        case GetSystim(d) =>
          var systim := ReadSystim(d);
          answer := Systim(systim);
        case AdjSystim(adjtim, d) =>
          var ok := ReadAndAdjust(adjtim, d);
          answer := if ok then Done else Refused;
      }
    }

    method ServeNext(s: Service, ghost c: Clock, ghost h: seq<Entry>) returns (answer: Answer, ghost more: seq<Entry>)
      requires Ready() && Acceptable(s, kinds, tcyc)
      requires History(c, h, kinds, tstep) && clock == ClockAt(c, h, |h|)
      modifies heap, node, evttim, `last, `current, `boundary, `hrtcnt, `monotonic, `systimOffset
      modifies `clock, `count, `setAt, `alarm, `active, `inSignalTime
      ensures Ready() && History(c, more, kinds, tstep) && clock == ClockAt(c, more, |more|)
      ensures |more| == |h| + 1 && more == h + [more[|h|]]
      ensures more[|h|].service == s && more[|h|].answer == answer
    {
      ghost var ops;
      answer, ops := Serve(s);
      ghost var e := Entry(s, answer, ops, clock);
      OneMoreEntry(c, h, e, kinds, tstep);
      more := h + [e];
    }

    /** Any sequence of calls is a history of calls each of which does what it promises. */
    method ServeAll(services: seq<Service>) returns (answers: seq<Answer>, ghost h: seq<Entry>)
      requires Ready() && forall i :: 0 <= i < |services| ==> Acceptable(services[i], kinds, tcyc)
      modifies heap, node, evttim, `last, `current, `boundary, `hrtcnt, `monotonic, `systimOffset
      modifies `clock, `count, `setAt, `alarm, `active, `inSignalTime
      ensures Ready() && History(old(clock), h, kinds, tstep) && clock == ClockAt(old(clock), h, |h|)
      ensures HistoryOf(h, services, answers) && |h| == |services|
    {
      answers, h := [], [];
      var i := 0;
      while i < |services|
        invariant i <= |services| && Ready()
        invariant History(old(clock), h, kinds, tstep) && clock == ClockAt(old(clock), h, |h|)
        invariant HistoryOf(h, services, answers) && |h| == i
      {
        var answer;
        ghost var was := h;
        answer, h := ServeNext(services[i], old(clock), h);
        OneMoreAnswer(was, services, answers, h[i]);
        answers := answers + [answer];
        i := i + 1;
      }
    }
  }
}
