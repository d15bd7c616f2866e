/**
 The high-resolution timer of the RZ/A1 (asp3/arch/arm_gcc/rza1/chip_timer.[ch]): a 32-bit
 counter of a 33.33... MHz clock, read in microseconds.

 `N` is the number of ticks since the start, without bound; the register shows it modulo 2^32.
 The microsecond clock adds TCYC_HRTCNT whenever the register wraps around.
 */
module HrTimer {
  import TimeModel

  const WRAP: nat := 0x1_0000_0000
  const TCYC_HRTCNT: nat := 128849019
  const HRTCNT_BOUND: nat := 100000002

  /** target_hrt_get_current, in unbounded arithmetic. */
  function Hrt(cnt: nat): nat {
    var cnt1 := cnt / 1000000000;
    if cnt1 * 999999999 <= cnt then (cnt - cnt1 * 999999999) * 3 / 100 + cnt1 * 30000000 else 0
  }

  /** target_hrt_get_current as the processor computes it, every operation modulo 2^32. */
  function HrtInWords(cnt: nat): nat {
    var cnt1 := cnt / 1000000000;
    (((cnt - cnt1 * 999999999 % WRAP) % WRAP * 3 % WRAP) / 100 + cnt1 * 30000000 % WRAP) % WRAP
  }

  lemma NoOverflow(cnt: nat)
    requires cnt < WRAP
    ensures HrtInWords(cnt) == Hrt(cnt)
  {
    var cnt1 := cnt / 1000000000;
    assert cnt1 <= 4;
    var rest := cnt - cnt1 * 999999999;
    assert 0 <= rest <= 999999999 + 4;
    assert cnt1 * 999999999 % WRAP == cnt1 * 999999999 && rest % WRAP == rest && rest * 3 % WRAP == rest * 3;
    assert cnt1 * 30000000 % WRAP == cnt1 * 30000000;
  }

  /** The exact value: a tick is 3/100 of a microsecond, and one tick too many is counted for every
      10^9 ticks. */
  lemma HrtExact(cnt: nat)
    requires cnt < WRAP
    ensures Hrt(cnt) == 3 * (cnt + cnt / 1000000000) / 100 && Hrt(cnt) < TCYC_HRTCNT
  {
  }

  /** Microseconds after `n` ticks. */
  function Micros(n: nat): nat {
    n / WRAP * TCYC_HRTCNT + Hrt(n % WRAP)
  }

  /** Ticks, with those counted too many. */
  function Counted(n: nat): nat {
    n + n / WRAP * 4 + n % WRAP / 1000000000
  }

  /** The four ticks counted too many in a cycle make up exactly for the rounding of the cycle to
      whole microseconds: 3 * (2^32 + 4) / 100 is TCYC_HRTCNT without remainder. */
  lemma MicrosExact(n: nat)
    ensures Micros(n) == 3 * Counted(n) / 100
  {
    HrtExact(n % WRAP);
    assert n == n / WRAP * WRAP + n % WRAP;
    assert 3 * Counted(n) == n / WRAP * (TCYC_HRTCNT * 100) + 3 * (n % WRAP + n % WRAP / 1000000000);
  }

  lemma CountedAhead(n: nat, d: nat)
    requires d < WRAP
    ensures Counted(n) + d <= Counted(n + d) <= Counted(n) + d + 4
  {
    if n % WRAP + d < WRAP {
      assert (n + d) / WRAP == n / WRAP && (n + d) % WRAP == n % WRAP + d;
    } else {
      assert (n + d) / WRAP == n / WRAP + 1 && (n + d) % WRAP == n % WRAP + d - WRAP;
    }
  }

  /** A tick advances the clock by one microsecond at most, also over a wrap of the register. */
  lemma StepsByOne(n: nat)
    ensures Micros(n) <= Micros(n + 1) <= Micros(n) + 1
  {
    MicrosExact(n);
    MicrosExact(n + 1);
    CountedAhead(n, 1);
  }

  lemma {:induction false} NeverGoesBack(n: nat, d: nat)
    ensures Micros(n) <= Micros(n + d)
    decreases d
  {
    if d > 0 {
      NeverGoesBack(n, d - 1);
      StepsByOne(n + d - 1);
    }
  }

  /** The number of ticks that target_hrt_set_event waits for `hrtcnt` microseconds. */
  function Ticks(hrtcnt: nat): nat {
    hrtcnt * 33 + hrtcnt / 3 + 1
  }

  lemma TicksFit(hrtcnt: nat)
    requires hrtcnt <= HRTCNT_BOUND
    ensures 0 < Ticks(hrtcnt) < WRAP
    ensures (hrtcnt * 33 % WRAP + hrtcnt / 3 + 1) % WRAP == Ticks(hrtcnt)
  {
  }

  /** An alarm set for `hrtcnt` microseconds is never early, and late by one microsecond at most. */
  lemma AlarmIsPunctual(n: nat, hrtcnt: nat)
    requires hrtcnt <= HRTCNT_BOUND
    ensures Micros(n) + hrtcnt <= Micros(n + Ticks(hrtcnt)) <= Micros(n) + hrtcnt + 1
  {
    MicrosExact(n);
    MicrosExact(n + Ticks(hrtcnt));
    CountedAhead(n, Ticks(hrtcnt));
    assert hrtcnt * 100 < 3 * Ticks(hrtcnt) <= hrtcnt * 100 + 3;
  }

  /** update_current_evttim gets the elapsed time right from two readings of the register, if the
      clock has advanced by less than a cycle between them. */
  lemma ReadingsTellElapsedTime(n: nat, d: nat)
    requires Micros(n + d) < Micros(n) + TCYC_HRTCNT
    ensures Hrt(n % WRAP) < TCYC_HRTCNT && Micros(n) <= Micros(n + d)
    ensures Hrt((n + d) % WRAP) == TimeModel.CountUp(Hrt(n % WRAP), Micros(n + d) - Micros(n), TCYC_HRTCNT)
  {
    NeverGoesBack(n, d);
    HrtExact(n % WRAP);
    HrtExact((n + d) % WRAP);
    var k, k' := n / WRAP, (n + d) / WRAP;
    var h, h' := Hrt(n % WRAP), Hrt((n + d) % WRAP);
    assert Micros(n) == k * TCYC_HRTCNT + h && Micros(n + d) == k' * TCYC_HRTCNT + h';
    assert k' == k || k' == k + 1;
  }

  // ---------- The compare register ----------

  /** The first tick after `n` at which the register equals `cmp`. */
  function NextMatch(n: nat, cmp: nat): (k: nat)
    requires cmp < WRAP
    ensures n < k <= n + WRAP && k % WRAP == cmp
    ensures forall i: nat :: n < i < k ==> i % WRAP != cmp
  {
    var k := n + 1 + (cmp - n - 1) % WRAP;
    MatchIsFirst(n, cmp);
    k
  }

  lemma MatchIsFirst(n: nat, cmp: nat)
    requires cmp < WRAP
    ensures var k := n + 1 + (cmp - n - 1) % WRAP;
            k % WRAP == cmp && forall i: nat :: n < i < k ==> i % WRAP != cmp
  {
    var k := n + 1 + (cmp - n - 1) % WRAP;
    var q := (cmp - n - 1) / WRAP;
    assert cmp - n - 1 == q * WRAP + (cmp - n - 1) % WRAP;
    assert k == cmp + (-q) * WRAP;
    assert k % WRAP == cmp;
    forall i: nat | n < i < k
      ensures i % WRAP != cmp
    {
    }
  }

  ghost predicate Matches(n: nat, n': nat, cmp: nat) {
    exists k: nat :: n < k <= n' && k % WRAP == cmp
  }

  lemma NotBefore(n: nat, due: nat, d: nat)
    requires n < due < n + WRAP
    ensures Matches(n, n + d, due % WRAP) <==> due <= n + d
  {
    DueIsNextMatch(n, due);
  }

  class OsTimer {
    var count: nat
    var cmp: nat
    var raised: bool

    predicate Valid()
      reads this
    {
      cmp < WRAP
    }

    /** The interrupt is requested, or will be when the count reaches `due`. */
    ghost predicate Armed(due: nat)
      reads this
    {
      raised || (count < due <= count + WRAP && cmp == due % WRAP)
    }

    // The passing of `n` ticks: an interrupt is requested when the count equals the compare register.
    method Elapse(n: nat)
      requires Valid()
      modifies `count, `raised
      ensures Valid() && count == old(count) + n
      ensures raised <==> old(raised) || Matches(old(count), count, cmp)
      ensures forall due: nat :: old(Armed(due)) ==> Armed(due)
    {
      var next := NextMatch(count, cmp);
      forall due: nat | !raised && Armed(due)
        ensures next == due
      {
        DueIsNextMatch(count, due);
      }
      raised := raised || next <= count + n;
      count := count + n;
    }

    // target_hrt_get_current
    method TargetHrtGetCurrent() returns (hrtcnt: nat)
      requires Valid()
      ensures hrtcnt < TCYC_HRTCNT && hrtcnt == Micros(count) % TCYC_HRTCNT
    {
      var cnt := count % WRAP;
      NoOverflow(cnt);
      HrtExact(cnt);
      hrtcnt := HrtInWords(cnt);
      MicrosModulo(count);
    }

    // target_hrt_set_event; `d1` and `d2` ticks pass between its two readings of the counter,
    // before and after the compare register is written.
    method TargetHrtSetEvent(hrtcnt: nat, d1: nat, d2: nat)
      requires Valid() && hrtcnt <= HRTCNT_BOUND && d1 + d2 < WRAP
      modifies this
      ensures Valid() && count == old(count) + d1 + d2
      ensures Armed(old(count) + Ticks(hrtcnt))
      ensures raised ==> old(raised) || old(count) + Ticks(hrtcnt) <= count ||
                         Matches(old(count), old(count) + d1, old(cmp))
    {
      TicksFit(hrtcnt);
      var cnt := (hrtcnt * 33 % WRAP + hrtcnt / 3 + 1) % WRAP;
      var current := count % WRAP;
      Elapse(d1);
      SumOfWords(old(count), cnt);
      SetCompare((current + cnt) % WRAP);
      ghost var armed := old(count) + cnt;
      if count < armed {
        NotBefore(count, armed, d2);
      }
      Elapse(d2);
      DifferenceOfWords(old(count), d1 + d2);
      if (count % WRAP - current) % WRAP >= cnt {
        raised := true;
      }
    }

    method SetCompare(value: nat)
      requires value < WRAP
      modifies `cmp
      ensures cmp == value
    {
      cmp := value;
    }
  }

  lemma DueIsNextMatch(n: nat, due: nat)
    requires n < due <= n + WRAP
    ensures NextMatch(n, due % WRAP) == due
  {
    var k := NextMatch(n, due % WRAP);
    assert k == k / WRAP * WRAP + due % WRAP && due == due / WRAP * WRAP + due % WRAP;
  }

  lemma MicrosModulo(n: nat)
    ensures Hrt(n % WRAP) == Micros(n) % TCYC_HRTCNT
  {
    HrtExact(n % WRAP);
    var q, r := Micros(n) / TCYC_HRTCNT, Micros(n) % TCYC_HRTCNT;
    assert q * TCYC_HRTCNT + r == n / WRAP * TCYC_HRTCNT + Hrt(n % WRAP);
    assert q == n / WRAP;
  }

  lemma SumOfWords(n: nat, d: nat)
    ensures (n % WRAP + d) % WRAP == (n + d) % WRAP
  {
    assert n % WRAP + d == (n + d) - n / WRAP * WRAP;
  }

  lemma DifferenceOfWords(n: nat, d: nat)
    requires d < WRAP
    ensures ((n + d) % WRAP - n % WRAP) % WRAP == d
  {
    assert (n + d) % WRAP - n % WRAP == d - ((n + d) / WRAP - n / WRAP) * WRAP;
  }
}
