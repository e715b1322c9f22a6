/**
 * The ULP co-processor's duty-cycle program (main/ulp/main.c).
 *
 * Each time the co-processor wakes it runs `main` once: it increments the
 * global 32-bit counter `loop_count`, and when the new value is a multiple
 * of 5 it asks the main processor to wake up. The hardware wake call is
 * modelled as the boolean result of a tick.
 */
module UlpMain {
  import opened Word32

  /** A wake is requested on every counter value that is a multiple of this. */
  const WakePeriod: int := 5

  /** Whether the counter value `v`, read after the increment, requests a wake. */
  predicate IsWakeValue(v: u32)
  {
    v as int % WakePeriod == 0
  }

  /** The effect of one run of `main`: the new counter and whether a wake was requested. */
  datatype TickResult = TickResult(count: u32, wake: bool)

  /** The effect of several consecutive ticks: the final counter and how many wakes were requested. */
  datatype RunResult = RunResult(count: u32, wakes: nat)

  /**
   * One tick from counter value `c`. The wake test is on the incremented
   * value, so in terms of the old value a wake happens when `c + 1` is a
   * multiple of 5 or when the increment wraps to 0.
   */
  function Step(c: u32): (r: TickResult)
    ensures r.count == Inc(c)
    ensures r.wake <==> ((c as int + 1) % WakePeriod == 0 || c as int == Max)
  {
    var n := Inc(c);
    TickResult(n, IsWakeValue(n))
  }

  /** `k` consecutive ticks from counter value `c`. */
  function Run(c: u32, k: nat): (r: RunResult)
    ensures r.wakes <= k
  {
    if k == 0 then RunResult(c, 0)
    else
      var before := Run(c, k - 1);
      var t := Step(before.count);
      RunResult(t.count, before.wakes + if t.wake then 1 else 0)
  }

  /** The counter after `k` ticks is the start value plus `k`, modulo 2^32. */
  lemma {:induction false} RunCount(c: u32, k: nat)
    ensures Run(c, k).count as int == (c as int + k) % Modulus
  {
    if k > 0 {
      RunCount(c, k - 1);
      var m := (c as int + k - 1) % Modulus;
      assert Run(c, k).count == Inc(m as u32);
      ModSucc(c as int + k - 1);
    }
  }

  /** Adding one commutes with reduction modulo 2^32. */
  lemma ModSucc(x: int)
    requires 0 <= x
    ensures (x % Modulus + 1) % Modulus == (x + 1) % Modulus
  {
  }

  /**
   * As long as the counter does not wrap, the number of wakes in `k` ticks
   * from `c` is the number of multiples of 5 in the interval (c, c + k].
   */
  lemma {:induction false} RunWakesBeforeWrap(c: u32, k: nat)
    requires c as int + k <= Max
    ensures Run(c, k).count as int == c as int + k
    ensures Run(c, k).wakes == (c as int + k) / WakePeriod - c as int / WakePeriod
  {
    RunCount(c, k);
    if k > 0 {
      RunWakesBeforeWrap(c, k - 1);
      var v := c as int + k;
      if v % WakePeriod == 0 {
        assert v / WakePeriod == (v - 1) / WakePeriod + 1;
      } else {
        assert v / WakePeriod == (v - 1) / WakePeriod;
      }
    }
  }

  /**
   * Running `a` ticks and then `b` more is the same as running `a + b`
   * ticks, with the wakes of the two runs added up.
   */
  lemma {:induction false} RunSplit(c: u32, a: nat, b: nat)
    ensures Run(c, a + b).count == Run(Run(c, a).count, b).count
    ensures Run(c, a + b).wakes == Run(c, a).wakes + Run(Run(c, a).count, b).wakes
  {
    if b > 0 {
      RunSplit(c, a, b - 1);
    }
  }

  /**
   * From the zero-initialised global, the counter after `k` ticks is `k`,
   * tick number `k` requests a wake exactly when `k` is a multiple of 5, and
   * `k / 5` wakes have been requested, until the counter wraps.
   */
  lemma FromZero(k: nat)
    requires 0 < k <= Max
    ensures Run(0, k).count as int == k
    ensures Step(Run(0, k - 1).count).wake <==> k % WakePeriod == 0
    ensures Run(0, k).wakes == k / WakePeriod
  {
    RunWakesBeforeWrap(0, k);
    RunWakesBeforeWrap(0, k - 1);
  }

  /** The first wake request from the zero-initialised global is on tick 5. */
  lemma FirstWakeOnFifthTick()
    ensures Run(0, 4).wakes == 0
    ensures Run(0, 5).wakes == 1
  {
    FromZero(4);
    FromZero(5);
  }

  /** The counter wraps from 4294967295 to 0, and both ticks request a wake. */
  lemma WrapWakesTwice()
    ensures Step((Max - 1) as u32) == TickResult(Max as u32, true)
    ensures Step(Max as u32) == TickResult(0, true)
    ensures Run((Max - 1) as u32, 2).wakes == 2
  {
    assert Run((Max - 1) as u32, 1) == RunResult(Max as u32, 1);
  }

  /**
   * Any five consecutive ticks request exactly one wake, except the four
   * windows whose ticks reach both 4294967295 and 0: those request two.
   */
  lemma FiveTickWindow(c: u32)
    ensures Run(c, 5).wakes == if Max - 4 <= c as int < Max then 2 else 1
  {
    if c as int + 5 <= Max {
      RunWakesBeforeWrap(c, 5);
    } else {
      // a ticks up to 4294967295, one tick that wraps to 0, then the rest from 0
      var a := Max - c as int;
      RunSplit(c, a, 5 - a);
      RunWakesBeforeWrap(c, a);
      RunSplit(Max as u32, 1, 4 - a);
      assert Run(Max as u32, 1) == RunResult(0, 1);
      RunWakesBeforeWrap(0, 4 - a);
    }
  }

  /**
   * After a tick that requested a wake at counter value `v`, the next wake
   * comes 5 ticks later, except after 4294967295, where the wrap to 0
   * requests the next one on the very next tick.
   */
  lemma WakeSpacing(v: u32)
    requires IsWakeValue(v)
    ensures var d := if v as int == Max then 1 else WakePeriod;
      Run(v, d - 1).wakes == 0 && Step(Run(v, d - 1).count).wake
  {
    if v as int == Max {
      assert Run(v, 0) == RunResult(v, 0);
    } else {
      assert v as int + 4 < Max;
      RunWakesBeforeWrap(v, 4);
    }
  }

  /**
   * The wake test reads the incremented counter: a multiple of 5 before the
   * tick does not wake, except 4294967295, whose tick wraps to 0.
   */
  lemma PreIncrementNotTested(c: u32)
    requires IsWakeValue(c) && c as int < Max
    ensures !Step(c).wake
  {
  }

  /**
   * The ULP program's persistent state: the global `loop_count`, kept in
   * memory that survives between wakes of the co-processor.
   */
  class Ulp {
    var loopCount: u32

    /** The global starts zero-initialised. */
    constructor ()
      ensures loopCount == 0
    {
      loopCount := 0;
    }

    /**
     * One run of `main`: increment `loop_count`, then request a wake of the
     * main processor when the new value is a multiple of 5. Nothing but the
     * counter changes, and the tick has no loop.
     */
    method Tick() returns (wake: bool)
      modifies this`loopCount
      ensures loopCount == Inc(old(loopCount))
      ensures wake == IsWakeValue(loopCount)
      ensures TickResult(loopCount, wake) == Step(old(loopCount))
    {
      loopCount := Inc(loopCount);
      wake := loopCount as int % WakePeriod == 0;
    }

    /** `n` successive wakes of the co-processor, counting the wake requests. */
    method RunTicks(n: nat) returns (wakes: nat)
      modifies this`loopCount
      ensures RunResult(loopCount, wakes) == Run(old(loopCount), n)
      ensures loopCount as int == (old(loopCount) as int + n) % Modulus
      ensures wakes <= n
    {
      ghost var start := loopCount;
      wakes := 0;
      var i := 0;
      while i < n
        invariant 0 <= i <= n
        invariant RunResult(loopCount, wakes) == Run(start, i)
      {
        var w := Tick();
        if w {
          wakes := wakes + 1;
        }
        i := i + 1;
      }
      RunCount(start, n);
    }
  }
}
