# ESP32-S3 ULP playground: the ULP duty-cycle tick

This project models the program that runs on the ESP32-S3's ULP RISC-V
co-processor. Each time the co-processor is woken it runs `main` once (a
*tick*). A tick increments the global 32-bit unsigned counter
`loop_count`, which lives in memory that survives between wakes. When the
incremented value is a multiple of 5, the tick then asks the main processor
to wake up.

The model has two modules:

- `Word32` (`word32.dfy`) defines `uint32_t` as the newtype `u32` over
  `0 .. 2^32 - 1`. It also defines `Inc`, the value that `loop_count++`
  stores: the increment of a `uint32_t`. Unsigned
  overflow wraps modulo 2^32, as section 6.2.5, paragraph 9 of ISO C
  requires, and the wrap is written out explicitly.
- `UlpMain` (`ulp_main.dfy`) has three parts:
  - The specification functions: `Step` for one tick and `Run` for `k`
    consecutive ticks.
  - The class `Ulp`, which holds `loopCount` as a mutable field. Its
    methods are `Tick`, the source's `main`, and `RunTicks`, which performs
    `n` successive wakes in a loop and counts the wake requests.
  - Lemmas about the rhythm of the wake requests.

The wake rhythm has one subtle point. 2^32 is congruent to 1 modulo 5, so
4294967295 is itself a multiple of 5. The tick that reaches 4294967295 and
the next tick, which wraps to 0, therefore both request a wake. The
lemmas cover this case:

- `FiveTickWindow` shows that the four 5-tick windows containing both of
  those ticks request two wakes, and every other window requests exactly
  one.
- `WakeSpacing` shows that after a wake at 4294967295 the next wake comes
  after 1 tick instead of 5.

## Model

| member | source | states |
|---|---|---|
| `Word32.Inc` | main/ulp/main.c:4-8 | `loop_count++` on a `uint32_t` adds exactly 1 modulo 2^32. It gives `x + 1` below the maximum, and 4294967295 wraps to 0 instead of saturating or faulting. |
| `UlpMain.Step` | main/ulp/main.c:8-10 | One tick's new counter is the increment of the old one. A wake is requested exactly when the old value plus one is a multiple of 5 or the increment wraps to 0, because the tested value is the incremented one. |
| `UlpMain.Run` | main/ulp/main.c:6-12 | `k` consecutive ticks request at most `k` wakes. |
| `UlpMain.RunCount` | main/ulp/main.c:4-8 | After `k` ticks the counter is the start value plus `k`, modulo 2^32. |
| `UlpMain.RunWakesBeforeWrap` | main/ulp/main.c:8-10 | If the counter does not wrap, `k` ticks from `c` end at `c + k`. They request one wake per multiple of 5 in `(c, c + k]`. |
| `UlpMain.FromZero` | main/ulp/main.c:4-10 | From the zero-initialised global, and until the wrap, tick `k` leaves the counter at `k`. It requests a wake exactly when `k` is a multiple of 5, and `k / 5` wakes have been requested by then. |
| `UlpMain.FirstWakeOnFifthTick` | main/ulp/main.c:4-10 | From the zero-initialised global, ticks 1-4 request no wake and tick 5 requests the first one. |
| `UlpMain.WrapWakesTwice` | main/ulp/main.c:4-10 | The tick from 4294967294 reaches 4294967295 and wakes. The tick from 4294967295 wraps to 0 and also wakes, so these two ticks request two wakes. |
| `UlpMain.FiveTickWindow` | main/ulp/main.c:8-10 | Every 5 consecutive ticks request exactly one wake. The exceptions are the four windows starting at 4294967291-4294967294, which reach both 4294967295 and 0 and request two. |
| `UlpMain.WakeSpacing` | main/ulp/main.c:8-10 | After a wake at counter value `v`, the next wake comes exactly 5 ticks later, with none in between. When `v` is 4294967295 it comes on the very next tick. |
| `UlpMain.PreIncrementNotTested` | main/ulp/main.c:8-9 | A counter that is a multiple of 5 before the tick does not request a wake. The exception is 4294967295, whose tick wraps to 0. |
| `UlpMain.Ulp.constructor` | main/ulp/main.c:4 | The global `loop_count` starts at 0. |
| `UlpMain.Ulp.Tick` | main/ulp/main.c:6-12 | `main` changes only `loop_count`, which becomes its 32-bit increment. It returns whether a wake of the main processor was requested, which is whether the new value is a multiple of 5. This agrees with `Step`. The method has no loop. |
| `UlpMain.Ulp.RunTicks` | main/ulp/main.c:6-12 | `n` successive runs of `main` leave `loop_count` at its old value plus `n`, modulo 2^32. The method returns the number of wake requests, which agrees with `Run`. |

## Left out

- `ulp_riscv_wakeup_main_processor()` (main/ulp/main.c:10) is a hardware call. It is modelled only as the boolean result of `Tick`; its effect on the main processor is not modelled.
- `volatile` sharing of `loop_count` with the main processor (main/ulp/main.c:4) is not modelled. Each tick is modelled as one atomic sequential step.
- RunTicks: assumes that the ULP program has been loaded, started and periodically woken by code that is not part of this model. main/main.cpp does none of this, so `RunTicks` stands for `n` such wakes in sequence, with no model of their timing.
- main/main.cpp is not part of this model. It is an endless loop that only logs and sleeps, so it contains no logic.
- main/ulp/sensor.h is not part of this model. It declares the `STATE` enum, `temp_reading_t` and `HISTORY_LENGTH`, but no modelled code reads or writes them. `temp_in_f` is also a floating-point `double`.
