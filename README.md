# Realtek RTL87x2G PWM driver — Dafny model

This project models the Zephyr PWM driver for the Realtek RTL87x2G timer
(`drivers/pwm/pwm_rtl87x2g.c`). The driver has three entry points. `init` switches the timer
clock on, records the 40 MHz timer clock, applies the pins, picks a clock-divider code from the
configured prescaler, and commits initial counts to one of two timer variants: the
*enhanced* timer or the *standard* timer. `set_cycles` validates the channel. It then classifies
the request as 0%, 100% or general duty, in that order. Finally it encodes the request into the
variant's registers and commits it with a disable followed by an enable. `get_cycles_per_sec`
reports the timer clock divided by the prescaler.

Layout:

- `uint.dfy` (`Uint`): `uint8_t`/`uint16_t`/`uint32_t`/`uint64_t` as bounded integers. It also
  holds C's wrapping `uint32_t` subtraction, `Sub`.
- `clock_divider.dfy` (`ClockDivider`): the prescaler `switch` and the divider codes.
- `hal.dfy` (`Hal`): the vendor HAL and the two collaborators, seen as a trace of call events.
  It also holds the abstract register view (`Regs`), what each call does to it (`Effect`), and
  replaying a call sequence (`Run`).
- `pwm_encoding.dfy` (`PwmEncoding`): pure specifications. These are the call sequences of
  `set_cycles` and `init` as the source makes them (`SetCyclesCalls`, `InitCalls`), and
  register-level reference tables (`Applied`, `Baseline`). Lemmas prove that replaying the calls
  gives exactly the tables. The module also holds the frequency query.
- `pwm_driver.dfy` (`PwmDriver`): the `Timer` class. It holds the configuration, the per-instance
  data (`timClk`), the register fields and a ghost call `trace`. Its invariant `Valid()` says
  that the register fields always equal the result of replaying every recorded call, oldest
  first, on the reset values. Its methods `Init`, `SetCycles` (with per-variant
  helpers) and `GetCyclesPerSec` make the HAL calls in the same order as the source. Each is
  proved against the pure specification.
- `pwm_properties.dfy` (`PwmProperties`): properties of sequences of `set_cycles` calls.

Modelling choices:

- The pin-control answer is a parameter of `Init`, a nondeterministic int. `clock_control_on`
  is a trace event whose result is ignored, because the source discards it.
- Register reset values before `init` are not visible in the source. They are a constructor
  parameter. `tim_clk` starts at 0 because the data struct is zero-initialised static storage.
- `pwm_flags_t` is `bv16`. `PWM_POLARITY_INVERTED` is bit 0, as in Zephyr's PWM devicetree
  binding.
- The two arguments of `TIM_PWMChangeFreqAndDuty` are named `high` and `low`. The init baseline
  sets `TIM_PWM_High_Count = 0` and `TIM_PWM_Low_Count = UINT32_MAX`, and the normal-polarity 0%
  call passes `(0, UINT32_MAX)`, so the arguments are taken in that order.
- The HAL bodies are not visible. Each call is modelled as an update of only the fields it
  names. Only the `*_Cmd` calls change `enabled`.
- On the standard timer the source has six `TIM_PWMChangeFreqAndDuty` call sites, one per
  polarity and duty class. The model selects the two arguments by the same branches and then
  makes the one call. The recorded trace is the same.

Four behaviours of the code that a reader might not expect, all modelled as written:

- The channel guard rejects only `channel > channels`, so `channel == channels` is accepted
  (`ChannelAccepted`).
- The frequency query divides by the raw prescaler, even when `init` programmed divide-by-1
  for an unrecognised prescaler. `QueryMatchesDivider` proves that the reported rate and the
  programmed divider agree exactly for the recognised prescalers.
- On the enhanced timer, a 100% request writes only the compare value. The max-count keeps the
  value that the last non-100% request, or `init`, or the reset left (`EnhancedReflectsLast`).
- The two variants start at opposite duty levels, as the driver's own `duty = 0` and
  `duty = 100` comments label its encodings. On the standard timer, `init` writes high 0 and
  low UINT32_MAX, which is set_cycles' normal-polarity 0% encoding. On the enhanced timer,
  `init` writes compare 0, start-low polarity and max-count UINT32_MAX; that is the register
  state a normal-polarity 100% request leaves behind (it writes compare 0 and keeps the rest),
  while set_cycles' 0% encoding is max-count UINT32_MAX - 1 with compare UINT32_MAX
  (`BaselineDutyEncoding`). The waveform itself is not modelled, so the duty levels rest on
  those comments.

## Model

| member | source | states |
|---|---|---|
| `Uint.Sub` | drivers/pwm/pwm_rtl87x2g.c:124-125 | `period_cycles - pulse_cycles` on `uint32_t` never traps: it is the exact difference when it fits, otherwise the difference plus 2^32, and adding the subtrahend back gives the minuend modulo 2^32 |
| `Hal.Effect` | drivers/pwm/pwm_rtl87x2g.c:57-130 | the clock and pin-control calls change no register; only the enable/disable commands change the enable bit; enhanced-timer calls leave the standard timer's high and low counts alone and standard-timer calls leave the max-count, compare value and start polarity alone; `TIM_PWMChangeFreqAndDuty` sets the high count from its first argument and the low count from its second |
| `PwmEncoding.ChannelAccepted` | drivers/pwm/pwm_rtl87x2g.c:51 | a channel is accepted exactly when it is at most the configured channel count, so `channel == channels` passes the guard |
| `PwmEncoding.Inverted` | drivers/pwm/pwm_rtl87x2g.c:59 | both polarity tests (lines 59 and 88) hold exactly when bit 0 of the flags, `PWM_POLARITY_INVERTED`, is set |
| `ClockDivider.Factor` | drivers/pwm/pwm_rtl87x2g.c:175-198 | every divider code stands for one of the eight prescaler values the switch recognises |
| `ClockDivider.DividerOf` | drivers/pwm/pwm_rtl87x2g.c:173-202 | a recognised prescaler (1, 2, 4, 8, 16, 32, 40, 64) selects the code whose factor is that prescaler; any other value falls back to divide-by-1 |
| `ClockDivider.DividerOfFactor` | drivers/pwm/pwm_rtl87x2g.c:175-198 | the eight cases select eight distinct codes: a code's own factor selects it again |
| `ClockDivider.DividerMatchesPrescaler` | drivers/pwm/pwm_rtl87x2g.c:173-202 | the programmed divider divides by the prescaler if and only if the prescaler is recognised |
| `PwmEncoding.Classify` | drivers/pwm/pwm_rtl87x2g.c:66-81 | the three duty classes partition all requests; 0% (period or pulse zero) is tested first, so period = pulse = 0 is 0% and never 100% |
| `PwmEncoding.StandardArgs` | drivers/pwm/pwm_rtl87x2g.c:88-127 | the standard timer's arguments at inverted polarity are, in all three classes, the swap of the normal-polarity (active, inactive) table; for 0 < pulse < period they add up to the period; for pulse > period > 0 the inactive count wraps modulo 2^32 and nothing rejects the request |
| `PwmEncoding.EnhancedWrites` | drivers/pwm/pwm_rtl87x2g.c:66-81 | the enhanced count writes end with one compare write; only the 100% case omits the max-count write before it |
| `PwmEncoding.EnhancedCalls` | drivers/pwm/pwm_rtl87x2g.c:57-85 | the enhanced branch addresses only the enhanced timer and ends with exactly DISABLE then ENABLE, with no command before them |
| `PwmEncoding.StandardCalls` | drivers/pwm/pwm_rtl87x2g.c:86-130 | the standard branch makes one TIM_PWMChangeFreqAndDuty call followed by exactly TIM_Cmd(DISABLE) then TIM_Cmd(ENABLE), none addressed to the enhanced timer |
| `PwmEncoding.SetCyclesCalls` | drivers/pwm/pwm_rtl87x2g.c:42-133 | set_cycles returns 0 exactly when the guard accepts the channel (channel == channels passes); a rejected channel returns -EINVAL with no call at all; an accepted one addresses only its own variant and ends with exactly DISABLE then ENABLE, with no other command earlier |
| `PwmEncoding.Applied` | drivers/pwm/pwm_rtl87x2g.c:57-130 | register table of set_cycles: a rejected request changes nothing, an accepted one leaves the timer enabled, the divider is never touched, and each variant leaves the other's registers alone |
| `PwmEncoding.CallsMeetTable` | drivers/pwm/pwm_rtl87x2g.c:57-130 | replaying set_cycles' calls on any register state yields the table: enhanced 0% loads max UINT32_MAX-1 and compare UINT32_MAX, 100% loads only compare 0, a general request loads period and pulse, and the inverted flag sets the start-high bit without clearing it otherwise; standard loads the (swapped when inverted) active/inactive counts |
| `PwmEncoding.EnhancedCallsMeetTable` | drivers/pwm/pwm_rtl87x2g.c:57-85 | the enhanced half of CallsMeetTable: polarity read-modify-write, count writes, disable, enable give the enhanced table |
| `PwmEncoding.EnhancedWritesEffect` | drivers/pwm/pwm_rtl87x2g.c:66-81 | the enhanced count writes load max UINT32_MAX-1 and compare UINT32_MAX for 0%, only compare 0 for 100% (max-count kept), and period and pulse otherwise |
| `PwmEncoding.Baseline` | drivers/pwm/pwm_rtl87x2g.c:203-233 | init's register table: the divider selected from the prescaler and the timer enabled; the standard baseline is the normal-polarity 0% encoding (high 0, low UINT32_MAX); the enhanced one is max UINT32_MAX, compare 0, start-low |
| `PwmEncoding.InitCalls` | drivers/pwm/pwm_rtl87x2g.c:153-234 | init switches the clock on and applies the pins first; a negative pin-control answer is returned unchanged with no call reaching the timer; otherwise one variant init call and one ENABLE follow and init returns 0 |
| `PwmEncoding.BaselineDutyEncoding` | drivers/pwm/pwm_rtl87x2g.c:66-75 | on the enhanced timer a normal-polarity 100% request (lines 74-75) leaves init's registers (lines 212-214) exactly as they are, and a 0% request (lines 69-70) changes them; on the standard timer a 0% request leaves init's registers as they are |
| `PwmEncoding.InitCallsMeetBaseline` | drivers/pwm/pwm_rtl87x2g.c:161-233 | replaying init's calls leaves the registers untouched on a pin-control failure and yields the baseline otherwise |
| `PwmEncoding.CyclesPerSec` | drivers/pwm/pwm_rtl87x2g.c:141 | the reported rate is the truncated quotient: its product with the prescaler does not exceed the clock, and one more would |
| `PwmEncoding.QueryExamples` | drivers/pwm/pwm_rtl87x2g.c:135-145 | with the 40 MHz clock recorded by init (line 164), prescaler 40 reports 1,000,000 and prescaler 64 reports 625,000 |
| `PwmEncoding.QueryMatchesDivider` | drivers/pwm/pwm_rtl87x2g.c:141-202 | after init the reported rate equals the rate of the programmed divider if and only if the prescaler is recognised; for an unrecognised one the divider is divide-by-1 yet the query reports less than 40 MHz |
| `PwmDriver.Timer.constructor` | drivers/pwm/pwm_rtl87x2g.c:24-40 | an instance before init: the given configuration, tim_clk 0, the registers at their reset values, an empty call trace |
| `PwmDriver.Timer.Init` | drivers/pwm/pwm_rtl87x2g.c:153-234 | tim_clk is 40 MHz afterwards even when pin control fails; the return code and the recorded calls are those of InitCalls; the registers are unchanged on failure and the baseline otherwise |
| `PwmDriver.Timer.SetCycles` | drivers/pwm/pwm_rtl87x2g.c:42-133 | the return code and the recorded calls are those of SetCyclesCalls, the registers end as Applied says, and tim_clk is untouched |
| `PwmDriver.Timer.UpdateEnhanced` | drivers/pwm/pwm_rtl87x2g.c:57-85 | the enhanced branch makes exactly the calls of EnhancedCalls, in source order, keeping the registers equal to the replay of the trace |
| `PwmDriver.Timer.UpdateStandard` | drivers/pwm/pwm_rtl87x2g.c:86-130 | the standard branch makes exactly the calls of StandardCalls: one TIM_PWMChangeFreqAndDuty with the arguments its branch selects, then the commit |
| `PwmDriver.Timer.Call` | drivers/pwm/pwm_rtl87x2g.c:69-84 | one HAL call changes the registers by its effect and nothing else, appends itself to the trace, and keeps the registers equal to the replay of the trace |
| `PwmDriver.Timer.GetCyclesPerSec` | drivers/pwm/pwm_rtl87x2g.c:135-145 | returns 0 and the truncated quotient of the recorded clock by the raw prescaler; it changes nothing |
| `PwmProperties.LastWhere` | drivers/pwm/pwm_rtl87x2g.c:42-133 | when nothing is selected, no request satisfies the filter; when a request is selected, it sits at a position where it satisfies the filter and no later request does |
| `PwmProperties.ReplayTrace` | drivers/pwm/pwm_rtl87x2g.c:42-133 | for any run of set_cycles calls, replaying the recorded trace gives the same registers as applying the table request by request |
| `PwmProperties.RejectedChangesNothing` | drivers/pwm/pwm_rtl87x2g.c:51-55 | a request with channel > channels, made anywhere in a run of requests, adds nothing to the trace and changes no register: the run gives the same calls and registers as the run without it |
| `PwmProperties.StartHighSticky` | drivers/pwm/pwm_rtl87x2g.c:59-64 | on the enhanced timer the start-high bit ends set if and only if it was set before or some accepted request was inverted; non-inverted calls never clear it |
| `PwmProperties.VariantsIsolated` | drivers/pwm/pwm_rtl87x2g.c:57-130 | over any run of requests the divider and the other variant's registers never change |
| `PwmProperties.StandardReflectsLast` | drivers/pwm/pwm_rtl87x2g.c:88-129 | on the standard timer the high/low counts after any run are the arguments of the last accepted request alone, and the timer is enabled; with none accepted, nothing changed |
| `PwmProperties.EnhancedReflectsLast` | drivers/pwm/pwm_rtl87x2g.c:66-84 | on the enhanced timer the compare value is the last accepted request's, while the max-count is that of the last accepted request that was not 100% duty |
| `PwmProperties.ZeroBeforeFull` | drivers/pwm/pwm_rtl87x2g.c:66-126 | period = pulse = 0 takes the 0% encoding in every variant and polarity |
| `PwmProperties.SwapInvolution` | drivers/pwm/pwm_rtl87x2g.c:88-127 | swapping the inverted standard arguments restores the normal-polarity arguments |
| `PwmProperties.FullIndependentOfValue` | drivers/pwm/pwm_rtl87x2g.c:72-120 | 100% duty gives the same registers for every nonzero period = pulse |

## Left out

- Vendor HAL internals (`ENHTIM_Init`, `ENHTIM_SetMaxCount`, `ENHTIM_SetCCValue`, `ENHTIM_Cmd`,
  `TIM_TimeBaseInit`, `TIM_PWMChangeFreqAndDuty`, `TIM_Cmd`, the `ENHTIM_CONFIGURE_TypeDef` bit
  layout): their bodies are not part of this model. They are abstract register updates.
  Because of this, the other fields of the CONFIGURE register and the init structs' clock
  source, mode and output-enable settings are not represented.
- The numeric values of the `CLOCK_DIV_*` codes: they live in a vendor header that is not part
  of this model, so the codes are an enumeration.
- `soc/arm/realtek_bee/rtl87x2g/pinctrl_soc.h` and pin muxing: devicetree plumbing of an
  external collaborator. Only its success or failure answer is modelled.
- `clock_control_on`: a foreign call whose result the driver discards. It is a trace event.
- Logging, the `pwm_driver_api` table and device registration (`PWM_RTL87X2G_INIT`,
  `DEVICE_DT_INST_DEFINE`, `DT_INST_FOREACH_STATUS_OKAY`): no behaviour.
- The physical waveform, the glitch window between disable and enable, and concurrent callers:
  timing and hardware concerns that the code does not express. Which register states mean 0%
  or 100% duty is therefore taken from the driver's comments, not derived.
- `PwmEncoding.CyclesPerSec`: requires a nonzero prescaler, because the driver divides by the
  prescaler unguarded and a prescaler of 0 has no defined result.
- `PwmDriver.Timer.GetCyclesPerSec`: requires a nonzero prescaler, for the same reason.
