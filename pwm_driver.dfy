/** One timer instance driven by the rtl87x2g PWM driver: its configuration, the per-instance
    data (the recorded timer clock), the timer's registers, and the driver's three entry points
    as methods that make their HAL calls in the driver's order. */
module PwmDriver {
  import opened Uint
  import opened ClockDivider
  import opened Hal
  import opened PwmEncoding

  class Timer {
    /** struct pwm_rtl87x2g_config, fixed for the life of the instance. */
    const config: Config
    /** struct pwm_rtl87x2g_data: the timer clock in Hz. */
    var timClk: u32
    // the timer's register block
    var divider: ClockDiv
    var maxCount: u32
    var ccValue: u32
    var startHigh: bool
    var highCount: u32
    var lowCount: u32
    var enabled: bool
    /** Every HAL and collaborator call made on this instance, oldest first. */
    ghost var trace: seq<Event>
    /** The registers as the hardware reset left them. */
    ghost const resetRegs: Regs

    function Registers(): Regs
      reads this
    {
      Regs(divider, maxCount, ccValue, startHigh, highCount, lowCount, enabled)
    }

    /** The registers are what replaying the recorded calls on the reset values gives. */
    ghost predicate Valid()
      reads this
    {
      Registers() == Run(resetRegs, trace)
    }

    /** An instance before init: the data is zero-initialised static storage and the registers
        hold whatever the hardware reset left in them. */
    constructor (config: Config, reset: Regs)
      ensures Valid()
      ensures this.config == config && timClk == 0
      ensures Registers() == reset && trace == []
    {
      this.config := config;
      timClk := 0;
      divider, maxCount, ccValue, startHigh := reset.divider, reset.maxCount, reset.ccValue, reset.startHigh;
      highCount, lowCount, enabled := reset.highCount, reset.lowCount, reset.enabled;
      trace := [];
      resetRegs := reset;
    }

    /** One HAL or collaborator call: its effect on the registers, recorded in the trace. */
    method Call(e: Event)
      requires Valid()
      modifies this
      ensures Valid()
      ensures Registers() == Effect(old(Registers()), e)
      ensures trace == old(trace) + [e] && timClk == old(timClk)
    {
      ghost var t := trace + [e];
      var r := Effect(Registers(), e);
      RunSnoc(resetRegs, trace, e);
      assert r == Run(resetRegs, t);
      divider, maxCount, ccValue, startHigh := r.divider, r.maxCount, r.ccValue, r.startHigh;
      highCount, lowCount, enabled := r.highCount, r.lowCount, r.enabled;
      assert Registers() == r;
      trace := t;
    }

    /** pwm_rtl87x2g_init. The clock is switched on and 40 MHz recorded before the pins are
        applied, so tim_clk is set even when pin control fails; a negative pin-control answer is
        returned unchanged with the registers untouched. Otherwise the divider chosen from the
        prescaler and the variant's initial counts (Baseline) are committed and the timer
        enabled. */
    method Init(pinctrlRet: int) returns (ret: int)
      requires Valid()
      modifies this
      ensures Valid()
      ensures timClk == TIM_CLK_HZ
      ensures ret == InitCalls(config, pinctrlRet).ret
      ensures trace == old(trace) + InitCalls(config, pinctrlRet).calls
      ensures Registers() == if pinctrlRet < 0 then old(Registers()) else Baseline(config, old(Registers()))
    {
      ghost var before, r0 := trace, Registers();
      Call(ClockOn(config.clkid));
      timClk := TIM_CLK_HZ;
      Call(PinctrlApply(pinctrlRet));
      if pinctrlRet < 0 {
        ret := pinctrlRet;
      } else {
        var div := DividerOf(config.prescaler);
        if config.isEnhanced {
          Call(EnhInit(div, UINT32_MAX, 0, false));
          Call(EnhCmd(true));
        } else {
          Call(TimInit(div, 0, UINT32_MAX));
          Call(TimCmd(true));
        }
        ret := 0;
      }
      ghost var calls := InitCalls(config, pinctrlRet).calls;
      assert trace == before + calls;
      RunAppend(resetRegs, before, calls);
      InitCallsMeetBaseline(config, r0, pinctrlRet);
    }

    /** pwm_rtl87x2g_set_cycles. The return code and the calls are those of SetCyclesCalls, and
        the registers end as the table Applied says; tim_clk is not touched. */
    method SetCycles(channel: u32, period: u32, pulse: u32, flags: bv16) returns (ret: int)
      requires Valid()
      modifies this
      ensures Valid()
      ensures ret == SetCyclesCalls(config, Request(channel, period, pulse, flags)).ret
      ensures trace == old(trace) + SetCyclesCalls(config, Request(channel, period, pulse, flags)).calls
      ensures Registers() == Applied(config, old(Registers()), Request(channel, period, pulse, flags))
      ensures timClk == old(timClk)
    {
      ghost var before, r0 := trace, Registers();
      var q := Request(channel, period, pulse, flags);
      if channel > config.channels {
        return -EINVAL;
      }
      if config.isEnhanced {
        UpdateEnhanced(q);
      } else {
        UpdateStandard(q);
      }
      ret := 0;
      RunAppend(resetRegs, before, SetCyclesCalls(config, q).calls);
      CallsMeetTable(config, r0, q);
    }

    /** The enhanced-timer branch of set_cycles, for an accepted channel: the calls of
        EnhancedCalls, in order. */
    method UpdateEnhanced(q: Request)
      requires Valid()
      requires config.isEnhanced && ChannelAccepted(config, q.channel)
      modifies this
      ensures Valid()
      ensures trace == old(trace) + EnhancedCalls(q)
      ensures timClk == old(timClk)
    {
      ghost var before := trace;
      ghost var polarity: seq<Event> := if Inverted(q.flags) then [EnhSetStartHigh] else [];
      if Inverted(q.flags) {
        Call(EnhSetStartHigh);
      }
      assert trace == before + polarity;
      ghost var mid := trace;
      if q.period == 0 || q.pulse == 0 {
        Call(EnhSetMaxCount(UINT32_MAX - 1));
        Call(EnhSetCCValue(UINT32_MAX));
      } else if q.period == q.pulse {
        Call(EnhSetCCValue(0));
      } else {
        Call(EnhSetMaxCount(q.period));
        Call(EnhSetCCValue(q.pulse));
      }
      ghost var writes := EnhancedWrites(q.period, q.pulse);
      assert trace == mid + writes;
      Call(EnhCmd(false));
      Call(EnhCmd(true));
      assert trace == before + polarity + writes + [EnhCmd(false)] + [EnhCmd(true)];
      assert trace == before + (polarity + writes + [EnhCmd(false), EnhCmd(true)]);
    }

    /** The standard-timer branch of set_cycles, for an accepted channel: the calls of
        StandardCalls, in order. */
    method UpdateStandard(q: Request)
      requires Valid()
      requires !config.isEnhanced && ChannelAccepted(config, q.channel)
      modifies this
      ensures Valid()
      ensures trace == old(trace) + StandardCalls(q)
      ensures timClk == old(timClk)
    {
      var period, pulse := q.period, q.pulse;
      var high: u32, low: u32;
      if Inverted(q.flags) {
        if period == 0 || pulse == 0 {
          high, low := UINT32_MAX, 0;
        } else if period == pulse {
          high, low := 0, UINT32_MAX;
        } else {
          high, low := Sub(period, pulse), pulse;
        }
      } else {
        if period == 0 || pulse == 0 {
          high, low := 0, UINT32_MAX;
        } else if period == pulse {
          high, low := UINT32_MAX, 0;
        } else {
          high, low := pulse, Sub(period, pulse);
        }
      }
      assert TimArgs(high, low) == StandardArgs(period, pulse, Inverted(q.flags));
      ghost var before := trace;
      Call(TimChangeFreqAndDuty(high, low));
      Call(TimCmd(false));
      Call(TimCmd(true));
      assert trace == before + [TimChangeFreqAndDuty(high, low), TimCmd(false), TimCmd(true)];
    }

    /** pwm_rtl87x2g_get_cycles_per_sec: always 0, with the truncated quotient of the recorded
        clock by the configured prescaler (not by the factor of the divider init programmed). */
    method GetCyclesPerSec(channel: u32) returns (ret: int, cycles: u64)
      requires config.prescaler > 0
      ensures ret == 0
      ensures cycles == CyclesPerSec(timClk, config.prescaler)
      ensures cycles * config.prescaler <= timClk < (cycles + 1) * config.prescaler
    {
      cycles := timClk / config.prescaler;
      ret := 0;
    }
  }

  /** Two concrete timers driven through the class contracts alone. */
  method Scenarios() {
    var reset := Regs(Div1, 5, 6, false, 7, 8, false);

    var enh := new Timer(Config(2, true, 1, 0), reset);
    var ret := enh.Init(0);
    assert ret == 0 && enh.maxCount == UINT32_MAX && enh.ccValue == 0 && enh.enabled;
    ret := enh.SetCycles(0, 1000, 250, 0);
    assert ret == 0 && enh.maxCount == 1000 && enh.ccValue == 250 && !enh.startHigh;
    ret := enh.SetCycles(2, 1000, 1000, 1);
    assert ret == 0 && enh.maxCount == 1000 && enh.ccValue == 0 && enh.startHigh;
    ret := enh.SetCycles(3, 0, 0, 0);
    assert ret == -EINVAL && enh.ccValue == 0;

    var std := new Timer(Config(2, false, 8, 0), reset);
    ret := std.Init(-5);
    assert ret == -5 && std.timClk == TIM_CLK_HZ && std.highCount == 7 && !std.enabled;
    ret := std.Init(0);
    assert ret == 0 && std.divider == Div8 && std.highCount == 0 && std.lowCount == UINT32_MAX;
    ret := std.SetCycles(1, 0, 0, 1);
    assert ret == 0 && std.highCount == UINT32_MAX && std.lowCount == 0;
    var cycles;
    ret, cycles := std.GetCyclesPerSec(0);
    assert cycles == 5_000_000;
  }
}
