/** The register-level behaviour of the rtl87x2g PWM driver as pure functions: which HAL calls
    each entry point makes, and what those calls leave in the timer's registers. */
module PwmEncoding {
  import opened Uint
  import opened ClockDivider
  import opened Hal

  /** errno EINVAL; set_cycles returns its negation. */
  const EINVAL: int := 22

  /** Bit 0 of pwm_flags_t: the inverted-polarity flag. */
  const PWM_POLARITY_INVERTED: bv16 := 1

  /** The timer input clock the init routine records, in Hz. */
  const TIM_CLK_HZ: u32 := 40_000_000

  /** The immutable per-instance configuration (struct pwm_rtl87x2g_config). The register base
      address is the identity of the timer object and the pin configuration handle is opaque. */
  datatype Config = Config(channels: u8, isEnhanced: bool, prescaler: u16, clkid: u16)

  /** The arguments of one set_cycles call. */
  datatype Request = Request(channel: u32, period: u32, pulse: u32, flags: bv16)

  /** A return code with the HAL calls made, in order. */
  datatype Outcome = Outcome(ret: int, calls: seq<Event>)

  predicate Inverted(flags: bv16)
    ensures Inverted(flags) <==> flags % 2 == 1
  {
    flags & PWM_POLARITY_INVERTED != 0
  }

  /** The channel guard as the driver writes it: only a channel above the channel count is
      rejected, so channel == channels passes. */
  predicate ChannelAccepted(cfg: Config, channel: u32)
    ensures ChannelAccepted(cfg, channel) <==> channel <= cfg.channels
  {
    !(channel > cfg.channels)
  }

  /** The three duty classes, tested in this order. */
  datatype Duty = Zero | Full | General

  /** Zero is tested before Full, so a request with period = pulse = 0 is Zero; the three
      classes cover every request and do not overlap. */
  function Classify(period: u32, pulse: u32): (d: Duty)
    ensures d == Zero <==> period == 0 || pulse == 0
    ensures d == Full <==> period != 0 && pulse != 0 && period == pulse
    ensures d == General <==> period != 0 && pulse != 0 && period != pulse
  {
    if period == 0 || pulse == 0 then Zero
    else if period == pulse then Full
    else General
  }

  /** The two arguments of TIM_PWMChangeFreqAndDuty: the high count, then the low count. */
  datatype TimArgs = TimArgs(high: u32, low: u32) {
    function Swap(): TimArgs {
      TimArgs(low, high)
    }
  }

  /** Reference table for the standard timer at normal polarity: the (active, inactive) tick
      counts per duty class. 0% is never active, 100% is never inactive, and a general request is
      active for pulse ticks and inactive for the remaining period - pulse, wrapping modulo 2^32. */
  function ActiveInactive(period: u32, pulse: u32): TimArgs {
    match Classify(period, pulse)
    case Zero => TimArgs(0, UINT32_MAX)
    case Full => TimArgs(UINT32_MAX, 0)
    case General => TimArgs(pulse, Sub(period, pulse))
  }

  /** The TIM_PWMChangeFreqAndDuty arguments set_cycles passes, branch by branch. At inverted
      polarity they are the swap of the normal-polarity reference in all three classes; for
      0 < pulse < period the two counts add up to the period; for a pulse longer than a nonzero
      period the inactive count wraps around and nothing rejects the request. */
  function StandardArgs(period: u32, pulse: u32, inverted: bool): (a: TimArgs)
    ensures a == if inverted then ActiveInactive(period, pulse).Swap() else ActiveInactive(period, pulse)
    ensures 0 < pulse < period ==> a.high + a.low == period
    ensures 0 < period < pulse ==> (if inverted then a.high else a.low) == period - pulse + TWO_32
  {
    if inverted then
      if period == 0 || pulse == 0 then TimArgs(UINT32_MAX, 0)
      else if period == pulse then TimArgs(0, UINT32_MAX)
      else TimArgs(Sub(period, pulse), pulse)
    else
      if period == 0 || pulse == 0 then TimArgs(0, UINT32_MAX)
      else if period == pulse then TimArgs(UINT32_MAX, 0)
      else TimArgs(pulse, Sub(period, pulse))
  }

  /** The enhanced timer's max-count and compare writes for a request, in call order. */
  function EnhancedWrites(period: u32, pulse: u32): (w: seq<Event>)
    ensures |w| == if Classify(period, pulse) == Full then 1 else 2
    ensures w[|w| - 1].EnhSetCCValue? && forall i :: 0 <= i < |w| - 1 ==> w[i].EnhSetMaxCount?
  {
    if period == 0 || pulse == 0 then [EnhSetMaxCount(UINT32_MAX - 1), EnhSetCCValue(UINT32_MAX)]
    else if period == pulse then [EnhSetCCValue(0)]
    else [EnhSetMaxCount(period), EnhSetCCValue(pulse)]
  }

  /** The enhanced branch of set_cycles: the optional polarity write, the count writes, then
      exactly one disable and one enable, all addressed to the enhanced timer. */
  function EnhancedCalls(q: Request): (c: seq<Event>)
    ensures |c| >= 3 && c[|c| - 2..] == [EnhCmd(false), EnhCmd(true)]
    ensures forall i :: 0 <= i < |c| - 2 ==> !IsCommand(c[i])
    ensures forall i :: 0 <= i < |c| ==> TouchesTimer(c[i]) && IsEnhancedCall(c[i])
  {
    var polarity := if Inverted(q.flags) then [EnhSetStartHigh] else [];
    polarity + EnhancedWrites(q.period, q.pulse) + [EnhCmd(false), EnhCmd(true)]
  }

  /** The standard branch of set_cycles: one TIM_PWMChangeFreqAndDuty, then exactly one disable
      and one enable, none of them addressed to the enhanced timer. */
  function StandardCalls(q: Request): (c: seq<Event>)
    ensures |c| == 3 && c[1..] == [TimCmd(false), TimCmd(true)] && c[0].TimChangeFreqAndDuty?
    ensures forall i :: 0 <= i < |c| ==> TouchesTimer(c[i]) && !IsEnhancedCall(c[i])
  {
    var a := StandardArgs(q.period, q.pulse, Inverted(q.flags));
    [TimChangeFreqAndDuty(a.high, a.low), TimCmd(false), TimCmd(true)]
  }

  /** The HAL calls set_cycles makes and what it returns. A rejected channel returns -EINVAL and
      makes no call at all; an accepted one returns 0, addresses only its own timer variant and
      ends with exactly one disable followed by one enable, with no other command before them. */
  function SetCyclesCalls(cfg: Config, q: Request): (out: Outcome)
    ensures out.ret == 0 <==> ChannelAccepted(cfg, q.channel)
    ensures out.ret != 0 ==> out.ret == -EINVAL && out.calls == []
    ensures out.ret == 0 ==>
      |out.calls| >= 3 &&
      out.calls[|out.calls| - 2..] == (if cfg.isEnhanced then [EnhCmd(false), EnhCmd(true)]
                                       else [TimCmd(false), TimCmd(true)])
    ensures forall i :: 0 <= i < |out.calls| - 2 ==> !IsCommand(out.calls[i])
    ensures forall i :: 0 <= i < |out.calls| ==>
      TouchesTimer(out.calls[i]) && (IsEnhancedCall(out.calls[i]) <==> cfg.isEnhanced)
  {
    if q.channel > cfg.channels then
      Outcome(-EINVAL, [])
    else if cfg.isEnhanced then
      Outcome(0, EnhancedCalls(q))
    else
      Outcome(0, StandardCalls(q))
  }

  /** Reference table of the registers after set_cycles. A rejected request changes nothing.
      On the enhanced timer the inverted flag sets the start-polarity bit and a clear flag leaves
      it as it was; 0% loads max-count UINT32_MAX - 1 and compare UINT32_MAX, 100% loads only
      compare 0 and keeps the max-count, a general request loads period and pulse. On the
      standard timer the high/low counts are the active/inactive reference, swapped when inverted.
      Either timer ends enabled. */
  function Applied(cfg: Config, r: Regs, q: Request): (r': Regs)
    ensures r'.divider == r.divider
    ensures !ChannelAccepted(cfg, q.channel) ==> r' == r
    ensures ChannelAccepted(cfg, q.channel) ==> r'.enabled
    ensures cfg.isEnhanced ==> r'.highCount == r.highCount && r'.lowCount == r.lowCount
    ensures !cfg.isEnhanced ==> r'.maxCount == r.maxCount && r'.ccValue == r.ccValue && r'.startHigh == r.startHigh
  {
    if !ChannelAccepted(cfg, q.channel) then r
    else if cfg.isEnhanced then
      var r1 := r.(startHigh := r.startHigh || Inverted(q.flags), enabled := true);
      match Classify(q.period, q.pulse)
      case Zero => r1.(maxCount := UINT32_MAX - 1, ccValue := UINT32_MAX)
      case Full => r1.(ccValue := 0)
      case General => r1.(maxCount := q.period, ccValue := q.pulse)
    else
      var ai := ActiveInactive(q.period, q.pulse);
      var a := if Inverted(q.flags) then ai.Swap() else ai;
      r.(highCount := a.high, lowCount := a.low, enabled := true)
  }

  /** Replaying the calls of set_cycles on any register state yields exactly the reference table. */
  lemma CallsMeetTable(cfg: Config, r: Regs, q: Request)
    ensures Run(r, SetCyclesCalls(cfg, q).calls) == Applied(cfg, r, q)
  {
    if !ChannelAccepted(cfg, q.channel) {
    } else if cfg.isEnhanced {
      EnhancedCallsMeetTable(cfg, r, q);
    } else {
      var calls := StandardCalls(q);
      var e := calls[0];
      assert calls == ([e] + [TimCmd(false)]) + [TimCmd(true)];
      RunSnoc(r, [e] + [TimCmd(false)], TimCmd(true));
      RunSnoc(r, [e], TimCmd(false));
      RunSnoc(r, [], e);
      assert [] + [e] == [e];
    }
  }

  /** The enhanced half of CallsMeetTable: polarity write, count writes, then the commit. */
  lemma EnhancedCallsMeetTable(cfg: Config, r: Regs, q: Request)
    requires cfg.isEnhanced && ChannelAccepted(cfg, q.channel)
    ensures Run(r, SetCyclesCalls(cfg, q).calls) == Applied(cfg, r, q)
  {
    var polarity: seq<Event> := if Inverted(q.flags) then [EnhSetStartHigh] else [];
    var writes := EnhancedWrites(q.period, q.pulse);
    var body := polarity + writes;
    assert EnhancedCalls(q) == (body + [EnhCmd(false)]) + [EnhCmd(true)];
    RunSnoc(r, body + [EnhCmd(false)], EnhCmd(true));
    RunSnoc(r, body, EnhCmd(false));
    RunAppend(r, polarity, writes);
    var r0 := r.(startHigh := r.startHigh || Inverted(q.flags));
    assert Run(r, polarity) == r0 by {
      if Inverted(q.flags) {
        RunSnoc(r, [], EnhSetStartHigh);
        assert [] + [EnhSetStartHigh] == polarity;
      }
    }
    EnhancedWritesEffect(r0, q.period, q.pulse);
  }

  /** What the enhanced count writes do, class by class. */
  lemma EnhancedWritesEffect(r: Regs, period: u32, pulse: u32)
    ensures Run(r, EnhancedWrites(period, pulse)) ==
      match Classify(period, pulse)
      case Zero => r.(maxCount := UINT32_MAX - 1, ccValue := UINT32_MAX)
      case Full => r.(ccValue := 0)
      case General => r.(maxCount := period, ccValue := pulse)
  {
    var writes := EnhancedWrites(period, pulse);
    var w0 := writes[0];
    RunSnoc(r, [], w0);
    assert [] + [w0] == [w0];
    if |writes| == 2 {
      RunSnoc(r, [w0], writes[1]);
      assert [w0] + [writes[1]] == writes;
    } else {
      assert [w0] == writes;
    }
  }

  /** Reference table of the registers init commits: the divider selected from the prescaler and
      the variant's initial counts, then the timer enabled. The enhanced timer gets max-count
      UINT32_MAX, compare 0 and start-low polarity, which is the register state set_cycles
      produces for a 100% request at normal polarity; the standard timer gets high count 0 and
      low count UINT32_MAX, which is set_cycles' 0% encoding. */
  function Baseline(cfg: Config, r: Regs): (r': Regs)
    ensures r'.enabled && r'.divider == DividerOf(cfg.prescaler)
    ensures !cfg.isEnhanced ==> TimArgs(r'.highCount, r'.lowCount) == StandardArgs(0, 0, false)
    ensures cfg.isEnhanced ==> r'.maxCount == UINT32_MAX && r'.ccValue == 0 && !r'.startHigh
  {
    var div := DividerOf(cfg.prescaler);
    if cfg.isEnhanced then
      r.(divider := div, maxCount := UINT32_MAX, ccValue := 0, startHigh := false, enabled := true)
    else
      r.(divider := div, highCount := 0, lowCount := UINT32_MAX, enabled := true)
  }

  /** The calls init makes and what it returns, given the pin-control answer. The clock is switched
      on and the pins applied first; a negative pin-control answer is returned unchanged and no
      call reaches the timer; otherwise the variant's init call is followed by one enable and init
      returns 0. */
  function InitCalls(cfg: Config, pinctrlRet: int): (out: Outcome)
    ensures pinctrlRet < 0 ==> out.ret == pinctrlRet
    ensures pinctrlRet >= 0 ==> out.ret == 0
    ensures |out.calls| >= 2 && out.calls[..2] == [ClockOn(cfg.clkid), PinctrlApply(pinctrlRet)]
    ensures pinctrlRet < 0 ==> forall i :: 0 <= i < |out.calls| ==> !TouchesTimer(out.calls[i])
    ensures pinctrlRet >= 0 ==>
      |out.calls| == 4 &&
      out.calls[3] == (if cfg.isEnhanced then EnhCmd(true) else TimCmd(true)) &&
      TouchesTimer(out.calls[2]) && !IsCommand(out.calls[2]) &&
      IsEnhancedCall(out.calls[2]) == cfg.isEnhanced
  {
    var prologue := [ClockOn(cfg.clkid), PinctrlApply(pinctrlRet)];
    var div := DividerOf(cfg.prescaler);
    if pinctrlRet < 0 then
      Outcome(pinctrlRet, prologue)
    else if cfg.isEnhanced then
      Outcome(0, prologue + [EnhInit(div, UINT32_MAX, 0, false), EnhCmd(true)])
    else
      Outcome(0, prologue + [TimInit(div, 0, UINT32_MAX), TimCmd(true)])
  }

  /** Replaying the calls of init leaves the registers untouched on a pin-control failure and
      yields the baseline otherwise. */
  /** On the enhanced timer, init's registers are the ones a normal-polarity 100% request leaves,
      and a 0% request changes them; on the standard timer a 0% request leaves init's registers
      as they are. */
  lemma BaselineDutyEncoding(cfg: Config, r: Regs, ch: u32, n: u32)
    requires ChannelAccepted(cfg, ch) && n > 0
    ensures cfg.isEnhanced ==> Applied(cfg, Baseline(cfg, r), Request(ch, n, n, 0)) == Baseline(cfg, r)
    ensures cfg.isEnhanced ==> Applied(cfg, Baseline(cfg, r), Request(ch, 0, 0, 0)) != Baseline(cfg, r)
    ensures !cfg.isEnhanced ==> Applied(cfg, Baseline(cfg, r), Request(ch, 0, 0, 0)) == Baseline(cfg, r)
  {
  }

  lemma InitCallsMeetBaseline(cfg: Config, r: Regs, pinctrlRet: int)
    ensures Run(r, InitCalls(cfg, pinctrlRet).calls) == (if pinctrlRet < 0 then r else Baseline(cfg, r))
  {
    var calls := InitCalls(cfg, pinctrlRet).calls;
    var prologue := calls[..2];
    RunWithoutTimer(r, prologue);
    if pinctrlRet >= 0 {
      assert calls == (prologue + [calls[2]]) + [calls[3]];
      RunSnoc(r, prologue + [calls[2]], calls[3]);
      RunSnoc(r, prologue, calls[2]);
    }
  }

  /** The tick rate get_cycles_per_sec reports: tim_clk / prescaler in unsigned integer division,
      so the result is the largest count whose product with the prescaler does not exceed the clock.
      A prescaler of 0 is a division by zero in the driver and is excluded. */
  function CyclesPerSec(timClk: u32, prescaler: u16): (c: u64)
    requires prescaler > 0
    ensures c * prescaler <= timClk < (c + 1) * prescaler
  {
    timClk / prescaler
  }

  /** After init the clock is 40 MHz: prescaler 40 reports 1,000,000 ticks per second and
      prescaler 64 reports 625,000. */
  lemma QueryExamples()
    ensures CyclesPerSec(TIM_CLK_HZ, 40) == 1_000_000
    ensures CyclesPerSec(TIM_CLK_HZ, 64) == 625_000
  {
  }

  /** After init the reported rate equals the rate of the divider that init programmed exactly when
      the prescaler is recognised; an unrecognised prescaler programs divide-by-1 yet the query
      still divides by the raw prescaler, reporting less than the real 40 MHz. */
  lemma QueryMatchesDivider(prescaler: u16)
    requires prescaler > 0
    ensures CyclesPerSec(TIM_CLK_HZ, prescaler) == TIM_CLK_HZ / Factor(DividerOf(prescaler)) <==> Recognized(prescaler)
    ensures !Recognized(prescaler) ==>
      DividerOf(prescaler) == Div1 && CyclesPerSec(TIM_CLK_HZ, prescaler) < TIM_CLK_HZ
  {
  }
}
