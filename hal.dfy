/** The vendor timer HAL and collaborators as seen by the driver: each call is an event, and each
    event has an effect on an abstract view of the timer's registers. */
module Hal {
  import opened Uint
  import opened ClockDivider

  /** One call the driver makes, in the order it makes them. */
  datatype Event =
    | ClockOn(clkid: u16)                                    // clock_control_on, result discarded
    | PinctrlApply(result: int)                              // pinctrl_apply_state, with its answer
    | EnhInit(div: ClockDiv, maxCount: u32, ccValue: u32, startHigh: bool)  // ENHTIM_Init
    | EnhSetStartHigh                                        // read-modify-write of ENHTIM_CONFIGURE
    | EnhSetMaxCount(count: u32)                             // ENHTIM_SetMaxCount
    | EnhSetCCValue(value: u32)                              // ENHTIM_SetCCValue
    | EnhCmd(enable: bool)                                   // ENHTIM_Cmd
    | TimInit(div: ClockDiv, highCount: u32, lowCount: u32)  // TIM_TimeBaseInit
    | TimChangeFreqAndDuty(high: u32, low: u32)              // TIM_PWMChangeFreqAndDuty
    | TimCmd(enable: bool)                                   // TIM_Cmd

  /** Calls that reach the timer's register block (everything but the two collaborators). */
  predicate TouchesTimer(e: Event) {
    !e.ClockOn? && !e.PinctrlApply?
  }

  /** The enable/disable commands of either timer variant. */
  predicate IsCommand(e: Event) {
    e.EnhCmd? || e.TimCmd?
  }

  /** Calls addressed to the enhanced timer's HAL. */
  predicate IsEnhancedCall(e: Event) {
    e.EnhInit? || e.EnhSetStartHigh? || e.EnhSetMaxCount? || e.EnhSetCCValue? || e.EnhCmd?
  }

  /** Abstract register view of one timer instance. The enhanced timer uses maxCount, ccValue and
      the start-polarity bit of its CONFIGURE register; the standard timer uses its high and low
      PWM counts; both have a clock divider and an enable bit. */
  datatype Regs = Regs(
    divider: ClockDiv,
    maxCount: u32,
    ccValue: u32,
    startHigh: bool,
    highCount: u32,
    lowCount: u32,
    enabled: bool)

  /** What one call does to the registers. Writing the polarity field of ENHTIM_CONFIGURE leaves
      every other field of that register, and every other register, as it was. */
  function Effect(r: Regs, e: Event): (r': Regs)
    ensures !TouchesTimer(e) ==> r' == r
    ensures r'.enabled != r.enabled ==> IsCommand(e)
    ensures IsEnhancedCall(e) ==> r'.highCount == r.highCount && r'.lowCount == r.lowCount
    ensures TouchesTimer(e) && !IsEnhancedCall(e) ==>
      r'.maxCount == r.maxCount && r'.ccValue == r.ccValue && r'.startHigh == r.startHigh
    ensures e.TimChangeFreqAndDuty? ==> r'.highCount == e.high && r'.lowCount == e.low
  {
    match e
    case ClockOn(_) => r
    case PinctrlApply(_) => r
    case EnhInit(div, m, c, h) => r.(divider := div, maxCount := m, ccValue := c, startHigh := h)
    case EnhSetStartHigh => r.(startHigh := true)
    case EnhSetMaxCount(m) => r.(maxCount := m)
    case EnhSetCCValue(c) => r.(ccValue := c)
    case EnhCmd(on) => r.(enabled := on)
    case TimInit(div, h, l) => r.(divider := div, highCount := h, lowCount := l)
    case TimChangeFreqAndDuty(h, l) => r.(highCount := h, lowCount := l)
    case TimCmd(on) => r.(enabled := on)
  }

  /** The registers after a sequence of calls, applied oldest first; the recursion peels off the
      last call. */
  function Run(r: Regs, es: seq<Event>): Regs
    decreases |es|
  {
    if es == [] then r else Effect(Run(r, es[..|es| - 1]), es[|es| - 1])
  }

  /** Replaying one more call applies its effect to the registers replayed so far. */
  lemma RunSnoc(r: Regs, es: seq<Event>, e: Event)
    ensures Run(r, es + [e]) == Effect(Run(r, es), e)
  {
  }

  /** Replaying two call sequences one after the other is replaying their concatenation. */
  lemma {:induction false} RunAppend(r: Regs, a: seq<Event>, b: seq<Event>)
    ensures Run(r, a + b) == Run(Run(r, a), b)
    decreases |b|
  {
    if b == [] {
      assert a + b == a;
    } else {
      var b' := b[..|b| - 1];
      assert (a + b)[..|a + b| - 1] == a + b';
      RunAppend(r, a, b');
    }
  }

  /** Calls that do not reach the timer leave every register as it was. */
  lemma {:induction false} RunWithoutTimer(r: Regs, es: seq<Event>)
    requires forall i :: 0 <= i < |es| ==> !TouchesTimer(es[i])
    ensures Run(r, es) == r
    decreases |es|
  {
    if es != [] {
      RunWithoutTimer(r, es[..|es| - 1]);
    }
  }
}
