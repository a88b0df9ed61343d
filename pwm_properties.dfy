/** What a sequence of set_cycles calls leaves in the timer: the enhanced start-polarity bit is
    sticky, and the count registers reflect the last request the channel guard accepted (for the
    enhanced max-count: the last accepted request that was not 100% duty). */
module PwmProperties {
  import opened Uint
  import opened Hal
  import opened PwmEncoding

  datatype Option<T> = None | Some(value: T)

  /** The registers after the requests, applied oldest first. */
  function ApplyAll(cfg: Config, r: Regs, qs: seq<Request>): Regs
    decreases |qs|
  {
    if qs == [] then r else Applied(cfg, ApplyAll(cfg, r, qs[..|qs| - 1]), qs[|qs| - 1])
  }

  /** The HAL calls the requests make, oldest first. */
  function TraceOf(cfg: Config, qs: seq<Request>): seq<Event>
    decreases |qs|
  {
    if qs == [] then [] else TraceOf(cfg, qs[..|qs| - 1]) + SetCyclesCalls(cfg, qs[|qs| - 1]).calls
  }

  /** The most recent request satisfying keep, if any. */
  function LastWhere(qs: seq<Request>, keep: Request -> bool): (o: Option<Request>)
    ensures o.None? ==> forall i :: 0 <= i < |qs| ==> !keep(qs[i])
    ensures o.Some? ==> exists i :: 0 <= i < |qs| && qs[i] == o.value && keep(qs[i]) &&
                                  (forall j :: i < j < |qs| ==> !keep(qs[j]))
    decreases |qs|
  {
    if qs == [] then None
    else if keep(qs[|qs| - 1]) then Some(qs[|qs| - 1])
    else
      var init := qs[..|qs| - 1];
      var o := LastWhere(init, keep);
      assert forall i :: 0 <= i < |init| ==> init[i] == qs[i];
      o
  }

  /** Replaying the recorded calls of a run of set_cycles yields the run of the register table. */
  lemma {:induction false} ReplayTrace(cfg: Config, r: Regs, qs: seq<Request>)
    ensures Run(r, TraceOf(cfg, qs)) == ApplyAll(cfg, r, qs)
    decreases |qs|
  {
    if qs != [] {
      var init, q := qs[..|qs| - 1], qs[|qs| - 1];
      ReplayTrace(cfg, r, init);
      RunAppend(r, TraceOf(cfg, init), SetCyclesCalls(cfg, q).calls);
      CallsMeetTable(cfg, ApplyAll(cfg, r, init), q);
    }
  }

  /** A rejected request anywhere in a run adds no call to the trace and changes no register:
      the run behaves as if it had not been made. */
  lemma {:induction false} RejectedChangesNothing(cfg: Config, r: Regs, p: seq<Request>, q: Request, s: seq<Request>)
    requires q.channel > cfg.channels
    ensures TraceOf(cfg, p + [q] + s) == TraceOf(cfg, p + s)
    ensures ApplyAll(cfg, r, p + [q] + s) == ApplyAll(cfg, r, p + s)
    decreases |s|
  {
    if s == [] {
      assert p + [q] + s == p + [q] && p + s == p;
      assert (p + [q])[..|p|] == p;
    } else {
      var s', x := s[..|s| - 1], s[|s| - 1];
      RejectedChangesNothing(cfg, r, p, q, s');
      assert (p + [q] + s)[..|p + [q] + s| - 1] == p + [q] + s';
      assert (p + s)[..|p + s| - 1] == p + s';
    }
  }

  /** On the enhanced timer the start-polarity bit ends set exactly when it was set before or
      some accepted request asked for inverted polarity: nothing ever clears it. */
  lemma {:induction false} StartHighSticky(cfg: Config, r: Regs, qs: seq<Request>)
    requires cfg.isEnhanced
    ensures ApplyAll(cfg, r, qs).startHigh <==>
      r.startHigh || exists i :: 0 <= i < |qs| && ChannelAccepted(cfg, qs[i].channel) && Inverted(qs[i].flags)
    decreases |qs|
  {
    if qs != [] {
      var init, q := qs[..|qs| - 1], qs[|qs| - 1];
      StartHighSticky(cfg, r, init);
      if exists i :: 0 <= i < |init| && ChannelAccepted(cfg, init[i].channel) && Inverted(init[i].flags) {
        var i :| 0 <= i < |init| && ChannelAccepted(cfg, init[i].channel) && Inverted(init[i].flags);
        assert qs[i] == init[i];
      }
      if exists i :: 0 <= i < |qs| && ChannelAccepted(cfg, qs[i].channel) && Inverted(qs[i].flags) {
        var i :| 0 <= i < |qs| && ChannelAccepted(cfg, qs[i].channel) && Inverted(qs[i].flags);
        if i < |init| {
          assert init[i] == qs[i];
        }
      }
    }
  }

  /** Each variant's requests leave the other variant's registers and the divider alone. */
  lemma {:induction false} VariantsIsolated(cfg: Config, r: Regs, qs: seq<Request>)
    ensures var r' := ApplyAll(cfg, r, qs);
      r'.divider == r.divider &&
      (cfg.isEnhanced ==> r'.highCount == r.highCount && r'.lowCount == r.lowCount) &&
      (!cfg.isEnhanced ==> r'.maxCount == r.maxCount && r'.ccValue == r.ccValue && r'.startHigh == r.startHigh)
    decreases |qs|
  {
    if qs != [] {
      VariantsIsolated(cfg, r, qs[..|qs| - 1]);
    }
  }

  /** On the standard timer the high and low counts are those of the last accepted request alone,
      whatever came before it, and the timer is enabled; with no accepted request they are as
      they were. */
  lemma {:induction false} StandardReflectsLast(cfg: Config, r: Regs, qs: seq<Request>)
    requires !cfg.isEnhanced
    ensures var r' := ApplyAll(cfg, r, qs);
      match LastWhere(qs, (q: Request) => ChannelAccepted(cfg, q.channel))
      case None => r' == r
      case Some(q) =>
        TimArgs(r'.highCount, r'.lowCount) == StandardArgs(q.period, q.pulse, Inverted(q.flags)) && r'.enabled
    decreases |qs|
  {
    if qs != [] {
      StandardReflectsLast(cfg, r, qs[..|qs| - 1]);
    }
  }

  /** On the enhanced timer the compare value is the one the last accepted request would load on
      its own, and the max-count is the one the last accepted request that was not 100% duty
      would load: a 100% request keeps the max-count of the request before it. */
  lemma {:induction false} EnhancedReflectsLast(cfg: Config, r: Regs, qs: seq<Request>)
    requires cfg.isEnhanced
    ensures var r' := ApplyAll(cfg, r, qs);
      (match LastWhere(qs, (q: Request) => ChannelAccepted(cfg, q.channel))
       case None => r' == r
       case Some(q) => r'.ccValue == Applied(cfg, r, q).ccValue && r'.enabled) &&
      (match LastWhere(qs, (q: Request) => ChannelAccepted(cfg, q.channel) && Classify(q.period, q.pulse) != Full)
       case None => r'.maxCount == r.maxCount
       case Some(q) => r'.maxCount == Applied(cfg, r, q).maxCount)
    decreases |qs|
  {
    if qs != [] {
      EnhancedReflectsLast(cfg, r, qs[..|qs| - 1]);
    }
  }

  /** period = pulse = 0 is a 0% request in every variant and polarity, never a 100% one. */
  lemma ZeroBeforeFull(cfg: Config, r: Regs, channel: u32, flags: bv16)
    requires ChannelAccepted(cfg, channel)
    ensures var r' := Applied(cfg, r, Request(channel, 0, 0, flags));
      if cfg.isEnhanced then r'.maxCount == UINT32_MAX - 1 && r'.ccValue == UINT32_MAX
      else if Inverted(flags) then r'.highCount == UINT32_MAX && r'.lowCount == 0
      else r'.highCount == 0 && r'.lowCount == UINT32_MAX
  {
  }

  /** Inverting twice restores the normal-polarity arguments of the standard timer. */
  lemma SwapInvolution(period: u32, pulse: u32)
    ensures StandardArgs(period, pulse, true).Swap() == StandardArgs(period, pulse, false)
  {
  }

  /** 100% duty gives the same registers for every nonzero period. */
  lemma FullIndependentOfValue(cfg: Config, r: Regs, channel: u32, flags: bv16, n: u32, m: u32)
    requires ChannelAccepted(cfg, channel) && n > 0 && m > 0
    ensures Applied(cfg, r, Request(channel, n, n, flags)) == Applied(cfg, r, Request(channel, m, m, flags))
  {
  }
}
