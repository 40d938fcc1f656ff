/**
 * The generic programmable power supply (device_type.py, class PowerSupply).
 *
 * The base class keeps the hardware maxima, the per-channel limit lists and
 * the number of channels. Its four per-channel operations (set voltage, set
 * current, voltage limit, current limit) are placeholders that each model
 * of supply overrides; here every call to them is recorded in `calls`, so
 * the contracts of the loops that drive them state exactly which calls are
 * made, for which channel, in which order.
 */
module PowerSupplies {
  import opened Common

  /** A call to one of the per-channel placeholders. */
  datatype Call =
    | SetPoint(channel: int, quantity: Quantity, value: real)       // set_set_voltage / set_set_current
    | Limit(channel: int, quantity: Quantity, limit: Option<real>)  // set_channel_voltage_limit / _current_limit

  /** The argument `check_channel_syntax` receives: a Python int, or a value of any other type. */
  datatype Arg = IntArg(value: int) | OtherArg

  /**
   * A limit list as the constructor settles it: a given list is kept; a
   * missing one becomes one copy of the maximum per channel, when there is
   * a maximum.
   */
  function DefaultLimits(given: Option<seq<real>>, max: Option<real>, n: int): (r: Option<seq<real>>)
    ensures r.Some? <==> given.Some? || max.Some?
  {
    if given.None? && max.Some? then Some(Repeat(max.value, n)) else given
  }

  /** A supplied list is kept; a missing one with a maximum becomes `n` copies of it; otherwise it stays missing. */
  lemma DefaultLimitsEffect(given: Option<seq<real>>, max: Option<real>, n: int)
    ensures given.Some? ==> DefaultLimits(given, max, n) == given
    ensures given.None? && max.None? ==> DefaultLimits(given, max, n).None?
    ensures given.None? && max.Some? ==>
      && DefaultLimits(given, max, n).Some?
      && |DefaultLimits(given, max, n).value| == (if n < 0 then 0 else n)
      && forall i :: 0 <= i < |DefaultLimits(given, max, n).value| ==> DefaultLimits(given, max, n).value[i] == max.value
  {
  }

  /** `check_channel_syntax`: TypeError for a non-int, ValueError above the channel count, and nothing else. */
  function CheckChannelSyntax(channel: Arg, n: int): (s: Status)
    ensures s == Done || s == Failed(TypeError) || s == Failed(ValueError)
    ensures s == Failed(ValueError) <==> channel.IntArg? && channel.value > n
  {
    if channel.OtherArg? then Failed(TypeError)
    else if channel.value > n then Failed(ValueError)
    else Done
  }

  /** A channel passes exactly when it is an int no greater than the channel count; zero and negatives pass. */
  lemma CheckChannelSyntaxAccepts(channel: Arg, n: int)
    ensures CheckChannelSyntax(channel, n) == Done <==> channel.IntArg? && channel.value <= n
    ensures CheckChannelSyntax(channel, n) == Failed(TypeError) <==> channel.OtherArg?
    ensures channel.IntArg? && channel.value <= 0 && n >= 0 ==> CheckChannelSyntax(channel, n) == Done
  {
  }

  /** As written, channel 0 and channel -1 pass the channel check on a one-channel supply. */
  lemma CheckChannelSyntaxPassesZero()
    ensures CheckChannelSyntax(IntArg(0), 1) == Done
    ensures CheckChannelSyntax(IntArg(-1), 1) == Done
    ensures CheckChannelSyntaxIntended(IntArg(0), 1) == Failed(ValueError)
  {
  }

  /** The channel check as its message describes it: an int channel, starting from 1, up to the channel count. */
  function CheckChannelSyntaxIntended(channel: Arg, n: int): (s: Status)
  {
    if channel.OtherArg? then Failed(TypeError)
    else if channel.value > n || channel.value < 1 then Failed(ValueError)
    else Done
  }

  /** The intended check accepts exactly the channels 1..n, and agrees with the source on every channel from 1 up. */
  lemma CheckChannelSyntaxIntendedAccepts(channel: Arg, n: int)
    ensures CheckChannelSyntaxIntended(channel, n) == Done <==> channel.IntArg? && 1 <= channel.value <= n
    ensures channel.IntArg? && channel.value >= 1 ==> CheckChannelSyntaxIntended(channel, n) == CheckChannelSyntax(channel, n)
  {
  }

  /** The calls `zero_all_channels` makes for one channel. */
  function ZeroChannelCalls(chan: int, maxV: Option<real>, maxC: Option<real>): (cs: seq<Call>)
    ensures |cs| == 4
  {
    [SetPoint(chan, Voltage, 0.0), SetPoint(chan, Current, 0.0), Limit(chan, Voltage, maxV), Limit(chan, Current, maxC)]
  }

  /** The calls `zero_all_channels` makes for channels 1..n, in order. */
  function ZeroCalls(n: int, maxV: Option<real>, maxC: Option<real>): (cs: seq<Call>)
    ensures |cs| == if n <= 0 then 0 else 4 * n
    decreases n
  {
    if n <= 0 then [] else ZeroCalls(n - 1, maxV, maxC) + ZeroChannelCalls(n, maxV, maxC)
  }

  /**
   * Zeroing makes four calls per channel, channel by channel from 1: set
   * voltage 0, set current 0, voltage limit MAX, current limit MAX.
   */
  lemma {:induction false} ZeroCallsAt(n: int, maxV: Option<real>, maxC: Option<real>, chan: int)
    requires 1 <= chan <= n
    ensures |ZeroCalls(n, maxV, maxC)| == 4 * n
    ensures ZeroCalls(n, maxV, maxC)[4 * (chan - 1)..4 * chan] == ZeroChannelCalls(chan, maxV, maxC)
    decreases n
  {
    if chan < n {
      ZeroCallsAt(n - 1, maxV, maxC, chan);
    } else if n > 1 {
      ZeroCallsAt(n - 1, maxV, maxC, n - 1);
    }
  }

  /** No calls at all on a supply with no channels. */
  lemma ZeroCallsNone(n: int, maxV: Option<real>, maxC: Option<real>)
    requires n <= 0
    ensures ZeroCalls(n, maxV, maxC) == []
  {
  }

  /** The calls `set_all_channels_voltage_limit` / `_current_limit` make: one per channel 1..n, in order. */
  function AllLimitCalls(n: int, q: Quantity, x: real): (cs: seq<Call>)
    ensures |cs| == if n <= 0 then 0 else n
    ensures forall c :: c in cs ==> c == Limit(c.channel, q, Some(x)) && 1 <= c.channel <= n
    decreases n
  {
    if n <= 0 then [] else AllLimitCalls(n - 1, q, x) + [Limit(n, q, Some(x))]
  }

  /** One limit call per channel, the `c`-th for channel `c`, all with the same value. */
  lemma {:induction false} AllLimitCallsAt(n: int, q: Quantity, x: real, chan: int)
    requires 1 <= chan <= n
    ensures |AllLimitCalls(n, q, x)| == n
    ensures AllLimitCalls(n, q, x)[chan - 1] == Limit(chan, q, Some(x))
    decreases n
  {
    if n > 1 {
      AllLimitCallsAt(n - 1, q, x, if chan < n then chan else n - 1);
    }
  }

  /** The two hardware maxima. */
  datatype Maxima = Maxima(voltage: Option<real>, current: Option<real>)

  /** The `MAX_current_limit` setter as written: it assigns the voltage maximum. */
  function SetMaxCurrentAsWritten(m: Maxima, x: Option<real>): (r: Maxima)
  {
    m.(voltage := x)
  }

  /** The `MAX_current_limit` setter as intended: it assigns the current maximum. */
  function SetMaxCurrent(m: Maxima, x: Option<real>): (r: Maxima)
  {
    m.(current := x)
  }

  /**
   * As written, setting the current maximum overwrites the voltage maximum
   * and leaves the current maximum as it was: asking for 3 A on a supply
   * with maxima (30 V, 5 A) leaves (3, 5).
   */
  lemma SetMaxCurrentAsWrittenEffect(m: Maxima, x: Option<real>)
    ensures SetMaxCurrentAsWritten(m, x).current == m.current && SetMaxCurrentAsWritten(m, x).voltage == x
    ensures SetMaxCurrentAsWritten(Maxima(Some(30.0), Some(5.0)), Some(3.0)) == Maxima(Some(3.0), Some(5.0))
  {
  }

  /** As intended, setting the current maximum sets it and leaves the voltage maximum alone. */
  lemma SetMaxCurrentEffect(m: Maxima, x: Option<real>)
    ensures SetMaxCurrent(m, x).current == x && SetMaxCurrent(m, x).voltage == m.voltage
    ensures m.current != x ==> SetMaxCurrentAsWritten(m, x) != SetMaxCurrent(m, x)
  {
  }

  class PowerSupply {
    var maxVoltage: Option<real>
    var maxCurrent: Option<real>
    var voltageLimits: Option<seq<real>>
    var currentLimits: Option<seq<real>>
    var numberOfChannels: int
    var resetOnStartup: bool
    /** Every call made to the per-channel placeholders so far. */
    var calls: seq<Call>

    function MaxLimits(): Maxima
      reads this
    {
      Maxima(maxVoltage, maxCurrent)
    }

    constructor (maxV: Option<real> := None, maxC: Option<real> := None,
                 vLimits: Option<seq<real>> := None, cLimits: Option<seq<real>> := None,
                 n: int := 1, reset: bool := true)
      ensures MaxLimits() == Maxima(maxV, maxC) && numberOfChannels == n && resetOnStartup == reset
      ensures voltageLimits == DefaultLimits(vLimits, maxV, n)
      ensures currentLimits == DefaultLimits(cLimits, maxC, n)
      ensures calls == []
    {
      maxVoltage, maxCurrent := maxV, maxC;
      voltageLimits, currentLimits := vLimits, cLimits;
      numberOfChannels, resetOnStartup := n, reset;
      calls := [];
      new;
      if voltageLimits.None? && maxVoltage.Some? {
        voltageLimits := Some(Repeat(maxVoltage.value, numberOfChannels));
      }
      if currentLimits.None? && maxCurrent.Some? {
        currentLimits := Some(Repeat(maxCurrent.value, numberOfChannels));
      }
    }

    method SetNumberOfChannels(n: int)
      modifies this`numberOfChannels
      ensures numberOfChannels == n
    {
      numberOfChannels := n;
    }

    method SetMaxVoltageLimit(x: Option<real>)
      modifies this`maxVoltage
      ensures MaxLimits() == old(MaxLimits()).(voltage := x)
    {
      maxVoltage := x;
    }

    /** As written: assigns the voltage maximum. */
    method SetMaxCurrentLimit(x: Option<real>)
      modifies this`maxVoltage
      ensures MaxLimits() == SetMaxCurrentAsWritten(old(MaxLimits()), x)
    {
      maxVoltage := x;
    }

    /** `set_set_voltage` / `set_set_current`: a placeholder a concrete supply overrides. */
    method SetSetPoint(channel: int, q: Quantity, x: real)
      modifies this`calls
      ensures calls == old(calls) + [SetPoint(channel, q, x)]
    {
      calls := calls + [SetPoint(channel, q, x)];
    }

    /** `set_channel_voltage_limit` / `set_channel_current_limit`: a placeholder a concrete supply overrides. */
    method SetChannelLimit(channel: int, q: Quantity, x: Option<real>)
      modifies this`calls
      ensures calls == old(calls) + [Limit(channel, q, x)]
    {
      calls := calls + [Limit(channel, q, x)];
    }

    /** `set_all_channels_voltage_limit` / `set_all_channels_current_limit`. */
    method SetAllChannelsLimit(q: Quantity, x: real)
      modifies this`calls
      ensures calls == old(calls) + AllLimitCalls(numberOfChannels, q, x)
    {
      var chan := 1;
      while chan <= numberOfChannels
        invariant 1 <= chan && (chan <= numberOfChannels + 1 || chan == 1)
        invariant calls == old(calls) + AllLimitCalls(chan - 1, q, x)
      {
        SetChannelLimit(chan, q, Some(x));
        chan := chan + 1;
      }
    }

    /** `zero_all_channels`: zero each channel's set values and open its limits to the maxima. */
    method ZeroAllChannels()
      modifies this`calls
      ensures calls == old(calls) + ZeroCalls(numberOfChannels, maxVoltage, maxCurrent)
    {
      var maxV, maxC := maxVoltage, maxCurrent;
      var chan := 1;
      while chan <= numberOfChannels
        invariant 1 <= chan && (chan <= numberOfChannels + 1 || chan == 1)
        invariant calls == old(calls) + ZeroCalls(chan - 1, maxV, maxC)
      {
        SetSetPoint(chan, Voltage, 0.0);
        SetSetPoint(chan, Current, 0.0);
        SetChannelLimit(chan, Voltage, maxV);
        SetChannelLimit(chan, Current, maxC);
        chan := chan + 1;
      }
    }
  }
}
