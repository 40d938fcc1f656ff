/**
 * The Siglent SPD3303X two-channel power supply (device_models.py, class
 * SPD3303X): software channel limits and the status word.
 *
 * The instrument has no limits of its own, so the driver keeps a voltage
 * and a current limit per channel and sends a set-voltage or set-current
 * command only when the value is at or below that channel's limit. A new
 * limit is accepted only within (0, MAX] and at or above the value the
 * instrument reports as its live set value. Commands are modelled as
 * values; their text and the socket that carries them are not.
 *
 * The class follows the code as written, including its two slips in the
 * channel 2 limit setters; `SetLimit` is the evidently intended setter and
 * the lemmas beside it show where the two part ways.
 */
module Spd3303xSupply {
  import opened Common

  /** Hardware ceiling on a channel's voltage limit, in volts. */
  const MAX_VOLTAGE: real := 32.0
  /** Hardware ceiling on a channel's current limit, in amperes. */
  const MAX_CURRENT: real := 3.3

  datatype Channel = Ch1 | Ch2

  function MaxOf(q: Quantity): (m: real)
    ensures m > 0.0
  {
    match q
    case Voltage => MAX_VOLTAGE
    case Current => MAX_CURRENT
  }

  /** A command written to the instrument's socket. */
  datatype Command =
    | Output(channel: Channel, state: string)           // `Output CHn,<STATE>`
    | Set(channel: Channel, quantity: Quantity, value: real)  // `CHn:voltage <v>` / `CHn:current <a>`

  /**
   * One number per channel and quantity: the four software limits, or the
   * four set values the instrument reports.
   */
  datatype Settings = Settings(ch1Voltage: real, ch1Current: real, ch2Voltage: real, ch2Current: real)
  {
    function At(ch: Channel, q: Quantity): real {
      match (ch, q)
      case (Ch1, Voltage) => ch1Voltage
      case (Ch1, Current) => ch1Current
      case (Ch2, Voltage) => ch2Voltage
      case (Ch2, Current) => ch2Current
    }

    function With(ch: Channel, q: Quantity, x: real): (s: Settings)
      ensures s.At(ch, q) == x
      ensures forall ch', q' :: (ch', q') != (ch, q) ==> s.At(ch', q') == At(ch', q')
    {
      match (ch, q)
      case (Ch1, Voltage) => this.(ch1Voltage := x)
      case (Ch1, Current) => this.(ch1Current := x)
      case (Ch2, Voltage) => this.(ch2Voltage := x)
      case (Ch2, Current) => this.(ch2Current := x)
    }
  }

  /** Every limit lies in (0, MAX] for its quantity. */
  predicate Sound(l: Settings) {
    forall ch, q :: 0.0 < l.At(ch, q) <= MaxOf(q)
  }

  /** Every live set value is at or below its channel's limit. */
  predicate Covers(l: Settings, live: Settings) {
    forall ch, q :: live.At(ch, q) <= l.At(ch, q)
  }

  // ---------------------------------------------------------------------------
  // Set voltage / set current
  // ---------------------------------------------------------------------------

  /** What a set-voltage or set-current setter sends: the command, or nothing when the value is above the limit. */
  function SetPointCommands(l: Settings, ch: Channel, q: Quantity, x: real): (cmds: seq<Command>)
    ensures |cmds| <= 1
    ensures cmds != [] <==> x <= l.At(ch, q)
    ensures forall c :: c in cmds ==> c == Set(ch, q, x)
  {
    if x <= l.At(ch, q) then [Set(ch, q, x)] else []
  }

  /** Under sound limits, no set value above the hardware maximum ever reaches the instrument. */
  lemma SetPointGate(l: Settings, ch: Channel, q: Quantity, x: real)
    requires Sound(l)
    ensures SetPointCommands(l, ch, q, x) != [] ==> x <= MaxOf(q)
    ensures x > MaxOf(q) ==> SetPointCommands(l, ch, q, x) == []
  {
  }

  // ---------------------------------------------------------------------------
  // Channel limits
  // ---------------------------------------------------------------------------

  /** The guard shared by the four limit setters: within (0, max] and not below the live value. */
  predicate LimitAccepted(x: real, max: real, live: real) {
    0.0 < x <= max && live <= x
  }

  /** The channel whose live set value the setter compares against, as written: ch2's current setter reads ch1. */
  function ComparedChannel(ch: Channel, q: Quantity): Channel {
    if ch == Ch2 && q == Current then Ch1 else ch
  }

  /** The channel whose limit field the setter assigns, as written: ch2's voltage setter assigns ch1's. */
  function WrittenChannel(ch: Channel, q: Quantity): Channel {
    if ch == Ch2 && q == Voltage then Ch1 else ch
  }

  /** A limit setter as the source writes it. */
  function SetLimitAsWritten(l: Settings, ch: Channel, q: Quantity, x: real, live: Settings): (r: Settings)
    ensures r.At(WrittenChannel(ch, q), q) ==
              if LimitAccepted(x, MaxOf(q), live.At(ComparedChannel(ch, q), q)) then x else l.At(WrittenChannel(ch, q), q)
    ensures forall ch', q' :: (ch', q') != (WrittenChannel(ch, q), q) ==> r.At(ch', q') == l.At(ch', q')
  {
    if x > MaxOf(q) || x <= 0.0 then l
    else if x < live.At(ComparedChannel(ch, q), q) then l
    else l.With(WrittenChannel(ch, q), q, x)
  }

  /**
   * A limit setter as evidently intended: it compares against and assigns
   * its own channel. The addressed limit becomes `x` exactly when `x` is in
   * (0, MAX] and not below the live value, and no other limit moves.
   */
  function SetLimit(l: Settings, ch: Channel, q: Quantity, x: real, live: Settings): (r: Settings)
    ensures r.At(ch, q) == if LimitAccepted(x, MaxOf(q), live.At(ch, q)) then x else l.At(ch, q)
    ensures forall ch', q' :: (ch', q') != (ch, q) ==> r.At(ch', q') == l.At(ch', q')
  {
    if x > MaxOf(q) || x <= 0.0 then l
    else if x < live.At(ch, q) then l
    else l.With(ch, q, x)
  }

  /** The intended setter keeps every limit in (0, MAX] and at or above its live value. */
  lemma SetLimitKeepsEnvelope(l: Settings, ch: Channel, q: Quantity, x: real, live: Settings)
    requires Sound(l) && Covers(l, live)
    ensures Sound(SetLimit(l, ch, q, x, live))
    ensures Covers(SetLimit(l, ch, q, x, live), live)
  {
    var r := SetLimit(l, ch, q, x, live);
    forall ch', q' ensures 0.0 < r.At(ch', q') <= MaxOf(q') && live.At(ch', q') <= r.At(ch', q') {
    }
  }

  /** On channel 1 the source's setters are the intended ones. */
  lemma Ch1SettersAsIntended(l: Settings, q: Quantity, x: real, live: Settings)
    ensures SetLimitAsWritten(l, Ch1, q, x, live) == SetLimit(l, Ch1, q, x, live)
  {
  }

  /** As written, the setters still keep every limit in (0, MAX]. */
  lemma SetLimitAsWrittenKeepsRange(l: Settings, ch: Channel, q: Quantity, x: real, live: Settings)
    requires Sound(l)
    ensures Sound(SetLimitAsWritten(l, ch, q, x, live))
  {
    var r := SetLimitAsWritten(l, ch, q, x, live);
    forall ch', q' ensures 0.0 < r.At(ch', q') <= MaxOf(q') {
    }
  }

  /**
   * As written, the ch2 voltage limit setter never changes the ch2 voltage
   * limit: an accepted value lands in the ch1 voltage limit instead.
   */
  lemma Ch2VoltageLimitWritesCh1(l: Settings, x: real, live: Settings)
    ensures SetLimitAsWritten(l, Ch2, Voltage, x, live).ch2Voltage == l.ch2Voltage
    ensures SetLimitAsWritten(l, Ch2, Voltage, x, live).ch1Voltage
            == if LimitAccepted(x, MAX_VOLTAGE, live.ch2Voltage) then x else l.ch1Voltage
  {
  }

  /**
   * The ch2 voltage slip in numbers: with ch1 live at 20 V, asking for a
   * 10 V ch2 limit leaves ch2 at 32 V and drops ch1's limit below its live
   * 20 V; the intended setter gives ch2 its 10 V and keeps every live value covered.
   */
  lemma Ch2VoltageLimitCounterexample()
    ensures var l := Settings(32.0, 3.3, 32.0, 3.3);
            var live := Settings(20.0, 1.0, 5.0, 1.0);
            && Covers(l, live)
            && SetLimitAsWritten(l, Ch2, Voltage, 10.0, live) == Settings(10.0, 3.3, 32.0, 3.3)
            && !Covers(SetLimitAsWritten(l, Ch2, Voltage, 10.0, live), live)
            && SetLimit(l, Ch2, Voltage, 10.0, live) == Settings(32.0, 3.3, 10.0, 3.3)
            && Covers(SetLimit(l, Ch2, Voltage, 10.0, live), live)
  {
    var l := Settings(32.0, 3.3, 32.0, 3.3);
    var live := Settings(20.0, 1.0, 5.0, 1.0);
    assert live.At(Ch1, Voltage) > SetLimitAsWritten(l, Ch2, Voltage, 10.0, live).At(Ch1, Voltage);
    forall ch, q ensures live.At(ch, q) <= l.At(ch, q) {
    }
    SetLimitKeepsEnvelope(l, Ch2, Voltage, 10.0, live);
  }

  /**
   * The ch2 current slip in numbers: with ch2 drawing 3 A live and ch1 0 A,
   * a 1 A ch2 limit is accepted as written (it is checked against ch1's
   * live current), leaving ch2's live current above its own limit; the
   * intended setter refuses it.
   */
  lemma Ch2CurrentLimitCounterexample()
    ensures var l := Settings(32.0, 3.3, 32.0, 3.3);
            var live := Settings(0.0, 0.0, 0.0, 3.0);
            && Covers(l, live)
            && SetLimitAsWritten(l, Ch2, Current, 1.0, live) == Settings(32.0, 3.3, 32.0, 1.0)
            && !Covers(SetLimitAsWritten(l, Ch2, Current, 1.0, live), live)
            && SetLimit(l, Ch2, Current, 1.0, live) == l
  {
    var l := Settings(32.0, 3.3, 32.0, 3.3);
    var live := Settings(0.0, 0.0, 0.0, 3.0);
    assert live.At(Ch2, Current) > SetLimitAsWritten(l, Ch2, Current, 1.0, live).At(Ch2, Current);
    forall ch, q ensures live.At(ch, q) <= l.At(ch, q) {
    }
  }

  // ---------------------------------------------------------------------------
  // Status word
  // ---------------------------------------------------------------------------

  function HexDigitValue(c: char): (d: Option<nat>)
    ensures d.Some? ==> d.value < 16
  {
    if '0' <= c <= '9' then Some(c as int - '0' as int)
    else if 'a' <= c <= 'f' then Some(c as int - 'a' as int + 10)
    else if 'A' <= c <= 'F' then Some(c as int - 'A' as int + 10)
    else None
  }

  /** A non-empty string of hex digits read as a number; `None` for anything else. */
  function HexDigits(s: string): (r: Option<nat>)
    ensures r.Some? <==> s != [] && forall i :: 0 <= i < |s| ==> HexDigitValue(s[i]).Some?
    decreases |s|
  {
    if |s| == 0 then None
    else match HexDigitValue(s[|s| - 1])
      case None => None
      case Some(d) =>
        if |s| == 1 then Some(d)
        else match HexDigits(s[..|s| - 1])
          case None => None
          case Some(h) => Some(16 * h + d)
  }

  /**
   * `int(s, 16)`: hex digits with an optional `0x` or `0X` prefix; `None`
   * where Python raises ValueError.
   */
  function ParseHex(s: string): (r: Option<nat>)
    ensures r.Some? ==> s != [] && s != "0x" && s != "0X"
  {
    if |s| >= 2 && s[0] == '0' && (s[1] == 'x' || s[1] == 'X') then HexDigits(s[2..]) else HexDigits(s)
  }

  function HexChar(d: nat): (c: char)
    requires d < 16
    ensures HexDigitValue(c) == Some(d)
  {
    if d < 10 then ('0' as int + d) as char else ('a' as int + d - 10) as char
  }

  /** Lower-case hex digits of `n`, most significant first, without a prefix. */
  function ToHex(n: nat): (s: string)
    ensures s != [] && forall i :: 0 <= i < |s| ==> HexDigitValue(s[i]).Some?
  {
    if n < 16 then [HexChar(n)] else ToHex(n / 16) + [HexChar(n % 16)]
  }

  /** Reading digits back gives the number they were printed from. */
  lemma {:induction false} DigitsToHex(n: nat)
    ensures HexDigits(ToHex(n)) == Some(n)
  {
    if n >= 16 {
      DigitsToHex(n / 16);
      var s := ToHex(n);
      assert s[..|s| - 1] == ToHex(n / 16);
    }
  }

  /** Parsing reads back every hex numeral, bare or with either prefix. */
  lemma ParseToHex(n: nat)
    ensures ParseHex(ToHex(n)) == Some(n)
    ensures ParseHex("0x" + ToHex(n)) == Some(n) && ParseHex("0X" + ToHex(n)) == Some(n)
  {
    DigitsToHex(n);
    BareHex(ToHex(n));
    PrefixedHex("0x", ToHex(n));
    PrefixedHex("0X", ToHex(n));
  }

  /** A string of hex digits never looks prefixed, so it parses as its digits. */
  lemma BareHex(s: string)
    requires forall i :: 0 <= i < |s| ==> HexDigitValue(s[i]).Some?
    ensures ParseHex(s) == HexDigits(s)
  {
    if |s| >= 2 {
      assert HexDigitValue(s[1]).Some?;
    }
  }

  /** A `0x` or `0X` prefix is skipped. */
  lemma PrefixedHex(prefix: string, s: string)
    requires prefix == "0x" || prefix == "0X"
    ensures ParseHex(prefix + s) == HexDigits(s)
  {
    assert (prefix + s)[2..] == s;
  }

  function BitChar(b: nat): char
    requires b < 2
  {
    if b == 0 then '0' else '1'
  }

  /** `format(n, 'b')`: binary digits, most significant first. */
  function Binary(n: nat): (s: string)
    ensures s != []
  {
    if n < 2 then [BitChar(n)] else Binary(n / 2) + [BitChar(n % 2)]
  }

  /** `f'{n:0>10b}'`: the binary digits padded on the left with '0' to at least ten. */
  function StatusBits(n: nat): (s: string)
    ensures |s| >= 10
  {
    var b := Binary(n);
    Repeat('0', 10 - |b|) + b
  }

  /** Bit `k` of `n`, counting from the least significant bit 0. */
  predicate Bit(n: nat, k: nat)
    decreases k
  {
    if k == 0 then n % 2 == 1 else Bit(n / 2, k - 1)
  }

  /** The digit `k` places from the right of `format(n, 'b')` is bit `k` of `n`. */
  lemma {:induction false} BinaryDigit(n: nat, k: nat)
    requires k < |Binary(n)|
    ensures Binary(n)[|Binary(n)| - 1 - k] == (if Bit(n, k) then '1' else '0')
  {
    if n >= 2 && k > 0 {
      BinaryDigit(n / 2, k - 1);
    }
  }

  /** Bits at and beyond the length of `format(n, 'b')` are clear. */
  lemma {:induction false} HighBitsClear(n: nat, k: nat)
    requires k >= |Binary(n)|
    ensures !Bit(n, k)
    decreases k
  {
    if n >= 2 {
      HighBitsClear(n / 2, k - 1);
    } else if k > 0 {
      ZeroHasNoBits(k - 1);
    }
  }

  lemma {:induction false} ZeroHasNoBits(k: nat)
    ensures !Bit(0, k)
  {
    if k > 0 {
      ZeroHasNoBits(k - 1);
    }
  }

  function Pow2(k: nat): (p: nat)
    ensures p >= 1
  {
    if k == 0 then 1 else 2 * Pow2(k - 1)
  }

  /** A number below 2^k has at most `k` binary digits. */
  lemma {:induction false} BinaryShort(n: nat, k: nat)
    requires 1 <= k && n < Pow2(k)
    ensures |Binary(n)| <= k
    decreases k
  {
    if n >= 2 {
      BinaryShort(n / 2, k - 1);
    }
  }

  /** A number at or above 2^k has more than `k` binary digits. */
  lemma {:induction false} BinaryLong(n: nat, k: nat)
    requires n >= Pow2(k)
    ensures |Binary(n)| > k
    decreases k
  {
    if k > 0 {
      BinaryLong(n / 2, k - 1);
    }
  }

  /** The character `k` places from the right of the padded status string is bit `k` of the status word. */
  lemma StatusDigit(n: nat, k: nat)
    requires k < |StatusBits(n)|
    ensures var s := StatusBits(n); s[|s| - 1 - k] == (if Bit(n, k) then '1' else '0')
  {
    var b := Binary(n);
    var pad := Repeat('0', 10 - |b|);
    var s := StatusBits(n);
    assert s == pad + b;
    if k < |b| {
      BinaryDigit(n, k);
      assert s[|s| - 1 - k] == b[|b| - 1 - k];
    } else {
      HighBitsClear(n, k);
      assert |s| - 1 - k < |pad|;
      assert s[|s| - 1 - k] == pad[|s| - 1 - k] == '0';
    }
  }

  /** `system_status`: the reply parsed as hex and padded to ten binary digits; `None` where Python raises. */
  function SystemStatus(reply: string): (r: Option<string>)
    ensures r.Some? <==> ParseHex(reply).Some?
    ensures r.Some? ==> |r.value| >= 10 && (|r.value| == 10 <==> ParseHex(reply).value < 1024)
    ensures r.Some? ==> forall k :: 0 <= k < |r.value| ==>
              r.value[|r.value| - 1 - k] == (if Bit(ParseHex(reply).value, k) then '1' else '0')
  {
    match ParseHex(reply)
    case None => None
    case Some(n) =>
      forall k | 0 <= k < |StatusBits(n)|
        ensures StatusBits(n)[|StatusBits(n)| - 1 - k] == (if Bit(n, k) then '1' else '0')
      {
        StatusDigit(n, k);
      }
      assert Pow2(10) == 1024;
      if n < 1024 then BinaryShort(n, 10); Some(StatusBits(n))
      else BinaryLong(n, 10); Some(StatusBits(n))
  }

  /** `chN_state`: the status digit 5th (channel 1) or 6th (channel 2) from the right, read as a truth value. */
  function ChannelState(reply: string, ch: Channel): (on: Option<bool>)
    ensures on.Some? <==> ParseHex(reply).Some?
    ensures on.Some? ==> on.value == Bit(ParseHex(reply).value, if ch == Ch1 then 4 else 5)
  {
    match SystemStatus(reply)
    case None => None
    case Some(s) => Some(s[|s| - (if ch == Ch1 then 5 else 6)] == '1')
  }

  /** A status reply `10` (binary 1 0000) reports channel 1 on and channel 2 off; `30` reports both on. */
  lemma StatusExamples()
    ensures ChannelState("10", Ch1) == Some(true) && ChannelState("10", Ch2) == Some(false)
    ensures ChannelState("0x10", Ch1) == Some(true) && ChannelState("0X30", Ch2) == Some(true)
    ensures ChannelState("30", Ch1) == Some(true) && ChannelState("30", Ch2) == Some(true)
    ensures ChannelState("0g", Ch1) == None
  {
    HexExamples();
    assert Bit(16, 4) && !Bit(16, 5) by {
      assert Bit(1, 0) && !Bit(0, 0);
      assert Bit(16, 4) == Bit(1, 0) && Bit(16, 5) == Bit(0, 0);
    }
    assert Bit(48, 4) && Bit(48, 5) by {
      assert Bit(48, 4) == Bit(3, 0) && Bit(48, 5) == Bit(1, 0);
    }
  }

  /** Status replies read as `int(s, 16)` reads them. */
  lemma HexExamples()
    ensures ParseHex("10") == Some(16) && ParseHex("0x10") == Some(16)
    ensures ParseHex("30") == Some(48) && ParseHex("0X30") == Some(48)
    ensures ParseHex("0g") == None
  {
    assert HexDigits("10") == Some(16) by { assert "10"[..1] == "1"; }
    assert HexDigits("30") == Some(48) by { assert "30"[..1] == "3"; }
    assert "0x10"[2..] == "10" && "0X30"[2..] == "30";
  }

  // ---------------------------------------------------------------------------
  // The driver object
  // ---------------------------------------------------------------------------

  /** Commands `reset_channels` sends: both outputs off, then both set voltages to 0 where the limit allows. */
  function ResetCommands(l: Settings): (cmds: seq<Command>)
    ensures 2 <= |cmds| <= 4 && cmds[..2] == [Output(Ch1, "OFF"), Output(Ch2, "OFF")]
    ensures forall i :: 2 <= i < |cmds| ==> cmds[i].Set? && cmds[i].quantity == Voltage && cmds[i].value == 0.0
    ensures |cmds| == 4 <==> 0.0 <= l.ch1Voltage && 0.0 <= l.ch2Voltage
  {
    [Output(Ch1, "OFF"), Output(Ch2, "OFF")] + SetPointCommands(l, Ch1, Voltage, 0.0) + SetPointCommands(l, Ch2, Voltage, 0.0)
  }

  /** With non-negative voltage limits a reset turns both outputs off and zeroes both set voltages. */
  lemma ResetZeroes(l: Settings)
    requires l.ch1Voltage >= 0.0 && l.ch2Voltage >= 0.0
    ensures ResetCommands(l) == [Output(Ch1, "OFF"), Output(Ch2, "OFF"), Set(Ch1, Voltage, 0.0), Set(Ch2, Voltage, 0.0)]
  {
  }

  class Spd3303x {
    var ch1VoltageLimit: real
    var ch1CurrentLimit: real
    var ch2VoltageLimit: real
    var ch2CurrentLimit: real
    /** Every command sent to the instrument so far. */
    var sent: seq<Command>

    function Limits(): Settings
      reads this
    {
      Settings(ch1VoltageLimit, ch1CurrentLimit, ch2VoltageLimit, ch2CurrentLimit)
    }

    /** The limits are taken as given; with `resetOnStartup` the channels are reset at once. */
    constructor (v1: real := MAX_VOLTAGE, c1: real := MAX_CURRENT, v2: real := MAX_VOLTAGE, c2: real := MAX_CURRENT,
                 resetOnStartup: bool := true)
      ensures Limits() == Settings(v1, c1, v2, c2)
      ensures sent == if resetOnStartup then ResetCommands(Settings(v1, c1, v2, c2)) else []
    {
      ch1VoltageLimit, ch1CurrentLimit := v1, c1;
      ch2VoltageLimit, ch2CurrentLimit := v2, c2;
      sent := [];
      new;
      if resetOnStartup {
        ResetChannels();
      }
    }

    method Send(c: Command)
      modifies this
      ensures sent == old(sent) + [c] && Limits() == old(Limits())
    {
      sent := sent + [c];
    }

    /** `chN_state = state`: sends `Output CHn,` and the state upper-cased. */
    method SetState(ch: Channel, state: string)
      modifies this
      ensures sent == old(sent) + [Output(ch, AsciiUpper(state))] && Limits() == old(Limits())
    {
      Send(Output(ch, AsciiUpper(state)));
    }

    /** `chN_set_voltage = x` / `chN_set_current = x`: sent only at or below the channel's limit. */
    method SetSetPoint(ch: Channel, q: Quantity, x: real)
      modifies this
      ensures sent == old(sent) + SetPointCommands(old(Limits()), ch, q, x)
      ensures Limits() == old(Limits())
    {
      var limit := match (ch, q)
        case (Ch1, Voltage) => ch1VoltageLimit
        case (Ch1, Current) => ch1CurrentLimit
        case (Ch2, Voltage) => ch2VoltageLimit
        case (Ch2, Current) => ch2CurrentLimit;
      if x <= limit {
        Send(Set(ch, q, x));
      }
    }

    method ResetChannels()
      modifies this
      ensures sent == old(sent) + ResetCommands(old(Limits()))
      ensures Limits() == old(Limits())
    {
      ghost var l := Limits();
      SetState(Ch1, "OFF");
      SetState(Ch2, "OFF");
      SetSetPoint(Ch1, Voltage, 0.0);
      SetSetPoint(Ch2, Voltage, 0.0);
      assert AsciiUpper("OFF") == "OFF";
      assert sent == old(sent) + ([Output(Ch1, "OFF"), Output(Ch2, "OFF")]
                                  + SetPointCommands(l, Ch1, Voltage, 0.0) + SetPointCommands(l, Ch2, Voltage, 0.0));
    }

    /** `ch1_voltage_limit = volts`; `live` holds the set values the instrument reports. */
    method SetCh1VoltageLimit(volts: real, live: Settings)
      modifies this
      ensures Limits() == SetLimitAsWritten(old(Limits()), Ch1, Voltage, volts, live)
      ensures sent == old(sent)
    {
      if volts > MAX_VOLTAGE || volts <= 0.0 {
      } else if volts < live.ch1Voltage {
      } else {
        ch1VoltageLimit := volts;
      }
    }

    method SetCh1CurrentLimit(amps: real, live: Settings)
      modifies this
      ensures Limits() == SetLimitAsWritten(old(Limits()), Ch1, Current, amps, live)
      ensures sent == old(sent)
    {
      if amps > MAX_CURRENT || amps <= 0.0 {
      } else if amps < live.ch1Current {
      } else {
        ch1CurrentLimit := amps;
      }
    }

    /** As written: compares against ch2's live voltage but assigns ch1's limit. */
    method SetCh2VoltageLimit(volts: real, live: Settings)
      modifies this
      ensures Limits() == SetLimitAsWritten(old(Limits()), Ch2, Voltage, volts, live)
      ensures sent == old(sent)
    {
      if volts > MAX_VOLTAGE || volts <= 0.0 {
      } else if volts < live.ch2Voltage {
      } else {
        ch1VoltageLimit := volts;
      }
    }

    /** As written: compares against ch1's live current but assigns ch2's limit. */
    method SetCh2CurrentLimit(amps: real, live: Settings)
      modifies this
      ensures Limits() == SetLimitAsWritten(old(Limits()), Ch2, Current, amps, live)
      ensures sent == old(sent)
    {
      if amps > MAX_CURRENT || amps <= 0.0 {
      } else if amps < live.ch1Current {
      } else {
        ch2CurrentLimit := amps;
      }
    }
  }
}
