/**
 * The heater assembly (device_type.py, classes Heater and Oven): a heater's
 * safety descriptor, a power-supply channel that drives it, a DAQ channel
 * that measures it, and the PID controller between them.
 *
 * The PID object is a foreign library with floating-point arithmetic; only
 * the settings the oven writes into it (gains, setpoint, sample time,
 * output limits) are modelled. Its output is a parameter of `UpdateSupply`.
 * The oven itself does no clamping, so the bound on the voltage it sends is
 * an implication in `UpdateSupply`'s postcondition: it holds when that
 * output lies within the configured output limits, as the library promises.
 */
module Ovens {
  import opened Common
  import PowerSupplies
  import MccDevices

  /** A heater's static safety descriptor. */
  datatype Heater = Heater(idn: Option<string>, maxTemp: real, maxVolts: real, maxCurrent: real, resistance: real)

  /** `Heater()` with no arguments. */
  const DEFAULT_HEATER: Heater := Heater(None, 9999.0, 9999.0, 9999.0, 20.0)

  /** The settings the oven writes into its PID object. */
  datatype PidSettings = PidSettings(
    kp: real, ki: real, kd: real,
    setpoint: real, sampleTime: real,
    outputLow: real, outputHigh: real)

  /**
   * `configure_pid`: gains 1, 0.03 and 0, setpoint 0, sample time 2 s, and
   * output limits from 0 to the smaller of the heater's maximum voltage and
   * the supply channel's voltage limit.
   */
  function ConfigurePid(h: Heater, channelLimit: real): (p: PidSettings)
    ensures p.outputLow == 0.0
    ensures p.outputHigh <= h.maxVolts && p.outputHigh <= channelLimit
    ensures p.outputHigh == h.maxVolts || p.outputHigh == channelLimit
    ensures p.setpoint == 0.0 && p.sampleTime == 2.0
    ensures p.kp == 1.0 && p.ki == 0.03 && p.kd == 0.0
  {
    PidSettings(1.0, 0.03, 0.0, 0.0, 2.0, 0.0, Min(h.maxVolts, channelLimit))
  }

  /** A PID output the library has clamped to its limits reaches the supply no higher than either ceiling. */
  lemma ClampedOutputWithinEnvelope(h: Heater, channelLimit: real, out: real)
    requires ConfigurePid(h, channelLimit).outputLow <= out <= ConfigurePid(h, channelLimit).outputHigh
    ensures 0.0 <= out <= h.maxVolts && out <= channelLimit
  {
  }

  /** The calls `configure_power_supply` makes on the supply channel `ch`. */
  function PowerSupplyConfigCalls(h: Heater, ch: int): (cs: seq<PowerSupplies.Call>)
    ensures |cs| == 4
  {
    [ PowerSupplies.Limit(ch, Voltage, Some(h.maxVolts)),
      PowerSupplies.Limit(ch, Current, Some(h.maxCurrent)),
      PowerSupplies.SetPoint(ch, Current, h.maxCurrent),
      PowerSupplies.SetPoint(ch, Voltage, 0.0) ]
  }

  class Oven {
    const supply: PowerSupplies.PowerSupply
    var supplyChannel: int
    const daq: MccDevices.MccDevice
    var daqChannel: int
    const heater: Heater
    var pid: PidSettings
    /** The supply channel's voltage limit the PID output ceiling was taken from. */
    ghost const channelLimit: real

    /**
     * An oven over a supply channel and a DAQ channel; with no heater the
     * default one. `channelLimit` is the supply channel's voltage limit.
     */
    constructor (ps: PowerSupplies.PowerSupply, ch: int, d: MccDevices.MccDevice, dch: int,
                 channelLimit: real, h: Option<Heater> := None)
      ensures supply == ps && supplyChannel == ch && daq == d && daqChannel == dch
      ensures heater == (if h.None? then DEFAULT_HEATER else h.value)
      ensures this.channelLimit == channelLimit && pid == ConfigurePid(heater, channelLimit)
      ensures Valid()
    {
      supply, supplyChannel, daq, daqChannel := ps, ch, d, dch;
      this.channelLimit := channelLimit;
      heater := if h.None? then DEFAULT_HEATER else h.value;
      pid := ConfigurePid(if h.None? then DEFAULT_HEATER else h.value, channelLimit);
    }

    /** The PID output floor is 0 and its ceiling exceeds neither the heater's maximum voltage nor the channel limit. */
    ghost predicate Valid()
      reads this
    {
      pid.outputLow == 0.0 && pid.outputHigh <= heater.maxVolts && pid.outputHigh <= channelLimit
    }

    /** `configure_power_supply`: limits to the heater's maxima, set current to its maximum, set voltage 0. */
    method ConfigurePowerSupply()
      modifies supply`calls
      ensures supply.calls == old(supply.calls) + PowerSupplyConfigCalls(heater, supplyChannel)
    {
      supply.SetChannelLimit(supplyChannel, Voltage, Some(heater.maxVolts));
      supply.SetChannelLimit(supplyChannel, Current, Some(heater.maxCurrent));
      supply.SetSetPoint(supplyChannel, Current, heater.maxCurrent);
      supply.SetSetPoint(supplyChannel, Voltage, 0.0);
    }

    /** The supply channel accepts only 1..n; any other channel ends the program (`sys.exit`). */
    method SetSupplyChannel(newChan: int) returns (s: Status)
      modifies this`supplyChannel
      ensures s == (if 1 <= newChan <= supply.numberOfChannels then Done else Failed(SystemExit))
      ensures supplyChannel == (if s == Done then newChan else old(supplyChannel))
    {
      if 1 <= newChan <= supply.numberOfChannels {
        supplyChannel := newChan;
        s := Done;
      } else {
        s := Failed(SystemExit);
      }
    }

    /** The DAQ channel accepts only 0..n-1; any other channel ends the program (`sys.exit`). */
    method SetDaqChannel(newChan: int) returns (s: Status)
      modifies this`daqChannel
      ensures s == (if 0 <= newChan < daq.numberTempChannels then Done else Failed(SystemExit))
      ensures daqChannel == (if s == Done then newChan else old(daqChannel))
    {
      if 0 <= newChan < daq.numberTempChannels {
        daqChannel := newChan;
        s := Done;
      } else {
        s := Failed(SystemExit);
      }
    }

    /** The setpoint moves only to a temperature at or below the heater's maximum; otherwise ValueError. */
    method SetTemperature(newTemp: real) returns (s: Status)
      requires Valid()
      modifies this`pid
      ensures Valid()
      ensures s == (if heater.maxTemp < newTemp then Failed(ValueError) else Done)
      ensures pid == (if s == Done then old(pid).(setpoint := newTemp) else old(pid))
      ensures pid.setpoint <= heater.maxTemp || pid.setpoint == old(pid.setpoint)
    {
      if heater.maxTemp < newTemp {
        return Failed(ValueError);
      }
      pid := pid.(setpoint := newTemp);
      s := Done;
    }

    method SetSampleTime(newSampleTime: real)
      requires Valid()
      modifies this`pid
      ensures Valid()
      ensures pid == old(pid).(sampleTime := newSampleTime)
    {
      pid := pid.(sampleTime := newSampleTime);
    }

    /**
     * `update_supply`: read the temperature on the DAQ channel, take the PID
     * output `control` gives for it, and send that as the supply channel's
     * set voltage. A failed read raises before anything is sent. When the
     * PID output stays within the configured limits, the voltage sent is
     * between 0 and the smaller of the heater's maximum voltage and the
     * channel's voltage limit.
     */
    method UpdateSupply(read: int -> Option<real>, control: real -> real) returns (r: Result<real>)
      requires Valid()
      modifies supply`calls
      ensures read(daqChannel).None? ==> r == Raised(ULError) && supply.calls == old(supply.calls)
      ensures read(daqChannel).Some? ==>
        && r == Ok(control(read(daqChannel).value))
        && supply.calls == old(supply.calls) + [PowerSupplies.SetPoint(supplyChannel, Voltage, r.value)]
      ensures r.Ok? && pid.outputLow <= r.value <= pid.outputHigh ==>
                0.0 <= r.value <= heater.maxVolts && r.value <= channelLimit
    {
      var temperature := read(daqChannel);
      if temperature.None? {
        return Raised(ULError);
      }
      var volts := control(temperature.value);
      supply.SetSetPoint(supplyChannel, Voltage, volts);
      r := Ok(volts);
    }
  }
}
