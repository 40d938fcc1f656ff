# Laboratory instrument control core, modelled in Dafny

This project models the core of a small laboratory control layer written in Python. The layer has four parts:

- **GM3 gaussmeter protocol** (`gm3_protocol.dfy`, module `Gm3Protocol`). A query writes its opcode six times, reads a payload whose length the opcode fixes, then reads one acknowledgement byte. It retries until the acknowledgement is 0x08 and counts every failed attempt in the module-wide `error_count`. The identification queries 01/02 then send six 0x08 bytes per round and append each further chunk until the acknowledgement is 0x07. The meter is a class holding a scripted input sequence and a log of written bytes.
- **GM3 sample decoder** (`gm3_decoder.dfy`, module `Gm3Decoder`). It cuts a payload into 6-byte sections. Each section gives a sign-magnitude decimal fixed-point value `±digits × 10^-exp`. The model computes it as an exact `real`, where Python computes a float.
- **Power supplies** (`power_supply.dfy`, module `PowerSupplies`; `spd3303x.dfy`, module `Spd3303xSupply`).
  - The generic `PowerSupply`: limit defaulting, the channel check, the MAX setters, and the per-channel call sequences of `zero_all_channels` and `set_all_channels_*_limit`.
  - The Siglent SPD3303X: software channel limits guarding the set-voltage and set-current commands, and the status word.
- **Temperature DAQ and oven** (`mcc_device.dfy`, module `MccDevices`; `oven.dfy`, module `Ovens`).
  - The MCC device: the connection flag guarding its configuration setters, channel scans that put `None` where a read failed, and the thermocouple code tables.
  - The heater/oven safety envelope: the setpoint guard, the PID output ceiling `min(MAX_volts, channel limit)`, and the channel setters' range checks.

Shared vocabulary (`Option`, `Result`, the Python exception kinds, `Repeat`, ASCII upper-casing) lives in `common.dfy`.

The driver classes follow the code as written, including the slips listed under "## Findings". For each slip, the evidently intended definition sits beside the driver, and its intended property is proved.

The model follows the code as written:

- Bytes that do not fill a 6-byte section are dropped. There is no misaligned-payload error.
- A query writes its opcode byte six times.

## Model

| member | source | states |
|---|---|---|
| `Gm3Protocol.LookupQuery` | device_models.py:50-64 | A query name is known exactly when it is one of the twelve keys of the query table |
| `Gm3Protocol.PayloadLength` | device_models.py:66-72 | Payload length per opcode: 01 and 02 → 20, 03 → 30, 04 → 31 |
| `Gm3Protocol.UnknownQueryIsRejected` | device_models.py:64 | An unknown query name fails before any byte is written or read |
| `Gm3Protocol.FirstPhase` | device_models.py:75-81 | The first phase makes at least one attempt and reads no more than the input. An acknowledged phase keeps n payload bytes; a hung one reads all the input |
| `Gm3Protocol.SecondPhase` | device_models.py:86-91 | The continuation makes at least one round and reads no more than the input; an unfinished one reads all of it |
| `Gm3Protocol.SecondPhaseChunks` | device_models.py:86-91 | Chunk k of a finished continuation is the n-byte payload of the k-th frame of its input |
| `Gm3Protocol.QueryTrace` | device_models.py:73-91 | A query reads no more than its input. It counts at most one failure per attempt, exactly attempts − 1 when it answers. A hung query reads all its input |
| `Gm3Protocol.FirstPhaseFailures` | device_models.py:75-81 | Every attempt before the last one got an acknowledgement other than 0x08 |
| `Gm3Protocol.FirstPhaseAcked` | device_models.py:75-81 | An acknowledged first phase ends on a 0x08 and keeps exactly that attempt's payload |
| `Gm3Protocol.FirstPhaseConsumed` | device_models.py:75-81 | Each attempt reads n payload bytes plus one acknowledgement byte; a hung phase reads all remaining input |
| `Gm3Protocol.SecondPhaseRounds` | device_models.py:86-91 | The continuation runs at least one round and stops at the first 0x07 |
| `Gm3Protocol.SecondPhaseFinished` | device_models.py:86-91 | A finished continuation reads n+1 bytes per round and appends n bytes per round |
| `Gm3Protocol.SecondPhaseEndsOnFinished` | device_models.py:86-91 | A finished continuation's last round is acknowledged with 0x07 |
| `Gm3Protocol.QueryAttempts` | device_models.py:73-91 | A known query writes six opcode bytes per attempt and answers on the first 0x08. error_count rises by exactly the attempts whose ack was not 0x08. Once a continuation has started, failures are attempts − 1 even if it hangs |
| `Gm3Protocol.SingleShotAnswer` | device_models.py:83-84 | Queries 03/04 return the acknowledged attempt's payload alone and write no continuation bytes |
| `Gm3Protocol.MultiPartAnswer` | device_models.py:86-91 | Queries 01/02 write six 0x08 bytes per round, at least one round. The answer is n × (1 + rounds) bytes with the first chunk as prefix |
| `Gm3Protocol.MultiPartChunks` | device_models.py:86-91 | In a multi-part answer, the bytes at n + k·n are exactly the payload of the k-th continuation frame, for every round k |
| `Gm3Protocol.StreamDataImmediateAck` | device_models.py:75-84 | STREAM_DATA acknowledged at once takes one request and one 30-byte answer, with no error counted |
| `Gm3Protocol.StreamDataRetry` | device_models.py:75-84 | An unacknowledged first STREAM_DATA attempt is repeated from scratch and counted once |
| `Gm3Protocol.ReplaceColons` | device_models.py:202 | Every ':' becomes a newline and every other byte is kept, with the length unchanged |
| `Gm3Protocol.ReplaceColonsRemovesAll` | device_models.py:202 | No colon survives, and replacing again changes nothing |
| `Gm3Protocol.Gm3.Query` | device_models.py:37-91 | The query's outcome, the bytes written, the input consumed and the error-count increase are exactly those of the protocol trace |
| `Gm3Protocol.Gm3.RetryUntilReceived` | device_models.py:75-81 | The retry loop matches the first-phase trace: bursts written, bytes read, failures counted |
| `Gm3Protocol.Gm3.Attempt` | device_models.py:76-81 | One attempt writes the opcode six times, reads n payload bytes and one ack, and counts a failure unless the ack is 0x08. Short input yields no ack |
| `Gm3Protocol.Gm3.Round` | device_models.py:87-89 | One continuation round writes 0x08 six times and reads n bytes and one ack |
| `Gm3Protocol.Gm3.ContinueUntilFinished` | device_models.py:86-91 | The continuation loop matches the second-phase trace: 0x08 bursts written and chunks appended |
| `Gm3Protocol.Gm3.Command` | device_models.py:93-107 | KILL_ALL_PROCESS (and its aliases) writes 0xFF six times and reads nothing. Other names write nothing |
| `Gm3Protocol.Gm3.InstantaneousData` | device_models.py:109-152 | STREAM_DATA answered, then decoded section by section |
| `Gm3Protocol.Gm3.InstantaneousDataT0` | device_models.py:154-197 | RESET_TIME answered, then decoded section by section |
| `Gm3Protocol.Gm3.Properties` | device_models.py:199-203 | ID_METER_PROP answered, colons turned into newlines |
| `Gm3Protocol.Gm3.Settings` | device_models.py:205-209 | ID_METER_SETT answered, colons turned into newlines |
| `Gm3Decoder.DecodeSection` | device_models.py:139-150 | A section decodes to a sample with a 32-bit digit magnitude and an exponent below 8 |
| `Gm3Decoder.DecodeEncode` | device_models.py:139-150 | Fixed-point round trip: encoding a sample and decoding it gives back the sample and its value |
| `Gm3Decoder.EncodeDecode` | device_models.py:139-150 | Re-encoding a decoded section reproduces it, except for the high nibble of byte 1 |
| `Gm3Decoder.DecodeIgnoresTagAndHighBits` | device_models.py:139-150 | Byte 0 and the high bits of byte 1 do not affect the decoded sample |
| `Gm3Decoder.PositiveExample` | device_models.py:139-150 | `02 00 00 00 00 64` decodes to +100 |
| `Gm3Decoder.NegativeExample` | device_models.py:139-150 | `00 0A 00 00 01 F4` decodes to −5 (sign bit, exponent 2, digits 500) |
| `Gm3Decoder.Value` | device_models.py:143-150 | A sample's value is negative exactly when the sign bit is set and the digits are non-zero, and zero exactly when the digits are zero |
| `Gm3Decoder.Measurables` | device_models.py:136-138 | Decoding yields floor(len/6) values |
| `Gm3Decoder.MeasurablesAt` | device_models.py:136-150 | The i-th value is the decoding of the i-th 6-byte section |
| `Gm3Decoder.MeasurablesIgnoreTrailing` | device_models.py:136-138 | Bytes after the last complete section are ignored |
| `Gm3Decoder.ResetTimePayloadGivesFive` | device_models.py:181-183 | The 31-byte RESET_TIME payload gives five values, and its last byte is dropped |
| `Gm3Decoder.DecodeMeasurables` | device_models.py:136-152 | The decode loop returns exactly one value per complete section, in section order |
| `Spd3303xSupply.SetPointCommands` | device_models.py:467-505 | A set-voltage or set-current command is sent exactly when the value is at or below the channel's limit. At most one command, carrying that value |
| `Spd3303xSupply.SetPointGate` | device_models.py:467-505 | Under limits within (0, MAX], no value above the hardware maximum is ever sent |
| `Spd3303xSupply.SetLimitAsWritten` | device_models.py:514-556 | As written: the limit of the assigned channel becomes v exactly when 0 < v ≤ MAX and v ≥ the compared channel's live value. No other limit moves |
| `Spd3303xSupply.SetLimit` | device_models.py:514-534 | The intended limit setter: the limit becomes v exactly when 0 < v ≤ MAX and v ≥ the live value. No other limit moves |
| `Spd3303xSupply.SetLimitKeepsEnvelope` | device_models.py:514-556 | The intended setters keep every limit in (0, MAX] and at or above its live set value |
| `Spd3303xSupply.Ch1SettersAsIntended` | device_models.py:514-534 | The ch1 voltage and current limit setters are the intended setters |
| `Spd3303xSupply.SetLimitAsWrittenKeepsRange` | device_models.py:514-556 | As written, all four setters still keep every limit in (0, MAX] |
| `Spd3303xSupply.Ch2VoltageLimitWritesCh1` | device_models.py:536-545 | As written, the ch2 voltage limit never changes; an accepted value lands in the ch1 limit |
| `Spd3303xSupply.Ch2VoltageLimitCounterexample` | device_models.py:545 | Concrete input where the ch2 voltage setter drops ch1's limit below its live voltage |
| `Spd3303xSupply.Ch2CurrentLimitCounterexample` | device_models.py:552 | Concrete input where the ch2 current setter accepts a limit below ch2's live current |
| `Spd3303xSupply.HexDigits` | device_models.py:354 | A string reads as a number exactly when it is non-empty and every character is a hex digit of either case |
| `Spd3303xSupply.ParseHex` | device_models.py:354 | `int(s, 16)`: fails on the empty string and on a bare `0x`/`0X` |
| `Spd3303xSupply.BareHex` | device_models.py:354 | A string of hex digits parses as its digits |
| `Spd3303xSupply.PrefixedHex` | device_models.py:354 | A `0x` or `0X` prefix is skipped |
| `Spd3303xSupply.DigitsToHex` | device_models.py:354 | Reading digits back gives the number they were printed from |
| `Spd3303xSupply.ParseToHex` | device_models.py:354 | Every bare hex numeral reads back as its number, with or without a `0x`/`0X` prefix |
| `Spd3303xSupply.HexExamples` | device_models.py:354 | "10" and "0x10" read as 16, "30" and "0X30" as 48, and "0g" fails |
| `Spd3303xSupply.BinaryShort` | device_models.py:354 | A number below 2^k has at most k binary digits |
| `Spd3303xSupply.BinaryLong` | device_models.py:354 | A number at or above 2^k has more than k binary digits |
| `Spd3303xSupply.BinaryDigit` | device_models.py:354 | The k-th digit from the right of the binary string is bit k |
| `Spd3303xSupply.StatusDigit` | device_models.py:354 | In the zero-padded status string, each digit k from the right is bit k of the status word |
| `Spd3303xSupply.SystemStatus` | device_models.py:344-355 | The status string exists exactly when the reply parses as hex. It has at least 10 digits, exactly 10 when the word is below 1024, and every digit k from the right is bit k |
| `Spd3303xSupply.ChannelState` | device_models.py:360-373 | ch1_state is bit 4 and ch2_state is bit 5 of the parsed status word |
| `Spd3303xSupply.StatusExamples` | device_models.py:360-373 | Replies "10" and "0x10" give ch1 on and ch2 off; "30" and "0X30" give both on; a non-hex reply fails |
| `Spd3303xSupply.ResetCommands` | device_models.py:296-301 | A reset sends both outputs OFF first, then only set-voltage-0 commands. There are four commands exactly when both voltage limits are non-negative |
| `Spd3303xSupply.ResetZeroes` | device_models.py:296-301 | With non-negative voltage limits, a reset turns both outputs off and sets both voltages to 0 |
| `Spd3303xSupply.Spd3303x.constructor` | device_models.py:221-266 | Limits as given, defaulting to 32 V / 3.3 A per channel. With reset_on_startup (default true) the reset commands are sent at once |
| `Spd3303xSupply.Spd3303x.SetState` | device_models.py:457-465 | Sends `Output CHn,` with the state upper-cased and changes no limit |
| `Spd3303xSupply.Spd3303x.SetSetPoint` | device_models.py:467-505 | Sends the command only at or below the limit. Limits unchanged |
| `Spd3303xSupply.Spd3303x.ResetChannels` | device_models.py:296-301 | Sends both outputs OFF, then set voltage 0 on each channel where its limit allows |
| `Spd3303xSupply.Spd3303x.SetCh1VoltageLimit` | device_models.py:514-523 | The new limits are those of the as-written setter, and nothing is sent |
| `Spd3303xSupply.Spd3303x.SetCh1CurrentLimit` | device_models.py:525-534 | The new limits are those of the as-written setter, and nothing is sent |
| `Spd3303xSupply.Spd3303x.SetCh2VoltageLimit` | device_models.py:536-545 | As written: compared with ch2's live voltage, assigned to ch1's limit |
| `Spd3303xSupply.Spd3303x.SetCh2CurrentLimit` | device_models.py:547-556 | As written: compared with ch1's live current, assigned to ch2's limit |
| `PowerSupplies.DefaultLimits` | device_type.py:75-78 | The settled list is present exactly when a list was supplied or a MAX exists |
| `PowerSupplies.DefaultLimitsEffect` | device_type.py:75-78 | A missing limit list with a MAX becomes number_of_channels copies of MAX. A supplied list is kept |
| `PowerSupplies.CheckChannelSyntax` | device_type.py:80-85 | The check passes or raises TypeError or ValueError, and ValueError exactly for an int above the channel count |
| `PowerSupplies.CheckChannelSyntaxAccepts` | device_type.py:80-85 | TypeError exactly for a non-int. The channel check passes exactly for ints ≤ number_of_channels, including 0 and negatives |
| `PowerSupplies.CheckChannelSyntaxPassesZero` | device_type.py:83 | As written, channels 0 and −1 pass on a one-channel supply |
| `PowerSupplies.CheckChannelSyntaxIntendedAccepts` | device_type.py:80-85 | The intended check passes exactly channels 1..n and agrees with the source from 1 up |
| `PowerSupplies.ZeroCalls` | device_type.py:193-204 | Zeroing n channels makes 4n calls |
| `PowerSupplies.ZeroCallsAt` | device_type.py:193-204 | Zeroing makes four calls per channel, channels in order: set voltage 0, set current 0, voltage limit MAX, current limit MAX |
| `PowerSupplies.ZeroCallsNone` | device_type.py:200 | A supply with no channels gets no calls |
| `PowerSupplies.AllLimitCalls` | device_type.py:185-191 | One call per channel, each a limit call for the same quantity and value on a channel in 1..n |
| `PowerSupplies.AllLimitCallsAt` | device_type.py:185-191 | The all-channel limit setters call the per-channel setter once per channel 1..n, in order |
| `PowerSupplies.SetMaxCurrentAsWrittenEffect` | device_type.py:127-131 | As written, the MAX current setter assigns the MAX voltage and leaves the MAX current unchanged |
| `PowerSupplies.SetMaxCurrentEffect` | device_type.py:127-131 | As intended, it sets the MAX current and leaves the MAX voltage alone |
| `PowerSupplies.PowerSupply.constructor` | device_type.py:34-78 | Fields as given (defaults: no maxima, no lists, one channel, reset_on_startup true), and the limit lists defaulted from the maxima |
| `PowerSupplies.PowerSupply.SetNumberOfChannels` | device_type.py:115-119 | Sets the channel count |
| `PowerSupplies.PowerSupply.SetMaxVoltageLimit` | device_type.py:121-125 | Sets the MAX voltage only |
| `PowerSupplies.PowerSupply.SetMaxCurrentLimit` | device_type.py:127-131 | As written: the maxima change as in the as-written MAX current setter |
| `PowerSupplies.PowerSupply.SetSetPoint` | device_type.py:133-157 | The set-voltage/set-current placeholder: one call recorded |
| `PowerSupplies.PowerSupply.SetChannelLimit` | device_type.py:159-183 | The channel-limit placeholder: one call recorded |
| `PowerSupplies.PowerSupply.SetAllChannelsLimit` | device_type.py:185-191 | Records exactly the per-channel limit calls for channels 1..n |
| `PowerSupplies.PowerSupply.ZeroAllChannels` | device_type.py:193-204 | Records exactly the zeroing calls for channels 1..n, using the maxima read at the start |
| `MccDevices.ThermocoupleTablesInverse` | device_type.py:542-576 | The int→letter and letter→int tables are inverse bijections between 1..8 and J,K,T,E,R,S,B,N |
| `MccDevices.TableLettersAreUpper` | device_type.py:583 | Upper-casing an accepted type leaves it unchanged |
| `MccDevices.MccDevice.constructor` | device_type.py:210-246 | Fields as given (defaults: no address, no port, units "celsius"). Connected exactly when an address is given |
| `MccDevices.MccDevice.Connect` | device_type.py:251-262 | TypeError, and no change, when neither the object nor the call has an address. Otherwise connected |
| `MccDevices.MccDevice.Disconnect` | device_type.py:264-266 | Not connected afterwards |
| `MccDevices.MccDevice.SetBoardNumber` | device_type.py:276-281 | Changes the board number only while disconnected. AttributeError otherwise |
| `MccDevices.MccDevice.SetIp4Address` | device_type.py:287-292 | Changes the address only while disconnected. AttributeError otherwise |
| `MccDevices.MccDevice.SetPort` | device_type.py:298-303 | Changes the port only while disconnected. AttributeError otherwise |
| `MccDevices.MccDevice.GetTempScan` | device_type.py:487-532 | high−low+1 entries (channels 0..7 by default), one per channel in order, with None exactly where the read failed |
| `MccDevices.MccDevice.GetTempAllChannels` | device_type.py:447-485 | number_temp_channels entries, entry i being channel i's reading or None |
| `MccDevices.MccDevice.GetThermocoupleType` | device_type.py:534-560 | A type is returned exactly for a channel in 0..n and a code in 1..8, and it is one of the eight letters. Otherwise ValueError for the channel, else KeyError |
| `MccDevices.MccDevice.SetThermocoupleType` | device_type.py:562-583 | Fails only with ValueError; a code written is one of 1..8 |
| `MccDevices.MccDevice.SetThermocoupleTypeAccepts` | device_type.py:562-583 | Accepted exactly for channels 0..n inclusive and a type that is exactly a key. The code written is that key's |
| `MccDevices.MccDevice.SetThenGet` | device_type.py:534-583 | Reading back the code a set wrote gives the type that was set |
| `MccDevices.MccDevice.GetThenSet` | device_type.py:534-583 | Setting the type a get reported writes back the same code |
| `MccDevices.MccDevice.ThermocoupleChecksAsWritten` | device_type.py:578-581 | As written, channel n is accepted and lower-case "k" is refused |
| `MccDevices.MccDevice.SetThermocoupleTypeIntendedAccepts` | device_type.py:562-583 | The intended setter accepts channels 0..n−1 and either letter case, and agrees with the source there |
| `Ovens.ConfigurePid` | device_type.py:896-913 | Gains 1/0.03/0, setpoint 0, sample time 2. Output limits are (0, min(MAX_volts, channel voltage limit)) |
| `Ovens.ClampedOutputWithinEnvelope` | device_type.py:910-911 | Any output within the configured limits is between 0 and both ceilings |
| `Ovens.Oven.constructor` | device_type.py:845-894 | Without a heater (the default) the default one is used. The PID is configured as configure_pid does |
| `Ovens.Oven.ConfigurePowerSupply` | device_type.py:915-921 | On the supply channel, in order: voltage limit MAX_volts, current limit MAX_current, set current MAX_current, set voltage 0 |
| `Ovens.Oven.SetSupplyChannel` | device_type.py:937-943 | Accepts only 1..number_of_channels. Otherwise the program exits and the channel is unchanged |
| `Ovens.Oven.SetDaqChannel` | device_type.py:955-961 | Accepts only 0..number_temp_channels−1. Otherwise the program exits and the channel is unchanged |
| `Ovens.Oven.SetTemperature` | device_type.py:980-985 | Raises and keeps the setpoint when new_temp > MAX_temp. Otherwise the setpoint becomes new_temp |
| `Ovens.Oven.SetSampleTime` | device_type.py:991-993 | Sets the PID sample time only |
| `Ovens.Oven.UpdateSupply` | device_type.py:1006-1016 | Sends the PID output for the DAQ reading as the channel's set voltage; a failed read sends nothing. A clamped output is within min(MAX_volts, channel limit) |

## Left out

- Socket and serial setup (`connection_type.py`, `serial.Serial` settings), `time.sleep`, `print` messages and interactive prompts are not modelled. Error messages are reduced to the kind of exception.
- Gm3Protocol.Gm3.Query: the source retries forever once the meter stops answering (reads then return nothing). The model stops at the first attempt whose acknowledgement read is empty and reports `Hung`, because the remaining input is its termination measure.
- The module-wide `error_count` is an `ErrorCounter` object that every query updates. Python's global-variable mechanics are not modelled.
- `bytes.decode('utf-8')` in `properties`/`settings` is not modelled: the colon replacement works on bytes, and a decoding failure is not represented.
- Command text (`'CH1:voltage ' + str(volts)` and the like) is a `Command` value. `str(float)` formatting is library behaviour.
- Spd3303xSupply.Spd3303x.SetCh1VoltageLimit: the live set value is a number the caller supplies. The source compares against the reply string of `CHn:voltage?`, which in Python 3 raises TypeError; that conversion is not modelled. The same holds for the other three limit setters.
- `_query` returning None after an OSError is not modelled. The SPD3303X getters that only forward a query (`idn`, `ip4_address`, measured voltages and currents) are not modelled.
- Spd3303xSupply.ParseHex: `int(s, 16)` also accepts a sign, underscores between digits and surrounding whitespace (`_query` strips the latter already). Only hex digits with an optional `0x`/`0X` prefix are modelled.
- Gm3Decoder.Value: the source computes each value in Python floats, so `3 * 10**-1` gives 0.30000000000000004. The model's value is the exact decimal `real`. Float rounding is not modelled.
- Common.AsciiUpper: Python's `str.upper` is Unicode-aware. Only ASCII letters are modelled.
- SPD3303X inherits `PowerSupply` without calling its constructor. The inherited MAX setters acting on an SPD3303X are not modelled.
- The `channel_voltage_limits`/`channel_current_limits` string properties are not modelled, since they are formatting only. `reset_on_startup` is stored by `PowerSupply.__init__`, which never acts on it, and the model does the same.
- The vendor libraries (`mcculw.ul`, `uldaq`) are abstract:
  - A temperature read is a function from channel to reading, with None for ULError.
  - The board's temperature-channel count is a constant of the object.
  - The thermocouple code reported by the board is a parameter.
  - Creating or releasing the vendor device handle, and its failures, are not modelled; only the connection flag is.
  - `model`, `mac_address`, `unique_id`, `serial_number`, the other channel counts and the clock frequency are plain vendor queries and are not modelled.
- `default_units` and the unit strings depend on `auxiliary.get_TempScale_unit`, which is not part of this model. `MCC_Device_Linux` is a thin wrapper over `uldaq` and is not modelled. The `temp_chN`/`thermocouple_type_chN` properties are fixed-channel uses of the modelled operations.
- The `simple_pid` library is not modelled: its PID arithmetic, its rate limiting and its output clamping. Its output is a parameter of `UpdateSupply`.
- Ovens.Oven.UpdateSupply: the bound on the voltage sent holds only when the PID output lies within the configured output limits. The oven does no clamping of its own and relies on the library for it.
- `configure_pid` calls `ps.get_voltage_limit(ch)`, which neither `PowerSupply` nor `SPD3303X` defines. The channel voltage limit is therefore a constructor parameter of the oven.
- `supply_channel`/`daq_channel` assign into the pair the oven was given, which fails for a tuple. The model keeps the channels as mutable fields.
- `sys.exit` becomes the `SystemExit` outcome with the state unchanged.
- `Heater.MAX_temp = None` ("no limit") is not modelled: only numeric maxima are modelled, since in Python 3 comparing None with a number raises TypeError.
- `live_plot` (matplotlib), `Web_Tc` (a duplicate of the DAQ scan logic), `trash/GaussmeterModels.py` (commented out) and `testingAllClasses.py` (a manual hardware harness) are not modelled.

## Findings

| source | as written | input that shows it | evidently intended | confidence | as-written member | corrected member |
|---|---|---|---|---|---|---|
| device_models.py:545 | the ch2 voltage limit setter assigns `_ch1_voltage_limit` | limits 32 V on both channels, live 20 V on ch1 and 5 V on ch2, request a 10 V ch2 limit, once the live set value is read as a number: ch1's limit becomes 10 V (below its live 20 V) and ch2's stays 32 V | assign `_ch2_voltage_limit` | high, not executed | `Spd3303xSupply.Ch2VoltageLimitCounterexample` | `Spd3303xSupply.SetLimitKeepsEnvelope` |
| device_models.py:552 | the ch2 current limit setter compares against the ch1 set current | live 0 A on ch1 and 3 A on ch2, request a 1 A ch2 limit, once the live set value is read as a number: accepted, leaving ch2 drawing above its limit | compare against the ch2 set current | high, not executed | `Spd3303xSupply.Ch2CurrentLimitCounterexample` | `Spd3303xSupply.SetLimitKeepsEnvelope` |
| device_type.py:131 | the `MAX_current_limit` setter assigns `_MAX_voltage_limit` | maxima (30 V, 5 A), set MAX current 3: the maxima become (3, 5) | assign `_MAX_current_limit` | high, not executed | `PowerSupplies.SetMaxCurrentAsWrittenEffect` | `PowerSupplies.SetMaxCurrentEffect` |
| device_type.py:578 | the thermocouple channel check accepts 0..n inclusive (also at line 539) | channel n on an n-channel board, which the all-channel scan never reads | accept 0..n−1 | medium, not executed | `MccDevices.MccDevice.ThermocoupleChecksAsWritten` | `MccDevices.MccDevice.SetThermocoupleTypeIntendedAccepts` |
| device_type.py:580 | the thermocouple type membership test is case-sensitive, though the lookup upper-cases and the docstring says the type is not case sensitive | type "k" is refused | accept the type in either case | medium, not executed | `MccDevices.MccDevice.ThermocoupleChecksAsWritten` | `MccDevices.MccDevice.SetThermocoupleTypeIntendedAccepts` |
| device_type.py:83 | `check_channel_syntax` rejects only channels above the count, though its message says channels start from 1 | channel 0 or −1 passes | reject channels below 1 | medium, not executed | `PowerSupplies.CheckChannelSyntaxPassesZero` | `PowerSupplies.CheckChannelSyntaxIntendedAccepts` |
