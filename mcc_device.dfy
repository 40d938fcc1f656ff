/**
 * A Measurement Computing temperature DAQ (device_type.py, class
 * MCC_Device): connection state and the configuration it guards, scans of
 * the temperature channels, and the thermocouple type tables.
 *
 * The vendor library is abstract: a temperature read is a function from a
 * channel number to a reading or nothing (the library raised its ULError),
 * and the number of temperature channels the board reports is a constant of
 * the object. Setting up or releasing the vendor's device handle is not
 * modelled, only the flag that records it.
 */
module MccDevices {
  import opened Common

  /** `tc_type_dict` of `get_thermocouple_type`: configuration code to thermocouple letter. */
  const TC_NAMES: map<int, string> :=
    map[1 := "J", 2 := "K", 3 := "T", 4 := "E", 5 := "R", 6 := "S", 7 := "B", 8 := "N"]

  /** `tc_type_dict` of `set_thermocuple_type`: thermocouple letter to configuration code. */
  const TC_CODES: map<string, int> :=
    map["J" := 1, "K" := 2, "T" := 3, "E" := 4, "R" := 5, "S" := 6, "B" := 7, "N" := 8]

  /** The two tables are inverse bijections between the codes 1..8 and the eight letters. */
  lemma ThermocoupleTablesInverse()
    ensures TC_NAMES.Keys == {1, 2, 3, 4, 5, 6, 7, 8}
    ensures TC_CODES.Keys == {"J", "K", "T", "E", "R", "S", "B", "N"}
    ensures forall c :: c in TC_NAMES ==> TC_NAMES[c] in TC_CODES && TC_CODES[TC_NAMES[c]] == c
    ensures forall t :: t in TC_CODES ==> TC_CODES[t] in TC_NAMES && TC_NAMES[TC_CODES[t]] == t
  {
    forall c | c in TC_NAMES
      ensures TC_NAMES[c] in TC_CODES && TC_CODES[TC_NAMES[c]] == c
    {
      assert c in {1, 2, 3, 4, 5, 6, 7, 8};
    }
    forall t | t in TC_CODES
      ensures TC_CODES[t] in TC_NAMES && TC_NAMES[TC_CODES[t]] == t
    {
      assert t in {"J", "K", "T", "E", "R", "S", "B", "N"};
    }
  }

  /** Every letter in the table is a single capital, so `upper()` leaves it as it is. */
  lemma TableLettersAreUpper(t: string)
    requires t in TC_CODES
    ensures AsciiUpper(t) == t
  {
    assert |t| == 1 && 'A' <= t[0] <= 'Z';
  }

  class MccDevice {
    var boardNumber: int
    var ip4Address: Option<string>
    var port: Option<int>
    var defaultUnits: string
    var isConnected: bool
    /** NUMTEMPCHANS as the board reports it. */
    const numberTempChannels: int

    /** With an address the device is connected at once; without one it starts disconnected. */
    constructor (board: int, tempChannels: int, ip: Option<string> := None, p: Option<int> := None, units: string := "celsius")
      ensures boardNumber == board && ip4Address == ip && port == p && defaultUnits == units
      ensures numberTempChannels == tempChannels
      ensures isConnected == ip.Some?
    {
      boardNumber, ip4Address, port, defaultUnits := board, ip, p, units;
      numberTempChannels := tempChannels;
      isConnected := ip.Some?;
    }

    /** `connect`: TypeError when neither the object nor the call has an address; otherwise connected. */
    method Connect(ip: Option<string> := None) returns (s: Status)
      modifies this`isConnected
      ensures s == (if ip4Address.None? && ip.None? then Failed(TypeError) else Done)
      ensures isConnected == (if s == Done then true else old(isConnected))
    {
      if ip4Address.None? && ip.None? {
        return Failed(TypeError);
      }
      isConnected := true;
      s := Done;
    }

    method Disconnect()
      modifies this`isConnected
      ensures !isConnected
    {
      isConnected := false;
    }

    /** The board number changes only while disconnected; otherwise AttributeError. */
    method SetBoardNumber(n: int) returns (s: Status)
      modifies this`boardNumber
      ensures s == (if old(isConnected) then Failed(AttributeError) else Done)
      ensures boardNumber == (if s == Done then n else old(boardNumber))
    {
      if !isConnected {
        boardNumber := n;
        s := Done;
      } else {
        s := Failed(AttributeError);
      }
    }

    /** The address changes only while disconnected; otherwise AttributeError. */
    method SetIp4Address(ip: Option<string>) returns (s: Status)
      modifies this`ip4Address
      ensures s == (if old(isConnected) then Failed(AttributeError) else Done)
      ensures ip4Address == (if s == Done then ip else old(ip4Address))
    {
      if !isConnected {
        ip4Address := ip;
        s := Done;
      } else {
        s := Failed(AttributeError);
      }
    }

    /** The port changes only while disconnected; otherwise AttributeError. */
    method SetPort(p: Option<int>) returns (s: Status)
      modifies this`port
      ensures s == (if old(isConnected) then Failed(AttributeError) else Done)
      ensures port == (if s == Done then p else old(port))
    {
      if !isConnected {
        port := p;
        s := Done;
      } else {
        s := Failed(AttributeError);
      }
    }

    /**
     * `get_temp_scan`: one entry per channel from `low` to `high` inclusive,
     * in channel order, holding the reading, or `None` where the read failed.
     */
    method GetTempScan(read: int -> Option<real>, low: int := 0, high: int := 7) returns (out: seq<Option<real>>)
      ensures |out| == if high < low then 0 else high - low + 1
      ensures forall i :: 0 <= i < |out| ==> out[i] == read(low + i)
      ensures forall i :: 0 <= i < |out| ==> (out[i] == None <==> read(low + i) == None)
    {
      out := [];
      var channel := low;
      while channel < high + 1
        invariant low <= channel && (channel <= high + 1 || channel == low)
        invariant |out| == channel - low
        invariant forall i :: 0 <= i < |out| ==> out[i] == read(low + i)
      {
        var reading := read(channel);
        if reading.None? {
          out := out + [None];
        } else {
          out := out + [reading];
        }
        channel := channel + 1;
      }
    }

    /** `get_temp_all_channels`: one entry per temperature channel 0..n-1, `None` where the read failed. */
    method GetTempAllChannels(read: int -> Option<real>) returns (out: seq<Option<real>>)
      ensures |out| == if numberTempChannels < 0 then 0 else numberTempChannels
      ensures forall i :: 0 <= i < |out| ==> out[i] == read(i)
    {
      out := GetTempScan(read, 0, numberTempChannels - 1);
    }

    /** The channel range both thermocouple operations accept, as written: 0..n inclusive. */
    predicate ThermocoupleChannel(channel: int) {
      0 <= channel <= numberTempChannels
    }

    /**
     * `get_thermocouple_type`, given the code the board reports for the
     * channel: ValueError outside 0..n, KeyError for a code outside the table.
     */
    function GetThermocoupleType(channel: int, code: int): (r: Result<string>)
      ensures r.Ok? <==> ThermocoupleChannel(channel) && 1 <= code <= 8
      ensures r.Ok? ==> r.value in TC_CODES
      ensures r.Raised? ==> r.error == (if ThermocoupleChannel(channel) then KeyError else ValueError)
    {
      ThermocoupleTablesInverse();
      if !ThermocoupleChannel(channel) then Raised(ValueError)
      else if code !in TC_NAMES then Raised(KeyError)
      else Ok(TC_NAMES[code])
    }

    /**
     * `set_thermocuple_type`: the configuration code written to the board,
     * or ValueError for a channel outside 0..n or a type that is not
     * exactly one of the table's letters.
     */
    function SetThermocoupleType(channel: int, newType: string): (r: Result<int>)
      ensures r.Raised? ==> r.error == ValueError
      ensures r.Ok? ==> r.value in TC_NAMES
    {
      ThermocoupleTablesInverse();
      if !ThermocoupleChannel(channel) then Raised(ValueError)
      else if newType !in TC_CODES then Raised(ValueError)
      else
        TableLettersAreUpper(newType);
        Ok(TC_CODES[AsciiUpper(newType)])
    }

    /** Accepted exactly for a channel in 0..n and a type among the table's letters; the code is the letter's. */
    lemma SetThermocoupleTypeAccepts(channel: int, newType: string)
      ensures SetThermocoupleType(channel, newType).Ok? <==> ThermocoupleChannel(channel) && newType in TC_CODES
      ensures SetThermocoupleType(channel, newType).Ok? ==>
                SetThermocoupleType(channel, newType).value == TC_CODES[newType] &&
                1 <= SetThermocoupleType(channel, newType).value <= 8
    {
      if SetThermocoupleType(channel, newType).Ok? {
        TableLettersAreUpper(newType);
        ThermocoupleTablesInverse();
        assert TC_CODES[newType] in TC_NAMES.Keys;
      }
    }

    /** Reading back the code a set wrote gives the type that was set. */
    lemma SetThenGet(channel: int, newType: string)
      requires SetThermocoupleType(channel, newType).Ok?
      ensures GetThermocoupleType(channel, SetThermocoupleType(channel, newType).value) == Ok(newType)
    {
      TableLettersAreUpper(newType);
      ThermocoupleTablesInverse();
    }

    /** Setting the type a get reported writes back the same code. */
    lemma GetThenSet(channel: int, code: int)
      requires GetThermocoupleType(channel, code).Ok?
      ensures SetThermocoupleType(channel, GetThermocoupleType(channel, code).value) == Ok(code)
    {
      ThermocoupleTablesInverse();
      TableLettersAreUpper(TC_NAMES[code]);
    }

    /**
     * As written, channel n (one past the last channel 0..n-1 that a scan of
     * all channels reads) is accepted, and a lower-case letter is refused
     * although the code upper-cases the type it looks up.
     */
    lemma ThermocoupleChecksAsWritten()
      requires numberTempChannels >= 0
      ensures SetThermocoupleType(numberTempChannels, "K") == Ok(2)
      ensures SetThermocoupleType(0, "k") == Raised(ValueError)
      ensures SetThermocoupleTypeIntended(numberTempChannels, "K") == Raised(ValueError)
      ensures numberTempChannels > 0 ==> SetThermocoupleTypeIntended(0, "k") == Ok(2)
    {
      assert "k" !in TC_CODES;
      assert AsciiUpper("k") == "K";
      TableLettersAreUpper("K");
    }

    /** `set_thermocuple_type` as intended: channels 0..n-1, and the letter in either case. */
    function SetThermocoupleTypeIntended(channel: int, newType: string): (r: Result<int>)
    {
      if !(0 <= channel < numberTempChannels) then Raised(ValueError)
      else if AsciiUpper(newType) !in TC_CODES then Raised(ValueError)
      else Ok(TC_CODES[AsciiUpper(newType)])
    }

    /**
     * The intended setter accepts exactly the channels a scan of all
     * channels reads, ignores letter case, and agrees with the source on
     * every such channel and upper-case letter.
     */
    lemma SetThermocoupleTypeIntendedAccepts(channel: int, newType: string)
      ensures SetThermocoupleTypeIntended(channel, newType).Ok? <==>
                0 <= channel < numberTempChannels && AsciiUpper(newType) in TC_CODES
      ensures SetThermocoupleTypeIntended(channel, newType) == SetThermocoupleTypeIntended(channel, AsciiUpper(newType))
      ensures 0 <= channel < numberTempChannels && newType in TC_CODES ==>
                SetThermocoupleTypeIntended(channel, newType) == SetThermocoupleType(channel, newType)
    {
      UpperIdempotent(newType);
      if newType in TC_CODES {
        TableLettersAreUpper(newType);
      }
    }
  }

  /** Upper-casing twice is upper-casing once. */
  lemma UpperIdempotent(s: string)
    ensures AsciiUpper(AsciiUpper(s)) == AsciiUpper(s)
  {
    var u := AsciiUpper(s);
    assert forall i :: 0 <= i < |u| ==> UpperChar(u[i]) == u[i];
  }
}
