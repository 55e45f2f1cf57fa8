/**
 * Class `Wave` of `read_wave.py`: a session with one Airthings Wave, holding
 * the peripheral, the five characteristic handles and the discovered address.
 * Every method is proved to do what the matching function of `WaveSpec` says,
 * so that the lemmas proved there hold of the methods.
 */
module WaveSession {
  import opened Wrappers
  import opened Transport
  import opened WaveSpec
  import SerialMatcher
  import Payload

  class Wave {
    /** The serial number printed under the device's magnetic backplate. */
    const serialNumber: int
    /** The transport every call goes through. */
    const radio: Radio

    var periph: Option<nat>
    var datetimeChar: Option<Characteristic>
    var humidityChar: Option<Characteristic>
    var temperatureChar: Option<Characteristic>
    var radonStaChar: Option<Characteristic>
    var radonLtaChar: Option<Characteristic>
    var macAddr: Option<Address>

    /** The mutable fields, as `WaveSpec` sees them. */
    function Fields(): WaveState
      reads this
    {
      var handles: seq<Option<Characteristic>> := [datetimeChar, humidityChar, temperatureChar, radonStaChar, radonLtaChar];
      WaveState(periph, handles, macAddr)
    }

    ghost predicate Valid()
      reads this
    {
      Consistent(Fields())
    }

    /** `Wave(serial_number)`: no peripheral, no handle, no address yet. */
    constructor (serialNumber: int, radio: Radio)
      ensures Valid() && Fields() == INITIAL
      ensures this.serialNumber == serialNumber && this.radio == radio
    {
      this.serialNumber := serialNumber;
      this.radio := radio;
      periph := None;
      datetimeChar, humidityChar, temperatureChar, radonStaChar, radonLtaChar := None, None, None, None, None;
      macAddr := None;
    }

    /** `is_connected`. */
    method IsConnected() returns (connected: bool)
      modifies radio
      ensures (connected, radio.State()) == WaveSpec.IsConnected(Fields(), old(radio.State()))
    {
      if periph.None? {
        // `None.getState()` raises `AttributeError`, which the handler turns into `False`.
        return false;
      }
      var reply := radio.QueryState(periph.value);
      connected := reply == StateText(CONNECTED_STATE);
    }

    /** `discover`. */
    method Discover() returns (found: Result<Option<Address>, Failure>)
      modifies radio
      ensures (found, radio.State()) == WaveSpec.Discover(serialNumber, old(radio.State()))
    {
      for count := 0 to SCAN_WINDOWS
        invariant DiscoverFrom(serialNumber, radio.State(), SCAN_WINDOWS - count)
                  == WaveSpec.Discover(serialNumber, old(radio.State()))
      {
        ghost var before := radio.State();
        var reply := radio.Scan();
        if reply.ScanRaised? {
          return Err(ScanFailed);
        }
        var advertisements := reply.advertisements;
        for i := 0 to |advertisements|
          invariant forall j :: 0 <= j < i ==> !SerialMatcher.Matches(serialNumber, advertisements[j].manufacturer)
        {
          if SerialMatcher.ParseSerialNumber(advertisements[i].manufacturer) == Some(serialNumber) {
            assert i == FirstMatchIndex(serialNumber, advertisements);
            return Ok(Some(advertisements[i].addr));
          }
        }
        assert FirstMatchIndex(serialNumber, advertisements) == |advertisements|;
      }
      return Ok(None);
    }

    /** `self._<name>_char = self._periph.getCharacteristics(uuid=<uuid>)[0]` for the `i`-th handle. */
    method ResolveHandle(i: nat) returns (ok: bool)
      requires periph.Some? && i < HANDLE_COUNT
      modifies this, radio
      ensures var (c, r1) := old(radio.State()).LookupStep(old(periph.value), CHARACTERISTICS[i]);
        && ok == c.Some? && radio.State() == r1
        && Fields() == if ok then old(Fields()).(handles := old(Fields()).handles[i := c]) else old(Fields())
    {
      var c := radio.Lookup(periph.value, CHARACTERISTICS[i]);
      ok := c.Some?;
      if ok {
        if i == 0 {
          datetimeChar := c;
        } else if i == 1 {
          humidityChar := c;
        } else if i == 2 {
          temperatureChar := c;
        } else if i == 3 {
          radonStaChar := c;
        } else {
          radonLtaChar := c;
        }
      }
    }

    /** The `try` block of `connect`: open the peripheral, then resolve the five handles in order. */
    method OpenPeripheral() returns (failure: Option<Failure>)
      modifies this, radio
      ensures var a := Attempt(old(Fields()), old(radio.State()));
        failure == a.failure && Fields() == a.wave && radio.State() == a.radio
    {
      ghost var goal := Attempt(Fields(), radio.State());
      var p := radio.Open(macAddr);
      if p.None? {
        return Some(PeripheralFailed);
      }
      periph := p;
      assert goal == Resolve(Fields(), radio.State(), 0);
      var ok := ResolveHandle(0);
      if !ok {
        return Some(LookupFailed(DATETIME_UUID));
      }
      assert goal == Resolve(Fields(), radio.State(), 1);
      ok := ResolveHandle(1);
      if !ok {
        return Some(LookupFailed(HUMIDITY_UUID));
      }
      assert goal == Resolve(Fields(), radio.State(), 2);
      ok := ResolveHandle(2);
      if !ok {
        return Some(LookupFailed(TEMPERATURE_UUID));
      }
      assert goal == Resolve(Fields(), radio.State(), 3);
      ok := ResolveHandle(3);
      if !ok {
        return Some(LookupFailed(RADON_STA_UUID));
      }
      assert goal == Resolve(Fields(), radio.State(), 4);
      ok := ResolveHandle(4);
      if !ok {
        return Some(LookupFailed(RADON_LTA_UUID));
      }
      assert goal == Resolve(Fields(), radio.State(), 5);
      return None;
    }

    /**
     * The loop body of `connect` after the loop test: discover the address if
     * none is stored, then run the `try` block. `ScanFailed` is the exception of
     * `discover`, raised outside the `try`; any other failure is the `try`
     * block's.
     */
    method RunPass() returns (failure: Option<Failure>)
      modifies this, radio
      ensures var p := Pass(serialNumber, old(Fields()), old(radio.State()));
        failure == p.failure && Fields() == p.wave && radio.State() == p.radio
    {
      if macAddr.None? {
        DiscoverFromResult(serialNumber, radio.State(), SCAN_WINDOWS);
        var found := Discover();
        if found.Err? {
          return Some(found.error);
        }
        macAddr := found.value;
      }
      failure := OpenPeripheral();
    }

    /** `connect(retries=1)`: the exception it raises, if any. */
    method Connect(retries: int := 1) returns (raised: Option<Failure>)
      requires Valid()
      modifies this, radio
      ensures var c := WaveSpec.Connect(serialNumber, old(Fields()), old(radio.State()), retries);
        raised == c.raised && Fields() == c.wave && radio.State() == c.radio
      ensures Valid()
    {
      ghost var goal := WaveSpec.Connect(serialNumber, Fields(), radio.State(), retries);
      ConnectKeepsConsistent(serialNumber, Fields(), radio.State(), 0, retries);
      var tries := 0;
      while tries < retries
        invariant var c := ConnectFrom(serialNumber, Fields(), radio.State(), tries, retries);
          c.raised == goal.raised && c.wave == goal.wave && c.radio == goal.radio
        decreases retries - tries
      {
        var connected := IsConnected();
        if connected {
          break;
        }
        tries := tries + 1;
        var failure := RunPass();
        if failure == Some(ScanFailed) || (failure.Some? && tries == retries) {
          return failure;
        }
      }
      return None;
    }

    /** `read`: the five values, read in order, concatenated and decoded. */
    method Read() returns (values: Result<Payload.CurrentValues, Failure>)
      modifies radio
      ensures (values, radio.State()) == WaveSpec.Read(Fields(), old(radio.State()))
    {
      ghost var goal := ReadFrom(Fields(), radio.State(), 0, []);
      if datetimeChar.None? {
        return Err(MissingHandle(0));
      }
      var value := radio.Read(datetimeChar.value);
      if value.None? {
        return Err(ReadFailed(datetimeChar.value));
      }
      var rawdata := value.value;
      assert [] + value.value == rawdata;
      assert goal == ReadFrom(Fields(), radio.State(), 1, rawdata);
      if humidityChar.None? {
        return Err(MissingHandle(1));
      }
      value := radio.Read(humidityChar.value);
      if value.None? {
        return Err(ReadFailed(humidityChar.value));
      }
      rawdata := rawdata + value.value;
      assert goal == ReadFrom(Fields(), radio.State(), 2, rawdata);
      if temperatureChar.None? {
        return Err(MissingHandle(2));
      }
      value := radio.Read(temperatureChar.value);
      if value.None? {
        return Err(ReadFailed(temperatureChar.value));
      }
      rawdata := rawdata + value.value;
      assert goal == ReadFrom(Fields(), radio.State(), 3, rawdata);
      if radonStaChar.None? {
        return Err(MissingHandle(3));
      }
      value := radio.Read(radonStaChar.value);
      if value.None? {
        return Err(ReadFailed(radonStaChar.value));
      }
      rawdata := rawdata + value.value;
      assert goal == ReadFrom(Fields(), radio.State(), 4, rawdata);
      if radonLtaChar.None? {
        return Err(MissingHandle(4));
      }
      value := radio.Read(radonLtaChar.value);
      if value.None? {
        return Err(ReadFailed(radonLtaChar.value));
      }
      rawdata := rawdata + value.value;
      assert goal == (Ok(rawdata), radio.State());
      match Payload.FromBytes(rawdata)
      case Ok(v) => return Ok(v);
      case Err(e) => return Err(Undecodable(e));
    }

    /** `disconnect`. */
    method Disconnect()
      requires Valid()
      modifies this, radio
      ensures Valid()
      ensures (Fields(), radio.State()) == WaveSpec.Disconnect(old(Fields()), old(radio.State()))
      ensures periph.None? && macAddr == old(macAddr)
      ensures datetimeChar.None? && humidityChar.None? && temperatureChar.None?
      ensures radonStaChar.None? && radonLtaChar.None?
    {
      if periph.Some? {
        radio.Close(periph.value);
        periph := None;
        datetimeChar := None;
        humidityChar := None;
        temperatureChar := None;
        radonStaChar := None;
        radonLtaChar := None;
      }
    }
  }
}
