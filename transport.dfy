/**
 * The Bluetooth transport (`bluepy.btle`) that the session drives, as a
 * scripted oracle. Each kind of call takes its outcome from the head of its
 * own script and is recorded, in order, in a call log. When a script is used
 * up the call behaves as a radio that hears nothing: a scan window is empty,
 * a connection or a lookup fails, a state query raises, a read fails.
 */
module Transport {
  import opened Wrappers
  import opened Bytes

  /** A device address as `bluepy` prints it, `"aa:bb:cc:dd:ee:ff"`. */
  type Address = string

  /** A GATT UUID: a 16-bit assigned number or a full 128-bit UUID text. */
  datatype Uuid = Uuid16(short: nat) | Uuid128(text: string)

  /** One advertisement of a scan window: its address and its manufacturer field, if any. */
  datatype Advertisement = Advertisement(addr: Address, manufacturer: Option<seq<byte>>)

  /** What one `Scanner.scan(window)` call does: return the window's advertisements, or raise. */
  datatype ScanReply = Window(advertisements: seq<Advertisement>) | ScanRaised

  /** What one `Peripheral.getState()` call does: return a state text such as `"conn"`, or raise. */
  datatype StateReply = StateText(text: string) | StateRaised

  /** A characteristic handle, resolved on the peripheral with id `periph`. */
  datatype Characteristic = Characteristic(periph: nat, uuid: Uuid)

  /** The calls the session makes on the transport, as the log records them. */
  datatype Call =
    | Scan
    | Open(addr: Option<Address>)
    | Lookup(periph: nat, uuid: Uuid)
    | QueryState(periph: nat)
    | ReadValue(characteristic: Characteristic)
    | Close(periph: nat)

  /**
   * The transport's state: the scripted outcomes still to come, the id the next
   * peripheral gets, and the log of calls made so far.
   */
  datatype RadioState = RadioState(
    scans: seq<ScanReply>,
    opens: seq<bool>,
    lookups: seq<bool>,
    states: seq<StateReply>,
    values: seq<Option<seq<byte>>>,
    nextPeriph: nat,
    log: seq<Call>)
  {
    /** `Scanner().scan(window)`. */
    function ScanStep(): (ScanReply, RadioState)
    {
      var reply := if scans == [] then Window([]) else scans[0];
      (reply, this.(scans := if scans == [] then [] else scans[1..], log := log + [Scan]))
    }

    /** `Peripheral(addr)`: the id of a fresh connected peripheral, or `None` when it raises. */
    function OpenStep(addr: Option<Address>): (Option<nat>, RadioState)
    {
      var ok := opens != [] && opens[0];
      var rest := this.(opens := if opens == [] then [] else opens[1..], log := log + [Open(addr)]);
      if ok then (Some(nextPeriph), rest.(nextPeriph := nextPeriph + 1)) else (None, rest)
    }

    /** `periph.getCharacteristics(uuid=uuid)[0]`, or `None` when the lookup or the indexing raises. */
    function LookupStep(periph: nat, uuid: Uuid): (Option<Characteristic>, RadioState)
    {
      var ok := lookups != [] && lookups[0];
      (if ok then Some(Characteristic(periph, uuid)) else None,
       this.(lookups := if lookups == [] then [] else lookups[1..], log := log + [Lookup(periph, uuid)]))
    }

    /** `periph.getState()`. */
    function QueryStateStep(periph: nat): (StateReply, RadioState)
    {
      var reply := if states == [] then StateRaised else states[0];
      (reply, this.(states := if states == [] then [] else states[1..], log := log + [QueryState(periph)]))
    }

    /** `characteristic.read()`: the bytes read, or `None` when it raises. */
    function ReadStep(c: Characteristic): (Option<seq<byte>>, RadioState)
    {
      var reply := if values == [] then None else values[0];
      (reply, this.(values := if values == [] then [] else values[1..], log := log + [ReadValue(c)]))
    }

    /** `periph.disconnect()`. */
    function CloseStep(periph: nat): RadioState
    {
      this.(log := log + [Close(periph)])
    }
  }

  /** The number of `Open` calls in a log. */
  function Opens(log: seq<Call>): nat
  {
    if log == [] then 0 else Opens(log[..|log| - 1]) + (if log[|log| - 1].Open? then 1 else 0)
  }

  /** The number of `Scan` calls in a log. */
  function Scans(log: seq<Call>): nat
  {
    if log == [] then 0 else Scans(log[..|log| - 1]) + (if log[|log| - 1].Scan? then 1 else 0)
  }

  /** Counting calls in a log that grows by one call. */
  lemma CountAppend(log: seq<Call>, c: Call)
    ensures Opens(log + [c]) == Opens(log) + (if c.Open? then 1 else 0)
    ensures Scans(log + [c]) == Scans(log) + (if c.Scan? then 1 else 0)
  {
    assert (log + [c])[..|log|] == log;
  }

  /** The transport object; its methods are the oracle's steps. */
  class Radio {
    var scans: seq<ScanReply>
    var opens: seq<bool>
    var lookups: seq<bool>
    var states: seq<StateReply>
    var values: seq<Option<seq<byte>>>
    var nextPeriph: nat
    var log: seq<Call>

    function State(): RadioState
      reads this
    {
      RadioState(scans, opens, lookups, states, values, nextPeriph, log)
    }

    constructor (script: RadioState)
      ensures State() == script
    {
      scans, opens, lookups, states, values := script.scans, script.opens, script.lookups, script.states, script.values;
      nextPeriph, log := script.nextPeriph, script.log;
    }

    method Set(s: RadioState)
      modifies this
      ensures State() == s
    {
      scans, opens, lookups, states, values := s.scans, s.opens, s.lookups, s.states, s.values;
      nextPeriph, log := s.nextPeriph, s.log;
    }

    method Scan() returns (reply: ScanReply)
      modifies this
      ensures (reply, State()) == old(State()).ScanStep()
    {
      var step := State().ScanStep();
      reply := step.0;
      Set(step.1);
    }

    method Open(addr: Option<Address>) returns (periph: Option<nat>)
      modifies this
      ensures (periph, State()) == old(State()).OpenStep(addr)
    {
      var step := State().OpenStep(addr);
      periph := step.0;
      Set(step.1);
    }

    method Lookup(periph: nat, uuid: Uuid) returns (c: Option<Characteristic>)
      modifies this
      ensures (c, State()) == old(State()).LookupStep(periph, uuid)
    {
      var step := State().LookupStep(periph, uuid);
      c := step.0;
      Set(step.1);
    }

    method QueryState(periph: nat) returns (reply: StateReply)
      modifies this
      ensures (reply, State()) == old(State()).QueryStateStep(periph)
    {
      var step := State().QueryStateStep(periph);
      reply := step.0;
      Set(step.1);
    }

    method Read(c: Characteristic) returns (value: Option<seq<byte>>)
      modifies this
      ensures (value, State()) == old(State()).ReadStep(c)
    {
      var step := State().ReadStep(c);
      value := step.0;
      Set(step.1);
    }

    method Close(periph: nat)
      modifies this
      ensures State() == old(State()).CloseStep(periph)
    {
      Set(State().CloseStep(periph));
    }
  }
}
