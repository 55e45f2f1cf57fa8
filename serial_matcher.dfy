/**
 * The manufacturer-data matcher of `read_wave.py`: an advertisement's
 * manufacturer field is read as the little-endian record `<HLH>`
 * (vendor id, serial number, reserved) and yields the serial number only
 * when the vendor id is the one registered to Airthings.
 */
module SerialMatcher {
  import opened Wrappers
  import opened Bytes

  /** Bluetooth SIG company identifier of Airthings AS (formerly Corentium AS). */
  const AIRTHINGS_ID: nat := 0x0334

  /** `struct.calcsize('<HLH')`. */
  const RECORD_LENGTH: nat := 8

  /**
   * `_parse_serial_number`. The argument is the value the transport reports for
   * the manufacturer field: `None` stands for an advertisement without one
   * (not a `bytes` value, so `struct.unpack` raises and the handler returns `None`).
   */
  function ParseSerialNumber(value: Option<seq<byte>>): (r: Option<nat>)
    ensures r.Some? <==> value.Some? && |value.value| == RECORD_LENGTH && U16(value.value, 0) == AIRTHINGS_ID
    ensures r.Some? ==> r.value == U32(value.value, 2) && r.value < 0x1_0000_0000
  {
    match value
    case None => None
    case Some(data) =>
      if |data| != RECORD_LENGTH then None
      else
        var id, sn := U16(data, 0), U32(data, 2);
        if id == AIRTHINGS_ID then Some(sn) else None
  }

  /**
   * The test `self.serial_number == _parse_serial_number(...)` that `discover`
   * applies to each advertisement: Python's `==` between an `int` and `None` is false.
   */
  predicate Matches(target: int, value: Option<seq<byte>>)
  {
    ParseSerialNumber(value) == Some(target)
  }

  /** `struct.pack('<HLH', vendor, serial, reserved)`: the record the matcher reads. */
  function EncodeRecord(vendor: nat, serial: nat, reserved: nat): (r: seq<byte>)
    requires vendor < 0x1_0000 && serial < 0x1_0000_0000 && reserved < 0x1_0000
    ensures |r| == RECORD_LENGTH
  {
    EncodeU16(vendor) + EncodeU32(serial) + EncodeU16(reserved)
  }

  /** Decoding an encoded record gives back its serial exactly when its vendor is Airthings. */
  lemma ParseEncodedRecord(vendor: nat, serial: nat, reserved: nat)
    requires vendor < 0x1_0000 && serial < 0x1_0000_0000 && reserved < 0x1_0000
    ensures ParseSerialNumber(Some(EncodeRecord(vendor, serial, reserved)))
            == if vendor == AIRTHINGS_ID then Some(serial) else None
  {
    var r := EncodeRecord(vendor, serial, reserved);
    var v, s := EncodeU16(vendor), EncodeU32(serial);
    assert r[0..2] == v && r[2..6] == s;
    assert U16(r, 0) == U16(v, 0);
    assert U32(r, 2) == U32(s, 0) by {
      assert U16(r, 2) == U16(s, 0) && U16(r, 4) == U16(s, 2);
    }
  }

  /** Every 8-byte manufacturer field is the encoding of the three fields read from it. */
  lemma RecordOfFields(data: seq<byte>)
    requires |data| == RECORD_LENGTH
    ensures data == EncodeRecord(U16(data, 0), U32(data, 2), U16(data, 6))
  {
    EncodeU16OfU16(data, 0);
    EncodeU32OfU32(data, 2);
    EncodeU16OfU16(data, 6);
    assert data == data[0..2] + data[2..6] + data[6..8];
  }

  /** A field that is not exactly 8 bytes long, or is absent, never matches any serial. */
  lemma WrongLengthNeverMatches(target: int, value: Option<seq<byte>>)
    requires value.None? || |value.value| != RECORD_LENGTH
    ensures !Matches(target, value)
  {
  }

  /**
   * An 8-byte record with a foreign vendor id is rejected whatever its serial
   * and reserved bytes; an Airthings record matches exactly its own serial.
   */
  lemma MatchesEncodedRecord(target: int, vendor: nat, serial: nat, reserved: nat)
    requires vendor < 0x1_0000 && serial < 0x1_0000_0000 && reserved < 0x1_0000
    ensures Matches(target, Some(EncodeRecord(vendor, serial, reserved)))
            <==> vendor == AIRTHINGS_ID && serial == target
  {
    ParseEncodedRecord(vendor, serial, reserved);
  }
}
