/**
 * The payload decoder `CurrentValues.from_bytes` of `read_wave.py`: the five
 * characteristic values concatenated are unpacked as `<H5B4H>` and the six
 * leading fields become a `datetime.datetime`, which rejects an illegal
 * calendar date or time of day.
 */
module Payload {
  import opened Wrappers
  import opened Bytes

  /** `struct.calcsize('<H5B4H')`. */
  const PAYLOAD_LENGTH: nat := 15

  /** `datetime.MINYEAR` and `datetime.MAXYEAR`. */
  const MIN_YEAR: int := 1
  const MAX_YEAR: int := 9999

  /** The proleptic Gregorian leap-year rule that `datetime` applies. */
  predicate IsLeapYear(year: int)
  {
    year % 4 == 0 && (year % 100 != 0 || year % 400 == 0)
  }

  /** Number of days in `month` of `year`. */
  function DaysInMonth(year: int, month: int): (d: nat)
    requires 1 <= month <= 12
    ensures 28 <= d <= 31
    ensures d == 29 <==> month == 2 && IsLeapYear(year)
  {
    if month == 2 then (if IsLeapYear(year) then 29 else 28)
    else if month == 4 || month == 6 || month == 9 || month == 11 then 30
    else 31
  }

  datatype DateTime = DateTime(year: int, month: int, day: int, hour: int, minute: int, second: int)

  /** The arguments `datetime.datetime(year, month, day, hour, minute, second)` accepts without raising. */
  predicate ValidDateTime(t: DateTime)
  {
    && MIN_YEAR <= t.year <= MAX_YEAR
    && 1 <= t.month <= 12
    && 1 <= t.day <= DaysInMonth(t.year, t.month)
    && 0 <= t.hour < 24
    && 0 <= t.minute < 60
    && 0 <= t.second < 60
  }

  /**
   * One reading. Humidity and temperature are kept as the raw integer hundredths
   * the device sends (the source divides them by 100.0); radon averages are Bq/m3.
   */
  datatype CurrentValues = CurrentValues(timestamp: DateTime, humidity: nat, temperature: nat,
                                         radonSta: nat, radonLta: nat)

  /** Why `from_bytes` raised: `struct.error` for a wrong length, `ValueError` from `datetime`. */
  datatype DecodeError = LengthMismatch(length: nat) | InvalidTimestamp(timestamp: DateTime)

  /** The six calendar fields at the head of a 15-byte payload. */
  function TimestampOf(raw: seq<byte>): DateTime
    requires |raw| == PAYLOAD_LENGTH
  {
    DateTime(U16(raw, 0), raw[2], raw[3], raw[4], raw[5], raw[6])
  }

  /** `CurrentValues.from_bytes`. */
  function FromBytes(raw: seq<byte>): (r: Result<CurrentValues, DecodeError>)
    ensures |raw| != PAYLOAD_LENGTH ==> r == Err(LengthMismatch(|raw|))
    ensures |raw| == PAYLOAD_LENGTH ==> (r.Ok? <==> ValidDateTime(TimestampOf(raw)))
    ensures |raw| == PAYLOAD_LENGTH && r.Err? ==> r.error == InvalidTimestamp(TimestampOf(raw))
  {
    if |raw| != PAYLOAD_LENGTH then Err(LengthMismatch(|raw|))
    else
      var timestamp := TimestampOf(raw);
      if !ValidDateTime(timestamp) then Err(InvalidTimestamp(timestamp))
      else Ok(CurrentValues(timestamp, U16(raw, 7), U16(raw, 9), U16(raw, 11), U16(raw, 13)))
  }

  /** A reading the 15-byte layout can carry: a legal timestamp and 16-bit measurements. */
  predicate Encodable(v: CurrentValues)
  {
    && ValidDateTime(v.timestamp)
    && v.humidity < 0x1_0000 && v.temperature < 0x1_0000
    && v.radonSta < 0x1_0000 && v.radonLta < 0x1_0000
  }

  /** `struct.pack('<H5B4H', …)`: the inverse layout, laying a reading out as the device sends it. */
  function ToBytes(v: CurrentValues): (raw: seq<byte>)
    requires Encodable(v)
    ensures |raw| == PAYLOAD_LENGTH
  {
    var t := v.timestamp;
    EncodeU16(t.year) + [t.month, t.day, t.hour, t.minute, t.second]
    + EncodeU16(v.humidity) + EncodeU16(v.temperature)
    + EncodeU16(v.radonSta) + EncodeU16(v.radonLta)
  }

  /** Whatever `from_bytes` returns can be laid out again. */
  lemma DecodedIsEncodable(raw: seq<byte>)
    requires FromBytes(raw).Ok?
    ensures Encodable(FromBytes(raw).value)
  {
  }

  /** Laying out a reading and decoding it gives the same reading. */
  lemma {:induction false} FromBytesToBytes(v: CurrentValues)
    requires Encodable(v)
    ensures FromBytes(ToBytes(v)) == Ok(v)
  {
    var raw := ToBytes(v);
    var t := v.timestamp;
    assert raw[0..2] == EncodeU16(t.year);
    assert raw[2..7] == [t.month, t.day, t.hour, t.minute, t.second];
    assert raw[7..9] == EncodeU16(v.humidity);
    assert raw[9..11] == EncodeU16(v.temperature);
    assert raw[11..13] == EncodeU16(v.radonSta);
    assert raw[13..15] == EncodeU16(v.radonLta);
    assert U16(raw, 0) == U16(raw[0..2], 0);
    assert U16(raw, 7) == U16(raw[7..9], 0);
    assert U16(raw, 9) == U16(raw[9..11], 0);
    assert U16(raw, 11) == U16(raw[11..13], 0);
    assert U16(raw, 13) == U16(raw[13..15], 0);
    assert TimestampOf(raw) == t;
  }

  /** A payload `from_bytes` accepts is exactly the layout of the reading it returns. */
  lemma {:induction false} ToBytesFromBytes(raw: seq<byte>)
    requires FromBytes(raw).Ok?
    ensures ToBytes(FromBytes(raw).value) == raw
  {
    EncodeU16OfU16(raw, 0);
    EncodeU16OfU16(raw, 7);
    EncodeU16OfU16(raw, 9);
    EncodeU16OfU16(raw, 11);
    EncodeU16OfU16(raw, 13);
    assert raw == raw[0..2] + raw[2..7] + raw[7..9] + raw[9..11] + raw[11..13] + raw[13..15];
  }

  /** The field mapping: `from_bytes` succeeds on `raw` with `v` exactly when `raw` is `v` laid out. */
  lemma FromBytesIff(raw: seq<byte>, v: CurrentValues)
    ensures FromBytes(raw) == Ok(v) <==> Encodable(v) && raw == ToBytes(v)
  {
    if FromBytes(raw) == Ok(v) {
      ToBytesFromBytes(raw);
    }
    if Encodable(v) && raw == ToBytes(v) {
      FromBytesToBytes(v);
    }
  }

  /** Month 13 is refused, and so is 30 February of any year, leap or not. */
  lemma IllegalDatesRefused(raw: seq<byte>)
    requires |raw| == PAYLOAD_LENGTH
    requires raw[2] == 13 || (raw[2] == 2 && raw[3] == 30)
    ensures FromBytes(raw).Err?
  {
  }

  /** 29 February is accepted exactly in leap years (all other fields being legal). */
  lemma LeapDayAccepted(year: int)
    requires MIN_YEAR <= year <= MAX_YEAR
    ensures ValidDateTime(DateTime(year, 2, 29, 0, 0, 0)) <==> IsLeapYear(year)
  {
  }

  /** The days of the twelve months of a year, counted from `month` onwards. */
  function DaysFrom(year: int, month: int): (n: nat)
    requires 1 <= month <= 13
    decreases 13 - month
  {
    if month == 13 then 0 else DaysInMonth(year, month) + DaysFrom(year, month + 1)
  }

  /** The calendar has 366 days in a leap year and 365 otherwise. */
  lemma YearLength(year: int)
    ensures DaysFrom(year, 1) == if IsLeapYear(year) then 366 else 365
  {
    assert DaysFrom(year, 13) == 0;
    assert DaysFrom(year, 12) == 31;
    assert DaysFrom(year, 11) == 61;
    assert DaysFrom(year, 10) == 92;
    assert DaysFrom(year, 9) == 122;
    assert DaysFrom(year, 8) == 153;
    assert DaysFrom(year, 7) == 184;
    assert DaysFrom(year, 6) == 214;
    assert DaysFrom(year, 5) == 245;
    assert DaysFrom(year, 4) == 275;
    assert DaysFrom(year, 3) == 306;
  }

  /** A reading taken at 2023-06-15 10:30:00 with 45.00 %rH, 21.50 C and radon 55 / 48 Bq/m3. */
  lemma ExampleReading()
    ensures FromBytes([0xE7, 0x07, 6, 15, 10, 30, 0, 0x94, 0x11, 0x66, 0x08, 55, 0, 48, 0])
            == Ok(CurrentValues(DateTime(2023, 6, 15, 10, 30, 0), 4500, 2150, 55, 48))
  {
  }
}
