/**
 * The device listing of `scan_services.py`. For every device the scan found,
 * the script walks the device's scan-data entries, remembers the value of the
 * last "Manufacturer" entry seen so far, and for every entry from that one on
 * decodes the remembered hex text: it normalises the hex pairs, forms the
 * Bluetooth company code from the first two bytes, prints a banner for an
 * Airthings device, prints the company name looked up in the company table,
 * and prints the address with the serial text taken from bytes 2 to 4.
 *
 * Printing is modelled as appending `Line` records to a listing; an exception
 * that escapes the script (a `ValueError` from `int(…, 16)` or a `KeyError`
 * from the company table) ends the listing with an `Abort`.
 */
module Scanner {
  import opened Wrappers
  import Bytes
  import SerialMatcher

  /** The `desc` bluepy reports for a manufacturer-specific data entry. */
  const MANUFACTURER: string := "Manufacturer"

  /** The company code the Airthings test compares against. */
  const AIRTHINGS_CODE: string := "0x0334"

  /** One `(adtype, desc, value)` triple of `getScanData()`. */
  datatype ScanEntry = ScanEntry(adType: int, desc: string, value: string)

  /** A scan result: address, address type, signal strength and scan data. */
  datatype Device = Device(addr: string, addrType: string, rssi: int, scanData: seq<ScanEntry>)

  /** An exception that escapes the `try`: only `DecodeErrorException` is caught, and nothing raises it. */
  datatype Abort =
    | BadHexPair                   // `int(i + j, 16)` on a pair that is not hex
    | UnknownCompany(code: string) // `company_dict[code]` on a missing key

  /** One printed line. */
  datatype Line =
    | AirthingsBanner
    | CompanyLine(code: string, company: string)
    | DeviceLine(addr: string, addrType: string, rssi: int, serial: string)

  /** What the script prints, and the exception that ended it, if any. */
  datatype Listing = Listing(lines: seq<Line>, abort: Option<Abort>)

  function Prepend(pre: seq<Line>, l: Listing): Listing
  {
    Listing(pre + l.lines, l.abort)
  }

  // ---------------------------------------------------------------- hex digits

  /** A character `int(…, 16)` reads as a digit (ASCII forms). */
  predicate IsHexDigit(c: char)
  {
    '0' <= c <= '9' || 'a' <= c <= 'f' || 'A' <= c <= 'F'
  }

  /** A digit as `str.upper()` leaves it. */
  predicate IsUpperHexDigit(c: char)
  {
    '0' <= c <= '9' || 'A' <= c <= 'F'
  }

  function DigitValue(c: char): (d: nat)
    requires IsHexDigit(c)
    ensures d < 16
  {
    if '0' <= c <= '9' then c as int - '0' as int
    else if 'a' <= c <= 'f' then c as int - 'a' as int + 10
    else c as int - 'A' as int + 10
  }

  /** The digit `format(d, 'x').upper()` writes. */
  function UpperDigit(d: nat): (c: char)
    requires d < 16
    ensures IsUpperHexDigit(c) && DigitValue(c) == d
  {
    if d < 10 then ('0' as int + d) as char else ('A' as int + d - 10) as char
  }

  /** The digit `format(d, 'x')` writes. */
  function LowerDigit(d: nat): (c: char)
    requires d < 16
    ensures IsHexDigit(c) && DigitValue(c) == d
  {
    if d < 10 then ('0' as int + d) as char else ('a' as int + d - 10) as char
  }

  /** `c.upper()` on a hex digit. */
  function UpperOf(c: char): (u: char)
    requires IsHexDigit(c)
    ensures IsUpperHexDigit(u) && DigitValue(u) == DigitValue(c)
    ensures IsUpperHexDigit(c) ==> u == c
  {
    if 'a' <= c <= 'f' then (c as int - 'a' as int + 'A' as int) as char else c
  }

  /** An element of `ManuDataHex`: two upper-case hex digits. */
  predicate IsNormalByte(t: string)
  {
    |t| == 2 && IsUpperHexDigit(t[0]) && IsUpperHexDigit(t[1])
  }

  /** The number a two-digit hex string denotes. */
  function ByteValue(t: string): (v: nat)
    requires |t| == 2 && IsHexDigit(t[0]) && IsHexDigit(t[1])
    ensures v < 256
  {
    16 * DigitValue(t[0]) + DigitValue(t[1])
  }

  /** `f"{v:02x}".upper()` for a byte value. */
  function Format02X(v: nat): (t: string)
    requires v < 256
    ensures IsNormalByte(t) && ByteValue(t) == v
  {
    [UpperDigit(v / 16), UpperDigit(v % 16)]
  }

  /** Every normalised element is the formatting of its own value. */
  lemma NormalByteIsFormatted(t: string)
    requires IsNormalByte(t)
    ensures Format02X(ByteValue(t)) == t
  {
    var v := ByteValue(t);
    assert v / 16 == DigitValue(t[0]) && v % 16 == DigitValue(t[1]);
  }

  /** `int(i + j, 16)` on one pair of characters. */
  function ParseHexPair(a: char, b: char): (r: Option<nat>)
    ensures r.Some? <==> IsHexDigit(a) && IsHexDigit(b)
    ensures r.Some? ==> r.value < 256 && Format02X(r.value) == [UpperOf(a), UpperOf(b)]
  {
    if IsHexDigit(a) && IsHexDigit(b) then
      var v := 16 * DigitValue(a) + DigitValue(b);
      assert ByteValue([UpperOf(a), UpperOf(b)]) == v;
      NormalByteIsFormatted([UpperOf(a), UpperOf(b)]);
      Some(v)
    else None
  }

  /** One pair of hex digits reads as sixteen times the first digit plus the second. */
  lemma PairOfDigits(a: char, b: char)
    requires IsHexDigit(a) && IsHexDigit(b)
    ensures ParseHexPair(a, b) == Some(16 * DigitValue(a) + DigitValue(b))
  {
  }

  /** The pair `zip` forms from characters `2i` and `2i + 1`, read as a number. */
  function PairAt(s: string, i: nat): Option<nat>
    requires 2 * i + 2 <= |s|
  {
    ParseHexPair(s[2 * i], s[2 * i + 1])
  }

  // ------------------------------------------------------------ normalisation

  /**
   * `ManuDataHex`: the text cut into pairs (an odd trailing character is dropped,
   * as `zip` stops at the shorter slice), each pair re-written as two upper-case
   * digits. The comprehension is evaluated in full before anything is printed,
   * so one bad pair anywhere aborts the entry.
   */
  function NormalizeHex(s: string): Result<seq<string>, Abort>
  {
    if forall i :: 0 <= i < |s| / 2 ==> PairAt(s, i).Some? then
      Ok(seq(|s| / 2, i requires 0 <= i < |s| / 2 => Format02X(PairAt(s, i).value)))
    else Err(BadHexPair)
  }

  /**
   * Normalisation succeeds exactly when every pair it reads is a pair of hex
   * digits, keeps one element per pair, and fails only with `BadHexPair`.
   */
  lemma NormalizeHexOk(s: string)
    ensures NormalizeHex(s).Ok? <==> forall i :: 0 <= i < |s| / 2 ==> PairAt(s, i).Some?
    ensures NormalizeHex(s).Ok? ==> |NormalizeHex(s).value| == |s| / 2
    ensures NormalizeHex(s).Err? ==> NormalizeHex(s).error == BadHexPair
  {
  }

  /**
   * Each element of `ManuDataHex` is two upper-case hex digits, it is the input
   * pair upper-cased, and its value is the value of that pair.
   */
  lemma NormalizeHexElements(s: string)
    requires NormalizeHex(s).Ok?
    ensures var hex := NormalizeHex(s).value;
      forall i :: 0 <= i < |hex| ==>
        IsNormalByte(hex[i]) && PairAt(s, i) == Some(ByteValue(hex[i])) &&
        hex[i] == [UpperOf(s[2 * i]), UpperOf(s[2 * i + 1])]
  {
  }

  /** `''.join(parts)`. */
  function Join(parts: seq<string>): string
  {
    if parts == [] then "" else parts[0] + Join(parts[1..])
  }

  /** Characters `2i` and `2i + 1` of a join of two-character strings are element `i`. */
  lemma {:induction false} JoinPairs(parts: seq<string>, i: nat)
    requires forall k :: 0 <= k < |parts| ==> |parts[k]| == 2
    requires i < |parts|
    ensures |Join(parts)| == 2 * |parts|
    ensures Join(parts)[2 * i] == parts[i][0] && Join(parts)[2 * i + 1] == parts[i][1]
    decreases |parts|
  {
    if i > 0 {
      JoinPairs(parts[1..], i - 1);
    } else if |parts| > 1 {
      JoinPairs(parts[1..], 0);
    }
  }

  /** Normalisation is determined by the value of each pair. */
  lemma NormalizeHexWhen(s: string, hex: seq<string>)
    requires |hex| == |s| / 2
    requires forall i :: 0 <= i < |hex| ==> IsNormalByte(hex[i]) && PairAt(s, i) == Some(ByteValue(hex[i]))
    ensures NormalizeHex(s) == Ok(hex)
  {
    assert forall i :: 0 <= i < |s| / 2 ==> PairAt(s, i).Some?;
    var r := NormalizeHex(s).value;
    assert |r| == |hex|;
    forall i | 0 <= i < |hex|
      ensures r[i] == hex[i]
    {
      NormalByteIsFormatted(hex[i]);
    }
    assert r == hex;
  }

  /** Pair `i` of a join of normalised elements reads as element `i`. */
  lemma JoinPairAt(hex: seq<string>, i: nat)
    requires forall k :: 0 <= k < |hex| ==> IsNormalByte(hex[k])
    requires i < |hex|
    ensures |Join(hex)| == 2 * |hex|
    ensures IsNormalByte(hex[i]) && PairAt(Join(hex), i) == Some(ByteValue(hex[i]))
  {
    var t, s := hex[i], Join(hex);
    assert IsNormalByte(t);
    assert forall k :: 0 <= k < |hex| ==> |hex[k]| == 2;
    JoinPairs(hex, i);
    assert s[2 * i] == t[0] && s[2 * i + 1] == t[1];
    PairOfDigits(t[0], t[1]);
    assert PairAt(s, i) == ParseHexPair(t[0], t[1]);
  }

  /** Normalising text that is already normalised gives back the same elements. */
  lemma NormalizeIdempotent(hex: seq<string>)
    requires forall i :: 0 <= i < |hex| ==> IsNormalByte(hex[i])
    ensures NormalizeHex(Join(hex)) == Ok(hex)
  {
    var s := Join(hex);
    if hex == [] {
      assert s == "";
    } else {
      JoinPairAt(hex, 0);
      forall i | 0 <= i < |hex|
        ensures PairAt(s, i) == Some(ByteValue(hex[i]))
      {
        JoinPairAt(hex, i);
      }
    }
    NormalizeHexWhen(s, hex);
  }

  // ------------------------------------------------- company code and serial

  /** Python slicing `s[lo:hi]` with non-negative bounds: both are clamped to the length. */
  function Slice<T>(s: seq<T>, lo: nat, hi: nat): seq<T>
  {
    var h := if hi < |s| then hi else |s|;
    var l := if lo < h then lo else h;
    s[l..h]
  }

  /** `s[::-1]`. */
  function Reversed<T>(s: seq<T>): seq<T>
  {
    if s == [] then [] else Reversed(s[1..]) + [s[0]]
  }

  lemma JoinShort(a: string, b: string, c: string)
    ensures Join([a]) == a && Join([a, b]) == a + b && Join([a, b, c]) == a + b + c
  {
    assert [a][1..] == [] && [a, b][1..] == [b] && [a, b, c][1..] == [b, c];
    assert Join([a]) == a + Join([]);
    assert Join([b]) == b + Join([]);
    assert Join([b, c]) == b + Join([c]);
    assert Join([c]) == c + Join([]);
  }

  /** `manufacturer_bt_code`: `"0x"` followed by the first two elements in reverse order. */
  function CompanyCode(hex: seq<string>): (code: string)
    ensures |hex| >= 2 ==> code == "0x" + hex[1] + hex[0]
    ensures |hex| == 1 ==> code == "0x" + hex[0]
    ensures |hex| == 0 ==> code == "0x"
  {
    var first := Slice(hex, 0, 2);
    assert |hex| >= 2 ==> Join(Reversed(first)) == hex[1] + hex[0] by {
      if |hex| >= 2 {
        assert first == [hex[0], hex[1]] && first[1..] == [hex[1]] && first[1..][1..] == [];
        assert Reversed(first[1..]) == Reversed(first[1..][1..]) + [hex[1]];
        assert Reversed(first) == Reversed(first[1..]) + [hex[0]];
        JoinShort(hex[1], hex[0], "");
      }
    }
    assert |hex| == 1 ==> Join(Reversed(first)) == hex[0] by {
      if |hex| == 1 {
        assert first == [hex[0]] && first[1..] == [];
        assert Reversed(first) == Reversed(first[1..]) + [hex[0]];
        JoinShort(hex[0], "", "");
      }
    }
    "0x" + Join(Reversed(first))
  }

  /** `serial`: elements 2, 3 and 4 joined in order, as many of them as there are. */
  function SerialText(hex: seq<string>): (serial: string)
    ensures |hex| >= 5 ==> serial == hex[2] + hex[3] + hex[4]
    ensures |hex| <= 2 ==> serial == ""
  {
    var part := Slice(hex, 2, 5);
    assert |hex| >= 5 ==> Join(part) == hex[2] + hex[3] + hex[4] by {
      if |hex| >= 5 {
        assert part == [hex[2], hex[3], hex[4]];
        JoinShort(hex[2], hex[3], hex[4]);
      }
    }
    Join(part)
  }

  /**
   * The Airthings test on normalised elements: the banner is printed exactly
   * when the little-endian 16-bit value of the first two bytes is the Airthings
   * company identifier.
   */
  lemma AirthingsCodeIff(hex: seq<string>)
    requires forall i :: 0 <= i < |hex| ==> IsNormalByte(hex[i])
    ensures CompanyCode(hex) == AIRTHINGS_CODE <==>
      |hex| >= 2 && IsNormalByte(hex[0]) && IsNormalByte(hex[1]) && ByteValue(hex[0]) + 256 * ByteValue(hex[1]) == SerialMatcher.AIRTHINGS_ID
  {
    var code := CompanyCode(hex);
    if |hex| >= 2 {
      assert code[2..4] == hex[1] && code[4..6] == hex[0];
      var lo, hi := ByteValue(hex[0]), ByteValue(hex[1]);
      NormalByteIsFormatted(hex[0]);
      NormalByteIsFormatted(hex[1]);
      assert Format02X(3) == "03" && Format02X(0x34) == "34";
      assert AIRTHINGS_CODE[2..4] == "03" && AIRTHINGS_CODE[4..6] == "34";
      if lo + 256 * hi == SerialMatcher.AIRTHINGS_ID {
        assert hi == 3 && lo == 0x34;
        assert code == "0x" + "03" + "34";
      }
      if code == AIRTHINGS_CODE {
        assert hex[1] == "03" && hex[0] == "34";
      }
    } else {
      assert |code| < |AIRTHINGS_CODE|;
    }
  }

  /** The same test stated on the raw manufacturer text. */
  lemma AirthingsBannerIffVendor(s: string)
    requires NormalizeHex(s).Ok?
    ensures CompanyCode(NormalizeHex(s).value) == AIRTHINGS_CODE <==>
      |s| >= 4 && PairAt(s, 0).Some? && PairAt(s, 1).Some? && PairAt(s, 0).value + 256 * PairAt(s, 1).value == SerialMatcher.AIRTHINGS_ID
  {
    NormalizeHexElements(s);
    AirthingsCodeIff(NormalizeHex(s).value);
  }

  /** With at least five elements the serial text has six upper-case hex digits. */
  lemma SerialTextLength(hex: seq<string>)
    requires |hex| >= 5 && forall i :: 0 <= i < |hex| ==> IsNormalByte(hex[i])
    ensures |SerialText(hex)| == 6
    ensures forall k :: 0 <= k < 6 ==> IsUpperHexDigit(SerialText(hex)[k])
  {
    assert IsNormalByte(hex[2]) && IsNormalByte(hex[3]) && IsNormalByte(hex[4]);
    var serial := SerialText(hex);
    forall k | 0 <= k < 6
      ensures IsUpperHexDigit(serial[k])
    {
      if k < 2 {
        assert serial[k] == hex[2][k];
      } else if k < 4 {
        assert serial[k] == hex[3][k - 2];
      } else {
        assert serial[k] == hex[4][k - 4];
      }
    }
  }

  // -------------------------------------------------- bytes seen as hex text

  /** The lower-case hex text a transport reports for manufacturer bytes. */
  function HexText(b: seq<Bytes.byte>): string
  {
    if b == [] then "" else [LowerDigit(b[0] / 16), LowerDigit(b[0] % 16)] + HexText(b[1..])
  }

  /** The upper-case two-digit form of each byte. */
  function FormatAll(b: seq<Bytes.byte>): (hex: seq<string>)
    ensures |hex| == |b|
    ensures forall i :: 0 <= i < |b| ==> hex[i] == Format02X(b[i])
  {
    if b == [] then [] else [Format02X(b[0])] + FormatAll(b[1..])
  }

  lemma {:induction false} HexTextPairs(b: seq<Bytes.byte>, i: nat)
    requires i < |b|
    ensures |HexText(b)| == 2 * |b|
    ensures HexText(b)[2 * i] == LowerDigit(b[i] / 16) && HexText(b)[2 * i + 1] == LowerDigit(b[i] % 16)
    decreases |b|
  {
    if i > 0 {
      HexTextPairs(b[1..], i - 1);
    } else if |b| > 1 {
      HexTextPairs(b[1..], 0);
    }
  }

  /** Normalising the hex text of bytes succeeds and gives each byte's upper-case form. */
  lemma NormalizeHexText(b: seq<Bytes.byte>)
    ensures NormalizeHex(HexText(b)) == Ok(FormatAll(b))
  {
    var s := HexText(b);
    if b == [] {
      assert s == "";
      NormalizeHexWhen(s, FormatAll(b));
    } else {
      HexTextPairs(b, 0);
      var hex := FormatAll(b);
      forall i | 0 <= i < |b|
        ensures PairAt(s, i) == Some(ByteValue(hex[i]))
      {
        HexTextPairs(b, i);
        PairOfDigits(LowerDigit(b[i] / 16), LowerDigit(b[i] % 16));
      }
      NormalizeHexWhen(s, hex);
    }
  }

  /**
   * On the hex text of bytes, the company code is the 16-bit little-endian
   * value of the first two bytes written most significant byte first, and the
   * banner is printed exactly when that value is the Airthings identifier that
   * `read_wave.py`'s matcher also tests.
   */
  lemma CompanyCodeOfBytes(b: seq<Bytes.byte>)
    requires |b| >= 2
    ensures NormalizeHex(HexText(b)).Ok?
    ensures var hex := NormalizeHex(HexText(b)).value;
      CompanyCode(hex) == "0x" + Format02X(Bytes.U16(b, 0) / 256) + Format02X(Bytes.U16(b, 0) % 256) &&
      (CompanyCode(hex) == AIRTHINGS_CODE <==> Bytes.U16(b, 0) == SerialMatcher.AIRTHINGS_ID)
  {
    NormalizeHexText(b);
    var hex := FormatAll(b);
    assert forall i :: 0 <= i < |hex| ==> IsNormalByte(hex[i]);
    AirthingsCodeIff(hex);
  }

  /** On the hex text of bytes, the serial text is bytes 2, 3 and 4 in upper-case hex. */
  lemma SerialOfBytes(b: seq<Bytes.byte>)
    requires |b| >= 5
    ensures NormalizeHex(HexText(b)).Ok?
    ensures var serial := SerialText(NormalizeHex(HexText(b)).value);
      serial == Format02X(b[2]) + Format02X(b[3]) + Format02X(b[4]) && |serial| == 6
  {
    NormalizeHexText(b);
  }

  // ----------------------------------------------------------- the listing

  /**
   * The decoding block of the entry loop, from the `ManuDataHex` comprehension
   * to the device line, run on the remembered text `manu`.
   */
  function DecodeEntry(manu: string, dev: Device, companies: map<string, string>): Listing
  {
    match NormalizeHex(manu)
    case Err(e) => Listing([], Some(e))
    case Ok(hex) =>
      var code := CompanyCode(hex);
      var banner := if code == AIRTHINGS_CODE then [AirthingsBanner] else [];
      if code !in companies then Listing(banner, Some(UnknownCompany(code)))
      else
        Listing(banner + [CompanyLine(code, companies[code]),
                          DeviceLine(dev.addr, dev.addrType, dev.rssi, SerialText(hex))], None)
  }

  /**
   * What one decoding prints: nothing for a bad hex pair; the banner first
   * exactly for the Airthings code; then, unless the code is missing from the
   * company table (which aborts), the company line and the device line with the
   * serial text.
   */
  lemma DecodeEntrySpec(manu: string, dev: Device, companies: map<string, string>)
    ensures var l := DecodeEntry(manu, dev, companies);
      l.abort == Some(BadHexPair) <==> NormalizeHex(manu).Err?
    ensures NormalizeHex(manu).Err? ==> DecodeEntry(manu, dev, companies).lines == []
    ensures var l := DecodeEntry(manu, dev, companies);
      NormalizeHex(manu).Ok? ==>
        var hex := NormalizeHex(manu).value;
        var code := CompanyCode(hex);
        l.lines == (if code == AIRTHINGS_CODE then [AirthingsBanner] else []) +
                   (if l.abort.None? then [CompanyLine(code, companies[code]),
                                           DeviceLine(dev.addr, dev.addrType, dev.rssi, SerialText(hex))]
                    else [])
    ensures var l := DecodeEntry(manu, dev, companies);
      NormalizeHex(manu).Ok? ==>
        var hex := NormalizeHex(manu).value;
        var code := CompanyCode(hex);
        && (l.abort.None? <==> code in companies)
        && (l.abort.Some? ==> l.abort == Some(UnknownCompany(code)))
        && (|l.lines| > 0 && l.lines[0] == AirthingsBanner <==> code == AIRTHINGS_CODE)
        && (l.abort.None? ==>
              && |l.lines| >= 2
              && l.lines[|l.lines| - 2] == CompanyLine(code, companies[code])
              && l.lines[|l.lines| - 1] == DeviceLine(dev.addr, dev.addrType, dev.rssi, SerialText(hex)))
  {
  }

  /** `ManuData` after entry `e`: a "Manufacturer" entry replaces it. */
  function NextManu(e: ScanEntry, manu: string): string
  {
    if e.desc == MANUFACTURER then e.value else manu
  }

  /**
   * The inner loop over the entries from index `j` on, entered with
   * `ManuData == manu` after `printed` has been printed.
   */
  function DeviceListing(entries: seq<ScanEntry>, j: nat, manu: string, decode: string -> Listing,
                         printed: seq<Line>): Listing
    requires j <= |entries|
    decreases |entries| - j
  {
    if j == |entries| then Listing(printed, None)
    else
      var m := NextManu(entries[j], manu);
      if m == "" then DeviceListing(entries, j + 1, m, decode, printed)
      else
        var d := decode(m);
        if d.abort.Some? then Prepend(printed, d)
        else DeviceListing(entries, j + 1, m, decode, printed + d.lines)
  }

  /** The decoding step for device `dev`, as a function of the remembered text. */
  function Decoder(dev: Device, companies: map<string, string>): string -> Listing
  {
    m => DecodeEntry(m, dev, companies)
  }

  /** What device `dev` prints: `ManuData` starts empty for every device. */
  function DeviceOutput(dev: Device, companies: map<string, string>): Listing
  {
    DeviceListing(dev.scanData, 0, "", Decoder(dev, companies), [])
  }

  /** What each device prints, as a function of the device. */
  function DeviceOutputs(companies: map<string, string>): Device -> Listing
  {
    dev => DeviceOutput(dev, companies)
  }

  /**
   * The outer loop over the devices from index `k` on, after `printed`, with
   * `output` giving what one device prints.
   */
  function ScanListing(devices: seq<Device>, k: nat, output: Device -> Listing, printed: seq<Line>): Listing
    requires k <= |devices|
    decreases |devices| - k
  {
    if k == |devices| then Listing(printed, None)
    else
      var l := output(devices[k]);
      if l.abort.Some? then Prepend(printed, l) else ScanListing(devices, k + 1, output, printed + l.lines)
  }

  /** What the script prints for the devices of one scan. */
  function ScanOutput(devices: seq<Device>, companies: map<string, string>): Listing
  {
    ScanListing(devices, 0, DeviceOutputs(companies), [])
  }

  /** The decoding block of the entry loop on `ManuData == manu`, printing after `lines`. */
  method PrintEntry(manu: string, dev: Device, companies: map<string, string>, lines: seq<Line>)
    returns (out: seq<Line>, abort: Option<Abort>)
    ensures Listing(out, abort) == Prepend(lines, DecodeEntry(manu, dev, companies))
  {
    out := lines;
    var normalized := NormalizeHex(manu);
    if normalized.Err? {
      return out, Some(normalized.error);
    }
    var hex := normalized.value;
    var code := CompanyCode(hex);
    if code == AIRTHINGS_CODE {
      out := out + [AirthingsBanner];
    }
    if code !in companies {
      return out, Some(UnknownCompany(code));
    }
    out := out + [CompanyLine(code, companies[code])];
    var serial := SerialText(hex);
    out := out + [DeviceLine(dev.addr, dev.addrType, dev.rssi, serial)];
    abort := None;
  }

  /**
   * The loop over `dev.getScanData()` for one device, printing after `lines`:
   * `ManuData` starts empty, entries are skipped while it is, and every later
   * entry decodes it.
   */
  method PrintDevice(dev: Device, companies: map<string, string>, lines: seq<Line>)
    returns (out: seq<Line>, abort: Option<Abort>)
    ensures Listing(out, abort) == DeviceListing(dev.scanData, 0, "", Decoder(dev, companies), lines)
  {
    out := lines;
    var manuData := "";
    for j := 0 to |dev.scanData|
      invariant DeviceListing(dev.scanData, j, manuData, Decoder(dev, companies), out) ==
        DeviceListing(dev.scanData, 0, "", Decoder(dev, companies), lines)
    {
      var entry := dev.scanData[j];
      if entry.desc == MANUFACTURER {
        manuData := entry.value;
      }
      if manuData == "" {
        continue;
      }
      out, abort := PrintEntry(manuData, dev, companies, out);
      if abort.Some? {
        return;
      }
    }
    abort := None;
  }

  /** The loop over `devices` inside the script's `try`: every device in turn, until an exception escapes. */
  method ScanServices(devices: seq<Device>, companies: map<string, string>) returns (listing: Listing)
    ensures listing == ScanOutput(devices, companies)
  {
    var lines: seq<Line> := [];
    for k := 0 to |devices|
      invariant ScanListing(devices, k, DeviceOutputs(companies), lines) == ScanOutput(devices, companies)
    {
      var dev := devices[k];
      DeviceListingPrinted(dev.scanData, 0, "", Decoder(dev, companies), lines);
      assert DeviceOutputs(companies)(dev) == DeviceOutput(dev, companies);
      var abort;
      lines, abort := PrintDevice(dev, companies, lines);
      if abort.Some? {
        return Listing(lines, abort);
      }
    }
    return Listing(lines, None);
  }

  // ------------------------------------------------- properties of the loops

  /** What is printed before the loop is printed first, and nothing of it changes. */
  lemma {:induction false} DeviceListingPrinted(entries: seq<ScanEntry>, j: nat, manu: string,
                                                decode: string -> Listing, printed: seq<Line>)
    requires j <= |entries|
    ensures DeviceListing(entries, j, manu, decode, printed) ==
      Prepend(printed, DeviceListing(entries, j, manu, decode, []))
    decreases |entries| - j
  {
    if j < |entries| {
      var m := NextManu(entries[j], manu);
      if m == "" {
        DeviceListingPrinted(entries, j + 1, m, decode, printed);
      } else {
        var d := decode(m);
        if d.abort.None? {
          var rest := DeviceListing(entries, j + 1, m, decode, []);
          DeviceListingPrinted(entries, j + 1, m, decode, printed + d.lines);
          DeviceListingPrinted(entries, j + 1, m, decode, [] + d.lines);
          assert [] + d.lines == d.lines;
          assert DeviceListing(entries, j, manu, decode, []) == Listing(d.lines + rest.lines, rest.abort);
          assert printed + d.lines + rest.lines == printed + (d.lines + rest.lines);
        }
      }
    }
  }

  lemma {:induction false} ScanListingPrinted(devices: seq<Device>, k: nat, output: Device -> Listing,
                                              printed: seq<Line>)
    requires k <= |devices|
    ensures ScanListing(devices, k, output, printed) == Prepend(printed, ScanListing(devices, k, output, []))
    decreases |devices| - k
  {
    if k < |devices| {
      var l := output(devices[k]);
      if l.abort.None? {
        var rest := ScanListing(devices, k + 1, output, []);
        ScanListingPrinted(devices, k + 1, output, printed + l.lines);
        ScanListingPrinted(devices, k + 1, output, [] + l.lines);
        assert [] + l.lines == l.lines;
        assert printed + l.lines + rest.lines == printed + (l.lines + rest.lines);
      }
    }
  }

  /** Every "Manufacturer" entry before index `j` (if any) is empty. */
  predicate QuietBefore(entries: seq<ScanEntry>, j: nat)
    requires j <= |entries|
  {
    forall i :: 0 <= i < j ==> entries[i].desc == MANUFACTURER ==> entries[i].value == ""
  }

  lemma {:induction false} SkipsFrom(entries: seq<ScanEntry>, i: nat, j: nat, decode: string -> Listing)
    requires i <= j <= |entries| && QuietBefore(entries, j)
    ensures DeviceListing(entries, i, "", decode, []) == DeviceListing(entries, j, "", decode, [])
    decreases j - i
  {
    if i < j {
      assert NextManu(entries[i], "") == "";
      SkipsFrom(entries, i + 1, j, decode);
    }
  }

  /** Entries before the first non-empty "Manufacturer" entry are skipped. */
  lemma SkipsBeforeManufacturer(dev: Device, j: nat, companies: map<string, string>)
    requires j <= |dev.scanData| && QuietBefore(dev.scanData, j)
    ensures DeviceOutput(dev, companies) == DeviceListing(dev.scanData, j, "", Decoder(dev, companies), [])
  {
    SkipsFrom(dev.scanData, 0, j, Decoder(dev, companies));
  }

  /** `n` copies of the same lines. */
  function Repeat(lines: seq<Line>, n: nat): seq<Line>
  {
    if n == 0 then [] else lines + Repeat(lines, n - 1)
  }

  /** No "Manufacturer" entry from index `j` on. */
  predicate NoManufacturerFrom(entries: seq<ScanEntry>, j: nat)
  {
    forall i :: j <= i < |entries| ==> entries[i].desc != MANUFACTURER
  }

  /**
   * Once `ManuData` holds a text that decodes, every later entry (none of them
   * a "Manufacturer" entry) prints the same lines again.
   */
  lemma {:induction false} RepeatsAfterManufacturer(entries: seq<ScanEntry>, j: nat, manu: string,
                                                     decode: string -> Listing)
    requires j <= |entries| && manu != "" && NoManufacturerFrom(entries, j)
    requires decode(manu).abort.None?
    ensures DeviceListing(entries, j, manu, decode, []) ==
      Listing(Repeat(decode(manu).lines, |entries| - j), None)
    decreases |entries| - j
  {
    if j < |entries| {
      RepeatsAfterManufacturer(entries, j + 1, manu, decode);
      DecodingStep(entries, j, manu, decode);
    }
  }

  /**
   * A device with one "Manufacturer" entry, at index `m`, whose text decodes:
   * nothing is printed for the entries before it, and its lines are printed
   * once for it and once for every entry after it.
   */
  lemma OneManufacturerEntry(dev: Device, m: nat, companies: map<string, string>)
    requires m < |dev.scanData| && dev.scanData[m].desc == MANUFACTURER && dev.scanData[m].value != ""
    requires forall i :: 0 <= i < |dev.scanData| && i != m ==> dev.scanData[i].desc != MANUFACTURER
    requires DecodeEntry(dev.scanData[m].value, dev, companies).abort.None?
    ensures DeviceOutput(dev, companies) ==
      Listing(Repeat(DecodeEntry(dev.scanData[m].value, dev, companies).lines, |dev.scanData| - m), None)
  {
    var decode, v := Decoder(dev, companies), dev.scanData[m].value;
    assert decode(v) == DecodeEntry(v, dev, companies);
    OneManufacturerFrom(dev.scanData, m, decode);
  }

  lemma OneManufacturerFrom(entries: seq<ScanEntry>, m: nat, decode: string -> Listing)
    requires m < |entries| && entries[m].desc == MANUFACTURER && entries[m].value != ""
    requires forall i :: 0 <= i < |entries| && i != m ==> entries[i].desc != MANUFACTURER
    requires decode(entries[m].value).abort.None?
    ensures DeviceListing(entries, 0, "", decode, []) ==
      Listing(Repeat(decode(entries[m].value).lines, |entries| - m), None)
  {
    var v := entries[m].value;
    assert QuietBefore(entries, m);
    SkipsFrom(entries, 0, m, decode);
    DecodingStep(entries, m, "", decode);
    RepeatsAfterManufacturer(entries, m + 1, v, decode);
  }

  /** An entry that sees a non-empty remembered text which decodes prints its lines before the rest. */
  lemma DecodingStep(entries: seq<ScanEntry>, j: nat, manu: string, decode: string -> Listing)
    requires j < |entries| && NextManu(entries[j], manu) != ""
    requires decode(NextManu(entries[j], manu)).abort.None?
    ensures var m := NextManu(entries[j], manu);
      DeviceListing(entries, j, manu, decode, []) == Prepend(decode(m).lines, DeviceListing(entries, j + 1, m, decode, []))
  {
    var m := NextManu(entries[j], manu);
    DeviceListingPrinted(entries, j + 1, m, decode, [] + decode(m).lines);
    assert [] + decode(m).lines == decode(m).lines;
  }

  /** A listing that has printed something or aborted. */
  predicate Spoke(l: Listing)
  {
    l.lines != [] || l.abort.Some?
  }

  /** The first entry whose "Manufacturer" text is non-empty, at or before `m`. */
  lemma FirstLoudEntry(entries: seq<ScanEntry>, m: nat) returns (f: nat)
    requires m < |entries| && entries[m].desc == MANUFACTURER && entries[m].value != ""
    ensures f <= m && entries[f].desc == MANUFACTURER && entries[f].value != ""
    ensures QuietBefore(entries, f)
    decreases m
  {
    if QuietBefore(entries, m) {
      f := m;
    } else {
      var g :| 0 <= g < m && entries[g].desc == MANUFACTURER && entries[g].value != "";
      f := FirstLoudEntry(entries, g);
    }
  }

  /**
   * A device prints nothing and does not abort exactly when none of its
   * "Manufacturer" entries has any text.
   */
  lemma SilentDeviceIff(dev: Device, companies: map<string, string>)
    ensures !Spoke(DeviceOutput(dev, companies)) <==> QuietBefore(dev.scanData, |dev.scanData|)
  {
    var entries := dev.scanData;
    if QuietBefore(entries, |entries|) {
      SkipsBeforeManufacturer(dev, |entries|, companies);
    } else {
      var m :| 0 <= m < |entries| && entries[m].desc == MANUFACTURER && entries[m].value != "";
      m := FirstLoudEntry(entries, m);
      SkipsBeforeManufacturer(dev, m, companies);
      var decode, v := Decoder(dev, companies), entries[m].value;
      var d := DecodeEntry(v, dev, companies);
      assert decode(v) == d;
      DecodeEntrySpec(v, dev, companies);
      if d.abort.None? {
        DeviceListingPrinted(entries, m + 1, v, decode, [] + d.lines);
      }
    }
  }

  lemma {:induction false} ScanListingShift(ds1: seq<Device>, ds2: seq<Device>, i: nat,
                                            output: Device -> Listing, printed: seq<Line>)
    requires i <= |ds2|
    ensures ScanListing(ds1 + ds2, |ds1| + i, output, printed) == ScanListing(ds2, i, output, printed)
    decreases |ds2| - i
  {
    if i < |ds2| {
      assert (ds1 + ds2)[|ds1| + i] == ds2[i];
      var l := output(ds2[i]);
      if l.abort.None? {
        ScanListingShift(ds1, ds2, i + 1, output, printed + l.lines);
      }
    }
  }

  lemma {:induction false} ScanListingAppendFrom(ds1: seq<Device>, ds2: seq<Device>, k: nat,
                                                 output: Device -> Listing, printed: seq<Line>)
    requires k <= |ds1|
    ensures var l := ScanListing(ds1, k, output, printed);
      ScanListing(ds1 + ds2, k, output, printed) ==
        if l.abort.Some? then l else ScanListing(ds2, 0, output, l.lines)
    decreases |ds1| - k
  {
    if k < |ds1| {
      assert (ds1 + ds2)[k] == ds1[k];
      var l := output(ds1[k]);
      if l.abort.None? {
        ScanListingAppendFrom(ds1, ds2, k + 1, output, printed + l.lines);
      }
    } else {
      ScanListingShift(ds1, ds2, 0, output, printed);
    }
  }

  /** A listing `l` printed after `pre`, followed by `rest` unless `l` aborted. */
  function Then(pre: seq<Line>, l: Listing, rest: Listing): Listing
  {
    if l.abort.Some? then Prepend(pre, l) else Prepend(pre + l.lines, rest)
  }

  /**
   * Devices contribute independently (`ManuData` is reset for each one) and an
   * abort ends the listing: the devices after it print nothing.
   */
  lemma ScanOutputAppend(ds1: seq<Device>, ds2: seq<Device>, companies: map<string, string>)
    ensures ScanOutput(ds1 + ds2, companies) ==
      Then([], ScanOutput(ds1, companies), ScanOutput(ds2, companies))
  {
    ScanListingAppendFrom(ds1, ds2, 0, DeviceOutputs(companies), []);
    ScanListingPrinted(ds2, 0, DeviceOutputs(companies), ScanOutput(ds1, companies).lines);
  }

  /** A device whose output aborts, after devices that did not, ends the listing with what it printed. */
  lemma ScanAbortsAt(pre: seq<Device>, dev: Device, post: seq<Device>, output: Device -> Listing)
    requires ScanListing(pre, 0, output, []).abort.None? && output(dev).abort.Some?
    ensures ScanListing(pre + [dev] + post, 0, output, []) ==
      Listing(ScanListing(pre, 0, output, []).lines + output(dev).lines, output(dev).abort)
  {
    ScanListingAppendFrom(pre, [dev] + post, 0, output, []);
    assert ([dev] + post)[0] == dev;
    assert pre + [dev] + post == pre + ([dev] + post);
  }

  /**
   * A device whose first non-empty "Manufacturer" entry, at index `m`, decodes
   * to an abort prints only what that decoding printed, and aborts with it.
   */
  lemma DeviceAbortsAt(dev: Device, m: nat, companies: map<string, string>)
    requires m < |dev.scanData| && QuietBefore(dev.scanData, m)
    requires dev.scanData[m].desc == MANUFACTURER && dev.scanData[m].value != ""
    requires DecodeEntry(dev.scanData[m].value, dev, companies).abort.Some?
    ensures DeviceOutput(dev, companies) == DecodeEntry(dev.scanData[m].value, dev, companies)
  {
    var v := dev.scanData[m].value;
    assert Decoder(dev, companies)(v) == DecodeEntry(v, dev, companies);
    SkipsBeforeManufacturer(dev, m, companies);
    assert NextManu(dev.scanData[m], "") == v;
  }

  /**
   * An unknown company code aborts the whole listing at the first entry that
   * produces it: when the first non-empty "Manufacturer" entry of a device, at
   * index `m`, carries such a text, the listing ends there, with only the
   * banner (for the Airthings code) printed for that device.
   */
  lemma UnknownCompanyAborts(pre: seq<Device>, dev: Device, m: nat, post: seq<Device>, companies: map<string, string>)
    requires ScanOutput(pre, companies).abort.None?
    requires m < |dev.scanData| && QuietBefore(dev.scanData, m)
    requires dev.scanData[m].desc == MANUFACTURER && dev.scanData[m].value != ""
    requires NormalizeHex(dev.scanData[m].value).Ok?
    requires CompanyCode(NormalizeHex(dev.scanData[m].value).value) !in companies
    ensures var code := CompanyCode(NormalizeHex(dev.scanData[m].value).value);
      ScanOutput(pre + [dev] + post, companies) ==
        Listing(ScanOutput(pre, companies).lines + (if code == AIRTHINGS_CODE then [AirthingsBanner] else []),
                Some(UnknownCompany(code)))
  {
    var v := dev.scanData[m].value;
    var d := DecodeEntry(v, dev, companies);
    DecodeEntrySpec(v, dev, companies);
    assert d.abort.Some?;
    DeviceAbortsAt(dev, m, companies);
    assert DeviceOutputs(companies)(dev) == d;
    ScanAbortsAt(pre, dev, post, DeviceOutputs(companies));
  }
}
