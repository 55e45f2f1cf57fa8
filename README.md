# wave-reader, modelled in Dafny

This project models the core of wave-reader, a small Python client for the
Airthings Wave radon detector, which it reaches over Bluetooth Low Energy
through the bluepy library. The model covers two scripts.

`src/read_wave.py`:

- `_parse_serial_number` recognises an Airthings advertisement. It unpacks
  eight bytes of manufacturer data as a little-endian 16-bit vendor
  identifier, a 32-bit serial number and a 16-bit reserved field. When the
  vendor is 0x0334 it returns the serial.
- `CurrentValues.from_bytes` decodes the 15-byte sensor payload: a date and
  time, humidity, temperature, and the short- and long-term radon averages.
- The `Wave` session class has six operations:
  - `__init__` starts a session with no peripheral, no handles and no address.
  - `is_connected` asks the peripheral for its state.
  - `discover` listens to 30 short scan windows for an advertisement that
    carries the session's serial number.
  - `connect(retries=1)` runs its retry loop while tries remain and the
    session is not connected. A pass first discovers the address if none is
    stored. It then opens a peripheral and looks up the five characteristic
    handles inside a `try`. A failure of the connection or of a lookup is
    swallowed except on the last pass. A scan failure in `discover` happens
    outside the `try`, so it always escapes.
  - `read` reads the five characteristics and decodes what they return.
  - `disconnect` closes the peripheral and clears the handles.

`src/scan_services.py` (lines 55-76): for every device a scan found, the
script walks the device's scan data and remembers the last "Manufacturer"
value. From that value on, every entry re-decodes it: the text is normalised
into upper-case hex pairs, the company code is formed from the first two
bytes, a banner is printed for Airthings, and the company name and the device
line with its serial text are printed.

Layout:

- `wrappers.dfy`: the `Option` and `Result` types.
- `bytes.dfy`: bytes, and little-endian 16- and 32-bit fields with their
  encoders.
- `serial_matcher.dfy`: the advertisement matcher.
- `payload.dfy`: the payload decoder, its encoder, and the calendar rules that
  `datetime.datetime` enforces.
- `transport.dfy`: a scripted stand-in for the Bluetooth radio.
  - `RadioState` is a value that holds the outcomes of scans, connections,
    handle lookups, state queries and reads still to come, plus a log of the
    calls made.
  - The `Radio` class wraps it. Each of its methods except `Set` is one bluepy
    call; `Set` replaces the whole script.
- `wave_spec.dfy`: every `Wave` operation as a pure function of the session
  fields and the transport state, with the lemmas about them.
- `wave_session.dfy`: the `Wave` class itself, with mutable fields and loops.
  Each method other than the constructor and `ResolveHandle` is proved to end
  in the state, and give the result, that its `WaveSpec` function computes.
  The constructor is proved to set the initial fields. `ResolveHandle` is
  proved equal to one `Transport` lookup step, with the handle stored on
  success.
- `scanner.dfy`: the hex decoding and the listing of `scan_services.py`.
  Printing is modelled as a sequence of `Line` records, and an escaping
  exception is modelled as an `Abort`. The `ScanServices` method loops over
  the devices and proves it produces `ScanOutput`. The inner loop over one
  device's scan data is the `PrintDevice` method.

## Model

| member | source | states |
|---|---|---|
| Bytes.U16 | src/read_wave.py:133 | The `<H` field at offset `i` is below 2^16. Its low byte is `s[i]` and its high byte is `s[i+1]`. |
| Bytes.U32 | src/read_wave.py:133 | The `<L` field at offset `i` is below 2^32. Its low half is the `<H` at `i` and its high half is the `<H` at `i+2`. |
| Bytes.EncodeU16OfU16 | src/read_wave.py:118 | Re-encoding a decoded 16-bit field gives back the two bytes it came from. |
| Bytes.EncodeU32OfU32 | src/read_wave.py:133 | Re-encoding a decoded 32-bit field gives back the four bytes it came from. |
| SerialMatcher.ParseSerialNumber | src/read_wave.py:131-138 | Gives a serial exactly when the value is present, is 8 bytes long (otherwise unpacking raises) and its first field is 0x0334. The serial is the 32-bit field at offset 2, so it is below 2^32. |
| SerialMatcher.ParseEncodedRecord | src/read_wave.py:133-138 | For a record built from vendor, serial and reserved field: gives `Some(serial)` when the vendor is 0x0334 and `None` otherwise, whatever the reserved field. |
| SerialMatcher.RecordOfFields | src/read_wave.py:133 | Every 8-byte value is the encoding of its three unpacked fields, so the previous row covers every 8-byte input. |
| SerialMatcher.WrongLengthNeverMatches | src/read_wave.py:133-135 | A missing value, or one whose length is not 8, never matches any serial. |
| SerialMatcher.MatchesEncodedRecord | src/read_wave.py:131-138 | A record matches a target exactly when its vendor is 0x0334 and its serial equals the target. |
| SerialMatcher.Matches | src/read_wave.py:65 | The test `discover` applies to each advertisement: the parsed serial is present and equals the target. An `int` never equals `None`. `MatchesEncodedRecord` states when it holds. |
| Payload.ValidDateTime | src/read_wave.py:119 | The arguments `datetime.datetime` accepts: a year from 1 to 9999, a month, a day within that month's length, and an hour, minute and second in range. `IllegalDatesRefused` and `LeapDayAccepted` state its edge cases. |
| Payload.ToBytes | src/read_wave.py:118 | The `<H5B4H` layout of a representable reading, 15 bytes long. An independent reference for the decoder, tied to it by `FromBytesIff`. |
| Payload.DaysInMonth | src/read_wave.py:119 | A month has 28 to 31 days, and 29 exactly for February of a Gregorian leap year. |
| Payload.TimestampOf | src/read_wave.py:118-119 | The six calendar fields of the unpacked payload, `data[0]` to `data[5]`: the 16-bit year at offset 0, then month, day, hour, minute and second one byte each. |
| Payload.FromBytes | src/read_wave.py:117-120 | Any length other than 15 fails with a length mismatch. At length 15 decoding succeeds exactly when the unpacked date and time is a valid calendar instant, and otherwise fails with that timestamp. |
| Payload.DecodedIsEncodable | src/read_wave.py:118-120 | Every decoded reading lies within the ranges of the `<H5B4H` fields. |
| Payload.FromBytesToBytes | src/read_wave.py:117-120 | Decoding the payload encoding of a representable reading gives that reading back. |
| Payload.ToBytesFromBytes | src/read_wave.py:117-120 | Re-encoding a decoded reading gives back the exact 15 bytes. |
| Payload.FromBytesIff | src/read_wave.py:117-120 | Decoding yields reading `v` exactly when `v` is representable and the bytes are its encoding. |
| Payload.IllegalDatesRefused | src/read_wave.py:119 | A month byte of 13, or February 30, makes decoding fail. |
| Payload.LeapDayAccepted | src/read_wave.py:119 | February 29 of a year in range is accepted exactly in leap years. |
| Payload.YearLength | src/read_wave.py:119 | The month lengths add up to 366 days in a leap year and 365 otherwise. |
| Payload.ExampleReading | src/read_wave.py:118-120 | A concrete 15-byte payload decodes to 2023-06-15 10:30:00, humidity 4500 and temperature 2150 hundredths, and radon 55 and 48. |
| WaveSpec.IsConnected | src/read_wave.py:52-56 | With no peripheral the answer is `False` and nothing happens. Otherwise the answer is true exactly when the state query returns "conn": a raising query counts as `False`. Exactly one state query is logged. No connection or scan is used up. |
| WaveSpec.Consistent | src/read_wave.py:42-104 | The session invariant: without a peripheral, no handle is set. `__init__` establishes it, and `connect` and `disconnect` keep it. |
| WaveSpec.DiscoverFrom | src/read_wave.py:62-67 | The scan loop with a number of windows still to go. It stops at a raising scan or the first window with a match. `DiscoverFromSpec` states its result and its calls. |
| WaveSpec.Discover | src/read_wave.py:58-67 | `discover`: the scan loop over 30 windows. `DiscoverNoneIff` and `DiscoverFindsTarget` state what it answers. |
| WaveSpec.FirstMatch | src/read_wave.py:64-66 | The inner loop over one window's advertisements with its early return: the address of the advertisement at `FirstMatchIndex`, or `None` when no advertisement matches. |
| WaveSpec.FirstMatchIndex | src/read_wave.py:64-66 | The index found is that of the first advertisement in the window whose manufacturer data matches the serial. The length of the window means none matches. |
| WaveSpec.DiscoverFromSpec | src/read_wave.py:58-67 | `discover` stops at the first window that raises or holds a match. It returns that window's first match, a scan failure, or `None` after every window was silent. The log grows by exactly one `Scan` entry per window heard and by nothing else, so no connection, lookup or state query is made. The connection, lookup and state scripts are untouched. |
| WaveSpec.DiscoverFromLog | src/read_wave.py:62-67 | The scan loop adds only `Scan` calls to the log: the new log is the old one followed by a run of scans. |
| WaveSpec.DiscoverNoneIff | src/read_wave.py:62-67 | `discover` answers `None` exactly when all 30 windows are heard without a match and without raising. |
| WaveSpec.DiscoverFindsTarget | src/read_wave.py:63-66 | A returned address is that of an advertisement, in one of the 30 windows, whose manufacturer data carries the serial. |
| WaveSpec.DiscoverSilent | src/read_wave.py:62-67 | On a transport that hears nothing, `discover` makes exactly 30 scans, opens nothing and returns `None`. |
| WaveSpec.Resolve | src/read_wave.py:77-81 | The five handle lookups of the `try` block, from a given handle on. Each handle is stored as soon as its lookup returns, and the first failing lookup ends the block. `ResolveSpec` states its outcome. |
| WaveSpec.Attempt | src/read_wave.py:75-81 | The `try` block of `connect`: open a peripheral at the stored address, then resolve the handles. `AttemptSpec` states its outcome. |
| WaveSpec.Pass | src/read_wave.py:72-81 | One loop body of `connect`: discover if no address is stored, keeping whatever `discover` returns, then run the `try` block. `PassSpec` and `PassSucceeds` state its outcome. |
| WaveSpec.LoopTest | src/read_wave.py:71 | The loop test, evaluated left to right, so the state query is made only while tries remain. `LoopTestSpec` states its effect. |
| WaveSpec.ConnectFrom | src/read_wave.py:71-86 | The loop of `connect` with some passes already made. A failure of the `try` block is re-raised only on the pass that uses up the budget, and a scan failure always escapes. The `Connect*` lemmas state its properties. |
| WaveSpec.Connect | src/read_wave.py:69-86 | `connect(retries=1)`: the loop from zero passes. |
| WaveSpec.ResolveSpec | src/read_wave.py:77-81 | The lookups succeed exactly when every scripted lookup from this one on succeeds. Success leaves every handle resolved, on the open peripheral, for its own UUID. A failure is a lookup failure. The peripheral and address are kept, and no connection or scan is made. |
| WaveSpec.AttemptSpec | src/read_wave.py:75-81 | The `try` block opens exactly one peripheral. It succeeds exactly when that connection and all five lookups succeed, and then every handle is resolved on the new peripheral. A refused connection changes no field. A later failure leaves the new peripheral stored. The address is never changed. |
| WaveSpec.PassSpec | src/read_wave.py:72-81 | One pass opens at most one peripheral. A scan failure can only come from a pass that had no address. With an address stored, the pass keeps it and makes no scan. |
| WaveSpec.LoopTestSpec | src/read_wave.py:71 | The loop goes on only while `tries < retries`. The test opens and scans nothing. |
| WaveSpec.ConnectAttemptsBounded | src/read_wave.py:69-86 | `connect` makes at most `retries` passes and opens at most one peripheral per pass. |
| WaveSpec.ConnectRaisesOnlyOnLastTry | src/read_wave.py:82-86 | An exception from the connection or a lookup leaves `connect` only on the pass where `tries == retries`. |
| WaveSpec.ConnectKeepsKnownAddress | src/read_wave.py:73-74 | Once an address is stored `connect` never scans, never changes it, and never raises a scan failure. |
| WaveSpec.ConnectWhenConnected | src/read_wave.py:71 | An already connected session makes no pass. The only call is the state query. |
| WaveSpec.ConnectWithoutBudget | src/read_wave.py:70-71 | With `retries <= 0`, `connect` makes no call and changes nothing. |
| WaveSpec.PassSucceeds | src/read_wave.py:72-81 | A pass that raises nothing leaves a peripheral stored and every handle resolved on it, each for its own UUID. |
| WaveSpec.ConnectReturnsResolved | src/read_wave.py:69-86 | The converse of `ConnectRaisesOnlyOnLastTry`, for every input: on the last pass a failure is not swallowed. If `connect` returns normally after using up its budget, its last pass resolved every handle on the stored peripheral. If it returns early, a peripheral is stored, because the loop stopped on "conn". |
| WaveSpec.ConnectByDefault | src/read_wave.py:69-86 | With the default `retries=1`, `connect` makes at most one pass and raises whatever that pass fails with. Making no pass means the session already answered "conn". |
| WaveSpec.ConnectKeepsConsistent | src/read_wave.py:69-86 | `connect` keeps the session invariant: without a peripheral, no handle is set. |
| WaveSpec.ThirdTrySucceeds | src/read_wave.py:69-86 | With three tries, two refused connections and a third that succeeds, `connect` returns normally after three passes with every handle resolved. |
| WaveSpec.AlwaysFailingRaisesAfterRetries | src/read_wave.py:82-84 | With two tries and connections that always fail, `connect` raises the connection failure after exactly two connection attempts. |
| WaveSpec.ConnectedButUnresolvedStopsQuietly | src/read_wave.py:71-86 | A peripheral that opens and reports "conn", but whose second lookup fails on a non-final try, ends `connect` without an exception. Four handles stay unset, and the following `read` fails on the missing humidity handle. |
| WaveSpec.MissedDiscoveryIsRetried | src/read_wave.py:73-76 | When `discover` finds nothing, its `None` is stored and the pass opens a peripheral at `None`, which this script refuses. The next pass scans again, and the last pass raises. |
| WaveSpec.ReadFrom | src/read_wave.py:89-93 | The five reads from a given handle on, concatenated in order. A missing handle or a failing read ends the method there. `ReadSpec` and `ReadWhenReady` state its result. |
| WaveSpec.Read | src/read_wave.py:88-94 | `read`: the five reads, then the payload decoder on their concatenation. |
| WaveSpec.ReadSpec | src/read_wave.py:88-94 | `read` returns reading `v` exactly when three things hold: all five handles are set, the five reads succeed, and their values concatenated in characteristic order are `v`'s payload. It then logs one read per handle, in that order. |
| WaveSpec.ReadWhenReady | src/read_wave.py:88-94 | With all handles set and five successful reads, `read` decodes exactly the concatenation of the five values. |
| WaveSpec.Decoded | src/read_wave.py:94 | The call to `from_bytes` at the end of `read`: its reading, or the decoder's error as `Undecodable`. `DecodedIff` states when it yields a reading. |
| WaveSpec.DecodedIff | src/read_wave.py:94 | The decoding step of `read` yields `v` exactly when the bytes are `v`'s payload. |
| WaveSpec.Disconnect | src/read_wave.py:96-104 | `disconnect`: with a peripheral, close it and clear it and the five handles; otherwise do nothing. `DisconnectClears` and `DisconnectIdempotent` state its effect. |
| WaveSpec.DisconnectClears | src/read_wave.py:96-104 | After `disconnect` there is no peripheral and no handle, and the address is unchanged. The only call is one close of the old peripheral, made only if there was one. |
| WaveSpec.DisconnectIdempotent | src/read_wave.py:96-97 | A second `disconnect` changes nothing and makes no call. |
| WaveSpec.DisconnectedIsNotConnected | src/read_wave.py:52-99 | After `disconnect`, `is_connected` answers `False` whatever the transport would say, and makes no call. |
| WaveSpec.DisconnectConsistent | src/read_wave.py:96-104 | The fields set by `__init__` satisfy the session invariant, and `disconnect` keeps it. |
| WaveSession.Wave.constructor | src/read_wave.py:42-50 | A new session holds the given serial number, has no peripheral, handle or address, and satisfies the class invariant. |
| WaveSession.Wave.IsConnected | src/read_wave.py:52-56 | The answer and the new transport state are those of `WaveSpec.IsConnected`. |
| WaveSession.Wave.Discover | src/read_wave.py:58-67 | The nested scan loops give the result and the transport state of `WaveSpec.Discover`. |
| WaveSession.Wave.OpenPeripheral | src/read_wave.py:75-81 | The `try` block leaves the fields, the transport and the failure that `WaveSpec.Attempt` computes. The field assignments that ran before a failure are kept. |
| WaveSession.Wave.ResolveHandle | src/read_wave.py:77-81 | One `getCharacteristics(uuid=…)[0]` assignment for handle `i`. It makes exactly one lookup step of the transport. On success it stores the handle in the field for position `i`, leaving every other field unchanged. On failure it changes no field. |
| WaveSession.Wave.RunPass | src/read_wave.py:72-81 | One loop body leaves the fields, transport and failure of `WaveSpec.Pass`. |
| WaveSession.Wave.Connect | src/read_wave.py:69-86 | The retry loop raises, and leaves the fields and transport, exactly as `WaveSpec.Connect` says. It keeps the class invariant. |
| WaveSession.Wave.Read | src/read_wave.py:88-94 | The reading returned and the transport state are those of `WaveSpec.Read`. |
| WaveSession.Wave.Disconnect | src/read_wave.py:96-104 | The fields and transport are those of `WaveSpec.Disconnect`. The peripheral and the five handles are cleared, the address is kept, and the invariant is kept. |
| Scanner.ParseHexPair | src/scan_services.py:66 | A pair parses exactly when both characters are hex digits. The value is below 256, and printing it as `%02X` gives the pair upper-cased. |
| Scanner.PairOfDigits | src/scan_services.py:66 | A pair of hex digits reads as sixteen times the first digit plus the second. |
| Scanner.NormalizeHex | src/scan_services.py:66 | The `ManuDataHex` comprehension: the text cut into pairs, each rewritten as two upper-case digits, evaluated in full so that one bad pair aborts. `NormalizeHexOk`, `NormalizeHexElements` and `NormalizeHexText` state its result. |
| Scanner.NormalizeHexOk | src/scan_services.py:66 | Normalisation succeeds exactly when every pair is hex, and fails only with a bad-pair abort. It keeps one element per pair, so an odd last character is dropped. |
| Scanner.NormalizeHexElements | src/scan_services.py:66 | Each element is two upper-case hex digits: the input pair upper-cased, with the pair's value. |
| Scanner.NormalizeIdempotent | src/scan_services.py:66 | Normalising the join of normalised elements gives back those elements. |
| Scanner.NormalizeHexText | src/scan_services.py:66 | The lower-case hex text of any bytes normalises to the upper-case form of each byte. |
| Scanner.CompanyCode | src/scan_services.py:67 | The code is "0x" followed by the first two elements in reverse order, or by as many as exist. |
| Scanner.SerialText | src/scan_services.py:71 | The serial text is elements 2, 3 and 4 in order when there are five, and empty with two or fewer. |
| Scanner.AirthingsCodeIff | src/scan_services.py:67-68 | On normalised elements, the banner test passes exactly when the first two bytes read little-endian are 0x0334. |
| Scanner.AirthingsBannerIffVendor | src/scan_services.py:66-68 | The same test, stated on the raw manufacturer text. |
| Scanner.SerialTextLength | src/scan_services.py:71 | With five or more elements the serial text is six upper-case hex digits. |
| Scanner.CompanyCodeOfBytes | src/scan_services.py:66-68 | On the hex text of bytes, the company code is the 16-bit little-endian vendor field written high byte first. The banner is printed exactly when that field is the identifier `_parse_serial_number` accepts. |
| Scanner.SerialOfBytes | src/scan_services.py:66-71 | On the hex text of bytes, the serial text is bytes 2, 3 and 4 in upper-case hex. |
| Scanner.DecodeEntry | src/scan_services.py:66-72 | The decoding block of the entry loop, on the remembered text. `DecodeEntrySpec` states what it prints and when it aborts. |
| Scanner.DecodeEntrySpec | src/scan_services.py:66-72 | One decoding aborts with a bad pair exactly when normalisation fails, and then prints nothing. Otherwise it prints the banner exactly for code 0x0334. It then aborts on a code missing from the company table, having printed only the banner. For a code in the table it prints exactly the company line and the device line, after the banner. |
| Scanner.PrintEntry | src/scan_services.py:66-72 | Appends exactly what one decoding prints to the lines printed so far. |
| Scanner.PrintDevice | src/scan_services.py:57-72 | The inner loop prints exactly the device listing. The remembered text starts empty, entries are skipped while it is empty, and each later entry decodes it. |
| Scanner.ScanServices | src/scan_services.py:54-76 | The outer loop over devices produces exactly `ScanOutput`, stopping at the first abort. |
| Scanner.NextManu | src/scan_services.py:59-60 | The remembered text after one entry: a "Manufacturer" entry replaces it, even with an empty value, and any other entry keeps it. `SkipsBeforeManufacturer` and `RepeatsAfterManufacturer` state its effect on the listing. |
| Scanner.DeviceListing | src/scan_services.py:58-72 | The entry loop of one device from a given entry on, with the remembered text and the lines printed so far. `PrintDevice` is proved to compute it. |
| Scanner.DeviceOutput | src/scan_services.py:57-72 | What one device prints: the entry loop started with an empty remembered text. `SkipsBeforeManufacturer`, `OneManufacturerEntry` and `SilentDeviceIff` state its shape. |
| Scanner.ScanListing | src/scan_services.py:56-72 | The device loop from a given device on, stopping at the first device whose output aborts. |
| Scanner.ScanOutput | src/scan_services.py:54-76 | What the script prints for one scan's devices. `ScanServices` is proved to compute it, and `ScanOutputAppend` and `UnknownCompanyAborts` state its shape. |
| Scanner.DeviceListingPrinted | src/scan_services.py:58-72 | Lines printed before the inner loop stay, unchanged, in front of what it prints. |
| Scanner.ScanListingPrinted | src/scan_services.py:56-72 | Lines printed before the outer loop stay, unchanged, in front of what it prints. |
| Scanner.SkipsBeforeManufacturer | src/scan_services.py:57-63 | The entries before the first non-empty "Manufacturer" entry print nothing. |
| Scanner.RepeatsAfterManufacturer | src/scan_services.py:58-72 | Once a decodable text is remembered, every later entry without a "Manufacturer" description prints the same lines again. |
| Scanner.OneManufacturerEntry | src/scan_services.py:57-72 | Take a device with one non-empty "Manufacturer" entry, at index `m`, that decodes. Its lines are printed once for that entry and once more for every entry after it. |
| Scanner.SilentDeviceIff | src/scan_services.py:57-63 | A device prints nothing and does not abort exactly when none of its "Manufacturer" entries has text. |
| Scanner.ScanOutputAppend | src/scan_services.py:54-76 | Each device's output is independent, because the remembered text is reset per device. An abort ends the listing, so devices after it print nothing. |
| Scanner.DeviceAbortsAt | src/scan_services.py:57-72 | When a device's first non-empty "Manufacturer" entry, at any index, decodes to an abort, the device prints exactly what that decoding printed and aborts with it. |
| Scanner.ScanAbortsAt | src/scan_services.py:54-76 | A device whose output aborts, after devices that did not, ends the listing. The listing is the earlier output followed by that device's lines, and the devices after it print nothing. |
| Scanner.UnknownCompanyAborts | src/scan_services.py:56-76 | Take a device whose first non-empty "Manufacturer" entry, at any index, normalises to a company code missing from the table. The whole listing is aborted at that entry, with that code. Only the banner, for the Airthings code, is printed for that device, and no later device prints anything. |

## Left out

- The radio itself is out of scope.
  - Scanning, connecting, looking up handles, querying the state, reading and closing all go through the scripted `Transport.RadioState`.
  - When a script runs out, a scan hears an empty window, a connection, lookup or read fails, and a state query raises.
  - `Transport.Radio`'s methods are one step of that script each. They are stand-ins for bluepy, not part of wave-reader.
- Opening at a missing address is a scripted outcome like any other. In bluepy, `Peripheral(None)` builds an unconnected peripheral without raising, and the first `getCharacteristics` then raises, leaving `_periph` set. A script reproduces that with a successful open followed by a failing lookup.
- Which exception a bluepy call raises is reduced to one `Failure` value per kind of call.
- Humidity and temperature are kept as the raw hundredths. The division by 100.0 into floats, and `CurrentValues.__str__`, are not modelled.
- `int(timeout / scan_interval)` is the float expression `int(3 / 0.1)`. It evaluates to 30, and the model uses the constant 30.
- The scan interval, the scan durations (0.1 s and 20 s) and timing in general are not modelled. A scan window is what the script says it heard.
- The serial number is modelled as an integer. A `Wave` built with `None` would match every non-Airthings advertisement, because `None == None`; that case is not modelled.
- A manufacturer field that is missing, or is not a byte string, is modelled as `None`. Unpacking such a value raises in the source, which then returns `None` too.
- A `disconnect` call that raises is not modelled. Closing always succeeds.
- The command-line part of `read_wave.py` is not part of this model: `_argparser`, `_main`, the SIGINT handler, the polling loop and `time.sleep`.
- In `scan_services.py` the following are not modelled: the `ScanDelegate` class, the logger, the module-level scanner, and reading the company CSV with pandas. The company table is a `map<string, string>` parameter.
- Scanner.ParseHexPair: only ASCII hex digit pairs are accepted. Python's `int(…, 16)` also takes forms that can appear in a two-character slice, such as a sign, whitespace or non-ASCII digits, and the model treats those as a bad pair.
- The text printed by `print(e)` in the unreachable handler is not modelled. Any escaping exception ends the listing with an `Abort`.
- The serial text in `scan_services.py` is `ManuDataHex[2:5]`, which is three bytes (six hex digits) rather than the four bytes of the 32-bit serial. The model follows the code.
- `CurrentValues.from_bytes` is modelled on exactly 15 bytes (the size of `<H5B4H`). Any other length raises, and is modelled as `LengthMismatch`.
- The timestamp is checked against the proleptic Gregorian calendar for years 1 to 9999, as `datetime.datetime` does. Time zones are not involved.
