# Traccar position encoder

A Dafny model of the position encoder of TraccarClient. The encoder turns one
GPS/telemetry sample (`traccar_position_t` / `TraccarPosition`) into the three
wire formats of the OsmAnd tracking protocol:

- the `GET` query string `<base>?id=<device>&lat=…&lon=…`;
- the same pairs as an `application/x-www-form-urlencoded` body;
- a flat JSON object.

The model covers these parts:

- **Bounded writer.** `tr_append` and the two C builders write into a caller-owned `char` buffer at a cursor. The buffer is an `array<Byte>`. `Buffer.Holds` is the invariant every run of appends from index 0 keeps: the buffer holds, NUL-terminated, the longest prefix of the untruncated text that fits.
- **Percent-encoding.** `tr_is_unreserved` and `tr_append_urlenc` follow sections 2.1 and 2.3 of RFC 3986. The model states them octet by octet and proves that decoding gives the input back.
- **Base URL.** `tr_build_base_url`, `tr_make_base_url_arduino` and `makeBaseUrl` share one rule. The model defines it once as `Client.BaseUrl` and builds it imperatively into a buffer.
- **Fields.** Each encoder has a fixed table of slots. Each slot has a key and an optional value (`Fields.Slot`), and a value is present exactly when the source's sentinel test passes. The query string and form body share `OsmAnd.QueryOrder`; the JSON body has its own `Json.JsonOrder` and its own `charge` rule.
- **Query string and form body.** `traccar_build_osmand_url` and `traccar_build_osmand_form_body` are methods over the output array. Their postconditions say what the buffer holds, tied to the untruncated `OsmAnd.OsmAndUrl` / `OsmAnd.FormBody`.
- **JSON body.** The body that `traccar_send_json` and `sendJson` grow with `+=` is a method over a `seq` value. It is proved equal to `Json.JsonBody`.
- **Timestamp.** The clock fallback of `tr_now_ms_or_0` and the text of `tr_format_iso8601` are modelled. The wall clock is a parameter `now`, and the calendar conversion (`gmtime_r`) is a parameter `gmtime`.

The position's "omit" sentinels are `Option`s:

- a NaN double is `None`;
- a null `char*` is `None`;
- an empty string is `Some([])` and is treated as absent by `Positions.Provided`;
- the integer sentinels keep their C values.

The printing of doubles (`%.Nf`, Arduino `String(x, N)`) is a parameter `fmt`. `TRACCAR_SPEED_ROUND_DOWN` is the boolean `roundDown`.

Points of behaviour worth knowing:

- **Batteries and `charge`.** The header documents `charging` as used only when `batteryPercent >= 0`. The query string and form body follow that rule and always send `charge=true|false` after `batt`. The JSON body sends `"charge":true` whenever `charging` is set, whatever the battery, and never sends `"charge":false` (`Json.JsonFlagValues`).
- **Trailing slash.** A `/` is added only when the last byte is not one, so a host ending in `/` followed by the path `/` keeps both slashes (`Client.DuplicateSlashKept`).
- **Returned length.** The builders return the number of bytes written, not the untruncated length, so a caller cannot detect truncation from the result. The model returns the same cursor.
- **Send guards.** The C send functions refuse a null or empty device id but not an empty host (`src/TraccarClient.cpp:257`). The model of the JSON send follows that guard.

## Model

| member | source | states |
|---|---|---|
| Positions.Position.Battery | src/TraccarClient.h:27 | the battery level is present exactly when `batteryPercent >= 0`, and then it is that value |
| Positions.Position.Valid | src/TraccarClient.h:28 | the flag is absent exactly when negative, `false` exactly when 0, `true` exactly when positive |
| Positions.DefaultAllAbsent | src/TraccarClient.h:91-95 | every optional field of the default position is absent under its own sentinel rule |
| SpeedConversion.RoundHalfAway | src/TraccarClient.cpp:140 | C `round`: within 0.5 of its argument, halves going away from zero |
| SpeedConversion.Knots | src/TraccarClient.cpp:136-143 | floor mode gives the largest integer not above km/h ÷ 1.852; nearest mode is within 0.5 of it, and a tie goes away from zero as C `round` does |
| SpeedConversion.KnotsAgree | src/TraccarClient.cpp:136-143 | 10 km/h gives 5 knots and 3.8 km/h gives 2 knots in both modes |
| SpeedConversion.KnotsSwitch | src/TraccarClient.h:8-11 | the switch matters: 3.7 km/h gives 2 knots rounded and 1 knot rounded down |
| SpeedConversion.FloorBelowRound | src/TraccarClient.cpp:136-143 | rounding down never gives more than rounding to nearest, and at most one less |
| FieldValues.Fixed | src/TraccarClient.cpp:132-135 | a double field has a value exactly when it is not NaN |
| FieldValues.KnotsValue | src/TraccarClient.cpp:136-143 | the speed has a value exactly when it is not NaN |
| FieldValues.TextValue | src/TraccarClient.cpp:153-157 | a string field has a value exactly when it is neither null nor empty |
| Timestamps.NowMsOr0 | src/TraccarClient.cpp:81-85 | a clock at or below 100000 s gives 0; below 2^52 s, a later clock gives now·1000, which is not 0 |
| Timestamps.ResolveTimestamp | src/TraccarClient.cpp:145 | a set timestamp is kept; an unset one is exactly the clock fallback `NowMsOr0(now)` |
| Timestamps.IsoEmptyIffZero | src/TraccarClient.cpp:245-254 | the ISO text is empty exactly when the timestamp is 0 |
| Timestamps.SecondsMillisSplit | src/TraccarClient.cpp:247-249 | the seconds handed to `gmtime_r` and the printed milliseconds recompose the timestamp, and the seconds fit `time_t` |
| Timestamps.IsoShape | src/TraccarClient.cpp:245-254 | for an in-range calendar time the text is 24 bytes `YYYY-MM-DDTHH:MM:SS.mmmZ`, and each field reads back as its value, the milliseconds as `epochMs % 1000` |
| Timestamps.IsoFields | src/TraccarClient.cpp:249-253 | the same layout and read-back for any in-range broken-down time, and the 32-byte buffer does not cut it |
| Timestamps.IsoLayout | src/TraccarClient.cpp:250 | where each piece of the format sits in the text |
| Timestamps.PaddedExact | src/TraccarClient.cpp:250-252 | `%0Nd` of a value below 10^N is N bytes that a decimal reader maps back to the value |
| Timestamps.IsoRead | src/TraccarClient.cpp:250-252 | in any text assembled as the format, each numeric slot reads back as the value printed into it and the separators sit at their fixed places |
| Timestamps.IsoPieces | src/TraccarClient.cpp:250 | a text assembled as the format is 24 bytes, holds each piece at its fixed offset, and fits the 32-byte buffer |
| Bytes.ReadNumberDigits | src/TraccarClient.cpp:250-252 | reading a string of digits gives the numeral's value, so the reader and the printer agree |
| Bytes.DecimalRoundTrip | src/TraccarClient.cpp:71 | `%u` prints a numeral without leading zeros that reads back as the number |
| Bytes.ZeroPaddedExact | src/TraccarClient.cpp:250-252 | `%0Nd` of a value below 10^N is exactly N digits that read back as it |
| Buffer.Prefix | src/TraccarClient.cpp:39 | the kept part of a text is a prefix of it, as long as the text or `n`, whichever is shorter |
| Buffer.Append | src/TraccarClient.cpp:35-44 | from a cursor past the end nothing changes; otherwise `min(strlen(s), size-1-idx)` bytes of `s` are copied and returned, the cursor stays below the size, a NUL follows, and every other byte is unchanged |
| Buffer.Emit | src/TraccarClient.cpp:35-44 | appending to a buffer holding a prefix of `text` leaves it holding a prefix of `text + s` |
| Buffer.FullBufferHolds | src/TraccarClient.cpp:37-39 | once the buffer is full, later appends change nothing it shows |
| Buffer.HoldsWhole | src/TraccarClient.cpp:35-44 | a text shorter than the buffer is held whole and the cursor is its length |
| Buffer.HoldsPrefix | src/TraccarClient.cpp:35-44 | what the buffer shows is the prefix of length `size - 1` of the text, and the cursor is at most `size - 1` |
| Buffer.CStringLength | src/TraccarClient.cpp:36 | `strlen` returns the index of the first NUL |
| Buffer.HoldsCString | src/TraccarClient.cpp:42 | a buffer holding a prefix of a C string has its first NUL at the cursor |
| PercentEncoding.HexDigit | src/TraccarClient.cpp:52 | each entry of the hex table is an unreserved character |
| PercentEncoding.SpaceIsPercent20 | src/TraccarClient.cpp:58-59 | the explicit space branch gives the same `%20` as the general rule |
| PercentEncoding.EncodeAppend | src/TraccarClient.cpp:53-64 | encoding distributes over concatenation |
| PercentEncoding.EncodedLength | src/TraccarClient.cpp:51-65 | output length is the number of unreserved octets plus three times the number of the others |
| PercentEncoding.EncodedAlphabet | src/TraccarClient.cpp:46-65 | the output holds only unreserved characters and `%` |
| PercentEncoding.UnreservedUnchanged | src/TraccarClient.cpp:55-57 | unreserved text is its own encoding |
| PercentEncoding.DecodeEncode | src/TraccarClient.cpp:51-65 | percent-decoding the encoding gives back the input octets |
| PercentEncoding.EncodeInjective | src/TraccarClient.cpp:51-65 | different inputs never share an encoding |
| PercentEncoding.AppendEncodedByte | src/TraccarClient.cpp:54-63 | the three branches of the loop body append exactly the octet's encoding |
| PercentEncoding.AppendUrlEncoded | src/TraccarClient.cpp:51-65 | the loop leaves the buffer holding the text followed by the encoding of `s`, truncated |
| Client.Client.constructor | src/TraccarClient.cpp:87-97 | a new client holds its host, port and device id, with base path `/` |
| Client.Client.SetBasePath | src/TraccarClient.cpp:107-111 | a null or empty path is stored as `/`, any other as given; nothing else changes |
| Client.WithTrailingSlash | src/TraccarClient.cpp:78 | the result ends with `/`, extends its input by at most one byte, and equals it exactly when the input already ends with `/` |
| Client.BaseUrlShape | src/TraccarClient.cpp:67-79 | the base URL starts with host and `:port`, ends with `/`, and a given base path follows them after exactly one `/` |
| Client.NoDoubleSlash | src/TraccarClient.cpp:74-78 | a path ending in `/` gets no second slash |
| Client.DefaultPathOneSlash | src/TraccarClient.cpp:74-78 | the default path `/` gives host and port followed by one `/` |
| Client.DuplicateSlashKept | src/TraccarClient.cpp:78 | duplicate slashes are not removed: `http://h/` with path `/` gives `http://h//` |
| Client.BaseUrlExample | src/TraccarClient.cpp:67-79 | `http://h`, port 5055, path `/x` gives `http://h:5055/x/` |
| Client.BaseUrlCString | src/TraccarClient.cpp:67-79 | built from C strings, the base URL holds no NUL |
| Client.AppendTrailingSlash | src/TraccarClient.cpp:78 | testing the last byte in the buffer gives the trailing-slash rule, even when the buffer is full |
| Client.AppendHostPort | src/TraccarClient.cpp:68-73 | the buffer holds the host and, for a non-zero port, `:port` |
| Client.BuildBaseUrl | src/TraccarClient.cpp:67-79 | the buffer holds, NUL-terminated, as much of the base URL as fits |
| Fields.PresentOrder | src/TraccarClient.cpp:132-158 | the fields sent keep the order of the slot table |
| Fields.PresentField | src/TraccarClient.cpp:132-158 | with distinct keys, a key is sent with a value exactly when its slot holds that value |
| Fields.PresentKey | src/TraccarClient.cpp:132-158 | with distinct keys, a key is sent exactly when its slot holds a value |
| Fields.PresentNone | src/TraccarClient.cpp:132-158 | slots without values send nothing |
| OsmAnd.QuerySlots | src/TraccarClient.cpp:132-158 | the slot keys are exactly lat, lon, altitude, hdop, speed, valid, timestamp, accuracy, heading, batt, charge, driverUniqueId, cell, wifi, event, activity, odometer |
| OsmAnd.QueryOrderDistinct | src/TraccarClient.cpp:132-158 | no key is used twice |
| OsmAnd.QueryFieldOrder | src/TraccarClient.cpp:132-158 | the keys sent are a subsequence of that order |
| OsmAnd.QueryPresence | src/TraccarClient.cpp:132-158 | each key is sent exactly when its sentinel test passes, with `batt` and `charge` both under `batteryPercent >= 0` |
| OsmAnd.QueryFlagValues | src/TraccarClient.cpp:144-152 | `valid=true` exactly for a positive flag and `valid=false` for 0; `charge` carries `charging` whenever the battery is sent |
| OsmAnd.QueryBatteryValue | src/TraccarClient.cpp:149-150 | a non-negative battery level is sent in decimal |
| OsmAnd.QueryTimestampValue | src/TraccarClient.cpp:145-146 | the resolved timestamp is sent in decimal exactly when it is not 0 |
| OsmAnd.QueryTextValues | src/TraccarClient.cpp:153-157 | each free-text field is sent with its own text exactly when neither null nor empty |
| OsmAnd.QueryPlaceValues | src/TraccarClient.cpp:132-135 | `lat` and `lon` are sent as the double printed with 7 decimals, `altitude` with 1 and `hdop` with 2, exactly when the double is not NaN |
| OsmAnd.QueryMeasureValues | src/TraccarClient.cpp:147-158 | `accuracy`, `heading` and `odometer` are sent printed with 1 decimal, exactly when the double is not NaN |
| OsmAnd.QuerySpeed | src/TraccarClient.cpp:136-143 | the speed is sent in knots, rounded as configured |
| OsmAnd.DefaultSendsNothing | src/TraccarClient.cpp:132-158 | a default position without a clock reading sends no field |
| OsmAnd.Printed | src/TraccarClient.cpp:131-132 | `snprintf` into `buf[48]` keeps a prefix of the text: all of it up to 47 bytes, exactly 47 bytes of a longer one |
| OsmAnd.UrlQueryIsFormBody | src/TraccarClient.cpp:126-130 | the URL is the base URL, clipped to 191 bytes, then `?`, then exactly the form body |
| OsmAnd.UrlShape | src/TraccarClient.cpp:125-130 | a base URL that fits is followed by `?id=`, the encoded device id and the pairs |
| OsmAnd.FreeTextChunk | src/TraccarClient.cpp:153-157 | a free-text pair holds no `&`, `=` or `?` after its `=`, and its value decodes back to the raw text |
| OsmAnd.AppendField | src/TraccarClient.cpp:132-158 | one field line appends exactly that field's `&key=value` |
| OsmAnd.AppendTextField | src/TraccarClient.cpp:153 | `&key=` followed by the percent-encoded text |
| OsmAnd.AppendSlot | src/TraccarClient.cpp:132-158 | one `if` line appends its field exactly when the slot has a value |
| OsmAnd.AppendPositionFields | src/TraccarClient.cpp:132-143 | the lines for lat, lon, altitude, hdop and speed append the pairs of those slots |
| OsmAnd.AppendStatusFields | src/TraccarClient.cpp:144-148 | the lines for valid, timestamp, accuracy and heading append the pairs of those slots |
| OsmAnd.AppendBatteryFields | src/TraccarClient.cpp:149-152 | the battery line appends `batt` and `charge` |
| OsmAnd.AppendRadioFields | src/TraccarClient.cpp:153-155 | the lines for driverUniqueId, cell and wifi |
| OsmAnd.AppendEventFields | src/TraccarClient.cpp:156-158 | the lines for event, activity and odometer |
| OsmAnd.AppendFirstFields | src/TraccarClient.cpp:132-148 | the lines from lat to heading |
| OsmAnd.AppendLastFields | src/TraccarClient.cpp:149-158 | the lines from batt to odometer |
| OsmAnd.AppendQueryFields | src/TraccarClient.cpp:132-158 | all field lines leave the buffer holding the text followed by the pairs of the present fields, truncated |
| OsmAnd.AppendFormHead | src/TraccarClient.cpp:164-166 | the form body starts with `id=` and the encoded device id, nothing for a null id |
| OsmAnd.BuildFormBody | src/TraccarClient.cpp:162-195 | null arguments or a size-0 buffer give 0 and leave the buffer alone; otherwise the buffer holds the longest prefix of the form body that fits, and the result is its length |
| OsmAnd.AppendBase | src/TraccarClient.cpp:126-127 | the base URL goes through a 192-byte buffer, so at most 191 bytes of it reach `out` |
| OsmAnd.AppendUrlHead | src/TraccarClient.cpp:125-130 | the clipped base URL, `?`, `id=` and the encoded device id |
| OsmAnd.BuildOsmAndUrl | src/TraccarClient.cpp:123-160 | null arguments or a size-0 buffer give 0 and leave the buffer alone; otherwise the buffer holds the longest prefix of the URL that fits, and the result is its length |
| Json.JsonSlots | src/TraccarClient.cpp:274-296 | the slot keys are exactly lat, lon, altitude, speed, heading, hdop, accuracy, valid, timestamp, odometer, batt, charge, event, activity, driverUniqueId, cell, wifi |
| Json.JsonOrderDistinct | src/TraccarClient.cpp:274-296 | no key is used twice |
| Json.JsonFieldOrder | src/TraccarClient.cpp:274-296 | the members sent are a subsequence of that order |
| Json.JsonPresence | src/TraccarClient.cpp:274-296 | each member is sent exactly when its test passes; `charge` depends only on `charging` |
| Json.JsonFlagValues | src/TraccarClient.cpp:287-291 | `valid` is `true` exactly for a positive flag and `false` for 0; `"charge":true` appears exactly when charging, `"charge":false` never |
| Json.JsonTimestamp | src/TraccarClient.cpp:267-288 | the timestamp member is sent exactly when the resolved timestamp is not 0, carrying its ISO text |
| Json.JsonBatteryValue | src/TraccarClient.cpp:290 | a non-negative battery level is sent in decimal |
| Json.JsonTextValues | src/TraccarClient.cpp:292-296 | each string member is sent with its own text exactly when neither null nor empty |
| Json.JsonPlaceValues | src/TraccarClient.cpp:274-276 | `lat` and `lon` are sent as `String(x, 7)`, `altitude` with 1 decimal, exactly when the double is not NaN |
| Json.JsonMeasureValues | src/TraccarClient.cpp:284-289 | `heading`, `accuracy` and `odometer` are sent with 1 decimal and `hdop` with 2, exactly when the double is not NaN |
| Json.JsonSpeed | src/TraccarClient.cpp:277-283 | the speed is sent in knots, rounded as configured |
| Json.JsonEnvelope | src/TraccarClient.cpp:270-298 | the body is `{"id":"`, the id, `"`, the members and `}`, each at its place |
| Json.JsonDefaultFields | src/TraccarClient.cpp:274-296 | a default position with an empty timestamp sends no member |
| Json.JsonDefault | src/TraccarClient.cpp:267-298 | a default position without a clock reading gives `{"id":"<device id>"}` |
| Json.SentNumber | src/TraccarClient.cpp:274 | `,"key":` and the digits append the numeric member |
| Json.SentBool | src/TraccarClient.cpp:287 | `,"key":` and `true`/`false` append the flag member |
| Json.SentString | src/TraccarClient.cpp:292 | `,"key":"`, the text and `"` append the string member |
| Json.AppendFixed | src/TraccarClient.cpp:274 | one double line appends its member exactly when the value is not NaN |
| Json.AppendText | src/TraccarClient.cpp:292 | one string line appends its member exactly when the text is neither null nor empty |
| Json.AppendPlace | src/TraccarClient.cpp:274-276 | the lines for lat, lon and altitude |
| Json.AppendMotion | src/TraccarClient.cpp:277-286 | the lines for speed, heading, hdop and accuracy |
| Json.AppendState | src/TraccarClient.cpp:287-288 | the lines for valid and timestamp |
| Json.AppendCounters | src/TraccarClient.cpp:289-291 | the lines for odometer, batt and charge |
| Json.AppendTexts | src/TraccarClient.cpp:292-296 | the lines for event, activity, driverUniqueId, cell and wifi |
| Json.AppendMembers | src/TraccarClient.cpp:274-296 | all member lines append the members of the present fields |
| Json.BuildJsonBody | src/TraccarClient.cpp:270-298 | the `+=` assembly yields exactly `JsonBody` of the present fields |
| Json.PrepareJson | src/TraccarClient.cpp:256-298 | nothing is sent for a null client or position or a null or empty device id; otherwise the body goes to the base URL, with the resolved and formatted timestamp |
| Json.TextOnlyFields | src/TraccarClient.cpp:292-293 | a position with only event and activity sends just those two members |
| Json.SpliceChunk | src/TraccarClient.cpp:292-293 | an event name holding `","activity":"` is written as an event member followed by an activity member |
| Json.UnescapedCollision | src/TraccarClient.cpp:292-296 | two different positions produce the same JSON body |
| JsonStrings.EscapeByte | src/TraccarClient.cpp:292-296 | the escape of one octet is 1 to 6 bytes long |
| JsonStrings.UnescapeEscape | src/TraccarClient.cpp:292-296 | reading escaped string contents gives the original string back |
| JsonStrings.EscapeInjective | src/TraccarClient.cpp:292-296 | different strings never give the same escaped contents |
| JsonStrings.EscapedStringEnds | src/TraccarClient.cpp:292-296 | whatever follows, a reader stops at the quote written after escaped contents |
| JsonStrings.EndsAt | src/TraccarClient.cpp:292-296 | inside a larger text, the escaped string's literal ends at its own closing quote |
| Json.EscapedReadsId | src/TraccarClient.cpp:272 | with escaping, the id literal ends at its closing quote and holds exactly the escaped id |
| Json.EscapedReadsFirst | src/TraccarClient.cpp:292-296 | with escaping, the first string member's literal ends at its closing quote and holds exactly the escaped value |
| Json.EscapedFirstDecides | src/TraccarClient.cpp:292-296 | with escaping, different values of the first string member always give different bodies |

## Left out

- **HTTP transport.** This covers `HTTPClient`, `http.begin` failure, connect timeouts, `Serial` debug output and the `code == 200` check (src/TraccarClient.cpp:211-243, 256-266, 300-310, 400-515). It is I/O. Only the guard of the JSON send is kept, in `Json.PrepareJson`.
- **Guards of the other sends.** The C++ `send*` guards on an empty host and the GET/POST of the query string and form body are not modelled beyond the builders they call.
- **Non-Arduino stubs** (src/TraccarClient.cpp:312-323). They set the code to 0 and return `false`.
- **Memory lifecycle.** `tr_strdup`, `traccar_destroy`, allocation failure and `free` are not modelled. Strings are values, and a null string is `None`.
- **Debug and timeout settings.** `traccar_set_debug`, `traccar_set_timeout_ms`, the `debug` and `timeout_ms` fields and the C++ `setDebug`/`setTimeoutMs` only affect transport. The other C++ setters (`setHost`, `setPort`, `setDeviceId`) are plain assignments.
- **C++ wrapper marshalling** (src/TraccarClient.cpp:368-398, 472-499). It copies fields one by one and maps an empty `String` to a null pointer. `Positions.Provided` treats null and empty alike, so both map to the same behaviour.
- **Floating point.** NaN is `None`. Printing a double is the parameter `fmt`; its digits, and the difference between `%.Nf` and Arduino `String(x, N)`, are not modelled.
- SpeedConversion.Knots: computed on exact reals. It does not model double rounding of `kmh / 1.852`, nor the undefined behaviour of an `(int)` cast out of range.
- Timestamps.FormatIso8601: `gmtime_r` is the parameter `gmtime`. Its calendar arithmetic and its failure for out-of-range times are not modelled. `time()` is the parameter `now`.
- Timestamps.NowMsOr0: the `uint64_t` product is taken modulo 2^64, but only clocks below 2^52 seconds are stated to give `now * 1000`.
- OsmAnd.BuildOsmAndUrl: requires the client's strings to be C strings, without NUL inside. It needs this because it reads the base URL back out of its 192-byte buffer with `strlen`.
- **C strings.** Text values are the bytes of a C string before its NUL, so `tr_append_urlenc` stopping at a NUL is not a separate case.
- **Buffer size.** `out_size` is `out.Length`. A `size_t` cursor cannot overflow at the sizes involved.
- JsonStrings.Unescape: octets only, so `\u` escapes are read for code points up to U+00FF.

## Findings

| source | as written | input that shows it | evidently intended | confidence | as-written member | corrected member |
|---|---|---|---|---|---|---|
| src/TraccarClient.cpp:292-296 | string members are copied between quotes without JSON escaping | eventName `a","activity":"b` with no activity gives the same body as eventName `a` with activityType `b` | escape `"`, `\` and control characters, as section 7 of RFC 8259 requires, so every body reads back as the position it came from | high; not executed | Json.UnescapedCollision | Json.EscapedFirstDecides |
