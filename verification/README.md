# nom-de-plume record decoders, in Dafny

A model of the core of nom-de-plume, which reads the fixed-width EBCDIC (code page 500) extracts
of the Texas Railroad Commission and turns them into tables. The model has three layers.

- **Text and numbers.** Python's `str` operations (`strip`, clamped slicing, indexing, `int()`
  with its leniency towards whitespace, signs and underscores) are in `PyStr`. The full 256-entry
  `cp500` byte table and its inverse are in `Cp500`. The numeric formats are in `Numeric`:
  - zoned signed decimal, where the sign is in the zone nibble of the last byte;
  - COMP-3 packed decimal;
  - implied-decimal `PIC 9(1)V9(4)` text.

  Each number is exact: a `FixedPoint(mantissa, scale)` denoting mantissa / 10^scale.
- **Record decoders.** `Fields` holds the three ways a byte range becomes a field: full-width
  text, stripped text, or `int()`. The decoders are:
  - `Wellbore` (247-byte Well Bore records 01 and 13);
  - `P4` (92-byte P-4 records 01, 03 and 07);
  - `P5` (350-byte P-5 records `A `, `F `, `K ` and `U `).

  A decoder returns `Success(record)` or `Failure(ValueError | IndexError)`, the exception
  Python would raise.
- **Stream drivers.** `Stream` cuts the input into full records: the chunks successive
  `read(n)` calls return, up to the first short or empty one. It also reads the two-character
  tag. Each driver is an imperative `while` loop over its records, whose local variables are
  the driver's own:
  - the P-4 listing loop (`P4.ListLeases`) and the P-5 listing loop (`P5.ListOrganizations`);
  - the P-4 table loader, with its per-lease buffers and `write_lease` flush (`P4Loader`);
  - the P-5 table loader (`P5Loader`);
  - the Well Bore table loader, with its current API key (`WellboreLoader`).

  Each loop is proved equal to a left fold (`ListingOf`, `Run`,
  `LoadOf`) of a one-record step function (`ListStep`, `Step`). The properties of the drivers
  are lemmas about those folds. A raised exception ends a run: the rows written so far stay,
  and no further record is read or flushed.

Facts about the code that a reader of the formats might not expect:
- Field slices can overlap: the Well Bore location decoder reads the verification flag at index
  177, inside the north plane coordinate `[169, 179)` (`Wellbore.VerificationFlagOverlapsNorth`).
- `strip()` removes every Python whitespace character at both ends, not just trailing padding,
  and `cp500` has twelve whitespace bytes (`Cp500.SpaceByte`).
- Only the P-4 loader buffers children under a current parent. The Well Bore loader writes
  children at once, gated on a current API key. The P-5 loader gates nothing
  (`P5Loader.TablesHoldTaggedRecords`). Only the P-5 listing loop waits for an organization.
- Every one of the 256 bytes has a `cp500` character, so decoding never fails
  (`Cp500.RoundTrip`).
- The zoned decimal reader hands the decoded leading bytes to `int()` as they are, so a
  leading 0x60 byte (`-`) reaches `int()` and flips the sign the last zone gives
  (`Numeric.ZonedSignByteFlips`).

## Model

| member | source | states |
|---|---|---|
| PyStr.Slice | scripts/parse_wellbore.py:56-69 | `s[i:j]` clamps both bounds to the length: the result has min(j,n)-min(i,n) elements, element k is `s[i+k]`, and it is `s[i..j]` when j fits |
| PyStr.At | scripts/parse_wellbore.py:72-74 | `s[i]` succeeds exactly when i is below the length, and then yields `s[i]`; otherwise it raises IndexError |
| PyStr.Strip | scripts/parse_wellbore.py:100-105 | `strip()` never lengthens, leaves no whitespace at either end, and is empty exactly when every character is whitespace |
| PyStr.StripIsInfix | scripts/parse_wellbore.py:100-105 | `strip()` returns a contiguous infix `s[i..j]`, and everything cut off on either side is whitespace |
| PyStr.StripIdempotent | scripts/parse_wellbore.py:100-105 | stripping twice is stripping once |
| PyStr.NatToString | scripts/parse_wellbore.py:185 | `str(n)` is a non-empty digit string denoting n, with no leading zero unless n is 0 |
| PyStr.DigitGroups | scripts/parse_wellbore.py:56 | the digits-and-underscores body `int()` accepts starts and ends with a digit |
| PyStr.DigitGroupsDigits | scripts/parse_wellbore.py:56 | a non-empty all-digit text is accepted with its decimal value |
| PyStr.DigitGroupsRejects | scripts/parse_wellbore.py:56 | a character that is neither a digit nor `_` makes the body invalid |
| PyStr.ParseInt | scripts/parse_wellbore.py:56 | `int()` of text that is empty or all whitespace raises |
| PyStr.ParseIntDigits | scripts/parse_wellbore.py:56-69 | `int()` of non-empty digit text is its decimal value |
| PyStr.ParseIntRejects | scripts/parse_wellbore.py:56 | one character that is not a digit, whitespace, sign or `_` anywhere makes `int()` raise |
| PyStr.ParseIntSkipsBlanks | scripts/parse_wellbore.py:56 | any run of whitespace before digit text is skipped: `int()` gives the digits' decimal value |
| PyStr.ParseIntNegative | parse_p4.py:64 | `int("-" + digits)` is the negated value of the digits |
| PyStr.ParseIntTakesSign | parse_p4.py:64 | `int("-0001")` is -1, so a five-character percentage field can be negative |
| PyStr.ParseIntRejectsInnerBlank | scripts/parse_wellbore.py:56 | `int("1 2")` raises: whitespace inside a number is not skipped |
| Cp500.DecodeByte | scripts/parse_wellbore.py:53 | every byte decodes to a character below U+0100 |
| Cp500.ByteOfCodePoint | scripts/parse_wellbore.py:53 | the inverse table maps every byte's code point back to that byte |
| Cp500.EncodeDecodeByte | scripts/parse_wellbore.py:53 | encoding the character of a byte gives the byte back |
| Cp500.Decode | scripts/parse_wellbore.py:53 | `bytes.decode('cp500')` has one character per byte, each the character of its byte |
| Cp500.Encode | scripts/parse_wellbore.py:53 | `str.encode('cp500')` has one byte per character |
| Cp500.RoundTrip | scripts/parse_wellbore.py:53 | decoding then encoding reproduces any byte sequence, so decoding never fails and loses nothing |
| Cp500.DecodeInjective | scripts/parse_wellbore.py:53 | different byte sequences decode to different text |
| Cp500.DecodeSlice | scripts/parse_p5.py:82-83 | decoding a slice of the bytes is slicing the decoded text, so `data[i:j].decode()` and `decoded[i:j]` agree |
| Cp500.DigitByte | scripts/parse_wellbore.py:178-185 | a byte decodes to a decimal digit exactly when it is 0xF0..0xF9, and the digit is its low nibble |
| Cp500.SpaceByte | scripts/parse_wellbore.py:100-105 | exactly the bytes 0x05, 0x0B-0x0D, 0x15, 0x1C-0x1F, 0x25, 0x40 and 0x41 decode to whitespace |
| Numeric.ZonedSigned | scripts/parse_wellbore.py:160-195 | the zoned value has the requested decimal scale, and empty input gives 0 |
| Numeric.ZonedTextDigits | scripts/parse_wellbore.py:171-185 | for digit bytes followed by a last byte with a decimal low nibble, the text handed to `int()` is all digits, one per byte, and denotes the low nibbles read as decimal |
| Numeric.ZonedValue | scripts/parse_wellbore.py:178-195 | such a field's mantissa is that magnitude, negated exactly when the last byte's zone is 0xD0 |
| Numeric.ZonedSign | scripts/parse_wellbore.py:181-195 | on a well-formed field (digit bytes 0xF0..0xF9 before the last byte, whose low nibble is a decimal digit) the value is negative exactly when the last zone is 0xD0 and the magnitude is non-zero; zones 0xC0 and 0xF0 are never negative there |
| Numeric.ZonedSignByteFlips | scripts/parse_wellbore.py:179-195 | a leading 0x60 byte decodes to `-` and reaches `int()`: before a well-formed field it negates the sign the last zone gives: the mantissa is the magnitude when that zone is 0xD0 and its negation otherwise |
| Numeric.MinusByte | scripts/parse_wellbore.py:184 | the byte 0x60 decodes to `-` |
| Numeric.ZonedMalformedIsZero | scripts/parse_wellbore.py:187-190 | a byte before the last whose character `int()` rejects gives 0 |
| Numeric.ZonedExample | scripts/parse_wellbore.py:160-195 | F1 F2 F3 D5 with two places is -12.35 |
| Numeric.ZonedLeadingBlank | scripts/parse_wellbore.py:185-188 | any number of leading blank bytes 0x40 before a well-formed zoned field leave its value unchanged |
| Numeric.ZonedTextSplits | scripts/parse_wellbore.py:185-188 | the text handed to `int()` is the decoded leading bytes followed by the text of the rest of the field |
| Numeric.HexCharClass | scripts/parse_wellbore.py:208-212 | a hex digit below 10 is that decimal digit, a-f are rejected by `int()`, and only nibble 13 upper-cases to `D` |
| Numeric.Nibbles | scripts/parse_wellbore.py:208 | a field has two nibbles per byte, each below 16 |
| Numeric.Hex | scripts/parse_wellbore.py:208 | `data.hex()` has two characters per byte, each the hex digit of its nibble |
| Numeric.MagnitudeNibbles | scripts/parse_wellbore.py:215 | the magnitude is every nibble but the last: 2n-1 of them |
| Numeric.Comp3Text | scripts/parse_wellbore.py:215 | `hex_str[:-1]` is the hex digits of the magnitude nibbles, in order |
| Numeric.Comp3 | scripts/parse_wellbore.py:198-226 | the packed value has the requested decimal scale, and empty input gives 0 |
| Numeric.Comp3SignTest | scripts/parse_wellbore.py:211-212 | the upper-cased last hex digit is `D` exactly when the sign nibble is 13 |
| Numeric.Comp3Value | scripts/parse_wellbore.py:215-226 | with decimal magnitude nibbles, the mantissa is their decimal value, negated exactly when the sign nibble is 13, whatever `integer_digits` is |
| Numeric.Comp3BadNibbleIsZero | scripts/parse_wellbore.py:218-221 | any A-F nibble in the magnitude gives 0 |
| Numeric.Comp3Example | scripts/parse_wellbore.py:198-226 | 12 34 5D with two places is -123.45 and 12 34 5C is 123.45 |
| Numeric.ImpliedDecimal | parse_p4.py:64 | `int(text) / 10^k` succeeds exactly when `int()` accepts the text, at scale k |
| Numeric.ImpliedDecimalRange | parse_p4.py:64-68 | five digit characters give a mantissa in 0..99999 at scale 4, so 0 to 9.9999 in steps of 0.0001 |
| Numeric.ImpliedDecimalSmallest | parse_p4.py:64 | "00001" is 0.0001 |
| Numeric.ImpliedDecimalOne | parse_p4.py:64 | "10000" denotes 1.0 |
| Fields.Field | parse_p4.py:46 | `data[i:j].decode('cp500')` has one character per byte of the clamped range, and encodes back to `data[i..j]` when the range fits |
| Fields.TextField | parse_p4.py:42 | a stripped field is no wider than its range, has no whitespace at either end, and is empty exactly when the range decodes to whitespace only |
| Fields.IntOf | parse_p4.py:43 | `int()` of a field succeeds exactly when the text is an integer literal |
| Fields.OneByteField | scripts/parse_p5.py:84-88 | a one-byte field is exactly the character of that byte |
| Fields.OneByteTextField | parse_p4.py:61-62 | a stripped one-byte field is that byte's character, or empty when the character is whitespace |
| Fields.IntsOf | scripts/parse_wellbore.py:56-68 | reading a list of integer spans yields one integer per span |
| Fields.IntsOfEach | scripts/parse_wellbore.py:56-68 | the spans read succeed exactly when each span is an integer, and each value is that span's |
| Fields.IntsOfFields | scripts/parse_wellbore.py:56-68 | the same, stated per byte range of the record |
| Fields.IntsOfFrame | scripts/parse_wellbore.py:56-68 | texts that agree on every span read give the same integers |
| Fields.FieldFrame | scripts/parse_p5.py:162-175 | records that agree on a byte range give the same field from any range inside it |
| Fields.DigitField | parse_p4.py:43-47 | a range of digit bytes reads as its low nibbles in decimal, below 10^width |
| Fields.BlankField | parse_p4.py:82-84 | a range of EBCDIC blanks strips to empty text and makes `int()` raise ValueError |
| Stream.FullRecords | parse_p4.py:99-102 | the records read are a prefix of the chunks, each non-empty and full length, ending at the first empty or short chunk |
| Stream.Tag | parse_p4.py:104 | the tag of a full record is two characters |
| Stream.TagIsFirstTwoBytes | parse_p4.py:104 | two records have the same tag exactly when their first two bytes agree |
| Wellbore.ParseRoot | scripts/parse_wellbore.py:50-90 | a root decodes only from a record of at least 100 bytes; which ranges it reads is stated by `Wellbore.RootShape` and `Wellbore.RootDecodes` |
| Wellbore.ParseNewLocation | scripts/parse_wellbore.py:93-157 | a decoded location carries the API county and unique number passed in and comes from a record longer than 177 bytes; its failure cases are stated by `Wellbore.LocationFailure` |
| Wellbore.FloatToInt | scripts/parse_wellbore.py:108-118 | `int(float(text))` is negative only for text starting with `-`; its values are stated by `Wellbore.FeetDigits` and `Wellbore.FeetTruncates` |
| Wellbore.Feet | scripts/parse_wellbore.py:108-118 | a distance is negative only for text starting with `-`, and unreadable text gives 0 (`Wellbore.FeetRejectsLetter`) |
| Wellbore.PlaneZone | scripts/parse_wellbore.py:128-129 | the plane zone raises exactly when the stripped text is not blank and `int()` rejects it |
| Wellbore.LocationReadsFlag | scripts/parse_wellbore.py:133-135 | a decoded location's north coordinate is the zoned value of [169:179] at two places, and its verification flag is character 177 |
| Wellbore.RootShape | scripts/parse_wellbore.py:50-90 | a root decodes exactly when its ten integer spans parse and it reaches index 99; its fields are those integers and the characters at 89, 90 and 99 |
| Wellbore.RootDecodes | scripts/parse_wellbore.py:56-74 | a root decodes exactly when each of the ten byte ranges is an integer and the record is at least 100 bytes |
| Wellbore.RootReads | scripts/parse_wellbore.py:56-69 | each integer field is `int()` of its own range: [2:5], [5:10], [14:16], [16:19], [20:22], [22:24], [24:26], [26:28], [28:33], [80:86] |
| Wellbore.RootFlags | scripts/parse_wellbore.py:72-74 | the three flags are the one-character fields at 89, 90 and 99 |
| Wellbore.FeetDigits | scripts/parse_wellbore.py:108-110 | digit text reads as its decimal value |
| Wellbore.FeetTruncates | scripts/parse_wellbore.py:108-110 | `whole.fraction` reads as the whole part: the fraction is truncated |
| Wellbore.FeetRejectsLetter | scripts/parse_wellbore.py:109-112 | text starting with a letter makes `float()` raise, which is read as 0 |
| Wellbore.LocationApiFromArguments | scripts/parse_wellbore.py:93-139 | the API key of a location is the one passed in: decoding with another key succeeds or fails alike and changes only the key |
| Wellbore.LocationFailure | scripts/parse_wellbore.py:99-135 | a location decodes exactly when its county is an integer, its stripped plane zone is blank or an integer, and it reaches index 177 |
| Wellbore.LocationBlankFeet1 | scripts/parse_wellbore.py:108-112 | a blank first distance reads as 0 |
| Wellbore.LocationBlankFeet2 | scripts/parse_wellbore.py:114-118 | a blank second distance reads as 0 |
| Wellbore.LocationBlankPlaneZone | scripts/parse_wellbore.py:128-129 | a blank plane zone reads as 0 |
| Wellbore.VerificationFlagOverlapsNorth | scripts/parse_wellbore.py:133-135 | the verification flag is the ninth byte of the north coordinate's own ten bytes |
| Wellbore.LocationTextTrimmed | scripts/parse_wellbore.py:100-119 | every stripped text field of a location fits its slice and has no whitespace at either end |
| P4.ParseLease | parse_p4.py:40-56 | a decoded lease has an oil/gas code and an on/off schedule of at most one character each; its fields are stated by `P4.LeaseReads` and `P4.LeaseDigits` |
| P4.ParseGpn | parse_p4.py:59-77 | a decoded GPN record has a product code and a type code of at most one character each; its fields are stated by `P4.GpnReads` and `P4.GpnPercentRange` |
| P4.ParseLeaseName | parse_p4.py:80-90 | a decoded lease name is at most 32 characters with no whitespace at either end (`P4.LeaseNameTrimmed`) |
| P4.LeaseReads | parse_p4.py:40-56 | a lease decodes exactly when district [3:5], lease id [5:11], field [11:19] and operator [20:26] are integers, and each field is `int()` of its own range; the codes come from [2:3] stripped and [19:20] |
| P4.LeaseDigits | parse_p4.py:40-56 | a lease whose numeric ranges hold digit bytes 0xF0..0xF9 always decodes, and district, lease id, field and operator are the low nibbles of their bytes read as decimal |
| P4.LeaseCodes | parse_p4.py:42-46 | `oil_gas_code` is byte 2's character or empty if it is whitespace; `on_off_schedule` is exactly byte 19's character |
| P4.LeaseFrame | parse_p4.py:40-56 | only bytes 2..25 influence a lease record |
| P4.GpnReads | parse_p4.py:59-77 | a GPN record decodes exactly when both percentages and both numbers parse, and each field is read from its own range |
| P4.GpnSkipsByte19 | parse_p4.py:66-68 | byte 19 never influences a GPN record |
| P4.PercentField | parse_p4.py:64 | five digit bytes read as a percentage at scale 4 with a mantissa in 0..99999 |
| P4.GpnPercentRange | parse_p4.py:64-68 | with digit bytes, both percentages lie in 0..9.9999 at scale 4 |
| P4.LeaseNameTrimmed | parse_p4.py:84 | the lease name is at most 32 characters, unpadded, and empty exactly when [18:50] is blank |
| P4.TypeName | parse_p4.py:115 | G, H and I are mapped to their names, and any other code of at most one character is shown as itself |
| P4.ListingOf | parse_p4.py:96-118 | the listing fold reports at most one line per 01 or 03 record |
| P4.ListStep | parse_p4.py:104-118 | tags other than 01 and 03 change nothing; without a current lease only 01 acts; a record adds at most one line and keeps the earlier ones |
| P4.ListLeases | parse_p4.py:93-118 | the listing script reports exactly the lines of the listing fold over the full records, and fails exactly when it does |
| P4.ListWith | parse_p4.py:96-118 | the read loop, for any pair of decoders, ends in the fold's lines and failure |
| P4.ListRecord | parse_p4.py:104-118 | the loop body for one record is the fold's step |
| P4.ListingStops | parse_p4.py:96-118 | once a decoder has raised, later records change nothing |
| P4.NothingBeforeFirstLease | parse_p4.py:106-118 | with no 01 record, nothing is reported: a 03 before any lease produces nothing |
| P4.LeaseLinePerRoot | parse_p4.py:106-111 | one lease line is reported per 01 record |
| P4Loader.InfoRowsOf | scripts/create_p4_db.py:65-77 | a flush writes one info row per buffered info record, in order, under the lease key |
| P4Loader.GpnRowsOf | scripts/create_p4_db.py:79-87 | one GPN row per buffered GPN record, in order, with its paired sequence date key |
| P4Loader.LeaseNameRowsOf | scripts/create_p4_db.py:89-94 | one lease name row per buffered lease name, in order |
| P4Loader.Flush | scripts/create_p4_db.py:61-94 | `write_lease` writes no root, counts nothing, and adds one row to each child table per buffered record |
| P4Loader.Run | scripts/create_p4_db.py:96-138 | the read loop counts at most one per record, and every record when nothing raised |
| P4Loader.Finish | scripts/create_p4_db.py:140-142 | the final flush writes no root and changes no count or failure, and does nothing without a current lease |
| P4Loader.LoadOf | scripts/create_p4_db.py:50-142 | the loader counts at most one record per chunk |
| P4Loader.Step | scripts/create_p4_db.py:101-138 | every full record is counted |
| P4Loader.RunStops | scripts/create_p4_db.py:96-138 | once a decoder has raised, later records change nothing |
| P4Loader.WriteInfoRows | scripts/create_p4_db.py:65-77 | the info loop of `write_lease` appends exactly the info rows of the buffer and counts them |
| P4Loader.WriteGpnRows | scripts/create_p4_db.py:79-87 | the GPN loop appends exactly the GPN rows of the buffer and counts them |
| P4Loader.WriteLeaseNameRows | scripts/create_p4_db.py:89-94 | the lease name loop appends exactly the lease name rows of the buffer and counts them |
| P4Loader.WriteLease | scripts/create_p4_db.py:61-94 | `write_lease` is the flush of the buffers under the current key, and every counter equals its table's rows |
| P4Loader.HandleRecord | scripts/create_p4_db.py:101-138 | the loop body for one record is `Step` and keeps the counters equal to the rows |
| P4Loader.HandleRoot | scripts/create_p4_db.py:107-124 | a 01 record flushes the previous lease, writes the root and resets the buffers |
| P4Loader.HandleInfo | scripts/create_p4_db.py:126-128 | a 02 record under a lease is buffered |
| P4Loader.HandleGpn | scripts/create_p4_db.py:130-133 | a 03 record under a lease with an info record is buffered with the latest info's sequence date key |
| P4Loader.HandleLeaseName | scripts/create_p4_db.py:135-138 | a 07 record under a lease is buffered when its name is not empty |
| P4Loader.LoadTables | scripts/create_p4_db.py:50-142 | the loader ends in the fold over the full records, followed by one flush of the last lease when a root was seen and nothing raised |
| P4Loader.ReadRecords | scripts/create_p4_db.py:96-138 | the read loop ends in the fold over the full records |
| P4Loader.RootFlushesPreviousLease | scripts/create_p4_db.py:107-124 | a root writes the previous lease's buffered rows under the previous key; once it decodes, its key is current, its row is written at once and all three buffers are empty |
| P4Loader.OrphansDropped | scripts/create_p4_db.py:126-138 | before any root, 02, 03 and 07 records change nothing but the record count |
| P4Loader.GpnTakesLatestInfo | scripts/create_p4_db.py:130-133 | a 03 record is dropped without an info record, and is otherwise paired with the most recent info's sequence date key |
| P4Loader.EmptyLeaseNameDropped | scripts/create_p4_db.py:135-138 | a 07 record whose stripped name is empty is dropped |
| P4Loader.InfoSinceRoot | scripts/create_p4_db.py:112-133 | the current lease holds an info record only when a root was read before it |
| P4Loader.AcceptedGpns | scripts/create_p4_db.py:130-133 | the 03 records kept are those arriving while the current lease has an info record, a subset of the 03 records under a root |
| P4Loader.AcceptedLeaseNames | scripts/create_p4_db.py:135-138 | the 07 records kept are those under a root whose name is not empty, a subset of the 07 records under a root |
| P4Loader.StepBuffers | scripts/create_p4_db.py:112-138 | a 01 record empties the info buffer and moves the GPN and lease name buffers into their tables; a 03 adds one GPN only when an info record is buffered; a 07 adds one name only when it is not empty |
| P4Loader.RunAccounts | scripts/create_p4_db.py:96-138 | there is a current lease exactly when a root was read and no buffer holds anything before it, one root row per 01 record, the info buffer is non-empty exactly when an info record followed the last root, and every 02 under a root, every kept 03 and every kept 07 is written or still buffered; every record is counted |
| P4Loader.FinishWritesBuffers | scripts/create_p4_db.py:140-142 | the final flush moves every buffered info, GPN and lease name record into its table and writes no root |
| P4Loader.EveryChildWrittenOnce | scripts/create_p4_db.py:61-142 | counts only: after the final flush there are as many info rows as 02 records under a root, as many GPN rows as kept 03 records and as many lease name rows as kept 07 records; which rows they are is `P4Loader.TablesHoldLeaseChildren` |
| P4Loader.LatestKey | scripts/create_p4_db.py:107-124 | the current lease key is the key of the latest 01 record, and there is one only after some 01 record |
| P4Loader.LatestInfo | scripts/create_p4_db.py:112-128 | the latest info record buffered since the last root, if any; there is one only when an info record followed a root |
| P4Loader.RootTable | scripts/create_p4_db.py:107-124 | the reference root table: each 01 record's decoding in order, at most one per 01 record |
| P4Loader.InfoTable | scripts/create_p4_db.py:126-128 | the reference info table: each 02 record under a root, decoded, under that root's key, at most one per such record |
| P4Loader.GpnTable | scripts/create_p4_db.py:130-133 | the reference GPN table: each 03 record under a lease with an info record, under the lease's key and the latest info's sequence date key, at most one per kept 03 |
| P4Loader.LeaseNameTable | scripts/create_p4_db.py:135-138 | the reference lease name table: each 07 record under a root with a non-empty name, under that root's key |
| P4Loader.InfoRowsOfAppend | scripts/create_p4_db.py:65-77 | one more buffered info record gives one more row at the end of the flush |
| P4Loader.GpnRowsOfAppend | scripts/create_p4_db.py:79-87 | one more buffered GPN record gives one more row at the end of the flush |
| P4Loader.LeaseNameRowsOfAppend | scripts/create_p4_db.py:89-94 | one more buffered lease name gives one more row at the end of the flush |
| P4Loader.FinishWritesPending | scripts/create_p4_db.py:140-142 | the final flush appends exactly the rows pending in the buffers under the current key, and no root |
| P4Loader.StepOnRoot | scripts/create_p4_db.py:107-124 | a 01 record that decodes writes the pending rows of the previous lease, writes its root, makes its key current and empties the buffers, and changes nothing else |
| P4Loader.StepOnInfo | scripts/create_p4_db.py:126-128 | a 02 record under a lease appends its decoding to the info buffer and changes nothing else |
| P4Loader.StepOnGpn | scripts/create_p4_db.py:130-133 | a 03 record under a lease with an info record appends its decoding, paired with the latest info's sequence date key, and changes nothing else |
| P4Loader.StepOnLeaseName | scripts/create_p4_db.py:135-138 | a 07 record under a lease appends its decoding when the name is not empty, and changes nothing else |
| P4Loader.StepOnOther | scripts/create_p4_db.py:101-138 | any other record, orphans included, is only counted |
| P4Loader.StepCases | scripts/create_p4_db.py:101-138 | the five cases above together cover every record |
| P4Loader.StepKeys | scripts/create_p4_db.py:107-128 | only a 01 record changes the current key and the root table, and the info buffer grows only by a 02 under a lease and is emptied only by a 01 |
| P4Loader.RunKeys | scripts/create_p4_db.py:96-138 | without an error, the current key is `LatestKey`, the last buffered info is `LatestInfo`, and the root rows are `RootTable` |
| P4Loader.StepInfoTable | scripts/create_p4_db.py:101-138 | each record adds to the written and pending info rows exactly its own row when it is a 02 under a lease |
| P4Loader.StepGpnTable | scripts/create_p4_db.py:101-138 | each record adds to the written and pending GPN rows exactly its own row when it is a 03 under a lease with an info record |
| P4Loader.StepLeaseNameTable | scripts/create_p4_db.py:101-138 | each record adds to the written and pending lease name rows exactly its own row when it is a 07 under a lease with a non-empty name |
| P4Loader.RunTables | scripts/create_p4_db.py:96-138 | without an error, the rows written plus those still buffered are the reference info, GPN and lease name tables |
| P4Loader.TablesHoldLeaseChildren | scripts/create_p4_db.py:50-142 | without an error, the four tables after the final flush are exactly the reference tables: every root in order, and every child row its own record's decoding under the key of the root it followed, each GPN with the latest info before it |
| P5.ParseOrg | scripts/parse_p5.py:80-132 | an organization decodes exactly when the operator number [2:8] does, and then carries that number; its other fields are stated by `P5.OrgTextTrimmed` and `P5.OrgFlags` |
| P5.ParseSpecialty | scripts/parse_p5.py:135-157 | a specialty record decodes exactly when the operator number does, and then carries that number |
| P5.ParseOfficer | scripts/parse_p5.py:160-192 | an officer record decodes exactly when the operator number does, and then carries that number (`P5.OfficerFrame` for its byte ranges) |
| P5.ParseActivity | scripts/parse_p5.py:195-207 | an activity record decodes exactly when the operator number does, and then carries that number (`P5.ActivityDistricts` for its flags) |
| P5.SharedHeader | scripts/parse_p5.py:80-207 | each of the four decoders succeeds exactly when [2:8] is an integer, and all four then agree on the operator number and the stripped name [8:40] |
| P5.OrganizationNameTrimmed | scripts/parse_p5.py:83 | the organization name is at most 32 characters and unpadded |
| P5.OrgFlags | scripts/parse_p5.py:84-88 | the five codes at bytes 40-44 are kept unstripped, each exactly its byte's character |
| P5.OrgFlagFields | scripts/parse_p5.py:84-88 | the five codes are the full-width fields [40:41] to [44:45] |
| P5.OrgTextTrimmed | scripts/parse_p5.py:83-105 | every stripped text field of an organization fits its slice and has no whitespace at either end |
| P5.ActivityDistricts | scripts/parse_p5.py:200 | the district flags are the 14 unstripped characters of [46:60], one per byte, and encode back to those bytes |
| P5.OfficerFrame | scripts/parse_p5.py:160-192 | an officer record depends only on bytes [2:190] and [276:300] |
| P5.ListingOf | scripts/parse_p5.py:213-248 | the listing fold counts at most one per record, and every record when nothing raised |
| P5.ListStep | scripts/parse_p5.py:223-246 | every record is counted; a 1T record does nothing more; F, K and U records do nothing more before an organization |
| P5.ListingStops | scripts/parse_p5.py:217-246 | once a decoder has raised, later records change nothing |
| P5.ListOrganizations | scripts/parse_p5.py:210-248 | the listing script reports the lines and the record count of the fold over the full records, and fails exactly when it does |
| P5.ListWith | scripts/parse_p5.py:213-248 | the read loop, for any decoders, ends in the fold's lines, count and failure |
| P5.ListRecord | scripts/parse_p5.py:223-246 | the loop body for one record is the fold's step |
| P5.ListOrg | scripts/parse_p5.py:230-234 | an `A ` record becomes the current organization and is reported with its name cut to 40 characters and its status |
| P5.ListSpecialty | scripts/parse_p5.py:236-238 | an `F ` record under an organization reports its specialty code |
| P5.ListOfficer | scripts/parse_p5.py:240-242 | a `K ` record under an organization reports the officer's name and title |
| P5.ListActivity | scripts/parse_p5.py:244-246 | a `U ` record under an organization reports its activity indicator code |
| P5.EveryRecordCounted | scripts/parse_p5.py:223 | without an error, the count is the number of full records, skipped ones included |
| P5.NothingBeforeFirstOrg | scripts/parse_p5.py:236-246 | with no `A ` record nothing is reported and no organization is current |
| P5.SkippedRecord | scripts/parse_p5.py:226-228 | a 1T record, or one with an unknown tag, only adds to the count |
| P5.OrgNameNotCut | scripts/parse_p5.py:233 | `organization_name[:40]` is the whole name, which is never longer than 32 |
| P5Loader.Run | scripts/create_p5_db.py:90-148 | the loader counts at most one per record, and every record when nothing raised; its tables are stated by `P5Loader.TablesHoldTaggedRecords` |
| P5Loader.Step | scripts/create_p5_db.py:96-148 | every full record is counted |
| P5Loader.RunStops | scripts/create_p5_db.py:90-148 | once a decoder has raised, later records change nothing |
| P5Loader.HandleRecord | scripts/create_p5_db.py:100-148 | the loop body for one record is the step and keeps each counter equal to its table's rows |
| P5Loader.WriteOrg | scripts/create_p5_db.py:107-119 | an `A ` record writes its organization row and counts it |
| P5Loader.WriteSpecialty | scripts/create_p5_db.py:121-128 | an `F ` record writes its row, with no organization needed |
| P5Loader.WriteOfficer | scripts/create_p5_db.py:130-140 | a `K ` record writes its row, with no organization needed |
| P5Loader.WriteActivity | scripts/create_p5_db.py:142-148 | a `U ` record writes its row, with no organization needed |
| P5Loader.LoadTables | scripts/create_p5_db.py:90-148 | the read loop, for any decoders, ends in the fold over the full records, with counters equal to the rows |
| P5Loader.CreateP5Db | scripts/create_p5_db.py:90-148 | the same, with the four P-5 decoders |
| P5Loader.TablesHoldTaggedRecords | scripts/create_p5_db.py:96-148 | without an error, each table is exactly the decoding of the records with its tag, in stream order, and every record is counted |
| P5Loader.StepWrites | scripts/create_p5_db.py:107-148 | a record adds one row to its own table and leaves the other three alone |
| P5Loader.SkippedRecord | scripts/create_p5_db.py:100-148 | a record with any other tag, 1T included, only adds to the record count |
| WellboreLoader.Run | scripts/create_wellbore_db.py:56-103 | the loader counts at most one per record, and every record when nothing raised; its tables are stated by `WellboreLoader.LocationsUnderRoots` |
| WellboreLoader.Step | scripts/create_wellbore_db.py:61-103 | every full record is counted |
| WellboreLoader.RunStops | scripts/create_wellbore_db.py:56-103 | once a decoder has raised, later records change nothing |
| WellboreLoader.HandleRecord | scripts/create_wellbore_db.py:65-103 | the loop body for one record is the step and keeps each counter equal to its table's rows |
| WellboreLoader.WriteRoot | scripts/create_wellbore_db.py:67-78 | a 01 record writes its root row and makes its API key current |
| WellboreLoader.WriteLocation | scripts/create_wellbore_db.py:80-93 | a 13 record under a root is decoded with the current API key and written |
| WellboreLoader.WriteWellId | scripts/create_wellbore_db.py:95-103 | a 21 record under a root is decoded with the current API key and written |
| WellboreLoader.LoadTables | scripts/create_wellbore_db.py:50-103 | the read loop, for any decoders, ends in the fold over the full records, with counters equal to the rows |
| WellboreLoader.ChildrenNeedRoot | scripts/create_wellbore_db.py:80-95 | before the first root, every record other than 01 only adds to the count |
| WellboreLoader.ChildrenUseCurrentApi | scripts/create_wellbore_db.py:80-103 | under a root, a 13 or 21 record appends exactly its decoding with the current API key to its own table |
| WellboreLoader.LocationDecoderKeepsApi | scripts/parse_wellbore.py:137-139 | the location decoder puts the API key it is given into its record |
| WellboreLoader.LocationsUnderRoots | scripts/create_wellbore_db.py:56-103 | without an error: there is a current key exactly when a root was written, it is the latest root's, every location row carries some root's key, one root row is written per 01 record, and every record is counted |
| WellboreLoader.CreateWellboreDb | scripts/create_wellbore_db.py:50-103 | the loader with the Well Bore decoders is the fold, and without an error every location row carries the key of a root row |

## Left out

- Floating point: every decoded number is an exact `FixedPoint`. The model does not include the
  rounding of `value / 10**k` to a binary float, or the `-0.0` that a negative sign on a zero
  magnitude gives.
- Wellbore.Feet: `int(float(text))` is modelled for signed digit text with underscores and at
  most one decimal point, with the fraction truncated. Exponent notation (`1e3`), `inf` and `nan`
  all read as 0. Python reads the exponent form as its value and reads `nan` as 0 through the
  caught `ValueError`. On infinity, `int()` raises `OverflowError`, which is not caught and would
  end the run.
- The decoders `parse_root_record` and `parse_info_record`, which `scripts/create_p4_db.py`
  imports from `scripts/parse_p4.py`, are not part of this model. The same holds for that
  file's `parse_gpn_record` and `parse_lease_name_record`. So all four P-4 loader decoders are
  parameters, and the info and GPN records are opaque values. The GPN columns
  `current_p4_filing`, `inter_flag` and `intra_flag` are therefore not modelled.
- `parse_well_id_record` is not part of this model: it is a parameter of the Well Bore loader,
  and its record is an opaque value.
- Input and output:
  - Input: gzip and zip detection and decompression, opening files, and command-line arguments.
    The input is the sequence of chunks that successive `read(n)` calls return.
  - Output: CSV writers, header rows and file paths. A table is the sequence of its rows, and a
    row holds every field of its record.
  - Listings and messages: the progress and summary messages, and the text layout of the
    listing lines (`:06d`, `:.4f`, thousands separators). A listing line keeps the values it
    shows. The P-4 type code is mapped to its name as the listing does.
- The drivers' state is the local variables of each script's `main`, threaded through the loop
  body as values rather than held in an object. The model does not capture the aliasing of the
  buffers that `write_lease` reads through `nonlocal`.
- An exception other than `ValueError` from `int()` or `IndexError` from indexing is not
  modelled: `MemoryError`, I/O errors, and interruption.
