# HORI Truck Control System HID drivers, modelled in Dafny

This project models three Linux HID drivers for the HORI Truck Control
System (TCS). The wheel is USB product 0x017a and the shifter is 0x0186,
both under vendor 0x0f0d. The three drivers overlap:

- `hid-hori.c` substitutes both report descriptors. It decodes the wheel's axes and hat, declares those axes, and skips the HID core's mapping of the wheel's axis usages.
- `hid-hori-multisticks.c` substitutes the shifter descriptor. It decodes 43 shifter buttons bit by bit and declares key capabilities.
- `hid-hori-wheels.c` substitutes both descriptors from its own copies. It decodes wheel and shifter reports with fixed byte expressions and declares key and axis capabilities. It also adjusts HID fields in `input_mapped`, and keeps, commented out, an alternating-frame handler over a two-field private state.

Each driver is modelled as it is written, defects included. The defects are
stated as lemmas.

## Modules

| module | file | what it holds |
|---|---|---|
| `Bytes` | `bytes.dfy` | The byte type, and C's `>>`, `<<` and `& 1` on a promoted byte. |
| `HidIds` | `hid_ids.dfy` | USB ids, Generic Desktop usages and the relative-field flag. |
| `HidItems` | `hid_items.dfy` | HID short items, as section 6.2.2.2 of the Device Class Definition for HID 1.11 defines them. It holds an encoder and a parser proved inverse to each other, plus a walker that counts each input report's bits and records Report IDs and Collection nesting. |
| `InputEvents` | `input_events.dfy` | Event types and codes. Emitted events are appended to a sequence. The class `InputDev` holds the capability bitmaps as sets and the axis parameters as a map. |
| `TcsDescriptors` | `tcs_descriptors.dfy` | The two replacement descriptors, row by row, and the copies the other two drivers hold. Also what the walker finds in each descriptor. |
| `Hori` | `hori.dfy` | `hid-hori.c` |
| `HoriMultisticks` | `hori_multisticks.dfy` | `hid-hori-multisticks.c` |
| `HoriWheels` | `hori_wheels.dfy` | `hid-hori-wheels.c` |

### Conventions

**Functions, methods and state.**
- The report fixups and report decoders are pure functions.
  - A fixup maps (product, descriptor bytes) to the descriptor bytes it returns. `*rsize` is the length of that result.
  - A decoder maps the report bytes to the sequence of events it emits.
- The `input_configured` callbacks are methods on an `InputDev`. Each states its whole new state.
- `hori_input_mapped` is a method on a `HidField` object.
- The alternating-frame handler is a class `HoriPriv` whose method rewrites an `array<byte>` in place.

**Data conventions.**
- `data[0]` is the Report ID byte of the report.
- `input_report_key(dev, EV_MSC, MSC_SCAN)` is what the C makes of it: a key event for code 4 with value 1.
- An `input_event(dev, EV_KEY, code, v)` carries `v` unreduced.
- `input_report_key` reduces its value to 0 or 1.

**Assumptions about missing definitions.**
- Two product names are not defined in `hid-ids.h`: `USB_DEVICE_ID_HORI_TRUCK_CONTROL_SYSTEM_WHEEL` and `_SHIFTER`, which two of the drivers use. They are taken to be the ids it does define, 0x017a and 0x0186.
- `ABS_CLUTCH` is `ABS_RZ` in both files that define it.

## Model

| member | source | states |
|---|---|---|
| `HidItems.DataSize` | hid-hori.c:38-111 | A prefix announces 0, 1, 2 or 4 data bytes, and size code 3 means four. |
| `HidItems.Unsigned` | hid-hori.c:46 | Item data is read little-endian. Up to two bytes give a value below 0x10000 whose low byte is the first data byte. |
| `HidItems.Prefix` | hid-hori.c:38-154 | The prefix built for an encodable item is a short-item prefix. It announces the item's data length and decodes back to the same item. |
| `HidItems.PrefixOfItem` | hid-hori.c:38-154 | Every short-item prefix, with data of the length it announces, is an encodable item whose prefix is that byte again. |
| `HidItems.ParseEncode` | hid-hori.c:38-154 | Parsing the encoding of any encodable item list gives the list back. |
| `HidItems.EncodeParse` | hid-hori.c:38-154 | Whatever the parser accepts, re-encoding the parsed items gives back exactly the input bytes. So accepted items tile the bytes. |
| `HidItems.ParseConcat` | hid-hori.c:38-154 | A byte array written as short-item rows parses into those rows' items, in order. |
| `HidItems.Step` | hid-hori.c:38-154 | An item adds bits only when it is an Input item of the walked report. It then adds the current report size times report count. An item appends a Report ID only when it is a Report ID item. |
| `HidItems.RunSnoc` | hid-hori.c:38-154 | Walking a list is walking all but its last item, then stepping over the last. |
| `HidItems.InputReportLength` | hid-hori.c:42 | A numbered report is at least one byte long: the Report ID byte. |
| `InputEvents.ReportKey` | hid-hori-multisticks.c:95 | `input_report_key` sends a key event whose value is 0 exactly when its argument is 0, and 1 otherwise. |
| `InputEvents.Codes` | hid-hori.c:196-209 | The codes of one event type in a stream are exactly the codes of the events of that type. |
| `InputEvents.CodeRange` | hid-hori-multisticks.c:192-194 | The n consecutive codes from lo: exactly the codes in [lo, lo + n), n of them. |
| `InputEvents.RangesDisjoint` | hid-hori-multisticks.c:175-194 | Non-overlapping ranges share no code, and their union has the sum of their sizes. |
| `InputEvents.RangeConcat` | hid-hori-wheels.c:337-391 | Two adjacent ranges make one. |
| `InputEvents.JoystickKeys` | hid-hori-multisticks.c:175-190 | The sixteen `set_bit` calls add exactly BTN_TRIGGER..BTN_DEAD to the key bitmap. |
| `InputEvents.InputDev.SetAbsParams` | hid-hori.c:251-261 | `input_set_abs_params` sets EV_ABS and the axis bit and records (min, max, fuzz, flat). It changes nothing else, and is idempotent on the bits. |
| `InputEvents.InputDev.SetCapability` | hid-hori-wheels.c:419-474 | `input_set_capability` sets the type bit and the code in that type's bitmap. It changes nothing else. |
| `TcsDescriptors.Rows` | hid-hori.c:38-154 | Each descriptor is its sequence of rows, and every row is one HID short item. |
| `TcsDescriptors.Items` | hid-hori.c:38-154 | The items of a descriptor are its rows' items, row by row. |
| `TcsDescriptors.ParsesToRows` | hid-hori.c:38-154 | Each descriptor's bytes parse, with nothing left over, into exactly its rows' items. |
| `TcsDescriptors.WalkIsLayout` | hid-hori.c:38-154 | Walking the first k items reaches the parser state the descriptor's layout table records before row k. |
| `TcsDescriptors.PrefixLength` | hid-hori.c:38-154 | The first k rows take exactly the byte offset the layout table records. |
| `TcsDescriptors.RunIsLayout` | hid-hori.c:38-154 | The whole walk ends in the table's last state, and the descriptor's length is the last offset. |
| `TcsDescriptors.DescriptorLength` | hid-hori.c:38-154 | The wheel replacement is 156 bytes and the shifter replacement 83. |
| `TcsDescriptors.CopyRows` | hid-hori-wheels.c:114-230 | A copy has as many rows as the descriptor it duplicates. |
| `TcsDescriptors.CopyIsIdentical` | hid-hori-wheels.c:114-230 | The wheel and shifter arrays of hid-hori-wheels.c and the shifter array of hid-hori-multisticks.c are byte for byte those of hid-hori.c. |
| `TcsDescriptors.WheelHatItems` | hid-hori.c:43-51 | The hat has logical range 0..7 and usage Hat switch. Its Input item is a variable with a Null state. |
| `TcsDescriptors.WheelButtonItems` | hid-hori.c:56-60 | The wheel's buttons are usages 1..54, then an Input item. |
| `TcsDescriptors.WheelAxisItems` | hid-hori.c:76-83 | The rows that close the axes and the vendor bytes are Input items. |
| `TcsDescriptors.WheelReport1Fields` | hid-hori.c:42-83 | Report 1 has a 4-bit hat at bit 0, 54 one-bit buttons at bit 4, eight 16-bit axes at bit 64 and four vendor bytes at bit 192. |
| `TcsDescriptors.ShifterReport1Items` | hid-hori.c:123-136 | The shifter's buttons are usages 1..43. Its five padding bits are constant, and its vendor bytes close with an Input item. |
| `TcsDescriptors.ShifterReport1Fields` | hid-hori.c:117-136 | Report 1 has 43 one-bit buttons at bit 0, five padding bits at bit 43 and four vendor bytes at bit 48. |
| `TcsDescriptors.WheelPhysicalMaximum` | hid-hori.c:46 | The four bytes on the Physical Maximum line are two items: Physical Maximum 0x073b, then a Usage item with no data. |
| `TcsDescriptors.WheelParses` | hid-hori.c:38-111 | The wheel descriptor is 156 bytes and parses into exactly its 73 rows. |
| `TcsDescriptors.WheelBalanced` | hid-hori.c:41-110 | Every wheel Collection is closed by an End Collection, never below depth 0. |
| `TcsDescriptors.WheelReportIds` | hid-hori.c:42-101 | The wheel declares Report IDs 1, 0x20 and 0x21, in that order, each once. |
| `TcsDescriptors.WheelReports` | hid-hori.c:42-107 | Input reports 1, 0x20 and 0x21 hold 224, 248 and 504 bits, and other ids none. Report 1 is 29 bytes with its id. |
| `TcsDescriptors.ShifterParses` | hid-hori.c:113-154 | The shifter descriptor is 83 bytes and parses into exactly its 40 rows. |
| `TcsDescriptors.ShifterBalanced` | hid-hori.c:116-153 | Every shifter Collection is closed, never below depth 0. |
| `TcsDescriptors.ShifterReportIds` | hid-hori.c:117-144 | The shifter declares Report IDs 1 and 0x22, each once. |
| `TcsDescriptors.ShifterReports` | hid-hori.c:117-150 | Input reports 1 and 0x22 hold 80 and 504 bits. Report 1 is 11 bytes with its id. |
| `Hori.ReportFixup` | hid-hori.c:168-190 | The wheel replacement is returned exactly for product 0x017a at size 155, and the shifter replacement exactly for 0x0186 at size 83. Any other input comes back unchanged. |
| `Hori.FixupSize` | hid-hori.c:23-24 | The size left behind is 156 for a fixed wheel, 83 for a fixed shifter, and the original size otherwise. |
| `Hori.FixupIdempotent` | hid-hori.c:168-190 | Fixing up a fixed-up descriptor changes nothing. |
| `Hori.Sign` | hid-hori.c:156-166 | The sign of a table component: 0, 1 or -1 as the component is zero, positive or negative. |
| `Hori.HatTableIsClockwise` | hid-hori.c:156-166 | Row 0 is the centre and row 1 is up, (0, -1). Rows 1..8 turn clockwise, and the last turns back into the first. All eight directions are distinct and none is the centre. |
| `Hori.HatAxes` | hid-hori.c:194-207 | The corrected hat lookup counts as the descriptor does: nibble n in 0..7 is direction n, row n + 1 of `hat_to_axis`, so nibble 0 is up. Nibbles 8..15, the Null state, report the centre. Both components lie within the declared [-1, 1]. |
| `Hori.HatCentredIff` | hid-hori.c:156-166 | The corrected lookup reports the centre exactly for the Null state, nibbles 8..15. |
| `Hori.HatFollowsDescriptor` | hid-hori.c:43-51 | The descriptor declares hat values 0..7 with a Null state. The lookup follows it: nibble 0 is up, directions 0..7 turn clockwise back to the first, and nibble 8 is the centre. |
| `Hori.FlatHatToAxis` | hid-hori.c:156 | The two-column table laid out row after row: entry i is column i mod 2 of row i / 2. |
| `Hori.AsWrittenHat` | hid-hori.c:206-207 | As written, the hat lookup stays inside the array exactly for nibbles 0..5. |
| `Hori.AsWrittenHatReadsOtherRows` | hid-hori.c:206-207 | As written, nibbles up to 5 read the x of rows hat+1 and hat+3. The y read leaves the array from nibble 6 and the x read from nibble 8, so the valid directions 6 and 7 read past the table. |
| `Hori.HatAgreesWithAsWritten` | hid-hori.c:206-207 | Wherever the C lookup stays inside the array (nibbles 0..5), it reports what the corrected lookup reports. For directions 6 and 7 its in-bounds x read is right too. |
| `Hori.AxisValue` | hid-hori.c:196-203 | `data[k] << 8` is 256·data[k]: a multiple of 256 no greater than 65280. |
| `Hori.ParseAxisReport` | hid-hori.c:192-210 | The decoder emits eleven absolute-axis events. Events 8 and 9 are ABS_HAT0X and ABS_HAT0Y carrying the hat lookup of the low nibble of data[1]. |
| `Hori.AxisReportOrder` | hid-hori.c:196-209 | Event i is an absolute event on the i-th axis in the driver's order: X, Y, Wheel, Rx, Ry, Clutch, Gas, Brake, Hat0X, Hat0Y, Misc. |
| `Hori.RawEvent` | hid-hori.c:212-225 | Other products emit nothing. The wheel emits the decoded axis report followed by one sync. |
| `Hori.InputConfigured` | hid-hori.c:227-264 | Other products leave the device unchanged. The wheel gains EV_ABS, the eleven axes and their parameters, and nothing else. |
| `Hori.DeclareAxes` | hid-hori.c:239-249 | The eleven `set_bit` calls add exactly the declared axes and change nothing else. |
| `Hori.SetAxisParams` | hid-hori.c:251-261 | The eleven `input_set_abs_params` calls merge exactly the declared parameter table into the device. |
| `Hori.ParamsMerge` | hid-hori.c:251-261 | Eleven successive updates equal one merge of the parameter table. |
| `Hori.ParamsCoverDeclaredAxes` | hid-hori.c:239-261 | Every declared axis gets parameters, and no other axis does. |
| `Hori.DecodedAxesAreDeclared` | hid-hori.c:196-249 | The wheel reports exactly the axes it declares, and no key. |
| `Hori.ReportedAxesDeclared` | hid-hori.c:196-249 | Every axis the wheel reports is declared. |
| `Hori.DeclaredAxesReported` | hid-hori.c:196-249 | Every declared axis is reported. |
| `Hori.AxesWithinDeclaredRange` | hid-hori.c:196-258 | Each of the eight axes reports a value within its declared [0, 65535]. |
| `Hori.HatWithinDeclaredRange` | hid-hori.c:206-260 | With the corrected lookup, both hat axes stay within their declared [-1, 1]. |
| `Hori.MiscOutOfRange` | hid-hori.c:209-261 | ABS_MISC reports `data[26] << 8`, that is 256 × data[26], but is declared 0..255. It exceeds its maximum exactly when `data[26]` is not 0. |
| `Hori.ReadsOnlyAxisReportBytes` | hid-hori.c:192-210 | Two reports that agree on bytes 1, 10, 12, …, 26 decode to the same events. |
| `Hori.AxisReportFits` | hid-hori.c:42-83 | Every byte the decoder reads lies inside the 29-byte report 1. |
| `Hori.AxisReportBytesBelow` | hid-hori.c:194-209 | The decoder reads no byte beyond index 26. |
| `Hori.AxisField` | hid-hori.c:65-76 | Axis field j of report 1 is the 16-bit little-endian value in bytes 9 + 2j and 10 + 2j. |
| `Hori.AxisFieldOf` | hid-hori.c:68-75 | Each reported axis reads one of the eight descriptor axis fields. |
| `Hori.AxisIsFieldHighByte` | hid-hori.c:196-203 | Each reported axis is its descriptor field with the low byte dropped. |
| `Hori.AxisReadsField` | hid-hori.c:196-203 | Each reported axis is 256 times the high byte of its descriptor field. |
| `Hori.InputMapping` | hid-hori.c:266-282 | The mapping callback returns only -1 or 0. |
| `Hori.MappingSkipsIff` | hid-hori.c:270-281 | Mapping returns -1 exactly for the wheel and the eight skipped Generic Desktop usages. |
| `Hori.MappingSkipsDescriptorAxes` | hid-hori.c:68-75 | Every axis usage of the wheel descriptor is one the mapping skips. |
| `Hori.MappingSkipsLowAxes` | hid-hori.c:68-71 | The X, Y, Z and Rx usage rows are skipped usages. |
| `Hori.MappingSkipsHighAxes` | hid-hori.c:72-75 | The Ry, Rz and both Slider usage rows are skipped usages. |
| `HoriMultisticks.ReportFixup` | hid-hori-multisticks.c:72-91 | The shifter copy is returned exactly for product 0x0186 at size 83, and anything else comes back unchanged. |
| `HoriMultisticks.FixupAgreesWithHori` | hid-hori-multisticks.c:76-89 | The fixup is hid-hori.c's, except that it leaves the wheel's descriptor alone. |
| `HoriMultisticks.FixupIdempotent` | hid-hori-multisticks.c:23 | The size left behind is 83 or the original, and fixing up twice is fixing up once. |
| `HoriMultisticks.Button` | hid-hori-multisticks.c:97-139 | Each button line reads a bit 0..7 of one of data[1..6]. |
| `HoriMultisticks.ButtonValue` | hid-hori-multisticks.c:97-139 | `data[i] >> s & 1` is 0 or 1. |
| `HoriMultisticks.ButtonEvent` | hid-hori-multisticks.c:97-139 | Button n's event is a key event with its code. Its value is bit BitPosition(n) of the payload behind the Report ID: bit BitPosition(n) mod 8 of data[1 + BitPosition(n) div 8]. That byte lies inside the report, and the value is 0 or 1. |
| `HoriMultisticks.ButtonEvents` | hid-hori-multisticks.c:93-140 | The decoder emits the scan key event, then the 43 button events in order. |
| `HoriMultisticks.RawEvent` | hid-hori-multisticks.c:142-156 | The shifter's events are its decoded buttons, then a sync. Every other product still emits the sync. |
| `HoriMultisticks.ButtonValuesAreBits` | hid-hori-multisticks.c:97-139 | Every emitted button value is 0 or 1. |
| `HoriMultisticks.BitPosition` | hid-hori-multisticks.c:97-139 | Each button reads a bit below 48, counting from data[1] bit 0. |
| `HoriMultisticks.ButtonLayout` | hid-hori-multisticks.c:97-139 | Buttons 1..8 and 17..43 read bit (n-1) mod 8 of data[1 + (n-1) div 8], which is bit n-1. Buttons 9..16 read data[2] bits 0, 5, 6, 7, 0, 1, 2, 3. |
| `HoriMultisticks.ButtonLayoutLow` | hid-hori-multisticks.c:97-104 | Buttons 1..8 read data[1] bit n-1. |
| `HoriMultisticks.ButtonLayoutMiddle` | hid-hori-multisticks.c:105-112 | Buttons 9..16 read data[2] at the irregular shifts. |
| `HoriMultisticks.ButtonLayoutHigh` | hid-hori-multisticks.c:113-128 | Buttons 17..30 read bit (n-1) mod 8 of data[1 + (n-1) div 8]. |
| `HoriMultisticks.ButtonLayoutTop` | hid-hori-multisticks.c:129-139 | Buttons 31..43 read bit (n-1) mod 8 of data[1 + (n-1) div 8]. |
| `HoriMultisticks.BitPositionCases` | hid-hori-multisticks.c:97-139 | A button's bit position is n-1, except for buttons 9..16. |
| `HoriMultisticks.ButtonsAlias` | hid-hori-multisticks.c:105-109 | Buttons 9 and 13 read the same bit, data[2] bit 0. No other two buttons share a bit. |
| `HoriMultisticks.ButtonsSkipBitTwelve` | hid-hori-multisticks.c:105-112 | The 43 buttons read exactly the 42 bits 0..42 other than bit 12, which is data[2] bit 4. |
| `HoriMultisticks.ReadsOnlyBytesOneToSix` | hid-hori-multisticks.c:97-139 | Two reports that agree on data[1..6] decode to the same events. |
| `HoriMultisticks.ButtonsInsideReport` | hid-hori-multisticks.c:39-52 | Every button bit lies inside the 11-byte report 1, among the 43 button bits the descriptor declares. |
| `HoriMultisticks.ButtonCode` | hid-hori-multisticks.c:97-139 | Button n reports BTN_TRIGGER + n - 1 for n ≤ 16 and BTN_TRIGGER_HAPPY1 + n - 17 above. |
| `HoriMultisticks.ShifterKeys` | hid-hori-multisticks.c:175-194 | The capability branch's keys are the 16 joystick codes and BTN_TRIGGER_HAPPY1..27: 43 codes. |
| `HoriMultisticks.InputConfigured` | hid-hori-multisticks.c:158-199 | Every product gains MSC_SCAN in the Misc bitmap and the Key and Abs types. The wheel also gains the 43 keys. |
| `HoriMultisticks.DeclareShifterKeys` | hid-hori-multisticks.c:175-194 | The sixteen `set_bit` calls and the loop add exactly the 43 keys, and change nothing else. |
| `HoriMultisticks.EmittedKeys` | hid-hori-multisticks.c:93-194 | The decoder emits exactly the 43 declared keys plus code 4 from the scan line, which is declared nowhere. |
| `HoriMultisticks.EmittedKeysListed` | hid-hori-multisticks.c:93-139 | Every emitted key code is declared, or is code 4. |
| `HoriMultisticks.ListedKeysEmitted` | hid-hori-multisticks.c:93-139 | Every declared key, and code 4, is emitted. |
| `HoriMultisticks.BoundDeviceDeclaresNoKeys` | hid-hori-multisticks.c:173-215 | The only device the driver binds, the shifter, gets no key capability, though its 43 keys match the descriptor's Usage Maximum of 43. |
| `HoriWheels.ReportFixup` | hid-hori-wheels.c:232-260 | The wheel copy is returned exactly for the wheel at size 155, and the shifter copy for the shifter at size 83. Anything else comes back unchanged. |
| `HoriWheels.FixupAgreesWithHori` | hid-hori-wheels.c:237-258 | The fixup equals hid-hori.c's on every input, and is idempotent. |
| `HoriWheels.HatLookupsAgree` | hid-hori-wheels.c:599-637 | The corrected hid-hori.c lookup and the wheel driver's hat mapping are the same table. Value n is the same direction in both, value 0 is up (0, -1), and value 8 is the centre. |
| `HoriWheels.HatMappingMatchesDescriptor` | hid-hori-wheels.c:599-602 | Entries 0..7 are hid-hori.c's rows 1..8, clockwise from up, and entry 8 is the centre. This matches the descriptor's hat range 0..7 with a Null state. |
| `HoriWheels.Eval` | hid-hori-wheels.c:641-742 | `data[i]` is the byte, `data[i] >> s` is at most the byte, and `data[i] << s` is the byte times 2^s. |
| `HoriWheels.EvalRange` | hid-hori-wheels.c:641-742 | `>> 8` or more is always 0, `>> 4` at most 15 and `>> 2` at most 63. `<< s` exceeds 1 exactly when the byte is not 0, and a plain byte exactly when it is 2 or more. |
| `HoriWheels.KeyEvent` | hid-hori-wheels.c:641-742 | A key line emits a key event with its code, and the value is not reduced to 0 or 1. A plain byte reports the byte. A right shift reports at most the byte, at most 15 for a shift by 4, and always 0 for a shift by 8 or more. A left shift reports 0 exactly when its byte is 0, and more than 1 exactly when its byte is not 0. |
| `HoriWheels.WheelKey` | hid-hori-wheels.c:641-694 | The wheel's 54 key lines read bytes no further than data[16]. |
| `HoriWheels.ShifterKey` | hid-hori-wheels.c:701-742 | The shifter's 42 key lines read bytes no further than data[42]. |
| `HoriWheels.WheelEvents` | hid-hori-wheels.c:622-696 | The wheel branch emits 65 events: ten axis and hat events, the scan key event, then the 54 key lines. |
| `HoriWheels.WheelAxisEvents` | hid-hori-wheels.c:624-634 | The ten absolute events report the eight axes as `data[k] << 8` and the hat as `data[0]` and `data[0] >> 2`. |
| `HoriWheels.WheelKeyEvents` | hid-hori-wheels.c:641-694 | Event n-1 of the key part is key line n's event, for all 54 lines. |
| `HoriWheels.WheelKeyLine` | hid-hori-wheels.c:641-694 | Event 10 + n of the wheel branch is key line n's event. |
| `HoriWheels.ShifterEvents` | hid-hori-wheels.c:698-743 | The shifter branch emits the scan key event, then its 42 key lines. |
| `HoriWheels.RawEvent` | hid-hori-wheels.c:604-748 | The wheel emits the wheel branch, the shifter the shifter branch, and other products nothing. |
| `HoriWheels.NeverSyncs` | hid-hori-wheels.c:746 | No product's events include a sync: `input_sync` is commented out. |
| `HoriWheels.WheelAxesAgreeWithHori` | hid-hori-wheels.c:624-631 | The eight axis events equal hid-hori.c's, at the same offsets. |
| `HoriWheels.WheelHatOutOfRange` | hid-hori-wheels.c:633-634 | HAT0X leaves the declared [-1, 1] exactly when data[0] ≥ 2, and HAT0Y exactly when data[0] ≥ 8. Neither goes below 0. |
| `HoriWheels.LineCode` | hid-hori-wheels.c:641-694 | Line n's code is a joystick code for n ≤ 16 and a BTN_TRIGGER_HAPPY code above. |
| `HoriWheels.KeyCodesInOrder` | hid-hori-wheels.c:641-742 | Both branches report, on line n, the n-th code of BTN_TRIGGER..BTN_DEAD, then BTN_TRIGGER_HAPPY1 onwards. |
| `HoriWheels.KeyCodesLow` | hid-hori-wheels.c:641-656 | Lines 1..16 of both branches report the joystick codes in order. |
| `HoriWheels.KeyCodesMiddle` | hid-hori-wheels.c:657-670 | Lines 17..30 report BTN_TRIGGER_HAPPY1..14. |
| `HoriWheels.KeyCodesHigh` | hid-hori-wheels.c:671-682 | Lines 31..42 report BTN_TRIGGER_HAPPY15..26. |
| `HoriWheels.KeyCodesTop` | hid-hori-wheels.c:683-694 | The wheel's lines 43..54 report BTN_TRIGGER_HAPPY27..38. |
| `HoriWheels.LineCodes` | hid-hori-wheels.c:337-391 | The codes of the first n lines are n distinct codes. |
| `HoriWheels.LineCodesListed` | hid-hori-wheels.c:337-391 | A code is among the first n lines' codes exactly when some line 1..n reports it. |
| `HoriWheels.WheelEmittedKeys` | hid-hori-wheels.c:641-694 | The wheel branch emits exactly the 54 line codes plus code 4, equal in number to the descriptor's 54 buttons. |
| `HoriWheels.WheelKeysListed` | hid-hori-wheels.c:641-694 | Every key code the wheel emits is a line code or 4. |
| `HoriWheels.ListedWheelKeys` | hid-hori-wheels.c:641-694 | Every line code, and 4, is emitted by the wheel. |
| `HoriWheels.ShifterEmittedKeys` | hid-hori-wheels.c:698-743 | The shifter branch emits exactly the first 42 line codes plus code 4. |
| `HoriWheels.ShifterKeysListed` | hid-hori-wheels.c:698-743 | Every key code the shifter emits is one of the first 42 line codes, or 4. |
| `HoriWheels.ListedShifterKeys` | hid-hori-wheels.c:698-743 | Each of the first 42 line codes, and 4, is emitted by the shifter. |
| `HoriWheels.WheelStuckKeys` | hid-hori-wheels.c:641-694 | A wheel line shifts right by 8 exactly when it is one of the listed lines. Those lines report 0 for every report. |
| `HoriWheels.StuckLinesLow` | hid-hori-wheels.c:641-667 | Among lines 1..27, the right shifts by 8 are exactly the listed ones. |
| `HoriWheels.StuckLinesHigh` | hid-hori-wheels.c:668-694 | Among lines 28..54, the right shifts by 8 are exactly the listed ones. |
| `HoriWheels.WheelKeyReadsReportId` | hid-hori-wheels.c:688 | BTN_TRIGGER_HAPPY32 reads `data[0] << 4`, the Report ID byte, so in report 1 it is always 16. |
| `HoriWheels.WheelKeysNotBoolean` | hid-hori-wheels.c:643 | With data[1] = 1, BTN_THUMB2 reports 4: key values are not booleans. |
| `HoriWheels.ShifterLineDefects` | hid-hori-wheels.c:712-742 | BTN_BASE6 reads `data[12] >> 16`, always 0. BTN_TRIGGER_HAPPY18 and 19 both read data[34]. The shifter's input report 1 is 11 bytes long, and BTN_TRIGGER_HAPPY18, 19 and 26 read data[34] and data[42], past its end. |
| `HoriWheels.InputConfigured` | hid-hori-wheels.c:319-584 | The wheel and shifter get their branches' declarations, and any other product leaves the device unchanged. |
| `HoriWheels.ConfigureWheel` | hid-hori-wheels.c:331-475 | The wheel gains EV_ABS, EV_MSC and EV_KEY, MSC_SCAN, the 54 line codes, the ten axes and their parameters. |
| `HoriWheels.DeclareWheelBits` | hid-hori-wheels.c:332-402 | The wheel's `set_bit` calls add the three types, MSC_SCAN, the 54 line codes and the ten axes. |
| `HoriWheels.ConfigureShifter` | hid-hori-wheels.c:476-581 | The shifter gains EV_MSC and EV_KEY, MSC_SCAN and the 54 line codes: 54 key bits, though it has 42 capabilities and 43 buttons. |
| `HoriWheels.DeclareShifterBits` | hid-hori-wheels.c:477-534 | The shifter's `set_bit` calls add the two types, MSC_SCAN and the 54 line codes. |
| `HoriWheels.KeyCapabilities` | hid-hori-wheels.c:421-474 | The `input_set_capability` key calls for the first n lines add exactly those n codes and EV_KEY, and change nothing else. |
| `HoriWheels.LineCodesGrow` | hid-hori-wheels.c:539-580 | The first m lines' codes are among the first n lines' codes when m ≤ n. |
| `HoriWheels.KeyBits` | hid-hori-wheels.c:337-391 | The 54 `set_bit` key calls add exactly the 54 line codes. |
| `HoriWheels.CapabilityKeys` | hid-hori-wheels.c:539-580 | The 42 capability key calls add exactly the first 42 line codes. |
| `HoriWheels.HappyKeys1To7` | hid-hori-wheels.c:354-360 | Those calls add BTN_TRIGGER_HAPPY1..7. |
| `HoriWheels.HappyKeys8To13` | hid-hori-wheels.c:361-366 | Those calls add BTN_TRIGGER_HAPPY8..13. |
| `HoriWheels.HappyKeys14To20` | hid-hori-wheels.c:367-373 | Those calls add BTN_TRIGGER_HAPPY14..20. |
| `HoriWheels.HappyKeys21To26` | hid-hori-wheels.c:374-379 | Those calls add BTN_TRIGGER_HAPPY21..26. |
| `HoriWheels.HappyKeys27To32` | hid-hori-wheels.c:380-385 | Those calls add BTN_TRIGGER_HAPPY27..32. |
| `HoriWheels.HappyKeys33To38` | hid-hori-wheels.c:386-391 | Those calls add BTN_TRIGGER_HAPPY33..38. |
| `HoriWheels.DeclareWheelAxes` | hid-hori-wheels.c:393-402 | The ten `set_bit` axis calls add exactly the wheel's axes and change nothing else. |
| `HoriWheels.SetWheelAxisParams` | hid-hori-wheels.c:405-415 | The ten `input_set_abs_params` calls merge exactly the wheel's parameter table. |
| `HoriWheels.WheelParamsMerge` | hid-hori-wheels.c:405-415 | Ten successive updates equal one merge of the parameter table. |
| `HoriWheels.WheelAxesDeclared` | hid-hori-wheels.c:393-634 | The wheel reports exactly the ten axes it declares, and each has parameters. |
| `HoriWheels.ReportedWheelAxes` | hid-hori-wheels.c:624-634 | Every axis reported is declared. |
| `HoriWheels.WheelKeyEventIsKey` | hid-hori-wheels.c:641-694 | Every event after the axes is a key event. |
| `HoriWheels.WheelAxesReported` | hid-hori-wheels.c:393-402 | Every declared axis is reported. |
| `HoriWheels.ShifterKeyCounts` | hid-hori-wheels.c:497-580 | The shifter has 54 key bits, of which 42 are capabilities. The descriptor declares 43 buttons. |
| `HoriWheels.HidField.constructor` | hid-hori-wheels.c:273-275 | A field holds the flags and application it was made with. |
| `HoriWheels.MappedFlags` | hid-hori-wheels.c:280-282 | The flags change exactly under the quirk, for a key usage of a relative field. The change clears the relative bit. |
| `HoriWheels.MappedFlagsKeepOtherBits` | hid-hori-wheels.c:282 | Every flag bit other than the relative one is unchanged. |
| `HoriWheels.MappedBits` | hid-hori-wheels.c:284-286 | The usage's code is cleared exactly under the quirk, for a key, relative or absolute usage. No other code changes. |
| `HoriWheels.MappedApplication` | hid-hori-wheels.c:289-299 | The application changes only to multi-axis, and only for the wheel's absolute X, Y, Z and Rz usages; every other code, type or product keeps its application. For those four axes of the wheel it is always multi-axis. |
| `HoriWheels.InputMapped` | hid-hori-wheels.c:273-301 | `input_mapped` applies the three rules to the field and the bitmap, and returns 0. |
| `HoriWheels.MappedIdempotent` | hid-hori-wheels.c:280-299 | Applying each rule twice is applying it once. |
| `HoriWheels.PrivStep` | hid-hori-wheels.c:755-760 | A step flips alternate and captures data[7] exactly when alternate was set. It writes the slider into data[1] and leaves every other byte unchanged. |
| `HoriWheels.HoriPriv.constructor` | hid-hori-wheels.c:769 | The zeroed state: slider 0, alternate false. |
| `HoriWheels.HoriPriv.RawEvent` | hid-hori-wheels.c:750-762 | The in-place handler leaves the state and buffer that one step gives, and returns 0. |
| `HoriWheels.TwoStepsRestoreAlternate` | hid-hori-wheels.c:760 | After any two steps, alternate is back to where it started. |
| `HoriWheels.FirstTwoFrames` | hid-hori-wheels.c:755-769 | From the zeroed state, frame 1 gets 0 in data[1] and captures nothing. Frame 2 captures its own data[7] into data[1]. |
| `HoriWheels.ReplayCapturesEvenFrames` | hid-hori-wheels.c:755-760 | After n frames, alternate is set exactly when n is odd. The slider is data[7] of the last even-numbered frame, or 0 before frame 2. |

## Left out

**Kernel plumbing and the input core.**
- `hori_probe`, the device tables, the `hid_driver` structures and the module macros are left out. They are kernel plumbing, not logic.
- Logging through `hid_info` and `hid_err` is I/O.
- `hid_set_drvdata` and `hid_get_drvdata` are left out. The device an event goes to is the decoder's result, not a kernel object.
- Calls into the input core are not executed.
  - An emitted event is appended to a sequence.
  - `set_bit`, `input_set_capability` and `input_set_abs_params` insert into sets and a map.
  - Value clamping, fuzz filtering and event suppression by the input core are not part of this model.

**Product names.**
- The names `USB_DEVICE_ID_HORI_TRUCK_CONTROL_SYSTEM_WHEEL` and `_SHIFTER` are not in `hid-ids.h`. The model assumes they are 0x017a and 0x0186.
- The farming wheel and multistick ids are unused by the drivers.

**Other files.**
- `hid-hori.h` is not part of this model. It declares a force-feedback initialiser and a quirks structure. The quirks `hori_input_mapped` reads are a parameter of `HoriWheels.InputMapped`.

**Unmodelled code in hid-hori-wheels.c.**
- The range computation at hid-hori-wheels.c:607-617 reads uninitialised variables and its result is unused. It has no defined behaviour to model.
- The return of the uninitialised `ret` at hid-hori-wheels.c:747 is left out for the same reason. `HoriWheels.RawEvent` returns only the events.
- The unused `struct hori_input_report` and the `button` macro names of hid-hori-wheels.c are left out.
- The `input_mapping` callbacks of hid-hori-multisticks.c (lines 201-213) and hid-hori-wheels.c (lines 303-315) are left out. Each returns -1 for every usage.
- `HoriWheels.InputMapped` models code the driver never reaches. hid-hori-wheels.c registers both `input_mapped` (line 799) and that `input_mapping` (line 801). The HID core drops a usage whose `input_mapping` returns a negative value before it would call `input_mapped`, so `hori_input_mapped` never runs. The HID core is not part of this model.
- The shifter branches of hid-hori-wheels.c are unreachable as well. The driver's device table (line 790) binds only the wheel, so `product` is never the shifter there. `HoriWheels.ShifterEvents` and the other shifter branches model that code as written.

**Simplifications in the model.**
- `Hori.ParseAxisReport`, `HoriMultisticks.ButtonEvents`, `HoriWheels.WheelEvents`, `HoriWheels.ShifterEvents`, `HoriWheels.PrivStep` and `HoriWheels.HoriPriv.RawEvent` require the report to hold every byte they read. The last two require at least 2 bytes, and at least 8 when alternate is set. The C does not check `len`, and a shorter report is an out-of-bounds read.
- The wheel key declarations are split into chunks of at most seven calls (`HoriWheels.HappyKeys1To7` and the rest) to keep each proof small. Their order and effect are those of the source.
- `HoriWheels.KeyBits` and `HoriWheels.CapabilityKeys` accumulate the key bitmap in a local set. The source calls `set_bit` on the device's bitmap each time; the final bitmap is the same.
- `HoriWheels.HoriPriv.RawEvent` models a handler that is commented out in the source. It is not registered with the driver.

**The hat lookup.**
- `Hori.ParseAxisReport` does not reproduce the reads past the end of `hat_to_axis` at hid-hori.c:206-207. It uses the corrected lookup `Hori.HatAxes`. For nibbles 0..5 that is the value the C reports (`Hori.HatAgreesWithAsWritten`). For directions 6 and 7 and for the Null state 8..15, where the C reads outside the array, it reports the direction the descriptor declares or the centre. `Hori.AsWrittenHat` models the lookup as written (see Findings).
- The comment at hid-hori.c:205 places the hat in the upper nibble of the penultimate byte. The code at line 194 reads the low nibble of data[1]. The model follows the code.

**Descriptor comments.**
- The offset comments and the "(315)" annotation in the descriptors are not modelled. The model takes the literal bytes.
- The bytes give Physical Maximum 0x073b followed by an empty Usage item, and a 156-byte wheel descriptor (`TcsDescriptors.WheelPhysicalMaximum`).

## Findings

| source | as written | input that shows it | evidently intended | confidence | as-written member | corrected member |
|---|---|---|---|---|---|---|
| hid-hori.c:206-207 | The hat is looked up as column 2 for x and negated column 6 for y of the two-column `hat_to_axis`, for any nibble 0..15. Read through the row-major layout, that is the x of row hat+1 and the negated x of row hat+3. | Nibbles 6 (left) and 7 (up-left) are valid directions, yet their y read lies past the 18-entry array. From nibble 8 the x read does too. | Row nibble+1 for nibbles 0..7, and the centre for the Null state 8..15. | not executed | `Hori.AsWrittenHatReadsOtherRows` | `Hori.HatAgreesWithAsWritten` |
