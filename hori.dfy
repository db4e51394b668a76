/**
 * hid-hori.c: the driver for the HORI Truck Control System wheel and
 * shifter.  It substitutes fixed report descriptors, decodes input report
 * 1 of the wheel into absolute-axis events, declares the axes it reports,
 * and keeps the HID core from mapping those axes a second time.
 */
module Hori {
  import opened Bytes
  import opened HidItems
  import opened TcsDescriptors
  import opened InputEvents
  import opened HidIds

  /** The sizes of the descriptors the devices themselves send. */
  const WheelOrigSize: nat := 155
  const ShifterOrigSize: nat := 83

  /**
   * hori_report_fixup: the descriptor the HID core goes on to parse.  Its
   * length is the `*rsize` the function leaves behind.
   */
  function ReportFixup(product: nat, rdesc: seq<byte>): (r: seq<byte>)
    ensures product == TruckWheel && |rdesc| == WheelOrigSize ==> r == Descriptor(Wheel)
    ensures product == TruckShifter && |rdesc| == ShifterOrigSize ==> r == Descriptor(Shifter)
    ensures r != rdesc ==> (product == TruckWheel && |rdesc| == WheelOrigSize) || (product == TruckShifter && |rdesc| == ShifterOrigSize)
  {
    if product == TruckWheel && |rdesc| == WheelOrigSize then Descriptor(Wheel)
    else if product == TruckShifter && |rdesc| == ShifterOrigSize then Descriptor(Shifter)
    else rdesc
  }

  /** The size the fixup leaves in `*rsize`: 156 or 83 for a replaced descriptor, the old size otherwise. */
  lemma FixupSize(product: nat, rdesc: seq<byte>)
    ensures |ReportFixup(product, rdesc)| ==
      if product == TruckWheel && |rdesc| == WheelOrigSize then 156
      else if product == TruckShifter && |rdesc| == ShifterOrigSize then 83
      else |rdesc|
  {
    DescriptorLength(Wheel);
    DescriptorLength(Shifter);
  }

  /**
   * Applying the fixup to its own result changes nothing: the shifter's
   * replacement is 83 bytes and is selected again, the wheel's is 156
   * bytes and is passed through.
   */
  lemma FixupIdempotent(product: nat, rdesc: seq<byte>)
    ensures ReportFixup(product, ReportFixup(product, rdesc)) == ReportFixup(product, rdesc)
  {
    FixupSize(product, rdesc);
  }

  /** hat_to_axis: the centre, then eight directions clockwise from up, (0, -1). */
  const HatToAxis: seq<(int, int)> :=
    [(0, 0), (0, -1), (1, -1), (1, 0), (1, 1), (0, 1), (-1, 1), (-1, 0), (-1, -1)]

  function Sign(x: int): (s: int)
    ensures s == 0 <==> x == 0
    ensures s == 1 <==> x > 0
    ensures s == -1 <==> x < 0
  {
    if x > 0 then 1 else if x < 0 then -1 else 0
  }

  /**
   * The next of the eight compass directions, clockwise on a screen whose
   * y axis points down: the direction rotated by 45 degrees, each
   * component rounded to its sign.
   */
  function Clockwise(p: (int, int)): (int, int)
  {
    (Sign(p.0 - p.1), Sign(p.0 + p.1))
  }

  /**
   * Entry 0 of hat_to_axis is the centre; entries 1..8 start at up and
   * each is the previous one turned clockwise, the last turning back into
   * the first, so they are the eight directions, all distinct, with every
   * component in the declared hat range -1..1.
   */
  lemma HatTableIsClockwise()
    ensures HatToAxis[0] == (0, 0) && HatToAxis[1] == (0, -1)
    ensures forall n :: 1 <= n < 8 ==> HatToAxis[n + 1] == Clockwise(HatToAxis[n])
    ensures Clockwise(HatToAxis[8]) == HatToAxis[1]
    ensures forall m, n :: 1 <= m < n <= 8 ==> HatToAxis[m] != HatToAxis[n]
    ensures forall n :: 0 <= n < 9 ==> -1 <= HatToAxis[n].0 <= 1 && -1 <= HatToAxis[n].1 <= 1
  {
  }

  /**
   * The hat report of a nibble, counted as the wheel descriptor counts
   * it (logical range 0..7 with a Null state): direction n is row n + 1
   * of hat_to_axis, so nibble 0 is up, (0, -1), and nibbles 8..15, the
   * Null state, report the centre of row 0.  This is what the C lookup
   * reads wherever it stays inside the array (HatAgreesWithAsWritten).
   */
  function HatAxes(hat: nat): (xy: (int, int))
    ensures hat < 8 ==> xy == HatToAxis[hat + 1]
    ensures hat >= 8 ==> xy == HatToAxis[0]
    ensures -1 <= xy.0 <= 1 && -1 <= xy.1 <= 1
  {
    if hat < 8 then HatToAxis[hat + 1] else HatToAxis[0]
  }

  /** A hat reports the centre exactly for the Null state, nibbles 8..15. */
  lemma HatCentredIff(hat: nat)
    ensures HatAxes(hat) == (0, 0) <==> hat >= 8
  {
    HatTableIsClockwise();
  }

  /**
   * The table counts from 1 while the wheel descriptor counts from 0: it
   * declares the hat logical range 0..7 with a Null state.  The lookup
   * follows the descriptor: nibble 0 is up, the eight directions 0..7 turn
   * clockwise, and nibble 8 is the centre.
   */
  lemma HatFollowsDescriptor()
    ensures ItemAt(Wheel, 4) == Item(Global, LogicalMinimumTag, [0])
    ensures ItemAt(Wheel, 5) == Item(Global, LogicalMaximumTag, [7])
    ensures HasNullState(Unsigned(ItemAt(Wheel, 13).data))
    ensures HatAxes(0) == (0, -1)
    ensures forall n :: 0 <= n < 7 ==> HatAxes(n + 1) == Clockwise(HatAxes(n))
    ensures Clockwise(HatAxes(7)) == HatAxes(0)
    ensures HatAxes(8) == (0, 0)
  {
    WheelHatItems();
    HatTableIsClockwise();
  }

  /** hat_to_axis as C lays it out: row after row, x before y. */
  function FlatHatToAxis(): (flat: seq<int>)
    ensures |flat| == 2 * |HatToAxis|
    ensures forall i :: 0 <= i < |flat| ==> flat[i] == if i % 2 == 0 then HatToAxis[i / 2].0 else HatToAxis[i / 2].1
  {
    seq(2 * |HatToAxis|, i requires 0 <= i < 2 * |HatToAxis| => if i % 2 == 0 then HatToAxis[i / 2].0 else HatToAxis[i / 2].1)
  }

  /**
   * The hat report as written: column 2 for x and column 6, negated, for
   * y of a two-column table, read through the flat layout.  None is a
   * read past the end of the array.
   */
  function AsWrittenHat(hat: nat): (r: Option<(int, int)>)
    ensures r.Some? <==> hat <= 5
  {
    var flat := FlatHatToAxis();
    if 2 * hat + 6 < |flat| then Some((flat[2 * hat + 2], -flat[2 * hat + 6])) else None
  }

  /**
   * As written, a nibble up to 5 reports the x of row hat + 1 and the
   * negated x of row hat + 3.  The y read leaves the array from nibble 6
   * and the x read from nibble 8, so the directions 6 (left) and 7
   * (up-left) are reads past the table.
   */
  lemma AsWrittenHatReadsOtherRows(hat: nat)
    ensures hat <= 5 ==> AsWrittenHat(hat) == Some((HatToAxis[hat + 1].0, -HatToAxis[hat + 3].0))
    ensures 6 <= hat < 16 ==> AsWrittenHat(hat) == None
    ensures 2 * hat + 6 < |FlatHatToAxis()| <==> hat <= 5
    ensures 2 * hat + 2 < |FlatHatToAxis()| <==> hat <= 7
    ensures 6 <= hat <= 7 ==> AsWrittenHat(hat) == None && HatAxes(hat) != (0, 0)
  {
    var flat := FlatHatToAxis();
    if hat <= 5 {
      assert flat[2 * hat + 2] == HatToAxis[hat + 1].0;
      assert flat[2 * hat + 6] == HatToAxis[hat + 3].0;
    }
  }

  /**
   * The corrected lookup agrees with the C on every nibble whose reads
   * stay inside the array: the negated x of row hat + 3 is the y of row
   * hat + 1, two turns further round the clockwise table.  For the
   * directions 6 and 7 the in-bounds x read is right as well; only the y
   * read is lost.
   */
  lemma HatAgreesWithAsWritten(hat: nat)
    ensures hat <= 5 ==> AsWrittenHat(hat) == Some(HatAxes(hat))
    ensures 6 <= hat <= 7 ==> FlatHatToAxis()[2 * hat + 2] == HatAxes(hat).0
  {
    AsWrittenHatReadsOtherRows(hat);
    var flat := FlatHatToAxis();
    if hat == 0 {
    } else if hat == 1 {
    } else if hat == 2 {
    } else if hat == 3 {
    } else if hat == 4 {
    } else if hat == 5 {
    } else if hat == 6 {
      assert flat[14] == HatToAxis[7].0;
    } else if hat == 7 {
      assert flat[16] == HatToAxis[8].0;
    }
  }

  /** The `data[k] << 8` of an axis: the byte as the high byte of a 16-bit value. */
  function AxisValue(b: byte): (v: nat)
    ensures v == 256 * b as nat
    ensures v % 256 == 0 && v <= 65280
  {
    Shl(b as nat, 8)
  }

  /**
   * parse_tcs_axis_report: the eight axes, the hat and the Misc axis, in
   * the order the driver reports them.  The hat nibble is the low nibble
   * of data[1], the byte after the Report ID.
   */
  function ParseAxisReport(data: seq<byte>): (events: seq<Event>)
    requires |data| >= 27
    ensures |events| == 11
    ensures forall i :: 0 <= i < 11 ==> events[i].kind == EvAbs
    ensures events[8] == AbsEvent(AbsHat0X, HatAxes(LowNibble(data[1])).0)
    ensures events[9] == AbsEvent(AbsHat0Y, HatAxes(LowNibble(data[1])).1)
  {
    var hat := HatAxes(LowNibble(data[1]));
    [ AbsEvent(AbsX, AxisValue(data[14])),
      AbsEvent(AbsY, AxisValue(data[12])),
      AbsEvent(AbsWheel, AxisValue(data[10])),
      AbsEvent(AbsRx, AxisValue(data[16])),
      AbsEvent(AbsRy, AxisValue(data[18])),
      AbsEvent(AbsClutch, AxisValue(data[20])),
      AbsEvent(AbsGas, AxisValue(data[22])),
      AbsEvent(AbsBrake, AxisValue(data[24])),
      AbsEvent(AbsHat0X, hat.0),
      AbsEvent(AbsHat0Y, hat.1),
      AbsEvent(AbsMisc, AxisValue(data[26])) ]
  }

  /** The axes of the decoded report, in the order the driver reports them. */
  const ReportOrder: seq<nat> :=
    [AbsX, AbsY, AbsWheel, AbsRx, AbsRy, AbsClutch, AbsGas, AbsBrake, AbsHat0X, AbsHat0Y, AbsMisc]

  /** Event i of a decoded report is an absolute event on axis i of ReportOrder. */
  lemma AxisReportOrder(data: seq<byte>)
    requires |data| >= 27
    ensures forall i :: 0 <= i < 11 ==> ParseAxisReport(data)[i] == AbsEvent(ReportOrder[i], ParseAxisReport(data)[i].value)
  {
  }

  /** hori_raw_event: only the TCS wheel's reports are decoded, each followed by a sync. */
  function RawEvent(product: nat, data: seq<byte>): (events: seq<Event>)
    requires product == TruckWheel ==> |data| >= 27
    ensures product != TruckWheel ==> events == []
    ensures product == TruckWheel ==> |events| == 12 && events[..11] == ParseAxisReport(data) && events[11] == SyncEvent
  {
    if product != TruckWheel then [] else ParseAxisReport(data) + [SyncEvent]
  }

  /** The axes hori_input_configured declares, with the range, fuzz and flat it gives each. */
  const AxisParams: map<nat, AbsInfo> := map[
    AbsX := AbsInfo(0, 65535, 255, 0),
    AbsY := AbsInfo(0, 65535, 255, 0),
    AbsWheel := AbsInfo(0, 65535, 255, 0),
    AbsRx := AbsInfo(0, 65535, 255, 0),
    AbsRy := AbsInfo(0, 65535, 255, 0),
    AbsClutch := AbsInfo(0, 65535, 255, 0),
    AbsGas := AbsInfo(0, 65535, 255, 0),
    AbsBrake := AbsInfo(0, 65535, 255, 0),
    AbsHat0X := AbsInfo(-1, 1, 0, 0),
    AbsHat0Y := AbsInfo(-1, 1, 0, 0),
    AbsMisc := AbsInfo(0, 255, 255, 0)]

  const DeclaredAxes: set<nat> :=
    {AbsX, AbsY, AbsWheel, AbsRx, AbsRy, AbsClutch, AbsGas, AbsBrake, AbsHat0X, AbsHat0Y, AbsMisc}

  /**
   * hori_input_configured: for the TCS wheel, declares the Abs event type
   * and the eleven axes with their parameters; any other device is left
   * as it is.
   */
  method InputConfigured(product: nat, dev: InputDev)
    modifies dev
    ensures product != TruckWheel ==> unchanged(dev)
    ensures product == TruckWheel ==> dev.evbit == old(dev.evbit) + {EvAbs}
    ensures product == TruckWheel ==> dev.absbit == old(dev.absbit) + DeclaredAxes
    ensures product == TruckWheel ==> dev.absinfo == old(dev.absinfo) + AxisParams
    ensures dev.keybit == old(dev.keybit) && dev.mscbit == old(dev.mscbit)
  {
    if product != TruckWheel {
      return;
    }
    dev.evbit := dev.evbit + {EvAbs};
    DeclareAxes(dev);
    SetAxisParams(dev);
  }

  /** The eleven set_bit calls on the Abs bitmap. */
  method DeclareAxes(dev: InputDev)
    modifies dev
    ensures dev.absbit == old(dev.absbit) + DeclaredAxes
    ensures dev.evbit == old(dev.evbit) && dev.keybit == old(dev.keybit) && dev.mscbit == old(dev.mscbit)
    ensures dev.absinfo == old(dev.absinfo)
  {
    var bits := dev.absbit;
    bits := bits + {AbsX};
    bits := bits + {AbsY};
    bits := bits + {AbsWheel};
    bits := bits + {AbsRx};
    bits := bits + {AbsRy};
    bits := bits + {AbsClutch};
    bits := bits + {AbsGas};
    bits := bits + {AbsBrake};
    bits := bits + {AbsHat0X};
    bits := bits + {AbsHat0Y};
    bits := bits + {AbsMisc};
    dev.absbit := bits;
  }

  /**
   * The eleven input_set_abs_params calls.  Each also sets the Abs type
   * bit and the axis bit, which the driver has set already.
   */
  method SetAxisParams(dev: InputDev)
    modifies dev
    requires EvAbs in dev.evbit && DeclaredAxes <= dev.absbit
    ensures dev.absinfo == old(dev.absinfo) + AxisParams
    ensures dev.evbit == old(dev.evbit) && dev.absbit == old(dev.absbit)
    ensures dev.keybit == old(dev.keybit) && dev.mscbit == old(dev.mscbit)
  {
    dev.SetAbsParams(AbsX, 0, 65535, 255, 0);
    dev.SetAbsParams(AbsY, 0, 65535, 255, 0);
    dev.SetAbsParams(AbsWheel, 0, 65535, 255, 0);
    dev.SetAbsParams(AbsRx, 0, 65535, 255, 0);
    dev.SetAbsParams(AbsRy, 0, 65535, 255, 0);
    dev.SetAbsParams(AbsClutch, 0, 65535, 255, 0);
    dev.SetAbsParams(AbsGas, 0, 65535, 255, 0);
    dev.SetAbsParams(AbsBrake, 0, 65535, 255, 0);
    dev.SetAbsParams(AbsHat0X, -1, 1, 0, 0);
    dev.SetAbsParams(AbsHat0Y, -1, 1, 0, 0);
    dev.SetAbsParams(AbsMisc, 0, 255, 255, 0);
    ParamsMerge(old(dev.absinfo));
  }

  /** Setting the eleven axes one after another is merging AxisParams into the device's table. */
  lemma ParamsMerge(m: map<nat, AbsInfo>)
    ensures m[AbsX := AbsInfo(0, 65535, 255, 0)][AbsY := AbsInfo(0, 65535, 255, 0)][AbsWheel := AbsInfo(0, 65535, 255, 0)]
      [AbsRx := AbsInfo(0, 65535, 255, 0)][AbsRy := AbsInfo(0, 65535, 255, 0)][AbsClutch := AbsInfo(0, 65535, 255, 0)]
      [AbsGas := AbsInfo(0, 65535, 255, 0)][AbsBrake := AbsInfo(0, 65535, 255, 0)][AbsHat0X := AbsInfo(-1, 1, 0, 0)]
      [AbsHat0Y := AbsInfo(-1, 1, 0, 0)][AbsMisc := AbsInfo(0, 255, 255, 0)] == m + AxisParams
  {
  }

  /** The axes declared with parameters are exactly the axes declared. */
  lemma ParamsCoverDeclaredAxes()
    ensures AxisParams.Keys == DeclaredAxes
  {
  }

  /** The Abs codes the decoder reports are exactly the axes hori_input_configured declares. */
  lemma DecodedAxesAreDeclared(data: seq<byte>)
    requires |data| >= 27
    ensures Codes(RawEvent(TruckWheel, data), EvAbs) == DeclaredAxes
    ensures Codes(RawEvent(TruckWheel, data), EvKey) == {}
  {
    ReportedAxesDeclared(data);
    DeclaredAxesReported(data);
  }

  lemma ReportedAxesDeclared(data: seq<byte>)
    requires |data| >= 27
    ensures Codes(RawEvent(TruckWheel, data), EvAbs) <= DeclaredAxes
    ensures Codes(RawEvent(TruckWheel, data), EvKey) == {}
  {
    var events := RawEvent(TruckWheel, data);
    assert forall i :: 0 <= i < 11 ==> events[i].code in DeclaredAxes;
  }

  lemma DeclaredAxesReported(data: seq<byte>)
    requires |data| >= 27
    ensures DeclaredAxes <= Codes(RawEvent(TruckWheel, data), EvAbs)
  {
    var events := RawEvent(TruckWheel, data);
    forall c | c in DeclaredAxes
      ensures c in Codes(events, EvAbs)
    {
      if c == AbsX { assert events[0].code == c; }
      else if c == AbsY { assert events[1].code == c; }
      else if c == AbsWheel { assert events[2].code == c; }
      else if c == AbsRx { assert events[3].code == c; }
      else if c == AbsRy { assert events[4].code == c; }
      else if c == AbsClutch { assert events[5].code == c; }
      else if c == AbsGas { assert events[6].code == c; }
      else if c == AbsBrake { assert events[7].code == c; }
      else if c == AbsHat0X { assert events[8].code == c; }
      else if c == AbsHat0Y { assert events[9].code == c; }
      else { assert events[10].code == c; }
    }
  }

  /**
   * The eight axes are multiples of 256 up to 65280, inside the range
   * 0..65535 declared for each of them.
   */
  lemma AxesWithinDeclaredRange(data: seq<byte>)
    requires |data| >= 27
    ensures forall i :: 0 <= i < 8 ==>
      var e := ParseAxisReport(data)[i];
      e.code in AxisParams && AxisParams[e.code] == AbsInfo(0, 65535, 255, 0) && e.value % 256 == 0 && 0 <= e.value <= 65280
  {
    var events := ParseAxisReport(data);
    assert forall i :: 0 <= i < 8 ==> events[i].code in {AbsX, AbsY, AbsWheel, AbsRx, AbsRy, AbsClutch, AbsGas, AbsBrake};
  }

  /** The hat components lie in the range -1..1 declared for them. */
  lemma HatWithinDeclaredRange(data: seq<byte>)
    requires |data| >= 27
    ensures forall i :: 8 <= i < 10 ==>
      var e := ParseAxisReport(data)[i];
      e.code in AxisParams && AxisParams[e.code].minimum <= e.value <= AxisParams[e.code].maximum
  {
  }

  /**
   * Misc is declared 0..255 but reported as data[26] << 8: it is out of
   * its declared range exactly when data[26] is not zero.
   */
  lemma MiscOutOfRange(data: seq<byte>)
    requires |data| >= 27
    ensures ParseAxisReport(data)[10].code == AbsMisc
    ensures ParseAxisReport(data)[10].value == AxisValue(data[26]) == 256 * data[26] as int
    ensures ParseAxisReport(data)[10].value > AxisParams[AbsMisc].maximum <==> data[26] != 0
  {
  }

  /** The report bytes the decoder reads: the hat byte and the eight axis bytes up to Misc. */
  const AxisReportBytes: set<nat> := {1, 10, 12, 14, 16, 18, 20, 22, 24, 26}

  /** The decoder's output depends on those bytes only. */
  lemma ReadsOnlyAxisReportBytes(data: seq<byte>, other: seq<byte>)
    requires |data| >= 27 && |other| >= 27
    requires forall i :: i in AxisReportBytes ==> data[i] == other[i]
    ensures ParseAxisReport(data) == ParseAxisReport(other)
  {
    assert data[1] == other[1] && data[26] == other[26];
    assert data[10] == other[10] && data[12] == other[12] && data[14] == other[14] && data[16] == other[16];
    assert data[18] == other[18] && data[20] == other[20] && data[22] == other[22] && data[24] == other[24];
  }

  /**
   * Input report 1 of the wheel descriptor, Report ID included, is 29
   * bytes: every byte the decoder reads lies inside it.
   */
  lemma AxisReportFits()
    ensures InputReportLength(Items(Wheel), InputReportId) == 29
    ensures forall i :: i in AxisReportBytes ==> i < InputReportLength(Items(Wheel), InputReportId)
  {
    WheelReports(InputReportId);
    AxisReportBytesBelow();
  }

  lemma AxisReportBytesBelow()
    ensures forall i :: i in AxisReportBytes ==> i <= 26
  {
  }

  /** The 16-bit little-endian value of axis field `j` of report 1: bytes 9 + 2j and 10 + 2j. */
  function AxisField(data: seq<byte>, j: nat): (v: nat)
    requires j < 8 && |data| >= 27
    ensures v < 65536
  {
    data[9 + 2 * j] as nat + 256 * data[10 + 2 * j] as nat
  }

  /** The field of report 1 each of the eight reported axes reads: ABS_X reads the third (the Z usage), ABS_WHEEL the first, the others their own. */
  function AxisFieldOf(i: nat): (j: nat)
    requires i < 8
    ensures j < 8
  {
    match i
    case 0 => 2
    case 1 => 1
    case 2 => 0
    case _ => i
  }

  /**
   * The eight axes are 16-bit fields at bit 64 of report 1
   * (TcsDescriptors.WheelReport1Fields), that is from byte 9 behind the
   * Report ID; each reported axis is its field with the low byte cleared.
   */
  lemma AxisIsFieldHighByte(data: seq<byte>, i: nat)
    requires |data| >= 27 && i < 8
    ensures var v := ParseAxisReport(data)[i].value; var f := AxisField(data, AxisFieldOf(i));
      v <= f < v + 256
  {
    var j := AxisFieldOf(i);
    AxisReadsField(data, i);
    var b := data[10 + 2 * j] as nat;
    assert AxisField(data, j) == data[9 + 2 * j] as nat + 256 * b;
  }

  /** Axis `i` of the report is the high byte of field AxisFieldOf(i). */
  lemma AxisReadsField(data: seq<byte>, i: nat)
    requires |data| >= 27 && i < 8
    ensures ParseAxisReport(data)[i].value == AxisValue(data[10 + 2 * AxisFieldOf(i)])
  {
    var events := ParseAxisReport(data);
    match i
    case 0 => assert events[0] == AbsEvent(AbsX, AxisValue(data[14]));
    case 1 => assert events[1] == AbsEvent(AbsY, AxisValue(data[12]));
    case 2 => assert events[2] == AbsEvent(AbsWheel, AxisValue(data[10]));
    case 3 => assert events[3] == AbsEvent(AbsRx, AxisValue(data[16]));
    case 4 => assert events[4] == AbsEvent(AbsRy, AxisValue(data[18]));
    case 5 => assert events[5] == AbsEvent(AbsClutch, AxisValue(data[20]));
    case 6 => assert events[6] == AbsEvent(AbsGas, AxisValue(data[22]));
    case 7 => assert events[7] == AbsEvent(AbsBrake, AxisValue(data[24]));
  }

  /** The Generic Desktop usages whose default mapping the driver skips on the TCS wheel. */
  const SkippedUsages: set<nat> := {GdX, GdY, GdZ, GdRx, GdRy, GdRz, GdSlider, GdHatSwitch}

  /** hori_input_mapping: -1 (skip) for the axis and hat usages of the TCS wheel, 0 (default) otherwise. */
  function InputMapping(product: nat, usage: nat): (r: int)
    ensures r == -1 || r == 0
  {
    if product == TruckWheel && usage in SkippedUsages then -1 else 0
  }

  /** The mapping is skipped exactly for the TCS wheel's axis and hat usages. */
  lemma MappingSkipsIff(product: nat, usage: nat)
    ensures InputMapping(product, usage) == -1 <==> product == TruckWheel && usage in SkippedUsages
  {
  }

  /**
   * Every usage of report 1 of the wheel descriptor that names an axis or
   * the hat (rows 10 and 30..37, read as Generic Desktop usages) is
   * skipped, so those values reach user space only through the decoder.
   */
  lemma MappingSkipsDescriptorAxes(k: nat)
    requires k == 10 || 30 <= k <= 37
    ensures ItemAt(Wheel, k).kind == Local && ItemAt(Wheel, k).tag == UsageTag
    ensures InputMapping(TruckWheel, GenericDesktopPage + Unsigned(ItemAt(Wheel, k).data)) == -1
  {
    if k == 10 {
      WheelHatItems();
    } else if k < 34 {
      MappingSkipsLowAxes(k);
    } else {
      MappingSkipsHighAxes(k);
    }
  }

  lemma MappingSkipsLowAxes(k: nat)
    requires 30 <= k <= 33
    ensures ItemAt(Wheel, k).kind == Local && ItemAt(Wheel, k).tag == UsageTag
    ensures GenericDesktopPage + Unsigned(ItemAt(Wheel, k).data) in SkippedUsages
  {
    if k == 30 {} else if k == 31 {} else if k == 32 {} else {}
  }

  lemma MappingSkipsHighAxes(k: nat)
    requires 34 <= k <= 37
    ensures ItemAt(Wheel, k).kind == Local && ItemAt(Wheel, k).tag == UsageTag
    ensures GenericDesktopPage + Unsigned(ItemAt(Wheel, k).data) in SkippedUsages
  {
    if k == 34 {} else if k == 35 {} else if k == 36 {} else {}
  }
}
