/**
 * The two report descriptors the HORI drivers substitute for the ones the
 * Truck Control System devices send: the wheel's (156 bytes) and the
 * shifter's (83 bytes).  Each is a table of rows, one short item per row;
 * the descriptor is the concatenation of the rows.  The lemmas below show
 * that the rows are exactly the items a HID parser finds, and derive from
 * the items the report layout the drivers' report decoders rely on.
 */
module TcsDescriptors {
  import opened Bytes
  import opened HidItems

  datatype Rdesc = Wheel | Shifter

  function RowCount(d: Rdesc): nat
  {
    match d
    case Wheel => 73
    case Shifter => 40
  }

  function Row(d: Rdesc, k: nat): seq<byte>
  {
    match d
    case Wheel => WheelRow(k)
    case Shifter => ShifterRow(k)
  }

  /** Each row of a table holds exactly one short item. */
  lemma RowIsItem(d: Rdesc, k: nat)
    requires k < RowCount(d)
    ensures IsShortItem(Row(d, k))
  {
    match d
    case Wheel => WheelRowIsItem(k);
    case Shifter => ShifterRowIsItem(k);
  }

  /** Every row of a table holds exactly one short item. */
  lemma RowsAreItems(d: Rdesc)
    ensures forall k :: 0 <= k < RowCount(d) ==> IsShortItem(Row(d, k))
  {
    forall k | 0 <= k < RowCount(d) {
      RowIsItem(d, k);
    }
  }

  /** The rows of a table, in order. */
  function Rows(d: Rdesc): (rows: seq<seq<byte>>)
    ensures |rows| == RowCount(d)
    ensures forall k :: 0 <= k < |rows| ==> rows[k] == Row(d, k) && IsShortItem(rows[k])
  {
    RowsAreItems(d);
    seq(RowCount(d), k requires 0 <= k < RowCount(d) => Row(d, k))
  }

  /** The whole descriptor, as the driver's array holds it: the rows one after another. */
  function Descriptor(d: Rdesc): seq<byte>
  {
    Concat(Rows(d))
  }

  /** The item row `k` holds. */
  function ItemAt(d: Rdesc, k: nat): Item
    requires k < RowCount(d)
  {
    RowIsItem(d, k);
    RowItem(Row(d, k))
  }

  /** The items of the descriptor, in order. */
  function Items(d: Rdesc): (items: seq<Item>)
    ensures |items| == RowCount(d)
    ensures forall k :: 0 <= k < RowCount(d) ==> items[k] == ItemAt(d, k)
  {
    RowItems(Rows(d))
  }

  /** The descriptor parses, and the items the parser finds are exactly the rows of the table. */
  lemma ParsesToRows(d: Rdesc)
    ensures ParseItems(Descriptor(d)) == Some(Items(d))
  {
    ParseConcat(Rows(d));
  }

  /** The walk state after the first `k` rows. */
  function WalkTo(d: Rdesc, k: nat, id: nat): WalkState
    requires k <= RowCount(d)
  {
    Run(Items(d)[..k], Start, id)
  }

  lemma WalkStep(d: Rdesc, k: nat, id: nat)
    requires k < RowCount(d)
    ensures WalkTo(d, k + 1, id) == Step(ItemAt(d, k), WalkTo(d, k, id), id)
  {
    var items := Items(d)[..k + 1];
    RunSnoc(items, Start, id);
    assert items[..k] == Items(d)[..k];
  }

  /**
   * The fixed Truck Control System wheel descriptor, 156 bytes, one short
   * item per row (hid-hori.c:38-111; hid-hori-wheels.c:114-187 is a
   * byte-identical copy).  Row 8 is the fourth byte written on the source
   * line of row 7: a Local Usage item with no data.
   */
  function WheelRow(k: nat): seq<byte>
  {
    if k < 37 then WheelRowLow(k) else WheelRowHigh(k)
  }

  /** Rows 0..36 of the wheel descriptor. */
  function WheelRowLow(k: nat): seq<byte>
  {
    match k
    case 0  => [0x05, 0x01]                   // Usage Page (0x1)
    case 1  => [0x09, 0x04]                   // Usage (0x4)
    case 2  => [0xa1, 0x01]                   // Collection (0x1)
    case 3  => [0x85, 0x01]                   // Report ID (1)
    case 4  => [0x15, 0x00]                   // Logical Minimum (0)
    case 5  => [0x25, 0x07]                   // Logical Maximum (7)
    case 6  => [0x35, 0x00]                   // Physical Minimum (0)
    case 7  => [0x46, 0x3b, 0x07]             // Physical Maximum (1851)
    case 8  => [0x08]                         // Local Usage, no data
    case 9  => [0x65, 0x14]                   // Unit (0x14)
    case 10 => [0x09, 0x39]                   // Usage (0x39)
    case 11 => [0x75, 0x04]                   // Report Size (4)
    case 12 => [0x95, 0x01]                   // Report Count (1)
    case 13 => [0x81, 0x42]                   // Input (0x42)
    case 14 => [0x65, 0x00]                   // Unit (0x0)
    case 15 => [0x25, 0x01]                   // Logical Maximum (1)
    case 16 => [0x45, 0x01]                   // Physical Maximum (1)
    case 17 => [0x05, 0x09]                   // Usage Page (0x9)
    case 18 => [0x19, 0x01]                   // Usage Minimum (1)
    case 19 => [0x29, 0x36]                   // Usage Maximum (54)
    case 20 => [0x75, 0x01]                   // Report Size (1)
    case 21 => [0x95, 0x36]                   // Report Count (54)
    case 22 => [0x81, 0x02]                   // Input (0x2)
    case 23 => [0x95, 0x06]                   // Report Count (6)
    case 24 => [0x81, 0x01]                   // Input (0x1)
    case 25 => [0x27, 0xff, 0xff, 0x00, 0x00] // Logical Maximum (65535)
    case 26 => [0x47, 0xff, 0xff, 0x00, 0x00] // Physical Maximum (65535)
    case 27 => [0x75, 0x10]                   // Report Size (16)
    case 28 => [0x95, 0x08]                   // Report Count (8)
    case 29 => [0x05, 0x01]                   // Usage Page (0x1)
    case 30 => [0x09, 0x30]                   // Usage (0x30)
    case 31 => [0x09, 0x31]                   // Usage (0x31)
    case 32 => [0x09, 0x32]                   // Usage (0x32)
    case 33 => [0x09, 0x33]                   // Usage (0x33)
    case 34 => [0x09, 0x34]                   // Usage (0x34)
    case 35 => [0x09, 0x35]                   // Usage (0x35)
    case 36 => [0x09, 0x36]                   // Usage (0x36)
    case _ => []
  }

  /** Rows 37..72 of the wheel descriptor. */
  function WheelRowHigh(k: nat): seq<byte>
  {
    match k
    case 37 => [0x09, 0x36]                   // Usage (0x36)
    case 38 => [0x81, 0x02]                   // Input (0x2)
    case 39 => [0x26, 0xff, 0x00]             // Logical Maximum (255)
    case 40 => [0x46, 0xff, 0x00]             // Physical Maximum (255)
    case 41 => [0x06, 0x00, 0xff]             // Usage Page (0xff00)
    case 42 => [0x09, 0x01]                   // Usage (0x1)
    case 43 => [0x75, 0x08]                   // Report Size (8)
    case 44 => [0x95, 0x04]                   // Report Count (4)
    case 45 => [0x81, 0x02]                   // Input (0x2)
    case 46 => [0xc0]                         // Main End Collection, no data
    case 47 => [0x06, 0x20, 0xff]             // Usage Page (0xff20)
    case 48 => [0x09, 0x01]                   // Usage (0x1)
    case 49 => [0xa1, 0x01]                   // Collection (0x1)
    case 50 => [0x85, 0x20]                   // Report ID (32)
    case 51 => [0x15, 0x00]                   // Logical Minimum (0)
    case 52 => [0x26, 0xff, 0x00]             // Logical Maximum (255)
    case 53 => [0x75, 0x08]                   // Report Size (8)
    case 54 => [0x95, 0x1f]                   // Report Count (31)
    case 55 => [0x09, 0x02]                   // Usage (0x2)
    case 56 => [0x81, 0x00]                   // Input (0x0)
    case 57 => [0x09, 0x02]                   // Usage (0x2)
    case 58 => [0x91, 0x00]                   // Output (0x0)
    case 59 => [0xc0]                         // Main End Collection, no data
    case 60 => [0x06, 0x21, 0xff]             // Usage Page (0xff21)
    case 61 => [0x09, 0x03]                   // Usage (0x3)
    case 62 => [0xa1, 0x01]                   // Collection (0x1)
    case 63 => [0x85, 0x21]                   // Report ID (33)
    case 64 => [0x15, 0x00]                   // Logical Minimum (0)
    case 65 => [0x26, 0xff, 0x00]             // Logical Maximum (255)
    case 66 => [0x75, 0x08]                   // Report Size (8)
    case 67 => [0x95, 0x3f]                   // Report Count (63)
    case 68 => [0x09, 0x04]                   // Usage (0x4)
    case 69 => [0x81, 0x00]                   // Input (0x0)
    case 70 => [0x09, 0x04]                   // Usage (0x4)
    case 71 => [0x91, 0x00]                   // Output (0x0)
    case 72 => [0xc0]                         // Main End Collection, no data
    case _ => []
  }

  /**
   * The fixed Truck Control System shifter descriptor, 83 bytes, one short
   * item per row (hid-hori.c:113-154; hid-hori-multisticks.c:29-70 and
   * hid-hori-wheels.c:189-230 are byte-identical copies).
   */
  function ShifterRow(k: nat): seq<byte>
  {
    match k
    case 0  => [0x05, 0x01]                   // Usage Page (0x1)
    case 1  => [0x09, 0x04]                   // Usage (0x4)
    case 2  => [0xa1, 0x01]                   // Collection (0x1)
    case 3  => [0x85, 0x01]                   // Report ID (1)
    case 4  => [0x15, 0x00]                   // Logical Minimum (0)
    case 5  => [0x25, 0x01]                   // Logical Maximum (1)
    case 6  => [0x35, 0x00]                   // Physical Minimum (0)
    case 7  => [0x45, 0x01]                   // Physical Maximum (1)
    case 8  => [0x05, 0x09]                   // Usage Page (0x9)
    case 9  => [0x19, 0x01]                   // Usage Minimum (1)
    case 10 => [0x29, 0x2b]                   // Usage Maximum (43)
    case 11 => [0x75, 0x01]                   // Report Size (1)
    case 12 => [0x95, 0x2b]                   // Report Count (43)
    case 13 => [0x81, 0x02]                   // Input (0x2)
    case 14 => [0x95, 0x05]                   // Report Count (5)
    case 15 => [0x81, 0x01]                   // Input (0x1)
    case 16 => [0x26, 0xff, 0x00]             // Logical Maximum (255)
    case 17 => [0x46, 0xff, 0x00]             // Physical Maximum (255)
    case 18 => [0x06, 0x00, 0xff]             // Usage Page (0xff00)
    case 19 => [0x09, 0x01]                   // Usage (0x1)
    case 20 => [0x75, 0x08]                   // Report Size (8)
    case 21 => [0x95, 0x04]                   // Report Count (4)
    case 22 => [0x81, 0x02]                   // Input (0x2)
    case 23 => [0x09, 0x02]                   // Usage (0x2)
    case 24 => [0x95, 0x1f]                   // Report Count (31)
    case 25 => [0x91, 0x02]                   // Output (0x2)
    case 26 => [0xc0]                         // Main End Collection, no data
    case 27 => [0x06, 0x21, 0xff]             // Usage Page (0xff21)
    case 28 => [0x09, 0x03]                   // Usage (0x3)
    case 29 => [0xa1, 0x01]                   // Collection (0x1)
    case 30 => [0x85, 0x22]                   // Report ID (34)
    case 31 => [0x15, 0x00]                   // Logical Minimum (0)
    case 32 => [0x26, 0xff, 0x00]             // Logical Maximum (255)
    case 33 => [0x75, 0x08]                   // Report Size (8)
    case 34 => [0x95, 0x3f]                   // Report Count (63)
    case 35 => [0x09, 0x04]                   // Usage (0x4)
    case 36 => [0x81, 0x00]                   // Input (0x0)
    case 37 => [0x09, 0x04]                   // Usage (0x4)
    case 38 => [0x91, 0x00]                   // Output (0x0)
    case 39 => [0xc0]                         // Main End Collection, no data
    case _ => []
  }

  /**
   * The copy of the wheel descriptor in hid-hori-wheels.c:114-187, one short item per row.
   */
  function WheelsWheelRow(k: nat): seq<byte>
  {
    if k < 37 then WheelsWheelRowLow(k) else WheelsWheelRowHigh(k)
  }

  /** Rows 0..36 of the copy in hid-hori-wheels.c. */
  function WheelsWheelRowLow(k: nat): seq<byte>
  {
    match k
    case 0  => [0x05, 0x01]
    case 1  => [0x09, 0x04]
    case 2  => [0xa1, 0x01]
    case 3  => [0x85, 0x01]
    case 4  => [0x15, 0x00]
    case 5  => [0x25, 0x07]
    case 6  => [0x35, 0x00]
    case 7  => [0x46, 0x3b, 0x07]
    case 8  => [0x08]
    case 9  => [0x65, 0x14]
    case 10 => [0x09, 0x39]
    case 11 => [0x75, 0x04]
    case 12 => [0x95, 0x01]
    case 13 => [0x81, 0x42]
    case 14 => [0x65, 0x00]
    case 15 => [0x25, 0x01]
    case 16 => [0x45, 0x01]
    case 17 => [0x05, 0x09]
    case 18 => [0x19, 0x01]
    case 19 => [0x29, 0x36]
    case 20 => [0x75, 0x01]
    case 21 => [0x95, 0x36]
    case 22 => [0x81, 0x02]
    case 23 => [0x95, 0x06]
    case 24 => [0x81, 0x01]
    case 25 => [0x27, 0xff, 0xff, 0x00, 0x00]
    case 26 => [0x47, 0xff, 0xff, 0x00, 0x00]
    case 27 => [0x75, 0x10]
    case 28 => [0x95, 0x08]
    case 29 => [0x05, 0x01]
    case 30 => [0x09, 0x30]
    case 31 => [0x09, 0x31]
    case 32 => [0x09, 0x32]
    case 33 => [0x09, 0x33]
    case 34 => [0x09, 0x34]
    case 35 => [0x09, 0x35]
    case 36 => [0x09, 0x36]
    case _ => []
  }

  /** Rows 37..72 of the copy in hid-hori-wheels.c. */
  function WheelsWheelRowHigh(k: nat): seq<byte>
  {
    match k
    case 37 => [0x09, 0x36]
    case 38 => [0x81, 0x02]
    case 39 => [0x26, 0xff, 0x00]
    case 40 => [0x46, 0xff, 0x00]
    case 41 => [0x06, 0x00, 0xff]
    case 42 => [0x09, 0x01]
    case 43 => [0x75, 0x08]
    case 44 => [0x95, 0x04]
    case 45 => [0x81, 0x02]
    case 46 => [0xc0]
    case 47 => [0x06, 0x20, 0xff]
    case 48 => [0x09, 0x01]
    case 49 => [0xa1, 0x01]
    case 50 => [0x85, 0x20]
    case 51 => [0x15, 0x00]
    case 52 => [0x26, 0xff, 0x00]
    case 53 => [0x75, 0x08]
    case 54 => [0x95, 0x1f]
    case 55 => [0x09, 0x02]
    case 56 => [0x81, 0x00]
    case 57 => [0x09, 0x02]
    case 58 => [0x91, 0x00]
    case 59 => [0xc0]
    case 60 => [0x06, 0x21, 0xff]
    case 61 => [0x09, 0x03]
    case 62 => [0xa1, 0x01]
    case 63 => [0x85, 0x21]
    case 64 => [0x15, 0x00]
    case 65 => [0x26, 0xff, 0x00]
    case 66 => [0x75, 0x08]
    case 67 => [0x95, 0x3f]
    case 68 => [0x09, 0x04]
    case 69 => [0x81, 0x00]
    case 70 => [0x09, 0x04]
    case 71 => [0x91, 0x00]
    case 72 => [0xc0]
    case _ => []
  }

  /**
   * The copy of the shifter descriptor in hid-hori-wheels.c:189-230, one short item per row.
   */
  function WheelsShifterRow(k: nat): seq<byte>
  {
    match k
    case 0  => [0x05, 0x01]
    case 1  => [0x09, 0x04]
    case 2  => [0xa1, 0x01]
    case 3  => [0x85, 0x01]
    case 4  => [0x15, 0x00]
    case 5  => [0x25, 0x01]
    case 6  => [0x35, 0x00]
    case 7  => [0x45, 0x01]
    case 8  => [0x05, 0x09]
    case 9  => [0x19, 0x01]
    case 10 => [0x29, 0x2b]
    case 11 => [0x75, 0x01]
    case 12 => [0x95, 0x2b]
    case 13 => [0x81, 0x02]
    case 14 => [0x95, 0x05]
    case 15 => [0x81, 0x01]
    case 16 => [0x26, 0xff, 0x00]
    case 17 => [0x46, 0xff, 0x00]
    case 18 => [0x06, 0x00, 0xff]
    case 19 => [0x09, 0x01]
    case 20 => [0x75, 0x08]
    case 21 => [0x95, 0x04]
    case 22 => [0x81, 0x02]
    case 23 => [0x09, 0x02]
    case 24 => [0x95, 0x1f]
    case 25 => [0x91, 0x02]
    case 26 => [0xc0]
    case 27 => [0x06, 0x21, 0xff]
    case 28 => [0x09, 0x03]
    case 29 => [0xa1, 0x01]
    case 30 => [0x85, 0x22]
    case 31 => [0x15, 0x00]
    case 32 => [0x26, 0xff, 0x00]
    case 33 => [0x75, 0x08]
    case 34 => [0x95, 0x3f]
    case 35 => [0x09, 0x04]
    case 36 => [0x81, 0x00]
    case 37 => [0x09, 0x04]
    case 38 => [0x91, 0x00]
    case 39 => [0xc0]
    case _ => []
  }

  /**
   * The copy of the shifter descriptor in hid-hori-multisticks.c:29-70, one short item per row.
   */
  function MultisticksShifterRow(k: nat): seq<byte>
  {
    match k
    case 0  => [0x05, 0x01]
    case 1  => [0x09, 0x04]
    case 2  => [0xa1, 0x01]
    case 3  => [0x85, 0x01]
    case 4  => [0x15, 0x00]
    case 5  => [0x25, 0x01]
    case 6  => [0x35, 0x00]
    case 7  => [0x45, 0x01]
    case 8  => [0x05, 0x09]
    case 9  => [0x19, 0x01]
    case 10 => [0x29, 0x2b]
    case 11 => [0x75, 0x01]
    case 12 => [0x95, 0x2b]
    case 13 => [0x81, 0x02]
    case 14 => [0x95, 0x05]
    case 15 => [0x81, 0x01]
    case 16 => [0x26, 0xff, 0x00]
    case 17 => [0x46, 0xff, 0x00]
    case 18 => [0x06, 0x00, 0xff]
    case 19 => [0x09, 0x01]
    case 20 => [0x75, 0x08]
    case 21 => [0x95, 0x04]
    case 22 => [0x81, 0x02]
    case 23 => [0x09, 0x02]
    case 24 => [0x95, 0x1f]
    case 25 => [0x91, 0x02]
    case 26 => [0xc0]
    case 27 => [0x06, 0x21, 0xff]
    case 28 => [0x09, 0x03]
    case 29 => [0xa1, 0x01]
    case 30 => [0x85, 0x22]
    case 31 => [0x15, 0x00]
    case 32 => [0x26, 0xff, 0x00]
    case 33 => [0x75, 0x08]
    case 34 => [0x95, 0x3f]
    case 35 => [0x09, 0x04]
    case 36 => [0x81, 0x00]
    case 37 => [0x09, 0x04]
    case 38 => [0x91, 0x00]
    case 39 => [0xc0]
    case _ => []
  }

  /** The parser state before row `k` of the wheel descriptor, row by row (checked by WheelSteps). */
  function WheelLayout(k: nat, id: nat): WalkState
  {
    if k <= 2 then WalkState(0, false, [], 0x00, 0, 0, 0)
    else if k <= 3 then WalkState(1, false, [], 0x00, 0, 0, 0)
    else if k <= 11 then WalkState(1, false, [0x01], 0x01, 0, 0, 0)
    else if k <= 12 then WalkState(1, false, [0x01], 0x01, 4, 0, 0)
    else if k <= 13 then WalkState(1, false, [0x01], 0x01, 4, 1, 0)
    else if k <= 20 then WalkState(1, false, [0x01], 0x01, 4, 1, (if id == 0x01 then 4 else 0))
    else if k <= 21 then WalkState(1, false, [0x01], 0x01, 1, 1, (if id == 0x01 then 4 else 0))
    else if k <= 22 then WalkState(1, false, [0x01], 0x01, 1, 54, (if id == 0x01 then 4 else 0))
    else if k <= 23 then WalkState(1, false, [0x01], 0x01, 1, 54, (if id == 0x01 then 58 else 0))
    else if k <= 24 then WalkState(1, false, [0x01], 0x01, 1, 6, (if id == 0x01 then 58 else 0))
    else if k <= 27 then WalkState(1, false, [0x01], 0x01, 1, 6, (if id == 0x01 then 64 else 0))
    else if k <= 28 then WalkState(1, false, [0x01], 0x01, 16, 6, (if id == 0x01 then 64 else 0))
    else if k <= 38 then WalkState(1, false, [0x01], 0x01, 16, 8, (if id == 0x01 then 64 else 0))
    else if k <= 43 then WalkState(1, false, [0x01], 0x01, 16, 8, (if id == 0x01 then 192 else 0))
    else if k <= 44 then WalkState(1, false, [0x01], 0x01, 8, 8, (if id == 0x01 then 192 else 0))
    else if k <= 45 then WalkState(1, false, [0x01], 0x01, 8, 4, (if id == 0x01 then 192 else 0))
    else if k <= 46 then WalkState(1, false, [0x01], 0x01, 8, 4, (if id == 0x01 then 224 else 0))
    else if k <= 49 then WalkState(0, false, [0x01], 0x01, 8, 4, (if id == 0x01 then 224 else 0))
    else if k <= 50 then WalkState(1, false, [0x01], 0x01, 8, 4, (if id == 0x01 then 224 else 0))
    else if k <= 54 then WalkState(1, false, [0x01, 0x20], 0x20, 8, 4, (if id == 0x01 then 224 else 0))
    else if k <= 56 then WalkState(1, false, [0x01, 0x20], 0x20, 8, 31, (if id == 0x01 then 224 else 0))
    else if k <= 59 then WalkState(1, false, [0x01, 0x20], 0x20, 8, 31, (if id == 0x01 then 224 else if id == 0x20 then 248 else 0))
    else if k <= 62 then WalkState(0, false, [0x01, 0x20], 0x20, 8, 31, (if id == 0x01 then 224 else if id == 0x20 then 248 else 0))
    else if k <= 63 then WalkState(1, false, [0x01, 0x20], 0x20, 8, 31, (if id == 0x01 then 224 else if id == 0x20 then 248 else 0))
    else if k <= 67 then WalkState(1, false, [0x01, 0x20, 0x21], 0x21, 8, 31, (if id == 0x01 then 224 else if id == 0x20 then 248 else 0))
    else if k <= 69 then WalkState(1, false, [0x01, 0x20, 0x21], 0x21, 8, 63, (if id == 0x01 then 224 else if id == 0x20 then 248 else 0))
    else if k <= 72 then WalkState(1, false, [0x01, 0x20, 0x21], 0x21, 8, 63, (if id == 0x01 then 224 else if id == 0x20 then 248 else if id == 0x21 then 504 else 0))
    else WalkState(0, false, [0x01, 0x20, 0x21], 0x21, 8, 63, (if id == 0x01 then 224 else if id == 0x20 then 248 else if id == 0x21 then 504 else 0))
  }

  /** The byte offset at which row `k` of the wheel descriptor starts. */
  function WheelOffset(k: nat): nat
  {
    if k <= 7 then 2 * k
    else if k <= 8 then 2 * k + 1
    else if k <= 25 then 2 * k
    else if k <= 26 then 2 * k + 3
    else if k <= 39 then 2 * k + 6
    else if k <= 40 then 2 * k + 7
    else if k <= 41 then 2 * k + 8
    else if k <= 46 then 2 * k + 9
    else if k <= 47 then 2 * k + 8
    else if k <= 52 then 2 * k + 9
    else if k <= 59 then 2 * k + 10
    else if k <= 60 then 2 * k + 9
    else if k <= 65 then 2 * k + 10
    else if k <= 72 then 2 * k + 11
    else 2 * k + 10
  }

  /** The parser state before row `k` of the shifter descriptor, row by row (checked by ShifterSteps). */
  function ShifterLayout(k: nat, id: nat): WalkState
  {
    if k <= 2 then WalkState(0, false, [], 0x00, 0, 0, 0)
    else if k <= 3 then WalkState(1, false, [], 0x00, 0, 0, 0)
    else if k <= 11 then WalkState(1, false, [0x01], 0x01, 0, 0, 0)
    else if k <= 12 then WalkState(1, false, [0x01], 0x01, 1, 0, 0)
    else if k <= 13 then WalkState(1, false, [0x01], 0x01, 1, 43, 0)
    else if k <= 14 then WalkState(1, false, [0x01], 0x01, 1, 43, (if id == 0x01 then 43 else 0))
    else if k <= 15 then WalkState(1, false, [0x01], 0x01, 1, 5, (if id == 0x01 then 43 else 0))
    else if k <= 20 then WalkState(1, false, [0x01], 0x01, 1, 5, (if id == 0x01 then 48 else 0))
    else if k <= 21 then WalkState(1, false, [0x01], 0x01, 8, 5, (if id == 0x01 then 48 else 0))
    else if k <= 22 then WalkState(1, false, [0x01], 0x01, 8, 4, (if id == 0x01 then 48 else 0))
    else if k <= 24 then WalkState(1, false, [0x01], 0x01, 8, 4, (if id == 0x01 then 80 else 0))
    else if k <= 26 then WalkState(1, false, [0x01], 0x01, 8, 31, (if id == 0x01 then 80 else 0))
    else if k <= 29 then WalkState(0, false, [0x01], 0x01, 8, 31, (if id == 0x01 then 80 else 0))
    else if k <= 30 then WalkState(1, false, [0x01], 0x01, 8, 31, (if id == 0x01 then 80 else 0))
    else if k <= 34 then WalkState(1, false, [0x01, 0x22], 0x22, 8, 31, (if id == 0x01 then 80 else 0))
    else if k <= 36 then WalkState(1, false, [0x01, 0x22], 0x22, 8, 63, (if id == 0x01 then 80 else 0))
    else if k <= 39 then WalkState(1, false, [0x01, 0x22], 0x22, 8, 63, (if id == 0x01 then 80 else if id == 0x22 then 504 else 0))
    else WalkState(0, false, [0x01, 0x22], 0x22, 8, 63, (if id == 0x01 then 80 else if id == 0x22 then 504 else 0))
  }

  /** The byte offset at which row `k` of the shifter descriptor starts. */
  function ShifterOffset(k: nat): nat
  {
    if k <= 16 then 2 * k
    else if k <= 17 then 2 * k + 1
    else if k <= 18 then 2 * k + 2
    else if k <= 26 then 2 * k + 3
    else if k <= 27 then 2 * k + 2
    else if k <= 32 then 2 * k + 3
    else if k <= 39 then 2 * k + 4
    else 2 * k + 3
  }

  lemma WheelSteps0(k: nat, id: nat)
    requires 0 <= k < 5
    ensures Step(ItemAt(Wheel, k), WheelLayout(k, id), id) == WheelLayout(k + 1, id)
  {
  }

  lemma WheelSteps1(k: nat, id: nat)
    requires 5 <= k < 10
    ensures Step(ItemAt(Wheel, k), WheelLayout(k, id), id) == WheelLayout(k + 1, id)
  {
  }

  lemma WheelSteps2(k: nat, id: nat)
    requires 10 <= k < 15
    ensures Step(ItemAt(Wheel, k), WheelLayout(k, id), id) == WheelLayout(k + 1, id)
  {
  }

  lemma WheelSteps3(k: nat, id: nat)
    requires 15 <= k < 20
    ensures Step(ItemAt(Wheel, k), WheelLayout(k, id), id) == WheelLayout(k + 1, id)
  {
  }

  lemma WheelSteps4(k: nat, id: nat)
    requires 20 <= k < 25
    ensures Step(ItemAt(Wheel, k), WheelLayout(k, id), id) == WheelLayout(k + 1, id)
  {
  }

  lemma WheelSteps5(k: nat, id: nat)
    requires 25 <= k < 30
    ensures Step(ItemAt(Wheel, k), WheelLayout(k, id), id) == WheelLayout(k + 1, id)
  {
  }

  lemma WheelSteps6(k: nat, id: nat)
    requires 30 <= k < 35
    ensures Step(ItemAt(Wheel, k), WheelLayout(k, id), id) == WheelLayout(k + 1, id)
  {
  }

  lemma WheelSteps7(k: nat, id: nat)
    requires 35 <= k < 40
    ensures Step(ItemAt(Wheel, k), WheelLayout(k, id), id) == WheelLayout(k + 1, id)
  {
  }

  lemma WheelSteps8(k: nat, id: nat)
    requires 40 <= k < 45
    ensures Step(ItemAt(Wheel, k), WheelLayout(k, id), id) == WheelLayout(k + 1, id)
  {
  }

  lemma WheelSteps9(k: nat, id: nat)
    requires 45 <= k < 50
    ensures Step(ItemAt(Wheel, k), WheelLayout(k, id), id) == WheelLayout(k + 1, id)
  {
  }

  lemma WheelSteps10(k: nat, id: nat)
    requires 50 <= k < 55
    ensures Step(ItemAt(Wheel, k), WheelLayout(k, id), id) == WheelLayout(k + 1, id)
  {
  }

  lemma WheelSteps11(k: nat, id: nat)
    requires 55 <= k < 60
    ensures Step(ItemAt(Wheel, k), WheelLayout(k, id), id) == WheelLayout(k + 1, id)
  {
  }

  lemma WheelSteps12(k: nat, id: nat)
    requires 60 <= k < 65
    ensures Step(ItemAt(Wheel, k), WheelLayout(k, id), id) == WheelLayout(k + 1, id)
  {
  }

  lemma WheelSteps13(k: nat, id: nat)
    requires 65 <= k < 70
    ensures Step(ItemAt(Wheel, k), WheelLayout(k, id), id) == WheelLayout(k + 1, id)
  {
  }

  lemma WheelSteps14(k: nat, id: nat)
    requires 70 <= k < 73
    ensures Step(ItemAt(Wheel, k), WheelLayout(k, id), id) == WheelLayout(k + 1, id)
  {
  }

  lemma WheelOffsetSteps0(k: nat)
    requires 0 <= k < 20
    ensures WheelOffset(k + 1) == WheelOffset(k) + |Row(Wheel, k)|
  {
  }

  lemma WheelOffsetSteps1(k: nat)
    requires 20 <= k < 40
    ensures WheelOffset(k + 1) == WheelOffset(k) + |Row(Wheel, k)|
  {
  }

  lemma WheelOffsetSteps2(k: nat)
    requires 40 <= k < 60
    ensures WheelOffset(k + 1) == WheelOffset(k) + |Row(Wheel, k)|
  {
  }

  lemma WheelOffsetSteps3(k: nat)
    requires 60 <= k < 73
    ensures WheelOffset(k + 1) == WheelOffset(k) + |Row(Wheel, k)|
  {
  }

  lemma WheelRowsAreItems0(k: nat)
    requires 0 <= k < 20
    ensures IsShortItem(WheelRow(k))
  {
  }

  lemma WheelRowsAreItems1(k: nat)
    requires 20 <= k < 40
    ensures IsShortItem(WheelRow(k))
  {
  }

  lemma WheelRowsAreItems2(k: nat)
    requires 40 <= k < 60
    ensures IsShortItem(WheelRow(k))
  {
  }

  lemma WheelRowsAreItems3(k: nat)
    requires 60 <= k < 73
    ensures IsShortItem(WheelRow(k))
  {
  }

  lemma WheelOffsetStep(k: nat)
    requires k < 73
    ensures WheelOffset(k + 1) == WheelOffset(k) + |Row(Wheel, k)|
  {
    if k < 20 {
      WheelOffsetSteps0(k);
    } else if k < 40 {
      WheelOffsetSteps1(k);
    } else if k < 60 {
      WheelOffsetSteps2(k);
    } else {
      WheelOffsetSteps3(k);
    }
  }

  lemma WheelRowIsItem(k: nat)
    requires k < 73
    ensures IsShortItem(WheelRow(k))
  {
    if k < 20 {
      WheelRowsAreItems0(k);
    } else if k < 40 {
      WheelRowsAreItems1(k);
    } else if k < 60 {
      WheelRowsAreItems2(k);
    } else {
      WheelRowsAreItems3(k);
    }
  }

  lemma WheelStep(k: nat, id: nat)
    requires k < 73
    ensures Step(ItemAt(Wheel, k), WheelLayout(k, id), id) == WheelLayout(k + 1, id)
  {
    if k < 5 {
      WheelSteps0(k, id);
    } else if k < 10 {
      WheelSteps1(k, id);
    } else if k < 15 {
      WheelSteps2(k, id);
    } else if k < 20 {
      WheelSteps3(k, id);
    } else if k < 25 {
      WheelSteps4(k, id);
    } else if k < 30 {
      WheelSteps5(k, id);
    } else if k < 35 {
      WheelSteps6(k, id);
    } else if k < 40 {
      WheelSteps7(k, id);
    } else if k < 45 {
      WheelSteps8(k, id);
    } else if k < 50 {
      WheelSteps9(k, id);
    } else if k < 55 {
      WheelSteps10(k, id);
    } else if k < 60 {
      WheelSteps11(k, id);
    } else if k < 65 {
      WheelSteps12(k, id);
    } else if k < 70 {
      WheelSteps13(k, id);
    } else {
      WheelSteps14(k, id);
    }
  }

  lemma ShifterSteps0(k: nat, id: nat)
    requires 0 <= k < 7
    ensures Step(ItemAt(Shifter, k), ShifterLayout(k, id), id) == ShifterLayout(k + 1, id)
  {
  }

  lemma ShifterSteps1(k: nat, id: nat)
    requires 7 <= k < 14
    ensures Step(ItemAt(Shifter, k), ShifterLayout(k, id), id) == ShifterLayout(k + 1, id)
  {
  }

  lemma ShifterSteps2(k: nat, id: nat)
    requires 14 <= k < 21
    ensures Step(ItemAt(Shifter, k), ShifterLayout(k, id), id) == ShifterLayout(k + 1, id)
  {
  }

  lemma ShifterSteps3(k: nat, id: nat)
    requires 21 <= k < 28
    ensures Step(ItemAt(Shifter, k), ShifterLayout(k, id), id) == ShifterLayout(k + 1, id)
  {
  }

  lemma ShifterSteps4(k: nat, id: nat)
    requires 28 <= k < 35
    ensures Step(ItemAt(Shifter, k), ShifterLayout(k, id), id) == ShifterLayout(k + 1, id)
  {
  }

  lemma ShifterSteps5(k: nat, id: nat)
    requires 35 <= k < 40
    ensures Step(ItemAt(Shifter, k), ShifterLayout(k, id), id) == ShifterLayout(k + 1, id)
  {
  }

  lemma ShifterOffsetSteps0(k: nat)
    requires 0 <= k < 20
    ensures ShifterOffset(k + 1) == ShifterOffset(k) + |Row(Shifter, k)|
  {
  }

  lemma ShifterOffsetSteps1(k: nat)
    requires 20 <= k < 40
    ensures ShifterOffset(k + 1) == ShifterOffset(k) + |Row(Shifter, k)|
  {
  }

  lemma ShifterRowsAreItems0(k: nat)
    requires 0 <= k < 20
    ensures IsShortItem(ShifterRow(k))
  {
  }

  lemma ShifterRowsAreItems1(k: nat)
    requires 20 <= k < 40
    ensures IsShortItem(ShifterRow(k))
  {
  }

  lemma ShifterOffsetStep(k: nat)
    requires k < 40
    ensures ShifterOffset(k + 1) == ShifterOffset(k) + |Row(Shifter, k)|
  {
    if k < 20 {
      ShifterOffsetSteps0(k);
    } else {
      ShifterOffsetSteps1(k);
    }
  }

  lemma ShifterRowIsItem(k: nat)
    requires k < 40
    ensures IsShortItem(ShifterRow(k))
  {
    if k < 20 {
      ShifterRowsAreItems0(k);
    } else {
      ShifterRowsAreItems1(k);
    }
  }

  lemma ShifterStep(k: nat, id: nat)
    requires k < 40
    ensures Step(ItemAt(Shifter, k), ShifterLayout(k, id), id) == ShifterLayout(k + 1, id)
  {
    if k < 7 {
      ShifterSteps0(k, id);
    } else if k < 14 {
      ShifterSteps1(k, id);
    } else if k < 21 {
      ShifterSteps2(k, id);
    } else if k < 28 {
      ShifterSteps3(k, id);
    } else if k < 35 {
      ShifterSteps4(k, id);
    } else {
      ShifterSteps5(k, id);
    }
  }

  lemma WheelsWheelRowsSame0(k: nat)
    requires 0 <= k < 20
    ensures WheelsWheelRow(k) == Row(Wheel, k)
  {
  }

  lemma WheelsWheelRowsSame1(k: nat)
    requires 20 <= k < 40
    ensures WheelsWheelRow(k) == Row(Wheel, k)
  {
  }

  lemma WheelsWheelRowsSame2(k: nat)
    requires 40 <= k < 60
    ensures WheelsWheelRow(k) == Row(Wheel, k)
  {
  }

  lemma WheelsWheelRowsSame3(k: nat)
    requires 60 <= k < 73
    ensures WheelsWheelRow(k) == Row(Wheel, k)
  {
  }

  lemma WheelsWheelRowSame(k: nat)
    requires k < 73
    ensures WheelsWheelRow(k) == Row(Wheel, k)
  {
    if k < 20 {
      WheelsWheelRowsSame0(k);
    } else if k < 40 {
      WheelsWheelRowsSame1(k);
    } else if k < 60 {
      WheelsWheelRowsSame2(k);
    } else {
      WheelsWheelRowsSame3(k);
    }
  }

  lemma WheelsShifterRowsSame0(k: nat)
    requires 0 <= k < 20
    ensures WheelsShifterRow(k) == Row(Shifter, k)
  {
  }

  lemma WheelsShifterRowsSame1(k: nat)
    requires 20 <= k < 40
    ensures WheelsShifterRow(k) == Row(Shifter, k)
  {
  }

  lemma WheelsShifterRowSame(k: nat)
    requires k < 40
    ensures WheelsShifterRow(k) == Row(Shifter, k)
  {
    if k < 20 {
      WheelsShifterRowsSame0(k);
    } else {
      WheelsShifterRowsSame1(k);
    }
  }

  lemma MultisticksShifterRowsSame0(k: nat)
    requires 0 <= k < 20
    ensures MultisticksShifterRow(k) == Row(Shifter, k)
  {
  }

  lemma MultisticksShifterRowsSame1(k: nat)
    requires 20 <= k < 40
    ensures MultisticksShifterRow(k) == Row(Shifter, k)
  {
  }

  lemma MultisticksShifterRowSame(k: nat)
    requires k < 40
    ensures MultisticksShifterRow(k) == Row(Shifter, k)
  {
    if k < 20 {
      MultisticksShifterRowsSame0(k);
    } else {
      MultisticksShifterRowsSame1(k);
    }
  }

  /** The parser state before row `k`, as the certificate tables give it. */
  function Layout(d: Rdesc, k: nat, id: nat): WalkState
  {
    match d
    case Wheel => WheelLayout(k, id)
    case Shifter => ShifterLayout(k, id)
  }

  function Offset(d: Rdesc, k: nat): nat
  {
    match d
    case Wheel => WheelOffset(k)
    case Shifter => ShifterOffset(k)
  }

  /** Walking the first `k` rows of a descriptor reaches exactly the state its layout table records. */
  lemma {:induction false} WalkIsLayout(d: Rdesc, k: nat, id: nat)
    requires k <= RowCount(d)
    ensures WalkTo(d, k, id) == Layout(d, k, id)
    decreases k
  {
    if k > 0 {
      WalkIsLayout(d, k - 1, id);
      WalkStep(d, k - 1, id);
      match d
      case Wheel => WheelStep(k - 1, id);
      case Shifter => ShifterStep(k - 1, id);
    }
  }

  /** The first `k` rows of a descriptor take exactly Offset(d, k) bytes. */
  lemma {:induction false} PrefixLength(d: Rdesc, k: nat)
    requires k <= RowCount(d)
    ensures |Concat(Rows(d)[..k])| == Offset(d, k)
    decreases k
  {
    if k > 0 {
      PrefixLength(d, k - 1);
      var rows := Rows(d)[..k];
      ConcatSnoc(rows);
      assert rows[..k - 1] == Rows(d)[..k - 1];
      match d
      case Wheel => WheelOffsetStep(k - 1);
      case Shifter => ShifterOffsetStep(k - 1);
    }
  }

  /** The state after the whole descriptor is the last entry of its layout table. */
  lemma RunIsLayout(d: Rdesc, id: nat)
    ensures Run(Items(d), Start, id) == Layout(d, RowCount(d), id)
    ensures |Descriptor(d)| == Offset(d, RowCount(d))
  {
    WalkIsLayout(d, RowCount(d), id);
    assert Items(d)[..RowCount(d)] == Items(d);
    PrefixLength(d, RowCount(d));
    assert Rows(d)[..RowCount(d)] == Rows(d);
  }

  /** The replacement descriptors are 156 (wheel) and 83 (shifter) bytes long. */
  lemma DescriptorLength(d: Rdesc)
    ensures |Descriptor(d)| == (match d case Wheel => 156 case Shifter => 83)
  {
    PrefixLength(d, RowCount(d));
    assert Rows(d)[..RowCount(d)] == Rows(d);
  }

  /** The Report ID of the input report both devices send their controls in. */
  const InputReportId: nat := 0x01

  /** The copies of the two descriptors that hid-hori-wheels.c and hid-hori-multisticks.c hold. */
  datatype Copy = WheelsWheel | WheelsShifter | MultisticksShifter

  /** The hid-hori.c descriptor a copy duplicates. */
  function Original(c: Copy): Rdesc
  {
    match c
    case WheelsWheel => Wheel
    case WheelsShifter => Shifter
    case MultisticksShifter => Shifter
  }

  function CopyRow(c: Copy, k: nat): seq<byte>
  {
    match c
    case WheelsWheel => WheelsWheelRow(k)
    case WheelsShifter => WheelsShifterRow(k)
    case MultisticksShifter => MultisticksShifterRow(k)
  }

  function CopyRows(c: Copy): (rows: seq<seq<byte>>)
    ensures |rows| == RowCount(Original(c))
    ensures forall k :: 0 <= k < |rows| ==> rows[k] == CopyRow(c, k)
  {
    seq(RowCount(Original(c)), k requires 0 <= k < RowCount(Original(c)) => CopyRow(c, k))
  }

  /** The bytes of a copy, as the other driver's array holds them. */
  function CopyBytes(c: Copy): seq<byte>
  {
    Concat(CopyRows(c))
  }

  /** Each copy is, byte for byte, the descriptor of hid-hori.c. */
  lemma CopyIsIdentical(c: Copy)
    ensures CopyBytes(c) == Descriptor(Original(c))
  {
    var d := Original(c);
    forall k | 0 <= k < RowCount(d)
      ensures CopyRows(c)[k] == Rows(d)[k]
    {
      match c
      case WheelsWheel => WheelsWheelRowSame(k);
      case WheelsShifter => WheelsShifterRowSame(k);
      case MultisticksShifter => MultisticksShifterRowSame(k);
    }
    assert CopyRows(c) == Rows(d);
  }

  /**
   * The wheel's hat switch: logical range 0..7, usage Hat switch, and an
   * Input item that is a variable with a Null state.
   */
  lemma WheelHatItems()
    ensures ItemAt(Wheel, 4) == Item(Global, LogicalMinimumTag, [0])
    ensures ItemAt(Wheel, 5) == Item(Global, LogicalMaximumTag, [7])
    ensures ItemAt(Wheel, 10) == Item(Local, UsageTag, [0x39])
    ensures ItemAt(Wheel, 13).kind == Main && ItemAt(Wheel, 13).tag == InputTag
    ensures IsVariable(Unsigned(ItemAt(Wheel, 13).data)) && HasNullState(Unsigned(ItemAt(Wheel, 13).data))
  {
  }

  /** The wheel's buttons: usages 1..54, then an Input item. */
  lemma WheelButtonItems()
    ensures ItemAt(Wheel, 18) == Item(Local, UsageMinimumTag, [1])
    ensures ItemAt(Wheel, 19) == Item(Local, UsageMaximumTag, [54])
    ensures ItemAt(Wheel, 22).kind == Main && ItemAt(Wheel, 22).tag == InputTag
  {
  }

  /** The Input items of the wheel's axes (row 38) and vendor bytes (row 45). */
  lemma WheelAxisItems()
    ensures ItemAt(Wheel, 38).kind == Main && ItemAt(Wheel, 38).tag == InputTag
    ensures ItemAt(Wheel, 45).kind == Main && ItemAt(Wheel, 45).tag == InputTag
  {
  }

  /**
   * Input report 1 of the wheel, field by field, as the walk finds it: a
   * 4-bit hat switch at bit 0, 54 one-bit buttons at bit 4, eight 16-bit
   * axes at bit 64 and four vendor bytes at bit 192.  `id` is any Report
   * ID: the bits counted before each field belong to report 1 only.
   */
  lemma WheelReport1Fields(id: nat)
    ensures var w := WalkTo(Wheel, 13, id); w.reportId == 1 && w.bits == 0 && w.reportSize == 4 && w.reportCount == 1
    ensures var w := WalkTo(Wheel, 22, id); w.reportId == 1 && w.bits == (if id == 1 then 4 else 0) && w.reportSize == 1 && w.reportCount == 54
    ensures var w := WalkTo(Wheel, 38, id); w.reportId == 1 && w.bits == (if id == 1 then 64 else 0) && w.reportSize == 16 && w.reportCount == 8
    ensures var w := WalkTo(Wheel, 45, id); w.reportId == 1 && w.bits == (if id == 1 then 192 else 0) && w.reportSize == 8 && w.reportCount == 4
  {
    WalkIsLayout(Wheel, 13, id);
    WalkIsLayout(Wheel, 22, id);
    WalkIsLayout(Wheel, 38, id);
    WalkIsLayout(Wheel, 45, id);
  }

  /** The shifter's buttons (usages 1..43), padding and vendor bytes. */
  lemma ShifterReport1Items()
    ensures ItemAt(Shifter, 9) == Item(Local, UsageMinimumTag, [1])
    ensures ItemAt(Shifter, 10) == Item(Local, UsageMaximumTag, [43])
    ensures ItemAt(Shifter, 13).kind == Main && ItemAt(Shifter, 13).tag == InputTag
    ensures ItemAt(Shifter, 15).kind == Main && IsConstant(Unsigned(ItemAt(Shifter, 15).data))
    ensures ItemAt(Shifter, 22).kind == Main && ItemAt(Shifter, 22).tag == InputTag
  {
  }

  /**
   * Input report 1 of the shifter: 43 one-bit buttons at bit 0, five
   * constant padding bits at bit 43, and four vendor bytes at bit 48.
   */
  lemma ShifterReport1Fields(id: nat)
    ensures var w := WalkTo(Shifter, 13, id); w.reportId == 1 && w.bits == 0 && w.reportSize == 1 && w.reportCount == 43
    ensures var w := WalkTo(Shifter, 15, id); w.reportId == 1 && w.bits == (if id == 1 then 43 else 0) && w.reportSize == 1 && w.reportCount == 5
    ensures var w := WalkTo(Shifter, 22, id); w.reportId == 1 && w.bits == (if id == 1 then 48 else 0) && w.reportSize == 8 && w.reportCount == 4
  {
    WalkIsLayout(Shifter, 13, id);
    WalkIsLayout(Shifter, 15, id);
    WalkIsLayout(Shifter, 22, id);
  }

  /**
   * The four bytes on the wheel descriptor's Physical Maximum line are two
   * items: a Physical Maximum of 0x073b (1851), and a Local Usage item with
   * no data.  That extra byte makes the descriptor 156 bytes long.
   */
  lemma WheelPhysicalMaximum()
    ensures Row(Wheel, 7) == [0x46, 0x3b, 0x07]
    ensures ItemAt(Wheel, 7) == Item(Global, PhysicalMaximumTag, [0x3b, 0x07])
    ensures Unsigned(ItemAt(Wheel, 7).data) == 0x073b
    ensures ItemAt(Wheel, 8) == Item(Local, UsageTag, [])
  {
  }

  /** The wheel descriptor is 156 bytes that parse into its 73 rows. */
  lemma WheelParses()
    ensures |Descriptor(Wheel)| == 156
    ensures ParseItems(Descriptor(Wheel)) == Some(Items(Wheel))
  {
    DescriptorLength(Wheel);
    ParsesToRows(Wheel);
  }

  /** Every Collection of the wheel descriptor is closed, and none is closed twice. */
  lemma WheelBalanced()
    ensures Balanced(Items(Wheel))
  {
    RunIsLayout(Wheel, 0);
  }

  /** The wheel descriptor declares Report IDs 1, 0x20 and 0x21, each once. */
  lemma WheelReportIds(id: nat)
    ensures Run(Items(Wheel), Start, id).reportIds == [0x01, 0x20, 0x21]
    ensures Distinct(Run(Items(Wheel), Start, id).reportIds)
  {
    RunIsLayout(Wheel, id);
  }

  /** The Input bits of each report of the wheel descriptor, and the length of input report 1. */
  lemma WheelReports(id: nat)
    ensures InputBits(Items(Wheel), id) == (if id == 0x01 then 224 else if id == 0x20 then 248 else if id == 0x21 then 504 else 0)
    ensures id == 0x01 ==> InputReportLength(Items(Wheel), id) == 29
  {
    RunIsLayout(Wheel, id);
  }

  /** The shifter descriptor is 83 bytes that parse into its 40 rows. */
  lemma ShifterParses()
    ensures |Descriptor(Shifter)| == 83
    ensures ParseItems(Descriptor(Shifter)) == Some(Items(Shifter))
  {
    DescriptorLength(Shifter);
    ParsesToRows(Shifter);
  }

  /** Every Collection of the shifter descriptor is closed, and none is closed twice. */
  lemma ShifterBalanced()
    ensures Balanced(Items(Shifter))
  {
    RunIsLayout(Shifter, 0);
  }

  /** The shifter descriptor declares Report IDs 1 and 0x22, each once. */
  lemma ShifterReportIds(id: nat)
    ensures Run(Items(Shifter), Start, id).reportIds == [0x01, 0x22]
    ensures Distinct(Run(Items(Shifter), Start, id).reportIds)
  {
    RunIsLayout(Shifter, id);
  }

  /** The Input bits of each report of the shifter descriptor, and the length of input report 1. */
  lemma ShifterReports(id: nat)
    ensures InputBits(Items(Shifter), id) == (if id == 0x01 then 80 else if id == 0x22 then 504 else 0)
    ensures id == 0x01 ==> InputReportLength(Items(Shifter), id) == 11
  {
    RunIsLayout(Shifter, id);
  }
}
