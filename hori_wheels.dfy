/**
 * hid-hori-wheels.c: a third driver for the TCS wheel and shifter.  It
 * substitutes the same report descriptors as hid-hori.c, decodes wheel
 * and shifter reports with fixed byte expressions, declares key and axis
 * capabilities, adjusts fields as the HID core maps them, and keeps (in a
 * comment) an alternating-frame handler over a two-field private state.
 */
module HoriWheels {
  import opened Bytes
  import opened HidItems
  import opened TcsDescriptors
  import opened InputEvents
  import opened HidIds
  import Hori

  const WheelOrigSize: nat := 155
  const ShifterOrigSize: nat := 83

  /** hori_report_fixup: this driver's copies of the two descriptors, under the same product-and-size rule. */
  function ReportFixup(product: nat, rdesc: seq<byte>): (r: seq<byte>)
    ensures product == TruckControlSystemWheel && |rdesc| == WheelOrigSize ==> r == CopyBytes(WheelsWheel)
    ensures product == TruckControlSystemShifter && |rdesc| == ShifterOrigSize ==> r == CopyBytes(WheelsShifter)
    ensures r != rdesc ==> (product == TruckControlSystemWheel && |rdesc| == WheelOrigSize) || (product == TruckControlSystemShifter && |rdesc| == ShifterOrigSize)
  {
    if product == TruckControlSystemWheel && |rdesc| == WheelOrigSize then CopyBytes(WheelsWheel)
    else if product == TruckControlSystemShifter && |rdesc| == ShifterOrigSize then CopyBytes(WheelsShifter)
    else rdesc
  }

  /**
   * The fixup is hid-hori.c's, byte for byte, so it leaves the same sizes
   * behind and is idempotent too.
   */
  lemma FixupAgreesWithHori(product: nat, rdesc: seq<byte>)
    ensures ReportFixup(product, rdesc) == Hori.ReportFixup(product, rdesc)
    ensures ReportFixup(product, ReportFixup(product, rdesc)) == ReportFixup(product, rdesc)
  {
    CopyIsIdentical(WheelsWheel);
    CopyIsIdentical(WheelsShifter);
    Hori.FixupIdempotent(product, rdesc);
    var r := ReportFixup(product, rdesc);
    assert ReportFixup(product, r) == Hori.ReportFixup(product, r);
  }

  /** hori_tcs_wheel_hat_mapping: eight directions clockwise from up, (0, -1), then the centre. */
  const HatMapping: seq<(int, int)> :=
    [(0, -1), (1, -1), (1, 0), (1, 1), (0, 1), (-1, 1), (-1, 0), (-1, -1), (0, 0)]

  /**
   * Entry n is hid-hori.c's hat_to_axis[n + 1] and entry 8 its entry 0:
   * the same directions, counted from 0 as the wheel descriptor counts
   * them (logical range 0..7 with a Null state), with the centre at 8,
   * the first value outside that range.  The eight directions turn
   * clockwise, the last back into the first.
   */
  lemma HatMappingMatchesDescriptor()
    ensures |HatMapping| == 9
    ensures forall n :: 0 <= n < 8 ==> HatMapping[n] == Hori.HatToAxis[n + 1]
    ensures HatMapping[8] == Hori.HatToAxis[0] == (0, 0)
    ensures forall n :: 0 <= n < 7 ==> HatMapping[n + 1] == Hori.Clockwise(HatMapping[n])
    ensures Hori.Clockwise(HatMapping[7]) == HatMapping[0]
    ensures forall n :: 0 <= n < 8 ==> HatMapping[n] != (0, 0)
    ensures ItemAt(Wheel, 4) == Item(Global, LogicalMinimumTag, [0])
    ensures ItemAt(Wheel, 5) == Item(Global, LogicalMaximumTag, [7])
    ensures HasNullState(Unsigned(ItemAt(Wheel, 13).data))
  {
    Hori.HatTableIsClockwise();
    WheelHatItems();
  }

  /**
   * The corrected hat lookup of hid-hori.c and the hat mapping of the
   * wheel driver are the same table: value n is the same direction in
   * both, starting at up, (0, -1), and turning clockwise, and value 8 is
   * the centre in both.
   */
  lemma {:induction false} HatLookupsAgree()
    ensures forall n :: 0 <= n < 9 ==> Hori.HatAxes(n) == HatMapping[n]
    ensures Hori.HatAxes(0) == HatMapping[0] == (0, -1)
    ensures Hori.HatAxes(8) == HatMapping[8] == (0, 0)
  {
    HatMappingMatchesDescriptor();
  }

  /** The byte expression of one key line: `data[i]`, `data[i] >> s` or `data[i] << s`. */
  datatype ByteExpr = Raw(i: nat) | Right(i: nat, s: nat) | Left(i: nat, s: nat)

  /** The value of a byte expression on a report, as the C promotes and shifts it. */
  function Eval(data: seq<byte>, e: ByteExpr): (v: nat)
    requires e.i < |data|
    ensures e.Raw? ==> v == data[e.i] as nat
    ensures e.Right? ==> v <= data[e.i] as nat
    ensures e.Left? ==> v == data[e.i] as nat * Pow2(e.s)
  {
    match e
    case Raw(i) => data[i] as nat
    case Right(i, s) => Shr(data[i] as nat, s)
    case Left(i, s) => Shl(data[i] as nat, s)
  }

  /**
   * What the shapes of byte expression can report: a right shift by eight
   * or more is always 0, by four at most 15 and by two at most 63; a left
   * shift exceeds 1 exactly when its byte is not 0, a plain byte exactly
   * when it is 2 or more.  So no line other than the constant ones reports
   * only 0 and 1.
   */
  lemma EvalRange(data: seq<byte>, e: ByteExpr)
    requires e.i < |data|
    ensures e.Right? && e.s >= 8 ==> Eval(data, e) == 0
    ensures e.Right? && e.s == 4 ==> Eval(data, e) <= 15
    ensures e.Right? && e.s == 2 ==> Eval(data, e) <= 63
    ensures e.Left? && e.s >= 1 ==> (Eval(data, e) > 1 <==> data[e.i] != 0)
    ensures e.Raw? ==> (Eval(data, e) > 1 <==> data[e.i] >= 2)
  {
    var x := data[e.i];
    match e
    case Raw(_) =>
    case Right(_, s) =>
      if s >= 8 {
        ShrByteByEightOrMore(x, s);
      } else if s == 4 {
        ShrBelow(x as nat, 8, 4);
      } else if s == 2 {
        ShrBelow(x as nat, 8, 2);
      }
    case Left(_, s) =>
      if s >= 1 {
        Pow2Monotonic(1, s);
      }
  }

  /** One `input_event(dev, EV_KEY, code, expr)` line. */
  datatype KeyLine = KeyLine(code: nat, expr: ByteExpr)

  /**
   * The key event of a line: the value is the expression's value as it
   * is, not reduced to 0 or 1.  A plain byte reports the byte; a right
   * shift never more than the byte, and nothing at all once it shifts by
   * eight or more; a left shift reports 0 exactly when its byte is 0.
   */
  function KeyEvent(data: seq<byte>, line: KeyLine): (e: Event)
    requires line.expr.i < |data|
    ensures e.kind == EvKey && e.code == line.code
    ensures line.expr.Raw? ==> e.value == data[line.expr.i] as nat
    ensures line.expr.Right? ==> e.value <= data[line.expr.i] as nat
    ensures line.expr.Right? && line.expr.s >= 8 ==> e.value == 0
    ensures line.expr.Right? && line.expr.s == 4 ==> e.value <= 15
    ensures line.expr.Left? ==> (e.value == 0 <==> data[line.expr.i] == 0)
    ensures line.expr.Left? && line.expr.s >= 1 ==> (e.value > 1 <==> data[line.expr.i] != 0)
  {
    EvalRange(data, line.expr);
    Event(EvKey, line.code, Eval(data, line.expr))
  }

  /**
   * The key lines of the wheel branch, in the driver's order: line `n`
   * reports button n's code with the value of its byte expression.
   */
  function WheelKey(n: nat): (line: KeyLine)
    requires 1 <= n <= 54
    ensures line.expr.i <= 16
  {
    match n
    case 1 => KeyLine(BtnTrigger, Raw(1))
    case 2 => KeyLine(BtnThumb, Right(1, 4))
    case 3 => KeyLine(BtnThumb2, Left(1, 2))
    case 4 => KeyLine(BtnTop, Right(1, 2))
    case 5 => KeyLine(BtnTop2, Raw(2))
    case 6 => KeyLine(BtnPinkie, Left(2, 4))
    case 7 => KeyLine(BtnBase, Left(2, 2))
    case 8 => KeyLine(BtnBase2, Right(2, 4))
    case 9 => KeyLine(BtnBase3, Right(2, 8))
    case 10 => KeyLine(BtnBase4, Left(2, 8))
    case 11 => KeyLine(BtnBase5, Right(2, 2))
    case 12 => KeyLine(BtnBase6, Right(3, 8))
    case 13 => KeyLine(BtnBase7, Right(3, 4))
    case 14 => KeyLine(BtnBase8, Left(3, 8))
    case 15 => KeyLine(BtnBase9, Raw(15))
    case 16 => KeyLine(BtnDead, Raw(16))
    case 17 => KeyLine(TriggerHappy(1), Left(3, 2))
    case 18 => KeyLine(TriggerHappy(2), Left(3, 4))
    case 19 => KeyLine(TriggerHappy(3), Right(3, 2))
    case 20 => KeyLine(TriggerHappy(4), Right(4, 4))
    case 21 => KeyLine(TriggerHappy(5), Right(4, 2))
    case 22 => KeyLine(TriggerHappy(6), Left(4, 4))
    case 23 => KeyLine(TriggerHappy(7), Left(4, 2))
    case 24 => KeyLine(TriggerHappy(8), Left(4, 8))
    case 25 => KeyLine(TriggerHappy(9), Right(4, 8))
    case 26 => KeyLine(TriggerHappy(10), Raw(4))
    case 27 => KeyLine(TriggerHappy(11), Raw(4))
    case 28 => KeyLine(TriggerHappy(12), Left(5, 2))
    case 29 => KeyLine(TriggerHappy(13), Raw(5))
    case 30 => KeyLine(TriggerHappy(14), Left(5, 4))
    case 31 => KeyLine(TriggerHappy(15), Left(5, 8))
    case 32 => KeyLine(TriggerHappy(16), Right(5, 2))
    case 33 => KeyLine(TriggerHappy(17), Right(5, 4))
    case 34 => KeyLine(TriggerHappy(18), Right(5, 8))
    case 35 => KeyLine(TriggerHappy(19), Left(6, 2))
    case 36 => KeyLine(TriggerHappy(20), Left(6, 4))
    case 37 => KeyLine(TriggerHappy(21), Left(6, 8))
    case 38 => KeyLine(TriggerHappy(22), Right(6, 2))
    case 39 => KeyLine(TriggerHappy(23), Right(6, 4))
    case 40 => KeyLine(TriggerHappy(24), Right(6, 8))
    case 41 => KeyLine(TriggerHappy(25), Raw(6))
    case 42 => KeyLine(TriggerHappy(26), Raw(7))
    case 43 => KeyLine(TriggerHappy(27), Left(7, 4))
    case 44 => KeyLine(TriggerHappy(28), Right(7, 8))
    case 45 => KeyLine(TriggerHappy(29), Raw(7))
    case 46 => KeyLine(TriggerHappy(30), Right(8, 8))
    case 47 => KeyLine(TriggerHappy(31), Right(7, 2))
    case 48 => KeyLine(TriggerHappy(32), Left(0, 4))
    case 49 => KeyLine(TriggerHappy(33), Right(7, 4))
    case 50 => KeyLine(TriggerHappy(34), Left(8, 8))
    case 51 => KeyLine(TriggerHappy(35), Right(8, 4))
    case 52 => KeyLine(TriggerHappy(36), Right(8, 2))
    case 53 => KeyLine(TriggerHappy(37), Raw(8))
    case _ => KeyLine(TriggerHappy(38), Left(8, 2))
  }

  /** The key lines of the shifter branch, in the driver's order. */
  function ShifterKey(n: nat): (line: KeyLine)
    requires 1 <= n <= 42
    ensures line.expr.i <= 42
  {
    match n
    case 1 => KeyLine(BtnTrigger, Raw(1))
    case 2 => KeyLine(BtnThumb, Raw(2))
    case 3 => KeyLine(BtnThumb2, Raw(17))
    case 4 => KeyLine(BtnTop, Raw(25))
    case 5 => KeyLine(BtnTop2, Raw(33))
    case 6 => KeyLine(BtnPinkie, Raw(6))
    case 7 => KeyLine(BtnBase, Raw(7))
    case 8 => KeyLine(BtnBase2, Raw(8))
    case 9 => KeyLine(BtnBase3, Raw(9))
    case 10 => KeyLine(BtnBase4, Raw(10))
    case 11 => KeyLine(BtnBase5, Right(2, 4))
    case 12 => KeyLine(BtnBase6, Right(12, 16))
    case 13 => KeyLine(BtnBase7, Left(13, 2))
    case 14 => KeyLine(BtnBase8, Raw(14))
    case 15 => KeyLine(BtnBase9, Raw(15))
    case 16 => KeyLine(BtnDead, Raw(16))
    case 17 => KeyLine(TriggerHappy(1), Raw(3))
    case 18 => KeyLine(TriggerHappy(2), Raw(18))
    case 19 => KeyLine(TriggerHappy(3), Raw(19))
    case 20 => KeyLine(TriggerHappy(4), Raw(20))
    case 21 => KeyLine(TriggerHappy(5), Raw(21))
    case 22 => KeyLine(TriggerHappy(6), Raw(22))
    case 23 => KeyLine(TriggerHappy(7), Raw(23))
    case 24 => KeyLine(TriggerHappy(8), Raw(24))
    case 25 => KeyLine(TriggerHappy(9), Raw(4))
    case 26 => KeyLine(TriggerHappy(10), Raw(26))
    case 27 => KeyLine(TriggerHappy(11), Raw(27))
    case 28 => KeyLine(TriggerHappy(12), Raw(28))
    case 29 => KeyLine(TriggerHappy(13), Raw(29))
    case 30 => KeyLine(TriggerHappy(14), Raw(30))
    case 31 => KeyLine(TriggerHappy(15), Raw(31))
    case 32 => KeyLine(TriggerHappy(16), Raw(32))
    case 33 => KeyLine(TriggerHappy(17), Raw(5))
    case 34 => KeyLine(TriggerHappy(18), Raw(34))
    case 35 => KeyLine(TriggerHappy(19), Raw(34))
    case 36 => KeyLine(TriggerHappy(20), Raw(36))
    case 37 => KeyLine(TriggerHappy(21), Raw(37))
    case 38 => KeyLine(TriggerHappy(22), Raw(38))
    case 39 => KeyLine(TriggerHappy(23), Raw(39))
    case 40 => KeyLine(TriggerHappy(24), Raw(40))
    case 41 => KeyLine(TriggerHappy(25), Raw(6))
    case _ => KeyLine(TriggerHappy(26), Raw(42))
  }

  /**
   * The wheel branch of hori_raw_event: the eight axes as in hid-hori.c,
   * HAT0X and HAT0Y straight from data[0] and data[0] >> 2, the scan
   * event as a key event with code EV_MSC (4) and value 1, then the 54
   * key lines.  Key line n is event 10 + n.
   */
  function WheelEvents(data: seq<byte>): (events: seq<Event>)
    requires |data| >= 25
    ensures |events| == 65
    ensures events[..10] == WheelAxisEvents(data)
    ensures events[10] == Event(EvKey, EvMsc, 1)
    ensures events[11..] == WheelKeyEvents(data)
  {
    WheelAxisEvents(data) + [ReportKey(EvMsc, MscScan)] + WheelKeyEvents(data)
  }

  /** The ten axis events of the wheel branch. */
  function WheelAxisEvents(data: seq<byte>): (events: seq<Event>)
    requires |data| >= 25
    ensures |events| == 10
    ensures forall k :: 0 <= k < 10 ==> events[k].kind == EvAbs
    ensures events[8] == AbsEvent(AbsHat0X, data[0] as int) && events[9] == AbsEvent(AbsHat0Y, Shr(data[0] as nat, 2))
  {
    [ AbsEvent(AbsX, Hori.AxisValue(data[14])),
      AbsEvent(AbsY, Hori.AxisValue(data[12])),
      AbsEvent(AbsWheel, Hori.AxisValue(data[10])),
      AbsEvent(AbsRx, Hori.AxisValue(data[16])),
      AbsEvent(AbsRy, Hori.AxisValue(data[18])),
      AbsEvent(AbsClutch, Hori.AxisValue(data[20])),
      AbsEvent(AbsGas, Hori.AxisValue(data[22])),
      AbsEvent(AbsBrake, Hori.AxisValue(data[24])),
      AbsEvent(AbsHat0X, data[0] as int),
      AbsEvent(AbsHat0Y, Shr(data[0] as nat, 2)) ]
  }

  /** The 54 key line events of the wheel branch, line n at index n - 1. */
  function WheelKeyEvents(data: seq<byte>): (events: seq<Event>)
    requires |data| >= 17
    ensures |events| == 54
    ensures forall k :: 0 <= k < 54 ==> events[k].kind == EvKey
    ensures forall n :: 1 <= n <= 54 ==> events[n - 1] == KeyEvent(data, WheelKey(n))
  {
    seq(54, k requires 0 <= k < 54 => KeyEvent(data, WheelKey(k + 1)))
  }

  /** Key line n of the wheel is event 10 + n. */
  lemma WheelKeyLine(data: seq<byte>, n: nat)
    requires |data| >= 25 && 1 <= n <= 54
    ensures WheelEvents(data)[10 + n] == KeyEvent(data, WheelKey(n))
  {
    assert WheelEvents(data)[10 + n] == WheelEvents(data)[11..][n - 1];
  }

  /** The shifter branch: the scan event, then the 42 key lines.  Key line n is event n. */
  function ShifterEvents(data: seq<byte>): (events: seq<Event>)
    requires |data| >= 43
    ensures |events| == 43
    ensures events[0] == Event(EvKey, EvMsc, 1)
    ensures forall n :: 1 <= n <= 42 ==> events[n] == KeyEvent(data, ShifterKey(n))
  {
    [ReportKey(EvMsc, MscScan)] + seq(42, k requires 0 <= k < 42 => KeyEvent(data, ShifterKey(k + 1)))
  }

  /**
   * hori_raw_event: the wheel and shifter branches by product, nothing for
   * any other product, and no sync event after either (the input_sync
   * call is commented out).
   */
  function RawEvent(product: nat, data: seq<byte>): (events: seq<Event>)
    requires product == TruckControlSystemWheel ==> |data| >= 25
    requires product == TruckControlSystemShifter ==> |data| >= 43
    ensures product == TruckControlSystemWheel ==> events == WheelEvents(data)
    ensures product == TruckControlSystemShifter ==> events == ShifterEvents(data)
    ensures product != TruckControlSystemWheel && product != TruckControlSystemShifter ==> events == []
  {
    if product == TruckControlSystemWheel then WheelEvents(data)
    else if product == TruckControlSystemShifter then ShifterEvents(data)
    else []
  }

  /** No report is ever followed by a sync event. */
  lemma NeverSyncs(product: nat, data: seq<byte>)
    requires product == TruckControlSystemWheel ==> |data| >= 25
    requires product == TruckControlSystemShifter ==> |data| >= 43
    ensures forall k :: 0 <= k < |RawEvent(product, data)| ==> RawEvent(product, data)[k].kind != EvSyn
  {
    var events := RawEvent(product, data);
    forall k | 0 <= k < |events|
      ensures events[k].kind != EvSyn
    {
      if product == TruckControlSystemWheel {
        if k > 10 {
          WheelKeyLine(data, k - 10);
        } else if k < 10 {
          assert events[k] == events[..10][k];
        }
      } else if k > 0 {
        assert events[k] == KeyEvent(data, ShifterKey(k));
      }
    }
  }

  /** The eight axes are hid-hori.c's eight axes, at the same offsets and in the same order. */
  lemma WheelAxesAgreeWithHori(data: seq<byte>)
    requires |data| >= 27
    ensures WheelEvents(data)[..8] == Hori.ParseAxisReport(data)[..8]
  {
    assert WheelEvents(data)[..8] == WheelAxisEvents(data)[..8];
  }

  /**
   * The hat is reported raw: HAT0X leaves its declared range -1..1 once
   * data[0] is 2 or more, HAT0Y once it is 8 or more.  data[0] is the
   * Report ID, so every report 1 reports HAT0X 1 and HAT0Y 0, whatever
   * the hat nibble says.
   */
  lemma WheelHatOutOfRange(data: seq<byte>)
    requires |data| >= 25
    ensures WheelEvents(data)[8].value > 1 <==> data[0] >= 2
    ensures WheelEvents(data)[9].value > 1 <==> data[0] >= 8
    ensures WheelEvents(data)[8].value >= 0 && WheelEvents(data)[9].value >= 0
    ensures data[0] as nat == InputReportId ==> WheelEvents(data)[8].value == 1 && WheelEvents(data)[9].value == 0
  {
    var events := WheelEvents(data);
    assert events[8] == events[..10][8] && events[9] == events[..10][9];
    var x := data[0] as nat;
    if x >= 8 {
      assert Shr(x, 2) == Shr(x / 2 / 2, 0);
      assert x / 2 / 2 >= 2;
    } else {
      assert Shr(x, 2) == x / 2 / 2;
    }
  }

  /** The code of key line n: BTN_TRIGGER..BTN_DEAD for 1..16, then BTN_TRIGGER_HAPPY1 onwards. */
  function LineCode(n: nat): (c: nat)
    requires n >= 1
    ensures n <= 16 ==> BtnTrigger <= c <= BtnDead
    ensures n > 16 ==> c >= BtnTriggerHappy
  {
    if n <= 16 then BtnTrigger + n - 1 else BtnTriggerHappy + n - 17
  }

  /** Both tables list their codes in order, without gaps or repeats. */
  lemma KeyCodesInOrder(n: nat)
    requires 1 <= n <= 54
    ensures WheelKey(n).code == LineCode(n)
    ensures n <= 42 ==> ShifterKey(n).code == LineCode(n)
  {
    if n <= 16 {
      KeyCodesLow(n);
    } else if n <= 30 {
      KeyCodesMiddle(n);
    } else if n <= 42 {
      KeyCodesHigh(n);
    } else {
      KeyCodesTop(n);
    }
  }

  lemma KeyCodesLow(n: nat)
    requires 1 <= n <= 16
    ensures WheelKey(n).code == LineCode(n) && ShifterKey(n).code == LineCode(n)
  {
  }

  lemma KeyCodesMiddle(n: nat)
    requires 17 <= n <= 30
    ensures WheelKey(n).code == LineCode(n) && ShifterKey(n).code == LineCode(n)
  {
  }

  lemma KeyCodesHigh(n: nat)
    requires 31 <= n <= 42
    ensures WheelKey(n).code == LineCode(n) && ShifterKey(n).code == LineCode(n)
  {
  }

  lemma KeyCodesTop(n: nat)
    requires 43 <= n <= 54
    ensures WheelKey(n).code == LineCode(n)
  {
  }

  /** The codes of the first `n` key lines: 16 joystick buttons, then BTN_TRIGGER_HAPPY1..n - 16. */
  function LineCodes(n: nat): (codes: set<nat>)
    requires n >= 16
    ensures |codes| == n
  {
    RangesDisjoint(BtnTrigger, 16, BtnTriggerHappy, n - 16);
    CodeRange(BtnTrigger, 16) + CodeRange(BtnTriggerHappy, n - 16)
  }

  /** LineCodes(n) holds exactly the codes of lines 1..n. */
  lemma LineCodesListed(n: nat)
    requires n >= 16
    ensures forall c :: c in LineCodes(n) <==> exists k :: 1 <= k <= n && LineCode(k) == c
  {
    forall c | c in LineCodes(n)
      ensures exists k :: 1 <= k <= n && LineCode(k) == c
    {
      if c < BtnTriggerHappy {
        assert LineCode(c - BtnTrigger + 1) == c;
      } else {
        assert LineCode(c - BtnTriggerHappy + 17) == c;
      }
    }
  }

  /**
   * The wheel branch emits the scan event's code 4 and the codes of its
   * 54 key lines, as many as the wheel descriptor's buttons (usages
   * 1..54).
   */
  lemma WheelEmittedKeys(data: seq<byte>)
    requires |data| >= 25
    ensures Codes(WheelEvents(data), EvKey) == LineCodes(54) + {EvMsc}
    ensures |LineCodes(54)| == 54 == Unsigned(ItemAt(Wheel, 19).data)
  {
    WheelKeysListed(data);
    ListedWheelKeys(data);
    WheelButtonItems();
  }

  lemma WheelKeysListed(data: seq<byte>)
    requires |data| >= 25
    ensures Codes(WheelEvents(data), EvKey) <= LineCodes(54) + {EvMsc}
  {
    var events := WheelEvents(data);
    LineCodesListed(54);
    forall c | c in Codes(events, EvKey)
      ensures c in LineCodes(54) + {EvMsc}
    {
      var k :| 0 <= k < |events| && events[k].kind == EvKey && events[k].code == c;
      if k > 10 {
        KeyCodesInOrder(k - 10);
        WheelKeyLine(data, k - 10);
      }
    }
  }

  lemma ListedWheelKeys(data: seq<byte>)
    requires |data| >= 25
    ensures LineCodes(54) + {EvMsc} <= Codes(WheelEvents(data), EvKey)
  {
    var events := WheelEvents(data);
    LineCodesListed(54);
    forall c | c in LineCodes(54) + {EvMsc}
      ensures c in Codes(events, EvKey)
    {
      if c != EvMsc {
        var n :| 1 <= n <= 54 && LineCode(n) == c;
        KeyCodesInOrder(n);
        WheelKeyLine(data, n);
        assert events[10 + n].code == c;
      } else {
        assert events[10].code == c;
      }
    }
  }

  /**
   * The shifter branch emits the scan code and the codes of its 42 key
   * lines, one fewer than the shifter descriptor's 43 buttons.
   */
  lemma ShifterEmittedKeys(data: seq<byte>)
    requires |data| >= 43
    ensures Codes(ShifterEvents(data), EvKey) == LineCodes(42) + {EvMsc}
    ensures |LineCodes(42)| == 42
  {
    ShifterKeysListed(data);
    ListedShifterKeys(data);
  }

  lemma ShifterKeysListed(data: seq<byte>)
    requires |data| >= 43
    ensures Codes(ShifterEvents(data), EvKey) <= LineCodes(42) + {EvMsc}
  {
    var events := ShifterEvents(data);
    LineCodesListed(42);
    forall c | c in Codes(events, EvKey)
      ensures c in LineCodes(42) + {EvMsc}
    {
      var k :| 0 <= k < |events| && events[k].kind == EvKey && events[k].code == c;
      if k > 0 {
        KeyCodesInOrder(k);
      }
    }
  }

  lemma ListedShifterKeys(data: seq<byte>)
    requires |data| >= 43
    ensures LineCodes(42) + {EvMsc} <= Codes(ShifterEvents(data), EvKey)
  {
    var events := ShifterEvents(data);
    LineCodesListed(42);
    forall c | c in LineCodes(42) + {EvMsc}
      ensures c in Codes(events, EvKey)
    {
      if c != EvMsc {
        var n :| 1 <= n <= 42 && LineCode(n) == c;
        KeyCodesInOrder(n);
        assert events[n].code == c;
      } else {
        assert events[0].code == c;
      }
    }
  }

  /** The wheel's key lines that shift a byte right by eight, and so always report 0. */
  const WheelStuckLines: set<nat> := {9, 12, 25, 34, 40, 44, 46}

  /**
   * Exactly the lines of WheelStuckLines shift right by eight or more;
   * they report 0 for every report.
   */
  lemma WheelStuckKeys(data: seq<byte>, n: nat)
    requires |data| >= 25 && 1 <= n <= 54
    ensures WheelKey(n).expr.Right? && WheelKey(n).expr.s >= 8 <==> n in WheelStuckLines
    ensures n in WheelStuckLines ==> WheelEvents(data)[10 + n].value == 0
  {
    if n <= 27 {
      StuckLinesLow(n);
    } else {
      StuckLinesHigh(n);
    }
    EvalRange(data, WheelKey(n).expr);
    WheelKeyLine(data, n);
  }

  lemma StuckLinesLow(n: nat)
    requires 1 <= n <= 27
    ensures WheelKey(n).expr.Right? && WheelKey(n).expr.s >= 8 <==> n in WheelStuckLines
  {
  }

  lemma StuckLinesHigh(n: nat)
    requires 28 <= n <= 54
    ensures WheelKey(n).expr.Right? && WheelKey(n).expr.s >= 8 <==> n in WheelStuckLines
  {
  }

  /**
   * Key line 48 (BTN_TRIGGER_HAPPY32) reads data[0] << 4: the Report ID,
   * so every report 1 presses it with value 16.
   */
  lemma WheelKeyReadsReportId(data: seq<byte>)
    requires |data| >= 25
    ensures WheelKey(48) == KeyLine(TriggerHappy(32), Left(0, 4))
    ensures data[0] as nat == InputReportId ==> WheelEvents(data)[10 + 48].value == 16
  {
    WheelKeyLine(data, 48);
  }

  /** Line 3 (BTN_THUMB2, data[1] << 2) reports 4 once data[1] is 1: key values are not 0 or 1. */
  lemma WheelKeysNotBoolean(data: seq<byte>)
    requires |data| >= 25
    ensures data[1] == 1 ==> WheelEvents(data)[10 + 3].value == 4
  {
    WheelKeyLine(data, 3);
  }

  /**
   * The shifter branch: line 12 (data[12] >> 16) always reports 0, lines
   * 34 and 35 (BTN_TRIGGER_HAPPY18 and 19) both read data[34], and line 42
   * reads data[42], far beyond the 11 bytes of the shifter's input report
   * 1 (TcsDescriptors.ShifterReports).
   */
  lemma ShifterLineDefects(data: seq<byte>)
    requires |data| >= 43
    ensures ShifterEvents(data)[12].value == 0
    ensures ShifterKey(34).expr == ShifterKey(35).expr == Raw(34)
    ensures ShifterKey(42).expr == Raw(42)
    ensures InputReportLength(Items(Shifter), 0x01) == 11
    ensures ShifterKey(34).expr.i >= InputReportLength(Items(Shifter), 0x01)
    ensures ShifterKey(42).expr.i >= InputReportLength(Items(Shifter), 0x01)
  {
    assert ShifterEvents(data)[12] == KeyEvent(data, ShifterKey(12));
    ShifterReports(0x01);
  }

  /** The axes the wheel branch of hori_input_configured declares, with their parameters. */
  const WheelAxisParams: map<nat, AbsInfo> := map[
    AbsX := AbsInfo(0, 65535, 255, 4095),
    AbsY := AbsInfo(0, 65535, 255, 4095),
    AbsWheel := AbsInfo(0, 65535, 255, 4095),
    AbsRx := AbsInfo(0, 65535, 255, 4095),
    AbsRy := AbsInfo(0, 65535, 255, 4095),
    AbsClutch := AbsInfo(0, 65535, 255, 4095),
    AbsGas := AbsInfo(0, 65535, 255, 4095),
    AbsBrake := AbsInfo(0, 65535, 255, 4095),
    AbsHat0X := AbsInfo(-1, 1, 0, 0),
    AbsHat0Y := AbsInfo(-1, 1, 0, 0)]

  const WheelAxes: set<nat> :=
    {AbsX, AbsY, AbsWheel, AbsRx, AbsRy, AbsClutch, AbsGas, AbsBrake, AbsHat0X, AbsHat0Y}

  /**
   * hori_input_configured: the wheel and shifter branches by product;
   * any other device is left as it is.
   */
  method InputConfigured(product: nat, dev: InputDev)
    modifies dev
    ensures product == TruckControlSystemWheel ==>
      dev.evbit == old(dev.evbit) + {EvAbs, EvMsc, EvKey} && dev.mscbit == old(dev.mscbit) + {MscScan}
      && dev.keybit == old(dev.keybit) + LineCodes(54)
      && dev.absbit == old(dev.absbit) + WheelAxes && dev.absinfo == old(dev.absinfo) + WheelAxisParams
    ensures product == TruckControlSystemShifter ==>
      dev.evbit == old(dev.evbit) + {EvMsc, EvKey} && dev.mscbit == old(dev.mscbit) + {MscScan}
      && dev.keybit == old(dev.keybit) + LineCodes(54)
      && dev.absbit == old(dev.absbit) && dev.absinfo == old(dev.absinfo)
    ensures product != TruckControlSystemWheel && product != TruckControlSystemShifter ==> unchanged(dev)
  {
    if product == TruckControlSystemWheel {
      ConfigureWheel(dev);
    } else if product == TruckControlSystemShifter {
      ConfigureShifter(dev);
    }
  }

  /**
   * The wheel branch: the event types and the scan code, the 54 key bits,
   * the ten axes and their parameters, then input_set_capability for the
   * scan code and for the same 54 keys, which adds nothing new.
   */
  method ConfigureWheel(dev: InputDev)
    modifies dev
    ensures dev.evbit == old(dev.evbit) + {EvAbs, EvMsc, EvKey} && dev.mscbit == old(dev.mscbit) + {MscScan}
    ensures dev.keybit == old(dev.keybit) + LineCodes(54)
    ensures dev.absbit == old(dev.absbit) + WheelAxes && dev.absinfo == old(dev.absinfo) + WheelAxisParams
  {
    DeclareWheelBits(dev);
    SetWheelAxisParams(dev);
    dev.SetCapability(EvMsc, MscScan);
    KeyCapabilities(dev, 54);
  }

  /** The wheel branch's set_bit calls: the event types, the scan code, the 54 keys and the ten axes. */
  method DeclareWheelBits(dev: InputDev)
    modifies dev
    ensures dev.evbit == old(dev.evbit) + {EvAbs, EvMsc, EvKey} && dev.mscbit == old(dev.mscbit) + {MscScan}
    ensures dev.keybit == old(dev.keybit) + LineCodes(54)
    ensures dev.absbit == old(dev.absbit) + WheelAxes && dev.absinfo == old(dev.absinfo)
  {
    dev.evbit := dev.evbit + {EvAbs};
    dev.evbit := dev.evbit + {EvMsc};
    dev.mscbit := dev.mscbit + {MscScan};
    dev.evbit := dev.evbit + {EvKey};
    var keys := KeyBits(dev.keybit);
    dev.keybit := keys;
    DeclareWheelAxes(dev);
  }

  /**
   * The shifter branch: the event types and the scan code, 54 key bits,
   * then input_set_capability for the scan code and for only the first
   * 42 of those keys.
   */
  method ConfigureShifter(dev: InputDev)
    modifies dev
    ensures dev.evbit == old(dev.evbit) + {EvMsc, EvKey} && dev.mscbit == old(dev.mscbit) + {MscScan}
    ensures dev.keybit == old(dev.keybit) + LineCodes(54)
    ensures dev.absbit == old(dev.absbit) && dev.absinfo == old(dev.absinfo)
  {
    DeclareShifterBits(dev);
    dev.SetCapability(EvMsc, MscScan);
    LineCodesGrow(42, 54);
    KeyCapabilities(dev, 42);
  }

  /** The shifter branch's set_bit calls: the event types, the scan code and the 54 keys. */
  method DeclareShifterBits(dev: InputDev)
    modifies dev
    ensures dev.evbit == old(dev.evbit) + {EvMsc, EvKey} && dev.mscbit == old(dev.mscbit) + {MscScan}
    ensures dev.keybit == old(dev.keybit) + LineCodes(54)
    ensures dev.absbit == old(dev.absbit) && dev.absinfo == old(dev.absinfo)
  {
    dev.evbit := dev.evbit + {EvMsc};
    dev.mscbit := dev.mscbit + {MscScan};
    dev.evbit := dev.evbit + {EvKey};
    var keys := KeyBits(dev.keybit);
    dev.keybit := keys;
  }

  /**
   * input_set_capability(dev, EV_KEY, code) for the codes of the first
   * `lines` key lines (54 in the wheel branch, 42 in the shifter's): the
   * Key type bit and each code's bit.
   */
  method KeyCapabilities(dev: InputDev, lines: nat)
    requires lines == 42 || lines == 54
    modifies dev
    ensures dev.keybit == old(dev.keybit) + LineCodes(lines)
    ensures dev.evbit == old(dev.evbit) + {EvKey}
    ensures LineCodes(lines) <= old(dev.keybit) ==> dev.keybit == old(dev.keybit)
    ensures EvKey in old(dev.evbit) ==> dev.evbit == old(dev.evbit)
    ensures dev.mscbit == old(dev.mscbit) && dev.absbit == old(dev.absbit) && dev.absinfo == old(dev.absinfo)
  {
    var keys;
    if lines == 54 {
      keys := KeyBits(dev.keybit);
    } else {
      keys := CapabilityKeys(dev.keybit);
    }
    dev.keybit := keys;
    dev.evbit := dev.evbit + {EvKey};
  }

  /** More key lines, more codes. */
  lemma LineCodesGrow(m: nat, n: nat)
    requires 16 <= m <= n
    ensures LineCodes(m) <= LineCodes(n)
  {
    LineCodesListed(m);
    LineCodesListed(n);
    forall c | c in LineCodes(m)
      ensures c in LineCodes(n)
    {
      var k :| 1 <= k <= m && LineCode(k) == c;
    }
  }

  /** The 54 key lines of either branch: BTN_TRIGGER..BTN_DEAD and BTN_TRIGGER_HAPPY1..38. */
  method KeyBits(bits: set<nat>) returns (keys: set<nat>)
    ensures keys == bits + LineCodes(54)
  {
    keys := CapabilityKeys(bits);
    keys := HappyKeys27To32(keys);
    RangeConcat(BtnTriggerHappy, 26, 6);
    assert keys == bits + CodeRange(BtnTrigger, 16) + CodeRange(BtnTriggerHappy, 32);
    keys := HappyKeys33To38(keys);
    RangeConcat(BtnTriggerHappy, 32, 6);
  }

  /** BTN_TRIGGER..BTN_DEAD and BTN_TRIGGER_HAPPY1..26: the shifter branch's input_set_capability key calls, and the first 42 of the 54 set_bit calls. */
  method CapabilityKeys(bits: set<nat>) returns (keys: set<nat>)
    ensures keys == bits + LineCodes(42)
  {
    keys := JoystickKeys(bits);
    keys := HappyKeys1To7(keys);
    keys := HappyKeys8To13(keys);
    RangeConcat(BtnTriggerHappy, 7, 6);
    assert keys == bits + CodeRange(BtnTrigger, 16) + CodeRange(BtnTriggerHappy, 13);
    keys := HappyKeys14To20(keys);
    RangeConcat(BtnTriggerHappy, 13, 7);
    assert keys == bits + CodeRange(BtnTrigger, 16) + CodeRange(BtnTriggerHappy, 20);
    keys := HappyKeys21To26(keys);
    RangeConcat(BtnTriggerHappy, 20, 6);
  }

  /** BTN_TRIGGER_HAPPY1..7. */
  method HappyKeys1To7(bits: set<nat>) returns (keys: set<nat>)
    ensures keys == bits + CodeRange(BtnTriggerHappy, 7)
  {
    keys := bits + {TriggerHappy(1)};
    keys := keys + {TriggerHappy(2)};
    keys := keys + {TriggerHappy(3)};
    keys := keys + {TriggerHappy(4)};
    keys := keys + {TriggerHappy(5)};
    keys := keys + {TriggerHappy(6)};
    keys := keys + {TriggerHappy(7)};
    assert forall c :: c in CodeRange(BtnTriggerHappy, 7) ==> c in keys;
  }

  /** BTN_TRIGGER_HAPPY8..13. */
  method HappyKeys8To13(bits: set<nat>) returns (keys: set<nat>)
    ensures keys == bits + CodeRange(BtnTriggerHappy + 7, 6)
  {
    keys := bits + {TriggerHappy(8)};
    keys := keys + {TriggerHappy(9)};
    keys := keys + {TriggerHappy(10)};
    keys := keys + {TriggerHappy(11)};
    keys := keys + {TriggerHappy(12)};
    keys := keys + {TriggerHappy(13)};
    assert forall c :: c in CodeRange(BtnTriggerHappy + 7, 6) ==> c in keys;
  }

  /** BTN_TRIGGER_HAPPY14..20. */
  method HappyKeys14To20(bits: set<nat>) returns (keys: set<nat>)
    ensures keys == bits + CodeRange(BtnTriggerHappy + 13, 7)
  {
    keys := bits + {TriggerHappy(14)};
    keys := keys + {TriggerHappy(15)};
    keys := keys + {TriggerHappy(16)};
    keys := keys + {TriggerHappy(17)};
    keys := keys + {TriggerHappy(18)};
    keys := keys + {TriggerHappy(19)};
    keys := keys + {TriggerHappy(20)};
    assert forall c :: c in CodeRange(BtnTriggerHappy + 13, 7) ==> c in keys;
  }

  /** BTN_TRIGGER_HAPPY21..26. */
  method HappyKeys21To26(bits: set<nat>) returns (keys: set<nat>)
    ensures keys == bits + CodeRange(BtnTriggerHappy + 20, 6)
  {
    keys := bits + {TriggerHappy(21)};
    keys := keys + {TriggerHappy(22)};
    keys := keys + {TriggerHappy(23)};
    keys := keys + {TriggerHappy(24)};
    keys := keys + {TriggerHappy(25)};
    keys := keys + {TriggerHappy(26)};
    assert forall c :: c in CodeRange(BtnTriggerHappy + 20, 6) ==> c in keys;
  }

  /** BTN_TRIGGER_HAPPY27..32. */
  method HappyKeys27To32(bits: set<nat>) returns (keys: set<nat>)
    ensures keys == bits + CodeRange(BtnTriggerHappy + 26, 6)
  {
    keys := bits + {TriggerHappy(27)};
    keys := keys + {TriggerHappy(28)};
    keys := keys + {TriggerHappy(29)};
    keys := keys + {TriggerHappy(30)};
    keys := keys + {TriggerHappy(31)};
    keys := keys + {TriggerHappy(32)};
    assert forall c :: c in CodeRange(BtnTriggerHappy + 26, 6) ==> c in keys;
  }

  /** BTN_TRIGGER_HAPPY33..38. */
  method HappyKeys33To38(bits: set<nat>) returns (keys: set<nat>)
    ensures keys == bits + CodeRange(BtnTriggerHappy + 32, 6)
  {
    keys := bits + {TriggerHappy(33)};
    keys := keys + {TriggerHappy(34)};
    keys := keys + {TriggerHappy(35)};
    keys := keys + {TriggerHappy(36)};
    keys := keys + {TriggerHappy(37)};
    keys := keys + {TriggerHappy(38)};
    assert forall c :: c in CodeRange(BtnTriggerHappy + 32, 6) ==> c in keys;
  }

  /** The ten set_bit calls on the Abs bitmap (ABS_MISC is commented out). */
  method DeclareWheelAxes(dev: InputDev)
    modifies dev
    ensures dev.absbit == old(dev.absbit) + WheelAxes
    ensures dev.evbit == old(dev.evbit) && dev.keybit == old(dev.keybit) && dev.mscbit == old(dev.mscbit)
    ensures dev.absinfo == old(dev.absinfo)
  {
    var bits := dev.absbit;
    bits := bits + {AbsX};
    bits := bits + {AbsY};
    bits := bits + {AbsWheel};
    bits := bits + {AbsRx};
    bits := bits + {AbsRy};
    bits := bits + {AbsClutch};
    bits := bits + {AbsGas};
    bits := bits + {AbsBrake};
    bits := bits + {AbsHat0X};
    bits := bits + {AbsHat0Y};
    dev.absbit := bits;
  }

  /** The ten input_set_abs_params calls, each on an axis already declared. */
  method SetWheelAxisParams(dev: InputDev)
    modifies dev
    requires EvAbs in dev.evbit && WheelAxes <= dev.absbit
    ensures dev.absinfo == old(dev.absinfo) + WheelAxisParams
    ensures dev.evbit == old(dev.evbit) && dev.absbit == old(dev.absbit)
    ensures dev.keybit == old(dev.keybit) && dev.mscbit == old(dev.mscbit)
  {
    dev.SetAbsParams(AbsX, 0, 65535, 255, 4095);
    dev.SetAbsParams(AbsY, 0, 65535, 255, 4095);
    dev.SetAbsParams(AbsWheel, 0, 65535, 255, 4095);
    dev.SetAbsParams(AbsRx, 0, 65535, 255, 4095);
    dev.SetAbsParams(AbsRy, 0, 65535, 255, 4095);
    dev.SetAbsParams(AbsClutch, 0, 65535, 255, 4095);
    dev.SetAbsParams(AbsGas, 0, 65535, 255, 4095);
    dev.SetAbsParams(AbsBrake, 0, 65535, 255, 4095);
    dev.SetAbsParams(AbsHat0X, -1, 1, 0, 0);
    dev.SetAbsParams(AbsHat0Y, -1, 1, 0, 0);
    WheelParamsMerge(old(dev.absinfo));
  }

  /** Setting the ten axes one after another is merging WheelAxisParams into the device's table. */
  lemma WheelParamsMerge(m: map<nat, AbsInfo>)
    ensures m[AbsX := AbsInfo(0, 65535, 255, 4095)][AbsY := AbsInfo(0, 65535, 255, 4095)][AbsWheel := AbsInfo(0, 65535, 255, 4095)]
      [AbsRx := AbsInfo(0, 65535, 255, 4095)][AbsRy := AbsInfo(0, 65535, 255, 4095)][AbsClutch := AbsInfo(0, 65535, 255, 4095)]
      [AbsGas := AbsInfo(0, 65535, 255, 4095)][AbsBrake := AbsInfo(0, 65535, 255, 4095)][AbsHat0X := AbsInfo(-1, 1, 0, 0)]
      [AbsHat0Y := AbsInfo(-1, 1, 0, 0)] == m + WheelAxisParams
  {
  }

  /**
   * The wheel branch reports exactly the ten axes it declares, and every
   * declared axis has parameters.
   */
  lemma WheelAxesDeclared(data: seq<byte>)
    requires |data| >= 25
    ensures Codes(WheelEvents(data), EvAbs) == WheelAxes
    ensures WheelAxisParams.Keys == WheelAxes
  {
    WheelAxesReported(data);
    ReportedWheelAxes(data);
  }

  lemma ReportedWheelAxes(data: seq<byte>)
    requires |data| >= 25
    ensures Codes(WheelEvents(data), EvAbs) <= WheelAxes
  {
    var events := WheelEvents(data);
    var axes := events[..10];
    assert forall k :: 0 <= k < 10 ==> axes[k].code in WheelAxes;
    forall c | c in Codes(events, EvAbs)
      ensures c in WheelAxes
    {
      var k :| 0 <= k < |events| && events[k].kind == EvAbs && events[k].code == c;
      if k >= 10 {
        WheelKeyEventIsKey(data, k - 10);
      } else {
        assert events[k] == axes[k];
      }
    }
  }

  /** Event 10 + n, the scan event or key line n, is a key event. */
  lemma WheelKeyEventIsKey(data: seq<byte>, n: nat)
    requires |data| >= 25 && n <= 54
    ensures WheelEvents(data)[10 + n].kind == EvKey
  {
    if n > 0 {
      WheelKeyLine(data, n);
    }
  }

  lemma WheelAxesReported(data: seq<byte>)
    requires |data| >= 25
    ensures WheelAxes <= Codes(WheelEvents(data), EvAbs)
  {
    var events := WheelEvents(data);
    var axes := events[..10];
    assert forall k :: 0 <= k < 10 ==> events[k] == axes[k];
    assert events[0].code == AbsX && events[1].code == AbsY && events[2].code == AbsWheel;
    assert events[3].code == AbsRx && events[4].code == AbsRy && events[5].code == AbsClutch;
    assert events[6].code == AbsGas && events[7].code == AbsBrake;
    assert events[8].code == AbsHat0X && events[9].code == AbsHat0Y;
  }

  /**
   * The shifter branch sets 54 key bits, gives capabilities to 42 of them
   * and emits those 42, while the shifter descriptor declares 43 buttons.
   */
  lemma ShifterKeyCounts()
    ensures |LineCodes(54)| == 54 && |LineCodes(42)| == 42
    ensures LineCodes(42) < LineCodes(54)
    ensures Unsigned(ItemAt(Shifter, 10).data) == 43
  {
    LineCodesListed(54);
    LineCodesListed(42);
    var more := LineCode(54);
    assert more in LineCodes(54);
    assert more !in LineCodes(42) by {
      forall k | 1 <= k <= 42
        ensures LineCode(k) != more
      {
      }
    }
    ShifterReport1Items();
  }

  /** The quirk bits of hid-hori-wheels.c. */
  const BadRelativeKeys: bv32 := 0x002
  const DuplicateUsages: bv32 := 0x004

  /** The fields of a struct hid_field that hori_input_mapped changes. */
  class HidField {
    var flags: bv32
    var application: nat

    constructor (flags: bv32, application: nat)
      ensures this.flags == flags && this.application == application
    {
      this.flags := flags;
      this.application := application;
    }
  }

  /** The field flags after hori_input_mapped's first rule. */
  function MappedFlags(quirks: bv32, usageType: nat, flags: bv32): (r: bv32)
    ensures r != flags <==> quirks & BadRelativeKeys != 0 && usageType == EvKey && flags & MainItemRelative != 0
    ensures r & MainItemRelative == 0 || r == flags
  {
    if quirks & BadRelativeKeys != 0 && usageType == EvKey && flags & MainItemRelative != 0 then
      flags & !MainItemRelative
    else
      flags
  }

  /** The first rule changes no flag but the relative one. */
  lemma MappedFlagsKeepOtherBits(quirks: bv32, usageType: nat, flags: bv32)
    ensures MappedFlags(quirks, usageType, flags) & !MainItemRelative == flags & !MainItemRelative
  {
  }

  /** The usage bitmap after the second rule: the usage's code is cleared for key, relative and absolute usages. */
  function MappedBits(quirks: bv32, usageType: nat, code: nat, bits: set<nat>): (r: set<nat>)
    ensures r <= bits
    ensures r != bits <==> quirks & DuplicateUsages != 0 && (usageType == EvKey || usageType == EvRel || usageType == EvAbs) && code in bits
    ensures forall c :: c != code ==> (c in r <==> c in bits)
  {
    if quirks & DuplicateUsages != 0 && (usageType == EvKey || usageType == EvRel || usageType == EvAbs) then bits - {code} else bits
  }

  /** The field's application after the third rule. */
  function MappedApplication(product: nat, usageType: nat, code: nat, application: nat): (r: nat)
    ensures r != application ==> r == GdMultiAxis && product == TruckControlSystemWheel && usageType == EvAbs && code in {AbsX, AbsY, AbsZ, AbsRz}
    ensures product == TruckControlSystemWheel && usageType == EvAbs && code in {AbsX, AbsY, AbsZ, AbsRz} ==> r == GdMultiAxis
  {
    if usageType == EvAbs && (code == AbsX || code == AbsY || code == AbsZ || code == AbsRz) && product == TruckControlSystemWheel then
      GdMultiAxis
    else
      application
  }

  /**
   * hori_input_mapped: clears the field's relative flag for key usages
   * under HORI_BAD_RELATIVE_KEYS, clears the usage's bit under
   * HORI_DUPLICATE_USAGES, and marks the X, Y, Z and Rz axes of the TCS
   * wheel as multi-axis.  The quirks are a parameter: the driver data it
   * reads them from is not part of this model.
   */
  method InputMapped(field: HidField, quirks: bv32, product: nat, usageType: nat, usageCode: nat, bits: set<nat>)
    returns (newBits: set<nat>, ret: int)
    modifies field
    ensures field.flags == MappedFlags(quirks, usageType, old(field.flags))
    ensures newBits == MappedBits(quirks, usageType, usageCode, bits)
    ensures field.application == MappedApplication(product, usageType, usageCode, old(field.application))
    ensures ret == 0
  {
    if quirks & BadRelativeKeys != 0 && usageType == EvKey && field.flags & MainItemRelative != 0 {
      field.flags := field.flags & !MainItemRelative;
    }
    newBits := bits;
    if quirks & DuplicateUsages != 0 && (usageType == EvKey || usageType == EvRel || usageType == EvAbs) {
      newBits := newBits - {usageCode};
    }
    if usageType == EvAbs && (usageCode == AbsX || usageCode == AbsY || usageCode == AbsZ || usageCode == AbsRz) {
      if product == TruckControlSystemWheel {
        field.application := GdMultiAxis;
      }
    }
    ret := 0;
  }

  /** Mapping a field twice changes nothing more: each rule is idempotent. */
  lemma MappedIdempotent(quirks: bv32, product: nat, usageType: nat, code: nat, flags: bv32, bits: set<nat>, application: nat)
    ensures MappedFlags(quirks, usageType, MappedFlags(quirks, usageType, flags)) == MappedFlags(quirks, usageType, flags)
    ensures MappedBits(quirks, usageType, code, MappedBits(quirks, usageType, code, bits)) == MappedBits(quirks, usageType, code, bits)
    ensures MappedApplication(product, usageType, code, MappedApplication(product, usageType, code, application)) == MappedApplication(product, usageType, code, application)
  {
  }

  /**
   * One step of the alternating-frame handler on (slider, alternate,
   * report): every second frame captures its data[7] as the slider, every
   * frame gets the slider written into data[1], and alternate flips.
   */
  function PrivStep(slider: byte, alternate: bool, data: seq<byte>): (r: (byte, bool, seq<byte>))
    requires |data| >= 2 && (alternate ==> |data| >= 8)
    ensures r.1 == !alternate
    ensures r.0 == if alternate then data[7] else slider
    ensures |r.2| == |data| && r.2[1] == r.0
    ensures forall i :: 0 <= i < |data| && i != 1 ==> r.2[i] == data[i]
  {
    var s := if alternate then data[7] else slider;
    (s, !alternate, data[1 := s])
  }

  /** struct hori_priv and the commented-out hori_raw_event over it. */
  class HoriPriv {
    var slider: byte
    var alternate: bool

    /** devm_kzalloc: a zeroed state. */
    constructor ()
      ensures slider == 0 && !alternate
    {
      slider := 0;
      alternate := false;
    }

    method RawEvent(data: array<byte>) returns (ret: int)
      requires data.Length >= 2 && (alternate ==> data.Length >= 8)
      modifies this, data
      ensures (slider, alternate, data[..]) == PrivStep(old(slider), old(alternate), old(data[..]))
      ensures ret == 0
    {
      if alternate {
        slider := data[7];
      }
      data[1] := slider;
      alternate := !alternate;
      ret := 0;
    }
  }

  /** Two steps bring alternate back to where it started. */
  lemma TwoStepsRestoreAlternate(slider: byte, alternate: bool, first: seq<byte>, second: seq<byte>)
    requires |first| >= 8 && |second| >= 8
    ensures var r := PrivStep(slider, alternate, first); PrivStep(r.0, r.1, second).1 == alternate
  {
  }

  /**
   * From the zeroed state, frame 1 gets 0 written into data[1] and
   * captures nothing; frame 2 captures its own data[7] and gets it
   * written into data[1].
   */
  lemma FirstTwoFrames(first: seq<byte>, second: seq<byte>)
    requires |first| >= 8 && |second| >= 8
    ensures PrivStep(0, false, first).2 == first[1 := 0]
    ensures PrivStep(0, false, first).0 == 0
    ensures var r := PrivStep(0, false, first); PrivStep(r.0, r.1, second).2 == second[1 := second[7]]
  {
  }

  /** The state after a run of frames from the zeroed state. */
  function Replay(frames: seq<seq<byte>>): (state: (byte, bool))
    requires forall k :: 0 <= k < |frames| ==> |frames[k]| >= 8
  {
    if |frames| == 0 then (0, false)
    else
      var prev := Replay(frames[..|frames| - 1]);
      var r := PrivStep(prev.0, prev.1, frames[|frames| - 1]);
      (r.0, r.1)
  }

  /**
   * After any run of frames, alternate is set exactly when the count is
   * odd, and the slider is data[7] of the last even-numbered frame
   * (counting from 1), or 0 before the second frame.  That slider is what
   * the last frame of the run had written into its data[1].
   */
  lemma {:induction false} ReplayCapturesEvenFrames(frames: seq<seq<byte>>)
    requires forall k :: 0 <= k < |frames| ==> |frames[k]| >= 8
    ensures Replay(frames).1 <==> |frames| % 2 == 1
    ensures |frames| < 2 ==> Replay(frames).0 == 0
    ensures |frames| >= 2 ==> Replay(frames).0 == frames[2 * (|frames| / 2) - 1][7]
  {
    if |frames| > 0 {
      var init := frames[..|frames| - 1];
      ReplayCapturesEvenFrames(init);
      if |frames| >= 3 && |frames| % 2 == 1 {
        assert init[2 * (|init| / 2) - 1] == frames[2 * (|frames| / 2) - 1];
      }
    }
  }
}
