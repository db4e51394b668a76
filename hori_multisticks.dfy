/**
 * hid-hori-multisticks.c: a second driver for the TCS shifter.  It
 * substitutes the shifter's report descriptor, decodes the 43 buttons of
 * input report 1 bit by bit, and declares key capabilities.
 */
module HoriMultisticks {
  import opened Bytes
  import opened HidItems
  import opened TcsDescriptors
  import opened InputEvents
  import opened HidIds
  import Hori

  const ShifterOrigSize: nat := 83

  /**
   * hori_multisticks_report_fixup: the shifter descriptor for the TCS
   * shifter with an 83-byte descriptor, the original otherwise.
   */
  function ReportFixup(product: nat, rdesc: seq<byte>): (r: seq<byte>)
    ensures product == TruckControlSystemShifter && |rdesc| == ShifterOrigSize ==> r == CopyBytes(MultisticksShifter)
    ensures !(product == TruckControlSystemShifter && |rdesc| == ShifterOrigSize) ==> r == rdesc
  {
    if product == TruckControlSystemShifter && |rdesc| == ShifterOrigSize then CopyBytes(MultisticksShifter) else rdesc
  }

  /**
   * The fixup agrees with hid-hori.c's for every product but the wheel,
   * whose descriptor this driver leaves alone.
   */
  lemma FixupAgreesWithHori(product: nat, rdesc: seq<byte>)
    ensures product != TruckWheel ==> ReportFixup(product, rdesc) == Hori.ReportFixup(product, rdesc)
    ensures product == TruckWheel ==> ReportFixup(product, rdesc) == rdesc
  {
    CopyIsIdentical(MultisticksShifter);
  }

  /** The replacement is 83 bytes, so a second fixup selects it again: the fixup is idempotent. */
  lemma FixupIdempotent(product: nat, rdesc: seq<byte>)
    ensures |ReportFixup(product, rdesc)| == if product == TruckControlSystemShifter && |rdesc| == ShifterOrigSize then 83 else |rdesc|
    ensures ReportFixup(product, ReportFixup(product, rdesc)) == ReportFixup(product, rdesc)
  {
    CopyIsIdentical(MultisticksShifter);
    DescriptorLength(Shifter);
  }

  /** One input_event line of the decoder: the key code, and the byte and bit it reads. */
  datatype ButtonBit = ButtonBit(code: nat, index: nat, shift: nat)

  /** The line for button `n`, numbered as the source's comments number them. */
  function Button(n: nat): (b: ButtonBit)
    requires 1 <= n <= 43
    ensures 1 <= b.index <= 6 && b.shift < 8
  {
    match n
    case 1 => ButtonBit(BtnTrigger, 1, 0)
    case 2 => ButtonBit(BtnThumb, 1, 1)
    case 3 => ButtonBit(BtnThumb2, 1, 2)
    case 4 => ButtonBit(BtnTop, 1, 3)
    case 5 => ButtonBit(BtnTop2, 1, 4)
    case 6 => ButtonBit(BtnPinkie, 1, 5)
    case 7 => ButtonBit(BtnBase, 1, 6)
    case 8 => ButtonBit(BtnBase2, 1, 7)
    case 9 => ButtonBit(BtnBase3, 2, 0)
    case 10 => ButtonBit(BtnBase4, 2, 5)
    case 11 => ButtonBit(BtnBase5, 2, 6)
    case 12 => ButtonBit(BtnBase6, 2, 7)
    case 13 => ButtonBit(BtnBase7, 2, 0)
    case 14 => ButtonBit(BtnBase8, 2, 1)
    case 15 => ButtonBit(BtnBase9, 2, 2)
    case 16 => ButtonBit(BtnDead, 2, 3)
    case 17 => ButtonBit(TriggerHappy(1), 3, 0)
    case 18 => ButtonBit(TriggerHappy(2), 3, 1)
    case 19 => ButtonBit(TriggerHappy(3), 3, 2)
    case 20 => ButtonBit(TriggerHappy(4), 3, 3)
    case 21 => ButtonBit(TriggerHappy(5), 3, 4)
    case 22 => ButtonBit(TriggerHappy(6), 3, 5)
    case 23 => ButtonBit(TriggerHappy(7), 3, 6)
    case 24 => ButtonBit(TriggerHappy(8), 3, 7)
    case 25 => ButtonBit(TriggerHappy(9), 4, 0)
    case 26 => ButtonBit(TriggerHappy(10), 4, 1)
    case 27 => ButtonBit(TriggerHappy(11), 4, 2)
    case 28 => ButtonBit(TriggerHappy(12), 4, 3)
    case 29 => ButtonBit(TriggerHappy(13), 4, 4)
    case 30 => ButtonBit(TriggerHappy(14), 4, 5)
    case 31 => ButtonBit(TriggerHappy(15), 4, 6)
    case 32 => ButtonBit(TriggerHappy(16), 4, 7)
    case 33 => ButtonBit(TriggerHappy(17), 5, 0)
    case 34 => ButtonBit(TriggerHappy(18), 5, 1)
    case 35 => ButtonBit(TriggerHappy(19), 5, 2)
    case 36 => ButtonBit(TriggerHappy(20), 5, 3)
    case 37 => ButtonBit(TriggerHappy(21), 5, 4)
    case 38 => ButtonBit(TriggerHappy(22), 5, 5)
    case 39 => ButtonBit(TriggerHappy(23), 5, 6)
    case 40 => ButtonBit(TriggerHappy(24), 5, 7)
    case 41 => ButtonBit(TriggerHappy(25), 6, 0)
    case 42 => ButtonBit(TriggerHappy(26), 6, 1)
    case _ => ButtonBit(TriggerHappy(27), 6, 2)
  }

  /** `(data[i] >> s) & 1` for the line of button `n`. */
  function ButtonValue(data: seq<byte>, n: nat): (v: nat)
    requires 1 <= n <= 43 && |data| >= 7
    ensures v == 0 || v == 1
  {
    Bit(data[Button(n).index] as nat, Button(n).shift)
  }

  /**
   * The key event of button `n`: a key event with the button's code whose
   * value is bit BitPosition(n) of the payload behind the Report ID, that
   * is bit BitPosition(n) mod 8 of data[1 + BitPosition(n) div 8].
   */
  function ButtonEvent(data: seq<byte>, n: nat): (e: Event)
    requires 1 <= n <= 43 && |data| >= 7
    ensures e.kind == EvKey && e.code == Button(n).code
    ensures 1 + BitPosition(n) / 8 < |data|
    ensures e.value == Bit(data[1 + BitPosition(n) / 8] as nat, BitPosition(n) % 8)
    ensures e.value == 0 || e.value == 1
  {
    BitPositionSplit(n);
    Event(EvKey, Button(n).code, ButtonValue(data, n))
  }

  /**
   * _parse_tsc_shifter_button_report: the scan event, then one key event
   * per button.  input_report_key(dev, EV_MSC, MSC_SCAN) is a key event
   * with code EV_MSC (4) and value 1.
   */
  function ButtonEvents(data: seq<byte>): (events: seq<Event>)
    requires |data| >= 7
    ensures |events| == 44
    ensures events[0] == Event(EvKey, EvMsc, 1)
    ensures forall n :: 1 <= n <= 43 ==> events[n] == ButtonEvent(data, n)
  {
    [ReportKey(EvMsc, MscScan)] + seq(43, i requires 0 <= i < 43 => ButtonEvent(data, i + 1))
  }

  /** hori_multisticks_raw_event: buttons are decoded for the shifter only, but every report is followed by a sync. */
  function RawEvent(product: nat, data: seq<byte>): (events: seq<Event>)
    requires product == TruckControlSystemShifter ==> |data| >= 7
    ensures product != TruckControlSystemShifter ==> events == [SyncEvent]
    ensures product == TruckControlSystemShifter ==> events == ButtonEvents(data) + [SyncEvent]
  {
    (if product == TruckControlSystemShifter then ButtonEvents(data) else []) + [SyncEvent]
  }

  /** Every emitted event is a key event, and every value is 0 or 1. */
  lemma ButtonValuesAreBits(data: seq<byte>)
    requires |data| >= 7
    ensures forall i :: 0 <= i < |ButtonEvents(data)| ==>
      ButtonEvents(data)[i].kind == EvKey && (ButtonEvents(data)[i].value == 0 || ButtonEvents(data)[i].value == 1)
  {
    var events := ButtonEvents(data);
    forall i | 0 <= i < |events|
      ensures events[i].kind == EvKey && (events[i].value == 0 || events[i].value == 1)
    {
      if i > 0 {
        assert events[i] == ButtonEvent(data, i);
      }
    }
  }

  /** The bit of the report payload (behind the Report ID) that button `n` reads. */
  function BitPosition(n: nat): (p: nat)
    requires 1 <= n <= 43
    ensures p < 48
  {
    8 * (Button(n).index - 1) + Button(n).shift
  }

  /** The byte and the bit of the payload at a bit position are button n's byte (behind the Report ID) and shift. */
  lemma BitPositionSplit(n: nat)
    requires 1 <= n <= 43
    ensures BitPosition(n) / 8 == Button(n).index - 1
    ensures BitPosition(n) % 8 == Button(n).shift
  {
    var b := Button(n);
    DivModEight(b.index - 1, b.shift);
  }

  lemma DivModEight(q: nat, r: nat)
    requires r < 8
    ensures (8 * q + r) / 8 == q && (8 * q + r) % 8 == r
  {
  }

  /** The shifts the eight lines for buttons 9..16 apply to data[2]. */
  const IrregularShifts: seq<nat> := [0, 5, 6, 7, 0, 1, 2, 3]

  /**
   * Buttons 1..8 and 17..43 read bit n - 1 of the payload, that is bit
   * (n - 1) mod 8 of data[1 + (n - 1) div 8]; buttons 9..16 read data[2]
   * with the shifts 0, 5, 6, 7, 0, 1, 2, 3.
   */
  lemma ButtonLayout(n: nat)
    requires 1 <= n <= 43
    ensures n < 9 || n > 16 ==> Button(n).index == 1 + (n - 1) / 8 && Button(n).shift == (n - 1) % 8
    ensures n < 9 || n > 16 ==> BitPosition(n) == n - 1
    ensures 9 <= n <= 16 ==> Button(n).index == 2 && Button(n).shift == IrregularShifts[n - 9]
  {
    if n <= 8 { ButtonLayoutLow(n); }
    else if n <= 16 { ButtonLayoutMiddle(n); }
    else if n <= 30 { ButtonLayoutHigh(n); }
    else { ButtonLayoutTop(n); }
  }

  lemma ButtonLayoutLow(n: nat)
    requires 1 <= n <= 8
    ensures Button(n).index == 1 && Button(n).shift == n - 1
  {
  }

  lemma ButtonLayoutMiddle(n: nat)
    requires 9 <= n <= 16
    ensures Button(n).index == 2 && Button(n).shift == IrregularShifts[n - 9]
  {
  }

  lemma ButtonLayoutHigh(n: nat)
    requires 17 <= n <= 30
    ensures Button(n).index == 1 + (n - 1) / 8 && Button(n).shift == (n - 1) % 8
  {
  }

  lemma ButtonLayoutTop(n: nat)
    requires 31 <= n <= 43
    ensures Button(n).index == 1 + (n - 1) / 8 && Button(n).shift == (n - 1) % 8
  {
  }

  /** Button n's bit in the payload, in the one formula of ButtonLayout. */
  lemma BitPositionCases(n: nat)
    requires 1 <= n <= 43
    ensures BitPosition(n) == if 9 <= n <= 16 then 8 + IrregularShifts[n - 9] else n - 1
  {
    ButtonLayout(n);
  }

  /**
   * Two buttons read the same bit only for buttons 9 and 13, which both
   * read bit 0 of data[2].
   */
  lemma ButtonsAlias()
    ensures forall m, n :: 1 <= m < n <= 43 && BitPosition(m) == BitPosition(n) ==> m == 9 && n == 13
    ensures BitPosition(9) == BitPosition(13) == 8
  {
    forall m, n | 1 <= m < n <= 43 && BitPosition(m) == BitPosition(n)
      ensures m == 9 && n == 13
    {
      BitPositionCases(m);
      BitPositionCases(n);
    }
    BitPositionCases(9);
    BitPositionCases(13);
  }

  /** The payload bits the 43 buttons read. */
  function ReadPositions(): set<nat>
  {
    set n | 1 <= n <= 43 :: BitPosition(n)
  }

  /**
   * The buttons read payload bits 0..42 except bit 12 (bit 4 of data[2]),
   * which no button reads: 43 events carry 42 distinct bits.
   */
  lemma ButtonsSkipBitTwelve()
    ensures ReadPositions() == CodeRange(0, 43) - {12}
    ensures |ReadPositions()| == 42
  {
    forall p | p in ReadPositions()
      ensures p in CodeRange(0, 43) - {12}
    {
      var n :| 1 <= n <= 43 && BitPosition(n) == p;
      BitPositionCases(n);
    }
    forall p | p in CodeRange(0, 43) - {12}
      ensures p in ReadPositions()
    {
      var n := if p < 8 || p > 15 then p + 1 else if p == 8 then 9 else if p < 12 then p + 5 else p - 3;
      BitPositionCases(n);
    }
  }

  /** The decoder reads data[1]..data[6] only. */
  lemma ReadsOnlyBytesOneToSix(data: seq<byte>, other: seq<byte>)
    requires |data| >= 7 && |other| >= 7
    requires data[1..7] == other[1..7]
    ensures ButtonEvents(data) == ButtonEvents(other)
  {
    var events, others := ButtonEvents(data), ButtonEvents(other);
    forall k | 0 <= k < 44
      ensures events[k] == others[k]
    {
      if k > 0 {
        var i := Button(k).index;
        assert data[i] == data[1..7][i - 1] == other[i];
      }
    }
  }

  /**
   * Those six bytes lie inside input report 1 of the shifter descriptor,
   * 11 bytes with the Report ID, whose 43 buttons (usages 1..43) start at
   * bit 0 of the payload: button n, where the decoder is regular, reads
   * the bit of usage n.
   */
  lemma ButtonsInsideReport(n: nat)
    requires 1 <= n <= 43
    ensures InputReportLength(Items(Shifter), InputReportId) == 11
    ensures ItemAt(Shifter, 9) == Item(Local, UsageMinimumTag, [1])
    ensures ItemAt(Shifter, 10) == Item(Local, UsageMaximumTag, [43])
    ensures var w := WalkTo(Shifter, 13, InputReportId); w.bits == 0 && w.reportSize == 1 && w.reportCount == 43
    ensures Button(n).index < 11
    ensures n < 9 || n > 16 ==> BitPosition(n) == n - 1
  {
    ShifterReports(InputReportId);
    ShifterReport1Items();
    ShifterReport1Fields(InputReportId);
    ButtonLayout(n);
  }

  /** The code of button `n`: BTN_TRIGGER..BTN_DEAD for 1..16, BTN_TRIGGER_HAPPY1..27 for 17..43. */
  lemma ButtonCode(n: nat)
    requires 1 <= n <= 43
    ensures Button(n).code == if n <= 16 then BtnTrigger + n - 1 else BtnTriggerHappy + n - 17
  {
    if n <= 8 { ButtonLayoutLow(n); }
    else if n <= 16 { ButtonLayoutMiddle(n); }
    else if n <= 30 { ButtonLayoutHigh(n); }
    else { ButtonLayoutTop(n); }
  }

  /** The 43 key codes the capability branch declares. */
  function ShifterKeys(): (keys: set<nat>)
    ensures |keys| == 43
    ensures forall c :: c in keys <==> BtnTrigger <= c <= BtnDead || BtnTriggerHappy <= c < BtnTriggerHappy + 27
  {
    RangesDisjoint(BtnTrigger, 16, BtnTriggerHappy, 27);
    CodeRange(BtnTrigger, 16) + CodeRange(BtnTriggerHappy, 27)
  }

  /** The keys hori_multisticks_input_configured declares for a product. */
  function DeclaredKeys(product: nat): set<nat>
  {
    if product == TruckControlSystemWheel then ShifterKeys() else {}
  }

  /**
   * hori_multisticks_input_configured: the scan code, the Key and Abs
   * event types, and, for the TCS wheel only, the 16 joystick keys and
   * the 27 BTN_TRIGGER_HAPPY keys of the loop.
   */
  method InputConfigured(product: nat, dev: InputDev)
    modifies dev
    ensures dev.mscbit == old(dev.mscbit) + {MscScan}
    ensures dev.evbit == old(dev.evbit) + {EvKey, EvAbs}
    ensures dev.keybit == old(dev.keybit) + DeclaredKeys(product)
    ensures dev.absbit == old(dev.absbit) && dev.absinfo == old(dev.absinfo)
  {
    dev.mscbit := dev.mscbit + {MscScan};
    dev.evbit := dev.evbit + {EvKey};
    dev.evbit := dev.evbit + {EvAbs};
    if product == TruckControlSystemWheel {
      DeclareShifterKeys(dev);
    }
  }

  /**
   * The 16 joystick keys, one by one, then BTN_TRIGGER_HAPPY + i - 0x10
   * for i from 0x10 up to 42.
   */
  method DeclareShifterKeys(dev: InputDev)
    modifies dev
    ensures dev.keybit == old(dev.keybit) + ShifterKeys()
    ensures dev.evbit == old(dev.evbit) && dev.mscbit == old(dev.mscbit)
    ensures dev.absbit == old(dev.absbit) && dev.absinfo == old(dev.absinfo)
  {
    var keys := JoystickKeys(dev.keybit);
    for i := 0x10 to 43
      invariant keys == old(dev.keybit) + CodeRange(BtnTrigger, 16) + CodeRange(BtnTriggerHappy, i - 0x10)
    {
      keys := keys + {BtnTriggerHappy + i - 0x10};
    }
    dev.keybit := keys;
  }

  /**
   * The key codes the decoder emits are the 43 the capability branch
   * declares, plus code 4 (KEY_3) from the scan event, which is declared
   * nowhere.
   */
  lemma EmittedKeys(data: seq<byte>)
    requires |data| >= 7
    ensures Codes(ButtonEvents(data), EvKey) == ShifterKeys() + {EvMsc}
    ensures EvMsc !in ShifterKeys()
  {
    EmittedKeysListed(data);
    ListedKeysEmitted(data);
  }

  lemma EmittedKeysListed(data: seq<byte>)
    requires |data| >= 7
    ensures Codes(ButtonEvents(data), EvKey) <= ShifterKeys() + {EvMsc}
  {
    var events := ButtonEvents(data);
    forall c | c in Codes(events, EvKey)
      ensures c in ShifterKeys() + {EvMsc}
    {
      var i :| 0 <= i < |events| && events[i].kind == EvKey && events[i].code == c;
      if i > 0 { ButtonCode(i); }
    }
  }

  lemma ListedKeysEmitted(data: seq<byte>)
    requires |data| >= 7
    ensures ShifterKeys() + {EvMsc} <= Codes(ButtonEvents(data), EvKey)
  {
    var events := ButtonEvents(data);
    forall c | c in ShifterKeys() + {EvMsc}
      ensures c in Codes(events, EvKey)
    {
      var i := if c == EvMsc then 0 else if c <= BtnDead then c - BtnTrigger + 1 else c - BtnTriggerHappy + 17;
      if i > 0 { ButtonCode(i); }
      assert events[i].code == c;
    }
  }

  /** The driver's device table: the shifter only. */
  const DeviceTable: set<nat> := {TruckControlSystemShifter}

  /**
   * The capability branch is keyed on the wheel, which the driver never
   * binds: the one device it binds and decodes gets no key capabilities,
   * though its 43 buttons match the descriptor's Usage Maximum of 43.
   */
  lemma BoundDeviceDeclaresNoKeys()
    ensures forall p :: p in DeviceTable ==> DeclaredKeys(p) == {}
    ensures |ShifterKeys()| == 43 == Unsigned(ItemAt(Shifter, 10).data)
  {
    ShifterReport1Items();
  }
}
