/**
 * The parts of the Linux input subsystem the HORI drivers touch.  An
 * event the driver reports is a (type, code, value) triple appended to
 * the device's event stream; a capability the driver declares is a code
 * inserted into one of the device's bitmaps, which are modelled as sets.
 * Event types and codes are those of linux/input-event-codes.h.
 */
module InputEvents {
  import opened Bytes

  // Event types
  const EvSyn: nat := 0x00
  const EvKey: nat := 0x01
  const EvRel: nat := 0x02
  const EvAbs: nat := 0x03
  const EvMsc: nat := 0x04

  const SynReport: nat := 0
  const MscScan: nat := 0x04

  // Absolute axes
  const AbsX: nat := 0x00
  const AbsY: nat := 0x01
  const AbsZ: nat := 0x02
  const AbsRx: nat := 0x03
  const AbsRy: nat := 0x04
  const AbsRz: nat := 0x05
  const AbsWheel: nat := 0x08
  const AbsGas: nat := 0x09
  const AbsBrake: nat := 0x0a
  const AbsHat0X: nat := 0x10
  const AbsHat0Y: nat := 0x11
  const AbsMisc: nat := 0x28

  /** Both hid-hori.c and hid-hori-wheels.c define the clutch as the Rz axis. */
  const AbsClutch: nat := AbsRz

  // Joystick buttons, BTN_JOYSTICK onwards; BASE7..BASE9 are the drivers' own names for 0x12c..0x12e
  const BtnTrigger: nat := 0x120
  const BtnThumb: nat := 0x121
  const BtnThumb2: nat := 0x122
  const BtnTop: nat := 0x123
  const BtnTop2: nat := 0x124
  const BtnPinkie: nat := 0x125
  const BtnBase: nat := 0x126
  const BtnBase2: nat := 0x127
  const BtnBase3: nat := 0x128
  const BtnBase4: nat := 0x129
  const BtnBase5: nat := 0x12a
  const BtnBase6: nat := 0x12b
  const BtnBase7: nat := 0x12c
  const BtnBase8: nat := 0x12d
  const BtnBase9: nat := 0x12e
  const BtnDead: nat := 0x12f

  const BtnTriggerHappy: nat := 0x2c0

  /** BTN_TRIGGER_HAPPYn, counted from 1. */
  function TriggerHappy(n: nat): (c: nat)
    requires n >= 1
    ensures c - BtnTriggerHappy == n - 1
  {
    BtnTriggerHappy + n - 1
  }

  datatype Event = Event(kind: nat, code: nat, value: int)

  /** input_report_abs. */
  function AbsEvent(code: nat, value: int): Event
  {
    Event(EvAbs, code, value)
  }

  /** input_report_key: a key event whose value is the truth value of `value`. */
  function ReportKey(code: nat, value: int): (e: Event)
    ensures e.kind == EvKey && e.code == code
    ensures e.value == 0 || e.value == 1
    ensures e.value == 0 <==> value == 0
  {
    Event(EvKey, code, NotNot(value))
  }

  /** input_sync. */
  const SyncEvent := Event(EvSyn, SynReport, 0)

  /** The codes of the events of type `kind` in a stream. */
  function Codes(events: seq<Event>, kind: nat): (codes: set<nat>)
    ensures forall i :: 0 <= i < |events| && events[i].kind == kind ==> events[i].code in codes
    ensures forall c :: c in codes ==> exists i :: 0 <= i < |events| && events[i].kind == kind && events[i].code == c
  {
    set i | 0 <= i < |events| && events[i].kind == kind :: events[i].code
  }

  /** The `n` consecutive codes from `lo`. */
  function CodeRange(lo: nat, n: nat): (codes: set<nat>)
    ensures forall c :: c in codes <==> lo <= c < lo + n
    ensures |codes| == n
  {
    RangeSize(lo, n);
    set c: nat | lo <= c < lo + n && Within(c, lo, n)
  }

  /** `c` is one of the `n` codes from `lo`. */
  predicate Within(c: nat, lo: nat, n: nat)
  {
    lo <= c < lo + n
  }

  lemma {:induction false} RangeSize(lo: nat, n: nat)
    ensures |set c: nat | lo <= c < lo + n && Within(c, lo, n)| == n
  {
    if n > 0 {
      var m := n - 1;
      RangeSize(lo, m);
      var smaller := set c: nat | lo <= c < lo + m && Within(c, lo, m);
      assert (set c: nat | lo <= c < lo + n && Within(c, lo, n)) == smaller + {lo + n - 1};
    }
  }

  /** Two ranges that do not overlap: their union has as many codes as both together. */
  lemma RangesDisjoint(lo: nat, n: nat, lo2: nat, n2: nat)
    requires lo + n <= lo2
    ensures CodeRange(lo, n) * CodeRange(lo2, n2) == {}
    ensures |CodeRange(lo, n) + CodeRange(lo2, n2)| == n + n2
  {
    var a, b := CodeRange(lo, n), CodeRange(lo2, n2);
    assert a * b == {} by {
      forall c | c in a * b
        ensures false
      {
      }
    }
  }

  /** Two adjacent ranges make one. */
  lemma RangeConcat(lo: nat, n: nat, n2: nat)
    ensures CodeRange(lo, n) + CodeRange(lo + n, n2) == CodeRange(lo, n + n2)
  {
    var a, b := CodeRange(lo, n) + CodeRange(lo + n, n2), CodeRange(lo, n + n2);
    forall c | c in b
      ensures c in a
    {
      if c < lo + n {
        assert Within(c, lo, n);
      } else {
        assert Within(c, lo + n, n2);
      }
    }
  }

  /**
   * The sixteen set_bit calls for BTN_TRIGGER..BTN_DEAD that both
   * hid-hori-multisticks.c and hid-hori-wheels.c write out, applied to a
   * key bitmap.
   */
  method JoystickKeys(bits: set<nat>) returns (keys: set<nat>)
    ensures keys == bits + CodeRange(BtnTrigger, 16)
  {
    keys := bits + {BtnTrigger};
    keys := keys + {BtnThumb};
    keys := keys + {BtnThumb2};
    keys := keys + {BtnTop};
    keys := keys + {BtnTop2};
    keys := keys + {BtnPinkie};
    keys := keys + {BtnBase};
    keys := keys + {BtnBase2};
    keys := keys + {BtnBase3};
    keys := keys + {BtnBase4};
    keys := keys + {BtnBase5};
    keys := keys + {BtnBase6};
    keys := keys + {BtnBase7};
    keys := keys + {BtnBase8};
    keys := keys + {BtnBase9};
    keys := keys + {BtnDead};
  }

  /** struct input_absinfo as input_set_abs_params fills it. */
  datatype AbsInfo = AbsInfo(minimum: int, maximum: int, fuzz: int, flat: int)

  /**
   * The capability bitmaps and axis parameters of one input device.  The
   * drivers only ever set bits; set_bit is insertion.
   */
  class InputDev {
    var evbit: set<nat>
    var keybit: set<nat>
    var absbit: set<nat>
    var mscbit: set<nat>
    var absinfo: map<nat, AbsInfo>

    /** A newly allocated device declares nothing. */
    constructor ()
      ensures evbit == {} && keybit == {} && absbit == {} && mscbit == {}
      ensures absinfo == map[]
    {
      evbit := {};
      keybit := {};
      absbit := {};
      mscbit := {};
      absinfo := map[];
    }

    /**
     * input_set_abs_params: declares the Abs event type and the axis, and
     * records the axis' range, fuzz and flat.
     */
    method SetAbsParams(axis: nat, minimum: int, maximum: int, fuzz: int, flat: int)
      modifies this
      ensures evbit == old(evbit) + {EvAbs}
      ensures absbit == old(absbit) + {axis}
      ensures absinfo == old(absinfo)[axis := AbsInfo(minimum, maximum, fuzz, flat)]
      ensures keybit == old(keybit) && mscbit == old(mscbit)
      ensures EvAbs in old(evbit) ==> evbit == old(evbit)
      ensures axis in old(absbit) ==> absbit == old(absbit)
    {
      evbit := evbit + {EvAbs};
      absbit := absbit + {axis};
      absinfo := absinfo[axis := AbsInfo(minimum, maximum, fuzz, flat)];
    }

    /**
     * input_set_capability: declares the event type and the code in the
     * bitmap of that type.  Only the Key, Abs and Misc bitmaps are modelled;
     * for other types only the type bit is set.
     */
    method SetCapability(kind: nat, code: nat)
      modifies this
      ensures evbit == old(evbit) + {kind}
      ensures keybit == old(keybit) + (if kind == EvKey then {code} else {})
      ensures absbit == old(absbit) + (if kind == EvAbs then {code} else {})
      ensures mscbit == old(mscbit) + (if kind == EvMsc then {code} else {})
      ensures absinfo == old(absinfo)
      ensures kind in old(evbit) ==> evbit == old(evbit)
      ensures kind == EvMsc && code in old(mscbit) ==> mscbit == old(mscbit)
    {
      if kind == EvKey {
        keybit := keybit + {code};
      } else if kind == EvAbs {
        absbit := absbit + {code};
      } else if kind == EvMsc {
        mscbit := mscbit + {code};
      }
      evbit := evbit + {kind};
    }
  }
}
