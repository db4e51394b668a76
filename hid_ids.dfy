/**
 * USB ids of the HORI devices (hid-ids.h) and the HID usages and field
 * flags the drivers compare against (Linux hid.h).
 */
module HidIds {

  const VendorHori: nat := 0x0f0d
  const FarmingWheel: nat := 0x0001
  const FarmingMultistick: nat := 0x0002
  const TruckWheel: nat := 0x017a
  const TruckShifter: nat := 0x0186

  /**
   * hid-hori-multisticks.c and hid-hori-wheels.c name their products
   * TRUCK_CONTROL_SYSTEM_WHEEL and TRUCK_CONTROL_SYSTEM_SHIFTER, which
   * hid-ids.h does not define; the model takes them to be the two ids it
   * does define.
   */
  const TruckControlSystemWheel: nat := TruckWheel
  const TruckControlSystemShifter: nat := TruckShifter

  // Generic Desktop usages: usage page 0x01 in the high half, usage id in the low half
  const GenericDesktopPage: nat := 0x0001_0000
  const GdMultiAxis: nat := 0x0001_0008
  const GdX: nat := 0x0001_0030
  const GdY: nat := 0x0001_0031
  const GdZ: nat := 0x0001_0032
  const GdRx: nat := 0x0001_0033
  const GdRy: nat := 0x0001_0034
  const GdRz: nat := 0x0001_0035
  const GdSlider: nat := 0x0001_0036
  const GdHatSwitch: nat := 0x0001_0039

  /** Bit 2 of a field's Main item flags: the value is relative. */
  const MainItemRelative: bv32 := 0x004
}
