/**
 * Short items of a HID report descriptor, as defined in section 6.2.2.2 of
 * the Device Class Definition for HID 1.11: one prefix byte whose bits 0-1
 * give the number of data bytes (0, 1, 2 or 4), bits 2-3 the item type
 * (Main, Global, Local) and bits 4-7 the tag, followed by the data bytes,
 * least significant first.  Long items (prefix 0xFE) do not occur in the
 * descriptors of this model; the parser rejects them.
 */
module HidItems {
  import opened Bytes

  datatype Option<T> = None | Some(value: T)

  datatype ItemType = Main | Global | Local | Reserved

  datatype Item = Item(kind: ItemType, tag: nat, data: seq<byte>)

  const LongItemPrefix: byte := 0xfe

  // Main item tags (section 6.2.2.4)
  const InputTag: nat := 8
  const OutputTag: nat := 9
  const CollectionTag: nat := 10
  const EndCollectionTag: nat := 12
  // Global item tags (section 6.2.2.7)
  const UsagePageTag: nat := 0
  const LogicalMinimumTag: nat := 1
  const LogicalMaximumTag: nat := 2
  const PhysicalMaximumTag: nat := 4
  const ReportSizeTag: nat := 7
  const ReportIdTag: nat := 8
  const ReportCountTag: nat := 9
  // Local item tags (section 6.2.2.8)
  const UsageTag: nat := 0
  const UsageMinimumTag: nat := 1
  const UsageMaximumTag: nat := 2

  /** Number of data bytes announced by a prefix: size code 3 means four bytes. */
  function DataSize(prefix: byte): (n: nat)
    ensures n == 0 || n == 1 || n == 2 || n == 4
    ensures prefix % 4 == 3 <==> n == 4
  {
    if prefix % 4 == 3 then 4 else (prefix % 4) as nat
  }

  function TypeOf(prefix: byte): ItemType
  {
    match (prefix / 4) % 4
    case 0 => Main
    case 1 => Global
    case 2 => Local
    case _ => Reserved
  }

  function ItemOf(prefix: byte, data: seq<byte>): Item
  {
    Item(TypeOf(prefix), (prefix / 16) as nat, data)
  }

  /** The item value: the data bytes read as an unsigned little-endian number. */
  function Unsigned(data: seq<byte>): (v: nat)
    ensures |data| == 0 ==> v == 0
    ensures |data| == 1 ==> v == data[0] as nat
    ensures |data| >= 2 ==> v % 256 == data[0] as nat
    ensures |data| <= 2 ==> v < 0x1_0000
  {
    (if |data| > 0 then data[0] as nat else 0)
    + (if |data| > 1 then 0x100 * data[1] as nat else 0)
    + (if |data| > 2 then 0x1_0000 * data[2] as nat else 0)
    + (if |data| > 3 then 0x100_0000 * data[3] as nat else 0)
  }

  /** A byte sequence that holds exactly one short item. */
  predicate IsShortItem(s: seq<byte>)
  {
    |s| >= 1 && s[0] != LongItemPrefix && |s| == 1 + DataSize(s[0])
  }

  /** Splits a descriptor into its short items; None if it is cut short or holds a long item. */
  function ParseItems(s: seq<byte>): Option<seq<Item>>
    decreases |s|
  {
    if s == [] then Some([])
    else if s[0] == LongItemPrefix || |s| < 1 + DataSize(s[0]) then None
    else
      match ParseItems(s[1 + DataSize(s[0])..])
      case None => None
      case Some(rest) => Some([ItemOf(s[0], s[1..1 + DataSize(s[0])])] + rest)
  }

  function KindCode(kind: ItemType): (c: nat)
    ensures c < 4
  {
    match kind
    case Main => 0
    case Global => 1
    case Local => 2
    case Reserved => 3
  }

  function SizeCode(n: nat): nat
  {
    if n == 4 then 3 else n
  }

  /** An item that has a short-item encoding. */
  predicate Encodable(it: Item)
  {
    && it.tag < 16
    && (|it.data| == 0 || |it.data| == 1 || |it.data| == 2 || |it.data| == 4)
    && !(it.tag == 15 && it.kind == Reserved && |it.data| == 2)
  }

  function Prefix(it: Item): (p: byte)
    requires Encodable(it)
    ensures p != LongItemPrefix
    ensures DataSize(p) == |it.data|
    ensures ItemOf(p, it.data) == it
  {
    (it.tag * 16 + KindCode(it.kind) * 4 + SizeCode(|it.data|)) as byte
  }

  function EncodeItems(items: seq<Item>): seq<byte>
    requires forall i :: 0 <= i < |items| ==> Encodable(items[i])
  {
    if items == [] then []
    else [Prefix(items[0])] + items[0].data + EncodeItems(items[1..])
  }

  /** Encoding a list of items and parsing the result gives the same items back. */
  lemma {:induction false} ParseEncode(items: seq<Item>)
    requires forall i :: 0 <= i < |items| ==> Encodable(items[i])
    ensures ParseItems(EncodeItems(items)) == Some(items)
  {
    if items != [] {
      var s := EncodeItems(items);
      var p := Prefix(items[0]);
      assert s == [p] + items[0].data + EncodeItems(items[1..]);
      assert s[1 + DataSize(p)..] == EncodeItems(items[1..]);
      assert s[1..1 + DataSize(p)] == items[0].data;
      ParseEncode(items[1..]);
      assert [items[0]] + items[1..] == items;
    }
  }

  /** A short-item prefix and its data bytes form an item whose encoding gives the prefix back. */
  lemma PrefixOfItem(p: byte, data: seq<byte>)
    requires p != LongItemPrefix
    requires |data| == DataSize(p)
    ensures Encodable(ItemOf(p, data))
    ensures Prefix(ItemOf(p, data)) == p
  {
    var it := ItemOf(p, data);
    assert it.tag < 16;
    assert KindCode(it.kind) == ((p / 4) % 4) as nat;
    assert SizeCode(|data|) == (p % 4) as nat;
  }

  /** Every item the parser produces has a short encoding, and the items re-encode to exactly the input. */
  lemma {:induction false} EncodeParse(s: seq<byte>)
    requires ParseItems(s).Some?
    ensures forall i :: 0 <= i < |ParseItems(s).value| ==> Encodable(ParseItems(s).value[i])
    ensures EncodeItems(ParseItems(s).value) == s
    decreases |s|
  {
    if s != [] {
      var n := DataSize(s[0]);
      var tail := s[1 + n..];
      EncodeParse(tail);
      var it := ItemOf(s[0], s[1..1 + n]);
      PrefixOfItem(s[0], s[1..1 + n]);
      var items := ParseItems(s).value;
      assert items == [it] + ParseItems(tail).value;
      assert items[1..] == ParseItems(tail).value;
      assert s == [s[0]] + s[1..1 + n] + tail;
    }
  }

  /** The concatenation of a sequence of byte rows. */
  function Concat(rows: seq<seq<byte>>): (s: seq<byte>)
  {
    if rows == [] then [] else rows[0] + Concat(rows[1..])
  }

  lemma {:induction false} ConcatSnoc(rows: seq<seq<byte>>)
    requires rows != []
    ensures Concat(rows) == Concat(rows[..|rows| - 1]) + rows[|rows| - 1]
    decreases |rows|
  {
    if |rows| > 1 {
      ConcatSnoc(rows[1..]);
      assert rows[1..][..|rows| - 2] == rows[..|rows| - 1][1..];
    }
  }

  /** The item a row holding one short item encodes. */
  function RowItem(row: seq<byte>): Item
    requires IsShortItem(row)
  {
    ItemOf(row[0], row[1..])
  }

  /** The items a sequence of short-item rows encodes, one per row. */
  function RowItems(rows: seq<seq<byte>>): (items: seq<Item>)
    requires forall i :: 0 <= i < |rows| ==> IsShortItem(rows[i])
    ensures |items| == |rows|
    ensures forall i :: 0 <= i < |rows| ==> items[i] == RowItem(rows[i])
  {
    seq(|rows|, i requires 0 <= i < |rows| => RowItem(rows[i]))
  }

  /** Rows that each hold one short item tile their concatenation: the parser finds exactly their items. */
  lemma {:induction false} ParseConcat(rows: seq<seq<byte>>)
    requires forall i :: 0 <= i < |rows| ==> IsShortItem(rows[i])
    ensures ParseItems(Concat(rows)) == Some(RowItems(rows))
    decreases |rows|
  {
    if rows != [] {
      var row := rows[0];
      var rest := Concat(rows[1..]);
      ParseConcat(rows[1..]);
      var s := row + rest;
      assert s[0] == row[0];
      assert s[1 + DataSize(s[0])..] == rest;
      assert s[1..1 + DataSize(s[0])] == row[1..];
      assert ParseItems(s) == Some([RowItem(row)] + RowItems(rows[1..]));
      assert [RowItem(row)] + RowItems(rows[1..]) == RowItems(rows);
    }
  }

  // ----- walking the items ---------------------------------------------------

  /**
   * The parser state that the layout of an input report depends on:
   * Collection nesting (and whether an End Collection ever closed a
   * Collection that was not open), the Report IDs declared so far, the
   * current Global Report ID, Report Size and Report Count, and the number
   * of Input bits declared so far for the Report ID `id` a walk is about.
   */
  datatype WalkState = WalkState(
    depth: int,
    underflow: bool,
    reportIds: seq<nat>,
    reportId: nat,
    reportSize: nat,
    reportCount: nat,
    bits: nat)

  const Start := WalkState(0, false, [], 0, 0, 0, 0)

  /** One item's effect on the walk for Report ID `id`. */
  function Step(it: Item, w: WalkState, id: nat): (r: WalkState)
    ensures r.bits == w.bits + (if it.kind == Main && it.tag == InputTag && w.reportId == id then w.reportSize * w.reportCount else 0)
    ensures r.reportIds == w.reportIds + (if it.kind == Global && it.tag == ReportIdTag then [Unsigned(it.data)] else [])
  {
    match it.kind
    case Main =>
      if it.tag == InputTag then
        w.(bits := w.bits + (if w.reportId == id then w.reportSize * w.reportCount else 0))
      else if it.tag == CollectionTag then
        w.(depth := w.depth + 1)
      else if it.tag == EndCollectionTag then
        w.(depth := w.depth - 1, underflow := w.underflow || w.depth <= 0)
      else w
    case Global =>
      if it.tag == ReportIdTag then
        w.(reportId := Unsigned(it.data), reportIds := w.reportIds + [Unsigned(it.data)])
      else if it.tag == ReportSizeTag then
        w.(reportSize := Unsigned(it.data))
      else if it.tag == ReportCountTag then
        w.(reportCount := Unsigned(it.data))
      else w
    case _ => w
  }

  function Run(items: seq<Item>, w: WalkState, id: nat): WalkState
  {
    if items == [] then w else Run(items[1..], Step(items[0], w, id), id)
  }

  /** Running a list of items ends with the step of its last item. */
  lemma {:induction false} RunSnoc(items: seq<Item>, w: WalkState, id: nat)
    requires items != []
    ensures Run(items, w, id) == Step(items[|items| - 1], Run(items[..|items| - 1], w, id), id)
    decreases |items|
  {
    if |items| > 1 {
      RunSnoc(items[1..], Step(items[0], w, id), id);
      assert items[1..][..|items| - 2] == items[..|items| - 1][1..];
    }
  }

  /** Every End Collection closes an open Collection, and every Collection is closed. */
  predicate Balanced(items: seq<Item>)
  {
    var w := Run(items, Start, 0);
    w.depth == 0 && !w.underflow
  }

  /** No Report ID is declared twice. */
  predicate Distinct(ids: seq<nat>)
  {
    forall i, j :: 0 <= i < j < |ids| ==> ids[i] != ids[j]
  }

  /** Number of Input bits the items declare for Report ID `id`. */
  function InputBits(items: seq<Item>, id: nat): nat
  {
    Run(items, Start, id).bits
  }

  /** Length in bytes of input report `id`: the Report ID byte (when IDs are used) and the bits rounded up. */
  function InputReportLength(items: seq<Item>, id: nat): (n: nat)
    ensures id != 0 ==> n >= 1
  {
    (if id != 0 then 1 else 0) + (InputBits(items, id) + 7) / 8
  }

  // Input, Output and Feature data bits (section 6.2.2.5)
  predicate IsConstant(data: nat) { Bit(data, 0) == 1 }
  predicate IsVariable(data: nat) { Bit(data, 1) == 1 }
  predicate HasNullState(data: nat) { Bit(data, 6) == 1 }
}
