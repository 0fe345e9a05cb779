/**
 * Zinitix BT541 touchscreen: the wire format.  Every transaction starts with
 * a 16-bit little-endian register address; the interrupt handler reads one
 * packed `struct point_info` of 44 bytes (a 4-byte header and five 8-byte
 * `struct coord` records) and reports the slots whose "exists" bit is set.
 */
module ZinitixWire {
  import opened Kernel

  // Register map (the subset the driver uses).
  const BT541_SWRESET_CMD: u16 := 0x0000
  const BT541_CLEAR_INT_STATUS_CMD: u16 := 0x0003
  const BT541_TOUCH_MODE: u16 := 0x0010
  const BT541_SUPPORTED_FINGER_NUM: u16 := 0x0015
  const BT541_INITIAL_TOUCH_MODE: u16 := 0x0019
  const BT541_POINT_STATUS_REG: u16 := 0x0080
  const BT541_X_RESOLUTION: u16 := 0x00c0
  const BT541_Y_RESOLUTION: u16 := 0x00c1
  const BT541_INT_ENABLE_FLAG: u16 := 0x00f0

  // Interrupt-enable bits: BIT_PT_CNT_CHANGE | BIT_DOWN | BIT_MOVE | BIT_UP.
  const INT_MASK_POINTS: u16 := 0x000f

  const TOUCH_POINT_MODE: u16 := 1
  const MAX_SUPPORTED_FINGER_NUM: nat := 5

  const COORD_SIZE: nat := 8
  const HEADER_SIZE: nat := 4
  /** sizeof(struct point_info) */
  const POINT_INFO_SIZE: nat := 44

  /** One register transaction as it goes out on the bus: address, then payload. */
  function Packet(reg: u16, payload: seq<u8>): (p: seq<u8>)
    ensures |p| == |payload| + 2
    ensures p[0] == reg % 0x100 && p[1] == reg / 0x100
    ensures p[2..] == payload
  {
    Le16(reg) + payload
  }

  /** struct coord, packed. minorWidth and angle are unused padding on this model. */
  datatype Coord = Coord(x: u16, y: u16, width: u8, subStatus: u8, minorWidth: u8, angle: u8)

  /** struct point_info, packed. */
  datatype PointInfo = PointInfo(status: u16, eventFlag: u16, coords: seq<Coord>)

  ghost predicate WellFormed(p: PointInfo)
  {
    |p.coords| == MAX_SUPPORTED_FINGER_NUM
  }

  /** SUB_BIT_EXIST: the slot holds a contact. */
  predicate Exists(c: Coord)
  {
    c.subStatus % 2 == 1
  }

  function EncodeCoord(c: Coord): (b: seq<u8>)
    ensures |b| == COORD_SIZE
    ensures b[0] as int + 0x100 * b[1] as int == c.x && b[2] as int + 0x100 * b[3] as int == c.y
    ensures b[4] == c.width && b[5] == c.subStatus && b[6] == c.minorWidth && b[7] == c.angle
  {
    Le16(c.x) + Le16(c.y) + [c.width, c.subStatus, c.minorWidth, c.angle]
  }

  function DecodeCoord(b: seq<u8>): (c: Coord)
    requires |b| == COORD_SIZE
    ensures EncodeCoord(c) == b
  {
    Coord(FromLe16(b[0], b[1]), FromLe16(b[2], b[3]), b[4], b[5], b[6], b[7])
  }

  lemma DecodeEncodeCoord(c: Coord)
    ensures DecodeCoord(EncodeCoord(c)) == c
  {
    var b := EncodeCoord(c);
    assert b[0] as int + 0x100 * (b[1] as int) == c.x;
    assert b[2] as int + 0x100 * (b[3] as int) == c.y;
  }

  function EncodeCoords(cs: seq<Coord>): (b: seq<u8>)
    ensures |b| == COORD_SIZE * |cs|
  {
    if cs == [] then [] else EncodeCoord(cs[0]) + EncodeCoords(cs[1..])
  }

  function DecodeCoords(b: seq<u8>): (cs: seq<Coord>)
    requires |b| % COORD_SIZE == 0
    ensures |cs| == |b| / COORD_SIZE
    decreases |b|
  {
    if b == [] then [] else [DecodeCoord(b[..COORD_SIZE])] + DecodeCoords(b[COORD_SIZE..])
  }

  /** The 44 bytes of a point_info frame, in memory (and wire) order. */
  function Encode(p: PointInfo): (b: seq<u8>)
    requires WellFormed(p)
    ensures |b| == POINT_INFO_SIZE
    ensures b[0] as int + 0x100 * b[1] as int == p.status && b[2] as int + 0x100 * b[3] as int == p.eventFlag
    ensures b[HEADER_SIZE..] == EncodeCoords(p.coords)
  {
    Le16(p.status) + Le16(p.eventFlag) + EncodeCoords(p.coords)
  }

  /** The point_info frame that 44 received bytes overlay. */
  function Decode(b: seq<u8>): (p: PointInfo)
    requires |b| == POINT_INFO_SIZE
    ensures WellFormed(p)
    ensures p.status == b[0] as int + 0x100 * b[1] as int && p.eventFlag == b[2] as int + 0x100 * b[3] as int
    ensures p.coords == DecodeCoords(b[HEADER_SIZE..])
  {
    PointInfo(FromLe16(b[0], b[1]), FromLe16(b[2], b[3]), DecodeCoords(b[HEADER_SIZE..]))
  }

  lemma {:induction false} DecodeEncodeCoords(cs: seq<Coord>)
    ensures DecodeCoords(EncodeCoords(cs)) == cs
  {
    if cs != [] {
      var b := EncodeCoords(cs);
      assert b[..COORD_SIZE] == EncodeCoord(cs[0]);
      assert b[COORD_SIZE..] == EncodeCoords(cs[1..]);
      DecodeEncodeCoord(cs[0]);
      DecodeEncodeCoords(cs[1..]);
    }
  }

  lemma {:induction false} EncodeDecodeCoords(b: seq<u8>)
    requires |b| % COORD_SIZE == 0
    ensures EncodeCoords(DecodeCoords(b)) == b
    decreases |b|
  {
    if b != [] {
      var cs := DecodeCoords(b);
      assert cs[1..] == DecodeCoords(b[COORD_SIZE..]);
      EncodeDecodeCoords(b[COORD_SIZE..]);
      assert b == b[..COORD_SIZE] + b[COORD_SIZE..];
    }
  }

  /** Decoding the bytes of a frame gives the frame back. */
  lemma DecodeEncode(p: PointInfo)
    requires WellFormed(p)
    ensures Decode(Encode(p)) == p
  {
    var b := Encode(p);
    assert b[HEADER_SIZE..] == EncodeCoords(p.coords);
    DecodeEncodeCoords(p.coords);
    assert b[0] as int + 0x100 * (b[1] as int) == p.status;
    assert b[2] as int + 0x100 * (b[3] as int) == p.eventFlag;
  }

  /** Every 44-byte buffer is the encoding of the frame it decodes to. */
  lemma EncodeDecode(b: seq<u8>)
    requires |b| == POINT_INFO_SIZE
    ensures Encode(Decode(b)) == b
  {
    EncodeDecodeCoords(b[HEADER_SIZE..]);
    assert b == b[..2] + b[2..4] + b[HEADER_SIZE..];
  }

  /** Slot i of a decoded frame lies at byte offset 4 + 8*i, fields little-endian. */
  lemma {:induction false} CoordsAt(b: seq<u8>, i: nat)
    requires |b| % COORD_SIZE == 0 && i < |b| / COORD_SIZE
    ensures DecodeCoords(b)[i] == DecodeCoord(b[COORD_SIZE * i .. COORD_SIZE * i + COORD_SIZE])
    decreases |b|
  {
    if i > 0 {
      var rest := b[COORD_SIZE..];
      var at := COORD_SIZE * (i - 1);
      assert COORD_SIZE + at == COORD_SIZE * i;
      CoordsAt(rest, i - 1);
      assert rest[at .. at + COORD_SIZE] == b[COORD_SIZE + at .. COORD_SIZE + at + COORD_SIZE];
    }
  }

  lemma SlotLayout(b: seq<u8>, i: nat)
    requires |b| == POINT_INFO_SIZE && i < MAX_SUPPORTED_FINGER_NUM
    ensures var c := Decode(b).coords[i];
      && c.x == b[4 + 8 * i] as int + 0x100 * (b[5 + 8 * i] as int)
      && c.y == b[6 + 8 * i] as int + 0x100 * (b[7 + 8 * i] as int)
      && c.width == b[8 + 8 * i]
      && c.subStatus == b[9 + 8 * i]
  {
    CoordsAt(b[HEADER_SIZE..], i);
  }

  /** The input events the handler emits; one per input_* call. */
  datatype InputEvent =
    | MtSlot(slot: nat)            // input_mt_slot
    | MtSlotState(active: bool)    // input_mt_report_slot_state(MT_TOOL_FINGER, ...)
    | Position(x: u16, y: u16)     // touchscreen_report_pos
    | TouchMajor(major: u8)        // ABS_MT_TOUCH_MAJOR
    | WidthMajor(major: u8)        // ABS_MT_WIDTH_MAJOR
    | MtSyncFrame                  // input_mt_sync_frame
    | Sync                         // input_sync

  /** The events reported for one present slot. */
  function SlotReport(i: nat, c: Coord): (es: seq<InputEvent>)
    ensures |es| == 5 && es[0] == MtSlot(i) && es[1] == MtSlotState(true)
    ensures Position(c.x, c.y) in es && TouchMajor(c.width) in es
  {
    [MtSlot(i), MtSlotState(true), Position(c.x, c.y), TouchMajor(c.width), WidthMajor(c.width)]
  }

  /** The events for slots 0 .. |cs|-1, in slot order; absent slots report nothing. */
  function Reports(cs: seq<Coord>): (es: seq<InputEvent>)
    ensures forall e :: e in es && e.MtSlot? ==> e.slot < |cs| && Exists(cs[e.slot])
    ensures |es| % 5 == 0
  {
    if cs == [] then []
    else
      var i := |cs| - 1;
      Reports(cs[..i]) + (if Exists(cs[i]) then SlotReport(i, cs[i]) else [])
  }

  function ReportedSlots(es: seq<InputEvent>): set<nat>
  {
    set e | e in es && e.MtSlot? :: e.slot
  }

  /** The slots whose sub_status has SUB_BIT_EXIST set. */
  function PresentSlots(cs: seq<Coord>): set<nat>
  {
    set i | 0 <= i < |cs| && Exists(cs[i])
  }

  lemma ReportedSlotsConcat(a: seq<InputEvent>, b: seq<InputEvent>)
    ensures ReportedSlots(a + b) == ReportedSlots(a) + ReportedSlots(b)
  {
    assert forall e :: e in a + b <==> e in a || e in b;
  }

  /** The slots present in a run of slots, split off its last one. */
  lemma PresentSlotsSnoc(cs: seq<Coord>)
    requires cs != []
    ensures var n := |cs| - 1;
      PresentSlots(cs) == PresentSlots(cs[..n]) + (if Exists(cs[n]) then {n} else {})
  {
  }

  lemma SlotReportSlots(i: nat, c: Coord)
    ensures ReportedSlots(SlotReport(i, c)) == {i}
  {
    assert SlotReport(i, c)[0] == MtSlot(i);
  }

  /** Exactly the slots whose sub_status bit 0 is set are reported. */
  lemma {:induction false} ReportsExactlyPresent(cs: seq<Coord>)
    ensures ReportedSlots(Reports(cs)) == PresentSlots(cs)
  {
    if cs != [] {
      var n := |cs| - 1;
      var tail := if Exists(cs[n]) then SlotReport(n, cs[n]) else [];
      ReportsExactlyPresent(cs[..n]);
      ReportedSlotsConcat(Reports(cs[..n]), tail);
      if Exists(cs[n]) {
        SlotReportSlots(n, cs[n]);
      }
      PresentSlotsSnoc(cs);
    }
  }

  /** Five events per present slot, so a frame with k contacts yields 5k slot events. */
  lemma {:induction false} ReportsLength(cs: seq<Coord>)
    ensures |Reports(cs)| == 5 * |PresentSlots(cs)|
  {
    if cs != [] {
      var n := |cs| - 1;
      ReportsLength(cs[..n]);
      assert n !in PresentSlots(cs[..n]);
      PresentSlotsSnoc(cs);
    }
  }

  /** No event of a frame ever marks a slot inactive: absent slots are left to the input core. */
  lemma {:induction false} ReportsNeverDeactivate(cs: seq<Coord>)
    ensures MtSlotState(false) !in Reports(cs)
  {
    if cs != [] {
      ReportsNeverDeactivate(cs[..|cs| - 1]);
    }
  }
}
