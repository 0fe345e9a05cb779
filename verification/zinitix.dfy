/**
 * Zinitix BT541 touchscreen driver: register transport over I2C, the vendor
 * power-on sequence, the touch configuration, the interrupt handler and the
 * order of the probe steps.  The I2C bus is an abstract log of transfers
 * whose results are injected; the input device is the log of events the
 * handler reports.
 */
module Zinitix {
  import opened Kernel
  import opened ZinitixWire

  /** One I2C transfer as the bus sees it. */
  datatype Xfer = Send(bytes: seq<u8>) | Recv(len: nat)

  /** The bytes a receive of `len` bytes leaves in a buffer: what arrived, then what was there. */
  function Overlay(buf: seq<u8>, len: nat, data: seq<u8>): (r: seq<u8>)
    requires len <= |buf|
    ensures |r| == |buf|
    ensures forall i :: 0 <= i < |r| ==> r[i] == if i < len && i < |data| then data[i] else buf[i]
  {
    var n := if |data| < len then |data| else len;
    data[..n] + buf[n..]
  }

  /**
   * The I2C client.  `log` holds every transfer the driver issued, in order.
   * The k-th transfer fails with `outcome(k)` when that is negative;
   * otherwise it succeeds and, when it is a receive, the device answers
   * `rx(k)`, which may be shorter than what was asked for.
   */
  class I2cClient {
    var log: seq<Xfer>
    const outcome: nat -> int
    const rx: nat -> seq<u8>

    constructor (outcome: nat -> int, rx: nat -> seq<u8>)
      ensures log == [] && this.outcome == outcome && this.rx == rx
    {
      log := [];
      this.outcome := outcome;
      this.rx := rx;
    }

    /** i2c_master_send: the number of bytes sent, or a negative error. */
    method MasterSend(buf: seq<u8>) returns (ret: int)
      modifies this
      ensures log == old(log) + [Send(buf)]
      ensures ret == if outcome(|old(log)|) < 0 then outcome(|old(log)|) else |buf|
    {
      var k := |log|;
      log := log + [Send(buf)];
      ret := if outcome(k) < 0 then outcome(k) else |buf|;
    }

    /** i2c_master_recv: the number of bytes received into the front of buf, or a negative error. */
    method MasterRecv(buf: array<u8>, len: nat) returns (ret: int)
      requires len <= buf.Length
      modifies this, buf
      ensures log == old(log) + [Recv(len)]
      ensures var k := |old(log)|;
        if outcome(k) < 0 then ret == outcome(k) && buf[..] == old(buf[..])
        else ret >= 0 && buf[..] == Overlay(old(buf[..]), len, rx(k))
    {
      var k := |log|;
      log := log + [Recv(len)];
      if outcome(k) < 0 {
        ret := outcome(k);
        return;
      }
      var data := rx(k);
      var n := if |data| < len then |data| else len;
      forall i | 0 <= i < n {
        buf[i] := data[i];
      }
      ret := n;
    }
  }

  /** The input device: the events reported to the multi-touch core, in order. */
  class InputDev {
    var events: seq<InputEvent>

    constructor ()
      ensures events == []
    {
      events := [];
    }

    method Report(e: InputEvent)
      modifies this
      ensures events == old(events) + [e]
    {
      events := events + [e];
    }
  }

  /**
   * zinitix_read_data: send the register address, then receive `length`
   * bytes into `values`.  The receive is attempted only after the address
   * went out; 0 means both phases succeeded, even if the device returned
   * fewer bytes than asked for.
   */
  method ReadData(client: I2cClient, reg: u16, values: array<u8>, length: u16) returns (ret: int)
    requires length <= values.Length
    modifies client, values
    ensures var k := |old(client.log)|;
      if client.outcome(k) < 0 then
        && ret == client.outcome(k)
        && client.log == old(client.log) + [Send(Le16(reg))]
        && values[..] == old(values[..])
      else if client.outcome(k + 1) < 0 then
        && ret == client.outcome(k + 1)
        && client.log == old(client.log) + [Send(Le16(reg)), Recv(length)]
        && values[..] == old(values[..])
      else
        && ret == 0
        && client.log == old(client.log) + [Send(Le16(reg)), Recv(length)]
        && values[..] == Overlay(old(values[..]), length, client.rx(k + 1))
  {
    ret := client.MasterSend(Le16(reg));
    if ret < 0 {
      return;
    }
    ret := client.MasterRecv(values, length);
    if ret < 0 {
      return;
    }
    ret := 0;
  }

  /**
   * zinitix_write_data: assemble address and payload in a fresh buffer and
   * send it in one transfer; 0 or the bus error.
   */
  method WriteData(client: I2cClient, reg: u16, values: seq<u8>) returns (ret: int)
    requires |values| < 0x1_0000
    modifies client
    ensures var k := |old(client.log)|;
      && client.log == old(client.log) + [Send(Packet(reg, values))]
      && ret == if client.outcome(k) < 0 then client.outcome(k) else 0
  {
    var regLe := Le16(reg);
    var packet := new u8[|values| + 2];
    packet[0], packet[1] := regLe[0], regLe[1];
    for i := 0 to |values|
      modifies packet
      invariant packet[0] == regLe[0] && packet[1] == regLe[1]
      invariant forall j :: 0 <= j < i ==> packet[2 + j] == values[j]
    {
      packet[2 + i] := values[i];
    }
    ghost var want := Packet(reg, values);
    assert forall j :: 2 <= j < packet.Length ==> packet[j] == want[j] by {
      forall j | 2 <= j < packet.Length
        ensures packet[j] == want[j]
      {
        assert packet[2 + (j - 2)] == values[j - 2];
        assert want[2..][j - 2] == values[j - 2];
      }
    }
    assert packet[..] == want;
    ret := client.MasterSend(packet[..]);
    if ret < 0 {
      return;
    }
    ret := 0;
  }

  /** zinitix_write_u16: a write whose payload is the value, little-endian. */
  method WriteU16(client: I2cClient, reg: u16, value: u16) returns (ret: int)
    modifies client
    ensures var k := |old(client.log)|;
      && client.log == old(client.log) + [Send(Packet(reg, Le16(value)))]
      && ret == if client.outcome(k) < 0 then client.outcome(k) else 0
  {
    ret := WriteData(client, reg, Le16(value));
  }

  /** zinitix_write_cmd: the address alone, no payload. */
  method WriteCmd(client: I2cClient, reg: u16) returns (ret: int)
    modifies client
    ensures var k := |old(client.log)|;
      && client.log == old(client.log) + [Send(Packet(reg, []))]
      && ret == if client.outcome(k) < 0 then client.outcome(k) else 0
  {
    assert Packet(reg, []) == Le16(reg);
    ret := client.MasterSend(Le16(reg));
    if ret < 0 {
      return;
    }
    ret := 0;
  }

  /** One step of a write sequence: zinitix_write_u16 (two-byte payload) or zinitix_write_cmd (none). */
  datatype RegWrite = WriteU16Step(reg: u16, value: u16) | WriteCmdStep(reg: u16)

  function Bytes(w: RegWrite): (p: seq<u8>)
    ensures |p| == if w.WriteCmdStep? then 2 else 4
    ensures p[..2] == Le16(w.reg)
  {
    match w
    case WriteU16Step(reg, value) => Packet(reg, Le16(value))
    case WriteCmdStep(reg) => Packet(reg, [])
  }

  function Sends(ws: seq<RegWrite>): (xs: seq<Xfer>)
    ensures |xs| == |ws|
  {
    if ws == [] then [] else Sends(ws[..|ws| - 1]) + [Send(Bytes(ws[|ws| - 1]))]
  }

  /**
   * The body of zinitix_init_touch up to the interrupt clears: software
   * reset, interrupt mask cleared, resolution, finger count, report mode
   * (initial and current) and the interrupt mask for count/down/move/up.
   */
  function InitWrites(maxX: u32, maxY: u32): (ws: seq<RegWrite>)
    ensures |ws| == 8
  {
    [ WriteCmdStep(BT541_SWRESET_CMD),
      WriteU16Step(BT541_INT_ENABLE_FLAG, 0),
      WriteU16Step(BT541_X_RESOLUTION, ToU16(maxX)),
      WriteU16Step(BT541_Y_RESOLUTION, ToU16(maxY)),
      WriteU16Step(BT541_SUPPORTED_FINGER_NUM, MAX_SUPPORTED_FINGER_NUM),
      WriteU16Step(BT541_INITIAL_TOUCH_MODE, TOUCH_POINT_MODE),
      WriteU16Step(BT541_TOUCH_MODE, TOUCH_POINT_MODE),
      WriteU16Step(BT541_INT_ENABLE_FLAG, INT_MASK_POINTS) ]
  }

  /** The ten interrupt clears that drain the queue once the configuration is written. */
  function ClearQueue(n: nat): (ws: seq<RegWrite>)
    ensures |ws| == n
    ensures forall i :: 0 <= i < n ==> ws[i] == WriteCmdStep(BT541_CLEAR_INT_STATUS_CMD)
  {
    if n == 0 then [] else ClearQueue(n - 1) + [WriteCmdStep(BT541_CLEAR_INT_STATUS_CMD)]
  }

  /** zinitix_send_power_on_sequence: vendor command enable, interrupt clear, NVM init, program start. */
  function PowerOnWrites(): (ws: seq<RegWrite>)
    ensures |ws| == 4
  {
    [ WriteU16Step(0xc000, 0x0001),
      WriteCmdStep(0xc004),
      WriteU16Step(0xc002, 0x0001),
      WriteU16Step(0xc001, 0x0001) ]
  }

  /** One step of a sequence: the zinitix_write_u16 or zinitix_write_cmd call it stands for. */
  method WriteStep(client: I2cClient, w: RegWrite) returns (ret: int)
    modifies client
    ensures var k := |old(client.log)|;
      && client.log == old(client.log) + [Send(Bytes(w))]
      && ret == if client.outcome(k) < 0 then client.outcome(k) else 0
  {
    match w {
      case WriteU16Step(reg, value) =>
        ret := WriteU16(client, reg, value);
      case WriteCmdStep(reg) =>
        ret := WriteCmd(client, reg);
    }
  }

  /**
   * Issue `ws` in order, returning at the first failed write with its error.
   * The source writes each sequence out as straight-line calls, each
   * followed by `if (ret) return ret;`.
   */
  method WriteSequence(client: I2cClient, ws: seq<RegWrite>) returns (ret: int)
    modifies client
    ensures var s := |old(client.log)|;
      && client.log == old(client.log) + Sends(ws[..Attempted(|ws|, s, client.outcome)])
      && ret == SequenceStatus(|ws|, s, client.outcome)
  {
    ghost var l0 := client.log;
    var s := |client.log|;
    for i := 0 to |ws|
      invariant client.log == l0 + Sends(ws[..i])
      invariant forall j :: s <= j < s + i ==> client.outcome(j) >= 0
    {
      ret := WriteEntry(client, ws, i, l0);
      if ret != 0 {
        StopsAt(|ws|, s, client.outcome, i);
        return;
      }
    }
    RunsThrough(|ws|, s, client.outcome);
    assert ws[..|ws|] == ws;
    ret := 0;
  }

  /** Step i of a sequence whose earlier steps were issued from `l0` on. */
  method WriteEntry(client: I2cClient, ws: seq<RegWrite>, i: nat, ghost l0: seq<Xfer>) returns (ret: int)
    requires i < |ws| && client.log == l0 + Sends(ws[..i])
    modifies client
    ensures client.log == l0 + Sends(ws[..i + 1])
    ensures ret == if client.outcome(|old(client.log)|) < 0 then client.outcome(|old(client.log)|) else 0
  {
    ret := WriteStep(client, ws[i]);
    SendsStep(ws, i);
  }

  /** One more step of a sequence issued is one more send. */
  lemma SendsStep(ws: seq<RegWrite>, i: nat)
    requires i < |ws|
    ensures Sends(ws[..i + 1]) == Sends(ws[..i]) + [Send(Bytes(ws[i]))]
  {
    assert ws[..i + 1][..i] == ws[..i];
  }

  /**
   * What the `bool` return type of zinitix_init_touch makes of the int
   * error of its first failed write: any error becomes 1, which probe then
   * returns as its own result.
   */
  function InitTouchResultAsWritten(err: int): (r: int)
    ensures r >= 0
    ensures r == 0 <==> err == 0
  {
    if err != 0 then 1 else 0
  }

  /** What zinitix_init_input_dev returns: -EINVAL for a zero max_x or max_y, then the input-core errors. */
  function InputDevStatus(maxX: u32, maxY: u32, mtInitSlots: int, inputRegister: int): (r: int)
    ensures r == 0 <==> maxX != 0 && maxY != 0 && mtInitSlots == 0 && inputRegister == 0
    ensures maxX == 0 || maxY == 0 ==> r == -EINVAL
    ensures mtInitSlots <= 0 && inputRegister <= 0 ==> r <= 0
  {
    if maxX == 0 || maxY == 0 then -EINVAL
    else if mtInitSlots != 0 then mtInitSlots
    else inputRegister
  }

  /**
   * What zinitix_ts_probe returns once the supplies are on, from the
   * statuses of its remaining steps in order (power-on sequence, input
   * device, init_touch, IRQ request), with init_touch's int error passed on
   * as the other steps' errors are.
   */
  function BringUpResult(powerOn: int, inputDev: int, initTouch: int, requestIrq: int): (r: int)
    ensures r == 0 <==> powerOn == 0 && inputDev == 0 && initTouch == 0 && requestIrq == 0
    ensures powerOn <= 0 && inputDev <= 0 && initTouch <= 0 && requestIrq <= 0 ==> r <= 0
  {
    if powerOn != 0 then powerOn
    else if inputDev != 0 then inputDev
    else if initTouch != 0 then initTouch
    else requestIrq
  }

  /** The same as the code is written: init_touch's error passes through its `bool` return type first. */
  function BringUpResultAsWritten(powerOn: int, inputDev: int, initTouch: int, requestIrq: int): (r: int)
    ensures powerOn == 0 && inputDev == 0 && initTouch != 0 ==> r == 1
    ensures initTouch == 0 ==> r == BringUpResult(powerOn, inputDev, initTouch, requestIrq)
  {
    if powerOn != 0 then powerOn
    else if inputDev != 0 then inputDev
    else if InitTouchResultAsWritten(initTouch) != 0 then InitTouchResultAsWritten(initTouch)
    else requestIrq
  }

  /**
   * Whenever the configuration writes of init_touch fail, probe as written
   * still fails, but it reports 1 instead of the bus error code, where the
   * corrected probe returns the write's negative error.
   */
  lemma InitTouchErrorLost(s: nat, outcome: nat -> int, powerOn: int, inputDev: int, requestIrq: int)
    requires powerOn == 0 && inputDev == 0
    ensures var e := SequenceStatus(8, s, outcome);
      e < 0 ==>
        && InitTouchResultAsWritten(e) == 1
        && BringUpResultAsWritten(powerOn, inputDev, e, requestIrq) == 1
        && BringUpResult(powerOn, inputDev, e, requestIrq) == e
  {
  }

  /**
   * What the steps of probe after the regulators leave behind, starting
   * from the client log `log0`: the power-on sequence, then (if it
   * succeeded) the input device, then (if that was registered) the
   * configuration writes up to the first failure and, once all succeed,
   * the interrupt clears; the result is BringUpResult of the steps' statuses.
   */
  ghost predicate BringUpOutcome(log0: seq<Xfer>, log: seq<Xfer>, outcome: nat -> int, maxX: u32, maxY: u32,
                                 mtInitSlots: int, inputRegister: int, requestIrq: int,
                                 inputRegistered: bool, ret: int)
    ensures BringUpOutcome(log0, log, outcome, maxX, maxY, mtInitSlots, inputRegister, requestIrq, inputRegistered, ret)
            && ret == 0 ==>
      && inputRegistered
      && log == log0 + Sends(PowerOnWrites()) + Sends(InitWrites(maxX, maxY)) + Sends(ClearQueue(10))
  {
    assert InitWrites(maxX, maxY)[..8] == InitWrites(maxX, maxY);
    var s := |log0|;
    var powerOn := SequenceStatus(4, s, outcome);
    var inputDev := InputDevStatus(maxX, maxY, mtInitSlots, inputRegister);
    var init := SequenceStatus(8, s + 4, outcome);
    && ret == BringUpResult(powerOn, inputDev, init, requestIrq)
    && (powerOn < 0 ==> !inputRegistered && log == log0 + Sends(PowerOnWrites()[..Attempted(4, s, outcome)]))
    && (powerOn == 0 && inputDev != 0 ==> !inputRegistered && log == log0 + Sends(PowerOnWrites()))
    && (powerOn == 0 && inputDev == 0 ==>
          && inputRegistered
          && log == log0 + Sends(PowerOnWrites()) + Sends(InitWrites(maxX, maxY)[..Attempted(8, s + 4, outcome)])
                       + (if init == 0 then Sends(ClearQueue(10)) else []))
  }

  /** struct bt541_ts_data and the operations on it. */
  class Bt541 {
    const client: I2cClient
    const input: InputDev
    /** touchscreen_properties max_x / max_y from the device tree. */
    const maxX: u32
    const maxY: u32
    var suppliesOn: bool
    var inputRegistered: bool
    var irqRequested: bool

    constructor (client: I2cClient, input: InputDev, maxX: u32, maxY: u32)
      ensures this.client == client && this.input == input
      ensures this.maxX == maxX && this.maxY == maxY
      ensures !suppliesOn && !inputRegistered && !irqRequested
    {
      this.client := client;
      this.input := input;
      this.maxX := maxX;
      this.maxY := maxY;
      suppliesOn, inputRegistered, irqRequested := false, false, false;
    }

    /** zinitix_send_power_on_sequence: four vendor writes, stopping at the first failure. */
    method SendPowerOnSequence() returns (ret: int)
      modifies client
      ensures var s := |old(client.log)|;
        && client.log == old(client.log) + Sends(PowerOnWrites()[..Attempted(4, s, client.outcome)])
        && ret == SequenceStatus(4, s, client.outcome)
      ensures ret == 0 ==> client.log == old(client.log) + Sends(PowerOnWrites())
    {
      ret := WriteSequence(client, PowerOnWrites());
      if ret == 0 {
        assert PowerOnWrites()[..4] == PowerOnWrites();
      }
    }

    /**
     * zinitix_init_touch: the eight configuration writes, stopping at the
     * first failure; once all eight succeed, ten interrupt clears whose
     * results are ignored, and success.
     */
    method InitTouch() returns (ret: int)
      modifies client
      ensures var s := |old(client.log)|;
        && ret == SequenceStatus(8, s, client.outcome)
        && client.log == old(client.log) + Sends(InitWrites(maxX, maxY)[..Attempted(8, s, client.outcome)])
                                          + (if ret == 0 then Sends(ClearQueue(10)) else [])
      ensures ret == 0 ==> client.log == old(client.log) + Sends(InitWrites(maxX, maxY)) + Sends(ClearQueue(10))
    {
      ret := WriteSequence(client, InitWrites(maxX, maxY));
      if ret != 0 {
        return;
      }
      assert InitWrites(maxX, maxY)[..8] == InitWrites(maxX, maxY);
      ghost var configured := client.log;
      for i := 0 to 10
        invariant client.log == configured + Sends(ClearQueue(i))
      {
        var _ := WriteCmd(client, BT541_CLEAR_INT_STATUS_CMD);
      }
      ret := 0;
    }

    /**
     * zinitix_ts_irq_handler: read the 44-byte point_info at 0x0080 into a
     * zeroed buffer.  On a failed read, report nothing and clear nothing.
     * Otherwise clear the interrupt once, report every slot whose exists bit
     * is set, in slot order, and close the frame.
     */
    method IrqHandler()
      modifies client, input
      ensures var k := |old(client.log)|;
        if client.outcome(k) < 0 then
          && client.log == old(client.log) + [Send(Le16(BT541_POINT_STATUS_REG))]
          && input.events == old(input.events)
        else if client.outcome(k + 1) < 0 then
          && client.log == old(client.log) + [Send(Le16(BT541_POINT_STATUS_REG)), Recv(POINT_INFO_SIZE)]
          && input.events == old(input.events)
        else
          && client.log == old(client.log) + [Send(Le16(BT541_POINT_STATUS_REG)), Recv(POINT_INFO_SIZE),
                                              Send(Packet(BT541_CLEAR_INT_STATUS_CMD, []))]
          && input.events == old(input.events) + Reports(ReceivedFrame(client.rx(k + 1)).coords) + [MtSyncFrame, Sync]
    {
      var touchInfo := new u8[POINT_INFO_SIZE](_ => 0);
      assert touchInfo[..] == Zeros(POINT_INFO_SIZE);
      var ret := ReadData(client, BT541_POINT_STATUS_REG, touchInfo, POINT_INFO_SIZE);
      if ret != 0 {
        return;
      }
      var _ := WriteCmd(client, BT541_CLEAR_INT_STATUS_CMD);
      ReportFrame(Decode(touchInfo[..]));
    }

    /** One pass of the slot loop: a present contact reports its slot, state, position and size. */
    method ReportSlot(i: nat, c: Coord)
      modifies input
      ensures input.events == old(input.events) + if Exists(c) then SlotReport(i, c) else []
    {
      if Exists(c) {
        input.Report(MtSlot(i));
        input.Report(MtSlotState(true));
        input.Report(Position(c.x, c.y));
        input.Report(TouchMajor(c.width));
        input.Report(WidthMajor(c.width));
      }
    }

    /** The slot loop of the handler and the frame close after it. */
    method ReportFrame(frame: PointInfo)
      requires WellFormed(frame)
      modifies input
      ensures input.events == old(input.events) + Reports(frame.coords) + [MtSyncFrame, Sync]
    {
      for i := 0 to MAX_SUPPORTED_FINGER_NUM
        invariant input.events == old(input.events) + Reports(frame.coords[..i])
      {
        ReportSlot(i, frame.coords[i]);
        assert frame.coords[..i + 1][..i] == frame.coords[..i];
      }
      assert frame.coords[..MAX_SUPPORTED_FINGER_NUM] == frame.coords;
      input.Report(MtSyncFrame);
      input.Report(Sync);
    }

    /**
     * zinitix_init_input_dev: the touchscreen properties must give a non-zero
     * max_x and max_y; then the multi-touch slots are initialised and the
     * device registered.  The results of the two input-core calls are
     * parameters.
     */
    method InitInputDev(mtInitSlots: int, inputRegister: int) returns (ret: int)
      requires mtInitSlots <= 0 && inputRegister <= 0
      requires !inputRegistered
      modifies this
      ensures ret <= 0
      ensures inputRegistered <==> ret == 0
      ensures ret == InputDevStatus(maxX, maxY, mtInitSlots, inputRegister)
      ensures suppliesOn == old(suppliesOn) && irqRequested == old(irqRequested)
    {
      if maxX == 0 || maxY == 0 {
        return -EINVAL;
      }
      if mtInitSlots != 0 {
        return mtInitSlots;
      }
      if inputRegister != 0 {
        return inputRegister;
      }
      inputRegistered := true;
      ret := 0;
    }

    /**
     * zinitix_ts_probe, from the I2C functionality check to the IRQ request.
     * The results of the calls into the regulator, input and IRQ cores are
     * parameters.  The power-on sequence runs before the geometry check, so
     * a zero max_x or max_y fails with -EINVAL after it, but before any
     * configuration write and before the IRQ is requested.  Regulators
     * enabled here stay enabled when a later step fails.
     */
    method Probe(i2cFunctional: bool, regulatorGet: int, regulatorEnable: int,
                 mtInitSlots: int, inputRegister: int, requestIrq: int) returns (ret: int)
      requires regulatorGet <= 0 && regulatorEnable <= 0 && mtInitSlots <= 0
      requires inputRegister <= 0 && requestIrq <= 0
      requires !suppliesOn && !inputRegistered && !irqRequested
      modifies this, client
      ensures ret <= 0
      ensures irqRequested <==> ret == 0
      ensures !i2cFunctional ==> ret == -ENXIO && client.log == old(client.log) && !suppliesOn
      ensures suppliesOn <==> i2cFunctional && regulatorGet == 0 && regulatorEnable == 0
      ensures inputRegistered ==> suppliesOn && maxX != 0 && maxY != 0
      ensures i2cFunctional && regulatorGet < 0 ==> ret == regulatorGet && client.log == old(client.log)
      ensures i2cFunctional && regulatorGet == 0 && regulatorEnable < 0 ==>
        ret == regulatorEnable && client.log == old(client.log)
      ensures suppliesOn ==> BringUpOutcome(old(client.log), client.log, client.outcome, maxX, maxY,
                                            mtInitSlots, inputRegister, requestIrq, inputRegistered, ret)
      ensures ret == 0 ==>
        client.log == old(client.log) + Sends(PowerOnWrites()) + Sends(InitWrites(maxX, maxY)) + Sends(ClearQueue(10))
    {
      if !i2cFunctional {
        return -ENXIO;
      }
      if regulatorGet < 0 {
        return regulatorGet;
      }
      if regulatorEnable < 0 {
        return regulatorEnable;
      }
      suppliesOn := true;
      ret := BringUp(mtInitSlots, inputRegister, requestIrq);
    }

    /** The steps of probe once the supplies are on: power-on sequence, input device, configuration, IRQ. */
    method BringUp(mtInitSlots: int, inputRegister: int, requestIrq: int) returns (ret: int)
      requires mtInitSlots <= 0 && inputRegister <= 0 && requestIrq <= 0
      requires !inputRegistered && !irqRequested
      modifies this, client
      ensures ret <= 0
      ensures irqRequested <==> ret == 0
      ensures suppliesOn == old(suppliesOn)
      ensures inputRegistered ==> maxX != 0 && maxY != 0
      ensures BringUpOutcome(old(client.log), client.log, client.outcome, maxX, maxY,
                             mtInitSlots, inputRegister, requestIrq, inputRegistered, ret)
      ensures ret == 0 ==>
        client.log == old(client.log) + Sends(PowerOnWrites()) + Sends(InitWrites(maxX, maxY)) + Sends(ClearQueue(10))
    {
      ret := SendPowerOnSequence();
      if ret != 0 {
        return;
      }
      ret := InitInputDev(mtInitSlots, inputRegister);
      if ret != 0 {
        return;
      }
      ret := InitTouch();
      if ret != 0 {
        return;
      }
      if requestIrq != 0 {
        return requestIrq;
      }
      irqRequested := true;
      ret := 0;
    }

    /** zinitix_ts_remove: switch the supplies off; always succeeds. */
    method Remove() returns (ret: int)
      modifies this
      ensures ret == 0 && !suppliesOn
      ensures inputRegistered == old(inputRegistered) && irqRequested == old(irqRequested)
    {
      suppliesOn := false;
      ret := 0;
    }
  }

  /**
   * The frame the handler decodes when the device answers `data`: the
   * buffer is zeroed first, so a short answer leaves the rest of the frame 0.
   */
  function ReceivedFrame(data: seq<u8>): (p: PointInfo)
    ensures WellFormed(p)
    ensures |data| >= POINT_INFO_SIZE ==> Encode(p) == data[..POINT_INFO_SIZE]
    ensures forall i :: 0 <= i < POINT_INFO_SIZE ==>
      Encode(p)[i] == if i < |data| then data[i] else 0
  {
    var b := Overlay(Zeros(POINT_INFO_SIZE), POINT_INFO_SIZE, data);
    EncodeDecode(b);
    Decode(b)
  }

  function Zeros(n: nat): (z: seq<u8>)
    ensures |z| == n && forall i :: 0 <= i < n ==> z[i] == 0
  {
    seq(n, _ => 0)
  }
}
