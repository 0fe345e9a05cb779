/**
 * Tianma 499 LCD panel: prepare and unprepare over the `prepared` flag,
 * the DCS init and shutdown streams, and the backlight that drives a GPIO
 * and sends a 12-bit brightness over DCS.
 */
module PanelTianma {
  import opened Kernel
  import opened Dsi

  /** The commands of tianma_499_on; the driver leaves the LPM flag as it finds it. */
  const OnCmds: seq<Cmd> := [
    DcsBuffer([0xff, 0x98, 0x81, 0x00]),
    SetBrightness(0x0000),
    DcsBuffer([MIPI_DCS_WRITE_CONTROL_DISPLAY, 0x2c]),
    DcsBuffer([MIPI_DCS_WRITE_POWER_SAVE, 0x01]),
    DcsBuffer([0x68, 0x06]),
    ExitSleepMode,
    DisplayOn
  ]

  /** The commands of tianma_499_off. */
  const OffCmds: seq<Cmd> := [DisplayOff, EnterSleepMode]

  /** tianma_499_mode. */
  const Mode: DisplayMode := DisplayMode(
    (720 + 52 + 20 + 84) * (1280 + 20 + 8 + 20) * 60 / 1000,
    720, 720 + 52, 720 + 52 + 20, 720 + 52 + 20 + 84,
    1280, 1280 + 20, 1280 + 20 + 8, 1280 + 20 + 8 + 20,
    62, 110)

  /** The mode is well ordered, and its clock is the 60 Hz pixel clock, 69799 kHz. */
  lemma ModeTiming()
    ensures Ordered(Mode)
    ensures Mode.clock == PixelClock(Mode, 60) == 69799
  {
  }

  /** struct tianma_499. */
  class Panel {
    const host: Host
    var prepared: bool

    /**
     * The panel is prepared exactly when the supplies are on and the reset
     * line was last driven high; probe leaves the line low and the supplies off.
     */
    ghost predicate Valid()
      reads this, host
    {
      && Powered(host.log, false) == prepared
      && ResetLevel(host.log, 0) == (if prepared then 1 else 0)
    }

    constructor (host: Host)
      requires host.log == []
      ensures this.host == host && !prepared
      ensures Valid()
    {
      this.host := host;
      prepared := false;
    }

    /** tianma_499_reset; the sleeps between the levels are not modelled. */
    method Reset()
      modifies host
      ensures host.lpm == old(host.lpm)
      ensures host.log == old(host.log) + PulseToHigh
    {
      host.Record(ResetGpio(1));
      host.Record(ResetGpio(0));
      host.Record(ResetGpio(1));
    }

    /** tianma_499_on: the init stream up to its first failure, in the current mode. */
    method On() returns (ret: int)
      modifies host
      ensures host.lpm == old(host.lpm)
      ensures var s := |old(host.log)|;
        && host.log == old(host.log) + Transfers(OnCmds[..Attempted(|OnCmds|, s, host.outcome)], host.lpm)
        && ret == SequenceStatus(|OnCmds|, s, host.outcome)
    {
      ret := host.Run(OnCmds);
    }

    /** tianma_499_off: display off and sleep, up to the first failure, in the current mode. */
    method Off() returns (ret: int)
      modifies host
      ensures host.lpm == old(host.lpm)
      ensures var s := |old(host.log)|;
        && host.log == old(host.log) + Transfers(OffCmds[..Attempted(|OffCmds|, s, host.outcome)], host.lpm)
        && ret == SequenceStatus(|OffCmds|, s, host.outcome)
    {
      ret := host.Run(OffCmds);
    }

    /**
     * tianma_499_prepare.  `regulatorEnable` is what regulator_bulk_enable
     * returns.  A prepared panel is left alone; on a failed init the reset
     * line is driven low and the supplies are disabled again.
     */
    method Prepare(regulatorEnable: int) returns (ret: int)
      requires Valid() && regulatorEnable <= 0
      modifies this, host
      ensures Valid()
      ensures host.lpm == old(host.lpm)
      ensures old(prepared) ==> ret == 0 && prepared && host.log == old(host.log)
      ensures !old(prepared) && regulatorEnable < 0 ==>
        ret == regulatorEnable && !prepared && host.log == old(host.log)
      ensures !old(prepared) && regulatorEnable == 0 ==>
        var s := |old(host.log)| + |SuppliedSetup|;
        var n := Attempted(|OnCmds|, s, host.outcome);
        && ret == SequenceStatus(|OnCmds|, s, host.outcome)
        && (prepared <==> ret == 0)
        && host.log == old(host.log) + SuppliedSetup + Transfers(OnCmds[..n], host.lpm)
                       + (if ret == 0 then [] else SuppliedTail)
    {
      if prepared {
        return 0;
      }
      if regulatorEnable < 0 {
        return regulatorEnable;
      }
      ret := PowerOn();
      prepared := ret == 0;
    }

    /** The supplies switched on (regulator_bulk_enable succeeded), then the reset pulse. */
    method SupplyAndReset()
      modifies host
      ensures host.lpm == old(host.lpm)
      ensures host.log == old(host.log) + SuppliedSetup
    {
      host.Record(SuppliesEnable);
      Reset();
    }

    /** Reset driven low, then the supplies switched off. */
    method ResetAndCut()
      modifies host
      ensures host.lpm == old(host.lpm)
      ensures host.log == old(host.log) + SuppliedTail
    {
      host.Record(ResetGpio(0));
      host.Record(SuppliesDisable);
    }

    /**
     * The body of prepare once the supplies are on: reset, run the init
     * stream, and on its failure drive reset low and disable the supplies.
     */
    method PowerOn() returns (ret: int)
      modifies host
      ensures host.lpm == old(host.lpm)
      ensures var s := |old(host.log)| + |SuppliedSetup|;
        var n := Attempted(|OnCmds|, s, host.outcome);
        && ret == SequenceStatus(|OnCmds|, s, host.outcome)
        && host.log == old(host.log) + SuppliedSetup + Transfers(OnCmds[..n], host.lpm)
                       + (if ret == 0 then [] else SuppliedTail)
      ensures Powered(host.log, false) == (ret == 0)
      ensures ResetLevel(host.log, 0) == (if ret == 0 then 1 else 0)
    {
      ghost var pre := host.log;
      SupplyAndReset();
      ret := On();
      if ret < 0 {
        ResetAndCut();
      }
      SuppliedOnLines(pre, OnCmds[..Attempted(|OnCmds|, |pre| + |SuppliedSetup|, host.outcome)], host.lpm, ret == 0);
    }

    /**
     * tianma_499_unprepare: once entered it always ends with the reset line
     * low, the supplies disabled and the panel unprepared, and returns 0
     * whatever `_off` returned.
     */
    method Unprepare() returns (ret: int)
      requires Valid()
      modifies this, host
      ensures Valid()
      ensures ret == 0 && !prepared && host.lpm == old(host.lpm)
      ensures !old(prepared) ==> host.log == old(host.log)
      ensures old(prepared) ==>
        var s := |old(host.log)|;
        host.log == old(host.log) + Transfers(OffCmds[..Attempted(|OffCmds|, s, host.outcome)], host.lpm)
                    + SuppliedTail
    {
      if !prepared {
        return 0;
      }
      ghost var pre := host.log;
      var _ := Off();
      ResetAndCut();
      SuppliedOffLines(pre, OffCmds[..Attempted(|OffCmds|, |pre|, host.outcome)], host.lpm);
      prepared := false;
      return 0;
    }
  }

  /** The brightness the backlight registers with, which is also its maximum. */
  const MAX_BRIGHTNESS: nat := 4095

  // Blanking values from include/linux/fb.h and include/linux/backlight.h.
  const FB_BLANK_UNBLANK: int := 0
  const BL_CORE_SUSPENDED: bv32 := 0x1
  const BL_CORE_FBBLANK: bv32 := 0x2

  /** The parts of struct backlight_properties update_status reads. */
  datatype BacklightProps = BacklightProps(brightness: nat, power: int, fbBlank: int, state: bv32)

  /** Whether the backlight is to be dark whatever brightness is requested. */
  predicate Blanked(p: BacklightProps)
    ensures !Blanked(p) ==> p.power == FB_BLANK_UNBLANK && p.fbBlank == FB_BLANK_UNBLANK
    ensures !Blanked(p) ==> p.state & BL_CORE_SUSPENDED == 0 && p.state & BL_CORE_FBBLANK == 0
    ensures Blanked(p) ==> || p.power != FB_BLANK_UNBLANK || p.fbBlank != FB_BLANK_UNBLANK
                           || p.state & BL_CORE_SUSPENDED != 0 || p.state & BL_CORE_FBBLANK != 0
  {
    || p.power != FB_BLANK_UNBLANK
    || p.fbBlank != FB_BLANK_UNBLANK
    || p.state & (BL_CORE_SUSPENDED | BL_CORE_FBBLANK) != 0
  }

  /**
   * The brightness tianma_499_bl_update_status sends: the requested value
   * cut to u16, or 0 when the backlight is blanked or suspended.
   */
  function EffectiveBrightness(p: BacklightProps): (b: u16)
    ensures b == 0 <==> Blanked(p) || p.brightness % 0x1_0000 == 0
    ensures !Blanked(p) && p.brightness <= MAX_BRIGHTNESS ==> b == p.brightness
  {
    if Blanked(p) then 0 else ToU16(p.brightness)
  }

  /**
   * The payload of tianma_499_send_brightness: the DCS brightness opcode,
   * then bits 11..8 and bits 7..0 of the value.  Bits above 11 are dropped.
   */
  function BrightnessPacket(b: u16): (data: seq<u8>)
    ensures |data| == 3 && data[0] == MIPI_DCS_SET_DISPLAY_BRIGHTNESS
    ensures data[1] < 0x10
    ensures data[1] as int * 0x100 + data[2] as int == b % 0x1000
  {
    [MIPI_DCS_SET_DISPLAY_BRIGHTNESS, (b / 0x100) % 0x10, b % 0x100]
  }

  /** The brightness a panel reads from such a packet. */
  function PacketBrightness(data: seq<u8>): (b: nat)
    requires |data| == 3
    ensures b < 0x1_0000
    ensures data[0] == MIPI_DCS_SET_DISPLAY_BRIGHTNESS && data[1] < 0x10 ==> BrightnessPacket(b) == data
  {
    data[1] as int * 0x100 + data[2] as int
  }

  /** Every brightness the backlight accepts goes over the wire unchanged. */
  lemma PacketRoundTrip(b: u16)
    requires b <= MAX_BRIGHTNESS
    ensures PacketBrightness(BrightnessPacket(b)) == b
  {
  }

  /** Two values give the same packet exactly when they agree in their low 12 bits. */
  lemma PacketDropsHighBits(b: u16, c: u16)
    ensures BrightnessPacket(b) == BrightnessPacket(c) <==> b % 0x1000 == c % 0x1000
  {
    if b % 0x1000 == c % 0x1000 {
      assert BrightnessPacket(b)[1] == BrightnessPacket(c)[1];
      assert BrightnessPacket(b)[2] == BrightnessPacket(c)[2];
    }
  }

  /**
   * Within the backlight's range the GPIO and the packet agree: the GPIO
   * is driven high exactly when the panel is sent a nonzero brightness.
   */
  lemma GpioMatchesPacket(p: BacklightProps)
    requires p.brightness <= MAX_BRIGHTNESS
    ensures var b := EffectiveBrightness(p);
      (b != 0) <==> PacketBrightness(BrightnessPacket(b)) != 0
  {
  }

  /** Above that range they disagree: 4096 lights the GPIO and sends brightness 0. */
  lemma GpioPacketOutOfRange(p: BacklightProps)
    requires !Blanked(p) && p.brightness % 0x1000 == 0 && p.brightness % 0x1_0000 != 0
    ensures EffectiveBrightness(p) != 0 && PacketBrightness(BrightnessPacket(EffectiveBrightness(p))) == 0
  {
    var b := EffectiveBrightness(p);
    assert b == p.brightness % 0x1_0000;
    assert p.brightness == 0x1_0000 * (p.brightness / 0x1_0000) + b;
    assert b % 0x1000 == 0;
  }

  /**
   * tianma_499_send_brightness: with LPM cleared, send the packet; on
   * success set LPM again.  A failed write leaves LPM cleared.
   */
  method SendBrightness(host: Host, b: u16) returns (ret: int)
    modifies host
    ensures host.log == old(host.log) + [Dsi(DcsBuffer(BrightnessPacket(b)), false)]
    ensures var k := |old(host.log)|;
      if host.outcome(k) < 0 then ret == host.outcome(k) && !host.lpm
      else ret == 0 && host.lpm
  {
    host.lpm := false;
    ret := host.Transfer(DcsBuffer(BrightnessPacket(b)));
    if ret < 0 {
      return ret;
    }
    host.lpm := true;
    return 0;
  }

  /**
   * tianma_499_bl_update_status: drive the backlight GPIO high exactly when
   * the effective brightness is nonzero, then send that brightness.
   */
  method UpdateStatus(host: Host, p: BacklightProps) returns (ret: int)
    modifies host
    ensures var b := EffectiveBrightness(p);
      host.log == old(host.log) + [BacklightGpio(if b != 0 then 1 else 0), Dsi(DcsBuffer(BrightnessPacket(b)), false)]
    ensures var k := |old(host.log)| + 1;
      if host.outcome(k) < 0 then ret == host.outcome(k) && !host.lpm
      else ret == 0 && host.lpm
  {
    var b := EffectiveBrightness(p);
    host.Record(BacklightGpio(if b != 0 then 1 else 0));
    ret := SendBrightness(host, b);
  }
}
