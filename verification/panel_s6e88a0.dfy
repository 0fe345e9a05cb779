/**
 * Samsung S6E88A0 controller with the AMS452EF01 AMOLED panel: prepare and
 * unprepare over the `prepared` flag, enable and disable over `enabled`,
 * the DCS init and shutdown streams, and the backlight ops that read and
 * write the brightness over DCS.
 */
module PanelS6e88a0 {
  import opened Kernel
  import opened Dsi

  /** The commands of s6e88a0_ams452ef01_on after MIPI_DSI_MODE_LPM is set. */
  const OnCmds: seq<Cmd> := [
    DcsBuffer([0xf0, 0x5a, 0x5a]),
    DcsBuffer([0xcc, 0x4c]),
    ExitSleepMode,
    DcsBuffer([0xca,
               0x01, 0x00, 0x01, 0x00, 0x01, 0x00, 0x80, 0x80, 0x80,
               0x80, 0x80, 0x80, 0x80, 0x80, 0x80, 0x80, 0x80, 0x80,
               0x80, 0x80, 0x80, 0x80, 0x80, 0x80, 0x80, 0x80, 0x80,
               0x6b, 0x68, 0x71, 0x00, 0x00, 0x00]),
    DcsBuffer([0xb2, 0x40, 0x0a, 0x17, 0x00, 0x0a]),
    DcsBuffer([0xb6, 0x2c, 0x0b]),
    DcsBuffer([MIPI_DCS_WRITE_POWER_SAVE, 0x00]),
    DcsBuffer([0xf7, 0x03]),
    DcsBuffer([0xf0, 0xa5, 0xa5]),
    DisplayOn
  ]

  /** The commands of s6e88a0_ams452ef01_off after MIPI_DSI_MODE_LPM is cleared. */
  const OffCmds: seq<Cmd> := [DisplayOff, EnterSleepMode]

  /** s6e88a0_ams452ef01_mode. */
  const Mode: DisplayMode := DisplayMode(
    (540 + 88 + 4 + 20) * (960 + 14 + 2 + 8) * 60 / 1000,
    540, 540 + 88, 540 + 88 + 4, 540 + 88 + 4 + 20,
    960, 960 + 14, 960 + 14 + 2, 960 + 14 + 2 + 8,
    56, 100)

  /** The mode is well ordered, and its clock is the 60 Hz pixel clock, 38494 kHz. */
  lemma ModeTiming()
    ensures Ordered(Mode)
    ensures Mode.clock == PixelClock(Mode, 60) == 38494
  {
  }

  /** struct s6e88a0_ams452ef01. */
  class Panel {
    const host: Host
    var prepared: bool
    var enabled: bool

    /**
     * The panel is prepared exactly when the supplies are on and the reset
     * line was last driven high; probe leaves the line low and the supplies off.
     */
    ghost predicate Valid()
      reads this, host
    {
      && Powered(host.log, false) == prepared
      && ResetLevel(host.log, 0) == (if prepared then 1 else 0)
    }

    constructor (host: Host)
      requires host.log == []
      ensures this.host == host && !prepared && !enabled
      ensures Valid()
    {
      this.host := host;
      prepared := false;
      enabled := false;
    }

    /** s6e88a0_ams452ef01_reset; the sleeps between the levels are not modelled. */
    method Reset()
      modifies host
      ensures host.lpm == old(host.lpm)
      ensures host.log == old(host.log) + PulseToHigh
    {
      host.Record(ResetGpio(1));
      host.Record(ResetGpio(0));
      host.Record(ResetGpio(1));
    }

    /** s6e88a0_ams452ef01_on: set LPM, then the init stream up to its first failure. */
    method On() returns (ret: int)
      modifies host
      ensures host.lpm
      ensures var s := |old(host.log)|;
        && host.log == old(host.log) + Transfers(OnCmds[..Attempted(|OnCmds|, s, host.outcome)], true)
        && ret == SequenceStatus(|OnCmds|, s, host.outcome)
    {
      host.lpm := true;
      ret := host.Run(OnCmds);
    }

    /** s6e88a0_ams452ef01_off: clear LPM, then display off and sleep, up to the first failure. */
    method Off() returns (ret: int)
      modifies host
      ensures !host.lpm
      ensures var s := |old(host.log)|;
        && host.log == old(host.log) + Transfers(OffCmds[..Attempted(|OffCmds|, s, host.outcome)], false)
        && ret == SequenceStatus(|OffCmds|, s, host.outcome)
    {
      host.lpm := false;
      ret := host.Run(OffCmds);
    }

    /**
     * s6e88a0_ams452ef01_prepare.  `regulatorEnable` is what
     * regulator_bulk_enable returns.  A prepared panel is left alone; on a
     * failed init the reset line is driven low and the supplies are
     * disabled again before the error is returned.
     */
    method Prepare(regulatorEnable: int) returns (ret: int)
      requires Valid() && regulatorEnable <= 0
      modifies this, host
      ensures Valid()
      ensures enabled == old(enabled)
      ensures old(prepared) ==> ret == 0 && prepared && host.log == old(host.log) && host.lpm == old(host.lpm)
      ensures !old(prepared) && regulatorEnable < 0 ==>
        ret == regulatorEnable && !prepared && host.log == old(host.log) && host.lpm == old(host.lpm)
      ensures !old(prepared) && regulatorEnable == 0 ==>
        var s := |old(host.log)| + |SuppliedSetup|;
        var n := Attempted(|OnCmds|, s, host.outcome);
        && ret == SequenceStatus(|OnCmds|, s, host.outcome)
        && (prepared <==> ret == 0)
        && host.lpm
        && host.log == old(host.log) + SuppliedSetup + Transfers(OnCmds[..n], true)
                       + (if ret == 0 then [] else SuppliedTail)
    {
      if prepared {
        return 0;
      }
      if regulatorEnable < 0 {
        return regulatorEnable;
      }
      ret := PowerOn();
      prepared := ret == 0;
    }

    /** The supplies switched on (regulator_bulk_enable succeeded), then the reset pulse. */
    method SupplyAndReset()
      modifies host
      ensures host.lpm == old(host.lpm)
      ensures host.log == old(host.log) + SuppliedSetup
    {
      host.Record(SuppliesEnable);
      Reset();
    }

    /** Reset driven low, then the supplies switched off. */
    method ResetAndCut()
      modifies host
      ensures host.lpm == old(host.lpm)
      ensures host.log == old(host.log) + SuppliedTail
    {
      host.Record(ResetGpio(0));
      host.Record(SuppliesDisable);
    }

    /**
     * The body of prepare once the supplies are on: reset, run the init
     * stream, and on its failure drive reset low and disable the supplies.
     */
    method PowerOn() returns (ret: int)
      modifies host
      ensures var s := |old(host.log)| + |SuppliedSetup|;
        var n := Attempted(|OnCmds|, s, host.outcome);
        && ret == SequenceStatus(|OnCmds|, s, host.outcome)
        && host.lpm
        && host.log == old(host.log) + SuppliedSetup + Transfers(OnCmds[..n], true)
                       + (if ret == 0 then [] else SuppliedTail)
      ensures Powered(host.log, false) == (ret == 0)
      ensures ResetLevel(host.log, 0) == (if ret == 0 then 1 else 0)
    {
      ghost var pre := host.log;
      SupplyAndReset();
      ret := On();
      if ret < 0 {
        ResetAndCut();
      }
      SuppliedOnLines(pre, OnCmds[..Attempted(|OnCmds|, |pre| + |SuppliedSetup|, host.outcome)], true, ret == 0);
    }

    /**
     * s6e88a0_ams452ef01_unprepare: once entered it always ends with the
     * reset line low, the supplies disabled and the panel unprepared, and
     * returns 0 whatever `_off` returned.
     */
    method Unprepare() returns (ret: int)
      requires Valid()
      modifies this, host
      ensures Valid()
      ensures ret == 0 && !prepared && enabled == old(enabled)
      ensures !old(prepared) ==> host.log == old(host.log) && host.lpm == old(host.lpm)
      ensures old(prepared) ==>
        var s := |old(host.log)|;
        && !host.lpm
        && host.log == old(host.log) + Transfers(OffCmds[..Attempted(|OffCmds|, s, host.outcome)], false)
                       + SuppliedTail
    {
      if !prepared {
        return 0;
      }
      ghost var pre := host.log;
      var _ := Off();
      ResetAndCut();
      SuppliedOffLines(pre, OffCmds[..Attempted(|OffCmds|, |pre|, host.outcome)], false);
      prepared := false;
      return 0;
    }

    /** s6e88a0_ams452ef01_enable: `backlight` is what backlight_enable returns. */
    method Enable(backlight: int) returns (ret: int)
      requires backlight <= 0
      modifies this
      ensures prepared == old(prepared)
      ensures old(enabled) ==> ret == 0 && enabled
      ensures !old(enabled) ==> ret == backlight && (enabled <==> backlight == 0)
    {
      if enabled {
        return 0;
      }
      if backlight < 0 {
        return backlight;
      }
      enabled := true;
      return 0;
    }

    /** s6e88a0_ams452ef01_disable: `backlight` is what backlight_disable returns. */
    method Disable(backlight: int) returns (ret: int)
      requires backlight <= 0
      modifies this
      ensures prepared == old(prepared)
      ensures !old(enabled) ==> ret == 0 && !enabled
      ensures old(enabled) ==> ret == backlight && (enabled <==> backlight < 0)
    {
      if !enabled {
        return 0;
      }
      if backlight < 0 {
        return backlight;
      }
      enabled := false;
      return 0;
    }
  }

  /** The low byte of a 16-bit brightness, as `brightness & 0xff`. */
  function LowByte(v: u16): (b: u8)
    ensures (v - b) % 0x100 == 0
    ensures v < 0x100 ==> b == v
  {
    v % 0x100
  }

  /** LowByte keeps exactly the low eight bits: two values agree on it iff they agree modulo 256. */
  lemma LowByteAgrees(v: u16, w: u16)
    ensures LowByte(v) == LowByte(w) <==> v % 0x100 == w % 0x100
  {
  }

  /**
   * dsi_dcs_bl_get_brightness: with LPM cleared, read the brightness; on
   * success set LPM again and return its low byte.  A failed read leaves
   * LPM cleared.
   */
  method GetBrightness(host: Host) returns (ret: int)
    modifies host
    ensures host.log == old(host.log) + [Dsi(Cmd.GetBrightness, false)]
    ensures var k := |old(host.log)|;
      if host.outcome(k) < 0 then ret == host.outcome(k) && !host.lpm
      else ret == LowByte(host.readback(k)) && host.lpm
  {
    host.lpm := false;
    var k := |host.log|;
    ret := host.Transfer(Cmd.GetBrightness);
    if ret < 0 {
      return ret;
    }
    host.lpm := true;
    return LowByte(host.readback(k));
  }

  /**
   * dsi_dcs_bl_update_status: with LPM cleared, send the brightness (cut to
   * the u16 parameter); on success set LPM again and return 0.
   */
  method UpdateStatus(host: Host, brightness: nat) returns (ret: int)
    modifies host
    ensures host.log == old(host.log) + [Dsi(SetBrightness(ToU16(brightness)), false)]
    ensures var k := |old(host.log)|;
      if host.outcome(k) < 0 then ret == host.outcome(k) && !host.lpm
      else ret == 0 && host.lpm
  {
    host.lpm := false;
    ret := host.Transfer(SetBrightness(ToU16(brightness)));
    if ret < 0 {
      return ret;
    }
    host.lpm := true;
    return 0;
  }
}
