/**
 * ILI9881C controller with the EBBG DJN panel: prepare and unprepare over
 * the `prepared` flag and the reset line, the DCS init and shutdown
 * streams, and probe.  The driver never touches the LPM flag.
 */
module PanelIli9881c {
  import opened Kernel
  import opened Dsi

  /** The commands of ili9881c_ebbgdjn_on. */
  const OnCmds: seq<Cmd> := [
    DcsBuffer([0xff, 0x98, 0x81, 0x00, 0xff]),
    DcsBuffer([0xff, 0x98, 0x81, 0x04]),
    DcsBuffer([0xff, 0x98, 0x81, 0x04]),
    DcsBuffer([0xe5, 0x00]),
    DcsBuffer([0xff, 0x98, 0x81, 0x00]),
    DcsBuffer([0xff, 0x98, 0x81, 0x00]),
    DcsBuffer([0x11, 0x00]),
    DcsBuffer([0x29, 0x00]),
    SetTearOnVblank,
    SetBrightness(0xff0f),
    DcsBuffer([MIPI_DCS_WRITE_CONTROL_DISPLAY, 0x2c]),
    DcsBuffer([MIPI_DCS_WRITE_POWER_SAVE, 0x00]),
    DcsBuffer([0x68, 0x05]),
    DcsBuffer([MIPI_DCS_SET_CABC_MIN_BRIGHTNESS, 0x00, 0xff]),
    DcsBuffer([0xff, 0x98, 0x81, 0x03]),
    DcsBuffer([0xff, 0x98, 0x81, 0x03]),
    DcsBuffer([MIPI_DCS_WRITE_MEMORY_START, 0x0c]),
    DcsBuffer([0xff, 0x98, 0x81, 0x02]),
    DcsBuffer([0xff, 0x98, 0x81, 0x02]),
    DcsBuffer([0x04, 0x16]),
    DcsBuffer([0x05, 0x22]),
    DcsBuffer([0x06, 0x40]),
    DcsBuffer([0x07, 0x04]),
    DcsBuffer([0xff, 0x98, 0x81, 0x00]),
    DcsBuffer([0xff, 0x98, 0x81, 0x00])
  ]

  /** The commands of ili9881c_ebbgdjn_off. */
  const OffCmds: seq<Cmd> := [
    DcsBuffer([0xff, 0x98, 0x81, 0x00]),
    DcsBuffer([0xff, 0x98, 0x81, 0x00]),
    DisplayOff,
    EnterSleepMode
  ]

  /** ili9881c_ebbgdjn_mode. */
  const Mode: DisplayMode := DisplayMode(
    (720 + 114 + 8 + 180) * (1280 + 10 + 4 + 18) * 60 / 1000,
    720, 720 + 114, 720 + 114 + 8, 720 + 114 + 8 + 180,
    1280, 1280 + 10, 1280 + 10 + 4, 1280 + 10 + 4 + 18,
    62, 110)

  /** The mode is well ordered, and its clock is the 60 Hz pixel clock, 80451 kHz. */
  lemma ModeTiming()
    ensures Ordered(Mode)
    ensures Mode.clock == PixelClock(Mode, 60) == 80451
  {
  }

  /** struct ili9881c_ebbgdjn. */
  class Panel {
    const host: Host
    var prepared: bool

    /**
     * The panel is prepared exactly when the reset line was last driven
     * low; probe requests the line high.
     */
    ghost predicate Valid()
      reads this, host
    {
      ResetLevel(host.log, 1) == (if prepared then 0 else 1)
    }

    constructor (host: Host)
      requires host.log == []
      ensures this.host == host && !prepared
      ensures Valid()
    {
      this.host := host;
      prepared := false;
    }

    /** ili9881c_ebbgdjn_reset; the sleeps between the levels are not modelled. */
    method Reset()
      modifies host
      ensures host.lpm == old(host.lpm)
      ensures host.log == old(host.log) + PulseToLow
    {
      host.Record(ResetGpio(0));
      host.Record(ResetGpio(1));
      host.Record(ResetGpio(0));
    }

    /** ili9881c_ebbgdjn_on: the init stream up to its first failure. */
    method On() returns (ret: int)
      modifies host
      ensures host.lpm == old(host.lpm)
      ensures var s := |old(host.log)|;
        && host.log == old(host.log) + Transfers(OnCmds[..Attempted(|OnCmds|, s, host.outcome)], host.lpm)
        && ret == SequenceStatus(|OnCmds|, s, host.outcome)
    {
      ret := host.Run(OnCmds);
    }

    /** ili9881c_ebbgdjn_off: the shutdown stream up to its first failure. */
    method Off() returns (ret: int)
      modifies host
      ensures host.lpm == old(host.lpm)
      ensures var s := |old(host.log)|;
        && host.log == old(host.log) + Transfers(OffCmds[..Attempted(|OffCmds|, s, host.outcome)], host.lpm)
        && ret == SequenceStatus(|OffCmds|, s, host.outcome)
    {
      ret := host.Run(OffCmds);
    }

    /**
     * ili9881c_ebbgdjn_prepare: a prepared panel is left alone; otherwise
     * pulse reset and run the init stream, and on its failure hold the
     * panel in reset again and return the error.
     */
    method Prepare() returns (ret: int)
      requires Valid()
      modifies this, host
      ensures Valid()
      ensures host.lpm == old(host.lpm)
      ensures old(prepared) ==> ret == 0 && prepared && host.log == old(host.log)
      ensures !old(prepared) ==>
        var s := |old(host.log)| + |PulseToLow|;
        var n := Attempted(|OnCmds|, s, host.outcome);
        && ret == SequenceStatus(|OnCmds|, s, host.outcome)
        && (prepared <==> ret == 0)
        && host.log == old(host.log) + PulseToLow + Transfers(OnCmds[..n], host.lpm)
                       + (if ret == 0 then [] else HoldReset)
    {
      if prepared {
        return 0;
      }
      ret := PowerOn();
      prepared := ret == 0;
    }

    /** The body of prepare past its guard. */
    method PowerOn() returns (ret: int)
      modifies host
      ensures host.lpm == old(host.lpm)
      ensures var s := |old(host.log)| + |PulseToLow|;
        var n := Attempted(|OnCmds|, s, host.outcome);
        && ret == SequenceStatus(|OnCmds|, s, host.outcome)
        && host.log == old(host.log) + PulseToLow + Transfers(OnCmds[..n], host.lpm)
                       + (if ret == 0 then [] else HoldReset)
      ensures ResetLevel(host.log, 1) == (if ret == 0 then 0 else 1)
    {
      ghost var pre := host.log;
      Reset();
      ret := On();
      if ret < 0 {
        host.Record(ResetGpio(1));
      }
      HeldOnLines(pre, OnCmds[..Attempted(|OnCmds|, |pre| + |PulseToLow|, host.outcome)], host.lpm, ret == 0);
    }

    /**
     * ili9881c_ebbgdjn_unprepare: once entered it always ends with the
     * panel held in reset and unprepared, and returns 0 whatever `_off`
     * returned.
     */
    method Unprepare() returns (ret: int)
      requires Valid()
      modifies this, host
      ensures Valid()
      ensures ret == 0 && !prepared && host.lpm == old(host.lpm)
      ensures !old(prepared) ==> host.log == old(host.log)
      ensures old(prepared) ==>
        var s := |old(host.log)|;
        host.log == old(host.log) + Transfers(OffCmds[..Attempted(|OffCmds|, s, host.outcome)], host.lpm)
                    + HoldReset
    {
      if !prepared {
        return 0;
      }
      ghost var pre := host.log;
      var _ := Off();
      host.Record(ResetGpio(1));
      HeldOffLines(pre, OffCmds[..Attempted(|OffCmds|, |pre|, host.outcome)], host.lpm);
      prepared := false;
      return 0;
    }
  }
}
