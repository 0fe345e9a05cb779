/**
 * NT35521S controller with the EBBG panel: prepare and unprepare over the
 * `prepared` flag and the reset line, the init stream of generic writes
 * sent in low-power mode, the shutdown stream sent with low-power mode
 * cleared, and probe.
 */
module PanelNt35521sEbbg {
  import opened Kernel
  import opened Dsi

  /** The commands of nt35521s_ebbg_on after MIPI_DSI_MODE_LPM is set. */
  const OnCmds: seq<Cmd> := [
    Generic([0xf0, 0x55, 0xaa, 0x52, 0x08, 0x00]),
    Generic([0xb1, 0x6c]),
    Generic([0x64, 0x07]),
    Generic([0xcc, 0x40, 0x00]),
    Generic([0xd1,
             0x00, 0x00, 0x00, 0x01, 0x01, 0x01, 0x01, 0x01,
             0x01, 0x01, 0x01, 0x01, 0x02, 0x02, 0x02, 0x02]),
    Generic([0xd7,
             0x00, 0x00, 0x00, 0x00, 0x00, 0x00, 0x00, 0x00,
             0x00, 0x00, 0x00, 0x00]),
    Generic([0xd8,
             0x00, 0x00, 0x00, 0x00, 0x00, 0x00, 0x00, 0x00,
             0x00, 0x00, 0x00, 0x00]),
    Generic([0xf0, 0x55, 0xaa, 0x52, 0x00, 0x00]),
    Generic([0xff, 0xaa, 0x55, 0x25, 0x01]),
    Generic([0x6f, 0x1a]),
    Generic([0xf7, 0x05]),
    Generic([0x6f, 0x16]),
    Generic([0xf7, 0x10]),
    Generic([0x6f, 0x10]),
    Generic([0xf7, 0x1d]),
    Generic([0xff, 0xaa, 0x55, 0x25, 0x00]),
    Generic([0x35, 0x00]),
    ExitSleepMode,
    DisplayOn
  ]

  /** The commands of nt35521s_ebbg_off after MIPI_DSI_MODE_LPM is cleared. */
  const OffCmds: seq<Cmd> := [DisplayOff, EnterSleepMode]

  /** nt35521s_ebbg_mode. */
  const Mode: DisplayMode := DisplayMode(
    (720 + 240 + 20 + 241) * (1280 + 35 + 2 + 28) * 60 / 1000,
    720, 720 + 240, 720 + 240 + 20, 720 + 240 + 20 + 241,
    1280, 1280 + 35, 1280 + 35 + 2, 1280 + 35 + 2 + 28,
    62, 110)

  /** The mode is well ordered, and its clock is the 60 Hz pixel clock, 98534 kHz. */
  lemma ModeTiming()
    ensures Ordered(Mode)
    ensures Mode.clock == PixelClock(Mode, 60) == 98534
  {
  }

  /** struct nt35521s_ebbg. */
  class Panel {
    const host: Host
    var prepared: bool

    /**
     * The panel is prepared exactly when the reset line was last driven
     * low; probe requests the line high.
     */
    ghost predicate Valid()
      reads this, host
    {
      ResetLevel(host.log, 1) == (if prepared then 0 else 1)
    }

    constructor (host: Host)
      requires host.log == []
      ensures this.host == host && !prepared
      ensures Valid()
    {
      this.host := host;
      prepared := false;
    }

    /** nt35521s_ebbg_reset; the sleeps between the levels are not modelled. */
    method Reset()
      modifies host
      ensures host.lpm == old(host.lpm)
      ensures host.log == old(host.log) + PulseToLow
    {
      host.Record(ResetGpio(0));
      host.Record(ResetGpio(1));
      host.Record(ResetGpio(0));
    }

    /** nt35521s_ebbg_on: set LPM, then the init stream up to its first failure. */
    method On() returns (ret: int)
      modifies host
      ensures host.lpm
      ensures var s := |old(host.log)|;
        && host.log == old(host.log) + Transfers(OnCmds[..Attempted(|OnCmds|, s, host.outcome)], true)
        && ret == SequenceStatus(|OnCmds|, s, host.outcome)
    {
      host.lpm := true;
      ret := host.Run(OnCmds);
    }

    /** nt35521s_ebbg_off: clear LPM, then the shutdown stream up to its first failure. */
    method Off() returns (ret: int)
      modifies host
      ensures !host.lpm
      ensures var s := |old(host.log)|;
        && host.log == old(host.log) + Transfers(OffCmds[..Attempted(|OffCmds|, s, host.outcome)], false)
        && ret == SequenceStatus(|OffCmds|, s, host.outcome)
    {
      host.lpm := false;
      ret := host.Run(OffCmds);
    }

    /**
     * nt35521s_ebbg_prepare: a prepared panel is left alone; otherwise
     * pulse reset and run the init stream, and on its failure hold the
     * panel in reset again and return the error.
     */
    method Prepare() returns (ret: int)
      requires Valid()
      modifies this, host
      ensures Valid()
      ensures old(prepared) ==> ret == 0 && prepared && host.log == old(host.log) && host.lpm == old(host.lpm)
      ensures !old(prepared) ==> host.lpm
      ensures !old(prepared) ==>
        var s := |old(host.log)| + |PulseToLow|;
        var n := Attempted(|OnCmds|, s, host.outcome);
        && ret == SequenceStatus(|OnCmds|, s, host.outcome)
        && (prepared <==> ret == 0)
        && host.log == old(host.log) + PulseToLow + Transfers(OnCmds[..n], true)
                       + (if ret == 0 then [] else HoldReset)
    {
      if prepared {
        return 0;
      }
      ret := PowerOn();
      prepared := ret == 0;
    }

    /** The body of prepare past its guard. */
    method PowerOn() returns (ret: int)
      modifies host
      ensures host.lpm
      ensures var s := |old(host.log)| + |PulseToLow|;
        var n := Attempted(|OnCmds|, s, host.outcome);
        && ret == SequenceStatus(|OnCmds|, s, host.outcome)
        && host.log == old(host.log) + PulseToLow + Transfers(OnCmds[..n], true)
                       + (if ret == 0 then [] else HoldReset)
      ensures ResetLevel(host.log, 1) == (if ret == 0 then 0 else 1)
    {
      ghost var pre := host.log;
      Reset();
      ret := On();
      if ret < 0 {
        host.Record(ResetGpio(1));
      }
      HeldOnLines(pre, OnCmds[..Attempted(|OnCmds|, |pre| + |PulseToLow|, host.outcome)], true, ret == 0);
    }

    /**
     * nt35521s_ebbg_unprepare: once entered it always ends with the
     * panel held in reset and unprepared, and returns 0 whatever `_off`
     * returned.
     */
    method Unprepare() returns (ret: int)
      requires Valid()
      modifies this, host
      ensures Valid()
      ensures ret == 0 && !prepared
      ensures !old(prepared) ==> host.log == old(host.log) && host.lpm == old(host.lpm)
      ensures old(prepared) ==>
        var s := |old(host.log)|;
        && !host.lpm
        && host.log == old(host.log) + Transfers(OffCmds[..Attempted(|OffCmds|, s, host.outcome)], false)
                       + HoldReset
    {
      if !prepared {
        return 0;
      }
      ghost var pre := host.log;
      var _ := Off();
      host.Record(ResetGpio(1));
      HeldOffLines(pre, OffCmds[..Attempted(|OffCmds|, |pre|, host.outcome)], false);
      prepared := false;
      return 0;
    }
  }
}
