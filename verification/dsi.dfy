/**
 * What the MIPI-DSI panel drivers share: the DSI commands they issue, a
 * host that records every transfer together with the low-power-mode flag
 * in force when it was sent, the GPIO and regulator events around them,
 * and the "return on the first failed command" pattern of their `_on` and
 * `_off` functions.
 */
module Dsi {
  import opened Kernel

  // MIPI Display Command Set opcodes the panels write as raw buffers.
  const MIPI_DCS_WRITE_MEMORY_START: u8 := 0x2c
  const MIPI_DCS_SET_DISPLAY_BRIGHTNESS: u8 := 0x51
  const MIPI_DCS_WRITE_CONTROL_DISPLAY: u8 := 0x53
  const MIPI_DCS_WRITE_POWER_SAVE: u8 := 0x55
  const MIPI_DCS_SET_CABC_MIN_BRIGHTNESS: u8 := 0x5e

  /** One call into the DSI core. */
  datatype Cmd =
    | DcsBuffer(data: seq<u8>)      // mipi_dsi_dcs_write_buffer
    | Generic(data: seq<u8>)        // mipi_dsi_generic_write
    | ExitSleepMode                 // mipi_dsi_dcs_exit_sleep_mode
    | EnterSleepMode                // mipi_dsi_dcs_enter_sleep_mode
    | DisplayOn                     // mipi_dsi_dcs_set_display_on
    | DisplayOff                    // mipi_dsi_dcs_set_display_off
    | SetBrightness(value: u16)     // mipi_dsi_dcs_set_display_brightness
    | GetBrightness                 // mipi_dsi_dcs_get_display_brightness
    | SetTearOnVblank               // mipi_dsi_dcs_set_tear_on(dsi, MIPI_DSI_DCS_TEAR_MODE_VBLANK)

  /** What a panel driver does to the outside world, in order. */
  datatype Event =
    | Dsi(cmd: Cmd, lpm: bool)      // a DSI transfer, and whether MIPI_DSI_MODE_LPM was set
    | ResetGpio(level: int)         // gpiod_set_value_cansleep on the reset line
    | BacklightGpio(level: int)     // gpiod_set_value_cansleep on the backlight line
    | SuppliesEnable                // a successful regulator_bulk_enable
    | SuppliesDisable               // regulator_bulk_disable

  /** The transfers of `cmds`, all sent with the same LPM flag. */
  function Transfers(cmds: seq<Cmd>, lpm: bool): (es: seq<Event>)
    ensures |es| == |cmds|
    ensures forall i :: 0 <= i < |cmds| ==> es[i] == Dsi(cmds[i], lpm)
  {
    seq(|cmds|, i requires 0 <= i < |cmds| => Dsi(cmds[i], lpm))
  }

  lemma TransfersAppend(a: seq<Cmd>, b: seq<Cmd>, lpm: bool)
    ensures Transfers(a + b, lpm) == Transfers(a, lpm) + Transfers(b, lpm)
  {
  }

  /** One more command issued is one more transfer. */
  lemma TransfersStep(cmds: seq<Cmd>, i: nat, lpm: bool)
    requires i < |cmds|
    ensures Transfers(cmds[..i + 1], lpm) == Transfers(cmds[..i], lpm) + [Dsi(cmds[i], lpm)]
  {
    assert cmds[..i + 1] == cmds[..i] + [cmds[i]];
    TransfersAppend(cmds[..i], [cmds[i]], lpm);
  }

  /**
   * The DSI host and the lines around it.  `outcome(k)` is the return
   * value of the k-th event's call when it is a transfer (negative: an
   * error); `readback(k)` the value a brightness read at position k reports.
   */
  class Host {
    var lpm: bool
    var log: seq<Event>
    const outcome: nat -> int
    const readback: nat -> u16

    constructor (lpm: bool, outcome: nat -> int, readback: nat -> u16)
      ensures this.lpm == lpm && log == [] && this.outcome == outcome && this.readback == readback
    {
      this.lpm := lpm;
      log := [];
      this.outcome := outcome;
      this.readback := readback;
    }

    /** Issue one DSI command in the current mode. */
    method Transfer(c: Cmd) returns (ret: int)
      modifies this
      ensures lpm == old(lpm)
      ensures log == old(log) + [Dsi(c, lpm)]
      ensures ret == outcome(|old(log)|)
    {
      ret := outcome(|log|);
      log := log + [Dsi(c, lpm)];
    }

    /** Record a GPIO or regulator event. */
    method Record(e: Event)
      modifies this
      ensures lpm == old(lpm)
      ensures log == old(log) + [e]
    {
      log := log + [e];
    }

    /**
     * Issue `cmds` in order, returning the error of the first one that
     * fails without issuing the rest; 0 when all succeed.
     */
    method Run(cmds: seq<Cmd>) returns (ret: int)
      modifies this
      ensures lpm == old(lpm)
      ensures var s := |old(log)|;
        && log == old(log) + Transfers(cmds[..Attempted(|cmds|, s, outcome)], lpm)
        && ret == SequenceStatus(|cmds|, s, outcome)
    {
      ghost var l0 := log;
      var s := |log|;
      for i := 0 to |cmds|
        invariant lpm == old(lpm)
        invariant log == l0 + Transfers(cmds[..i], lpm)
        invariant forall j :: s <= j < s + i ==> outcome(j) >= 0
      {
        ret := Transfer(cmds[i]);
        TransfersStep(cmds, i, lpm);
        if ret < 0 {
          StopsAt(|cmds|, s, outcome, i);
          return;
        }
      }
      RunsThrough(|cmds|, s, outcome);
      assert cmds[..|cmds|] == cmds;
      ret := 0;
    }
  }

  /** The level last driven on the reset line in `es`, or `init` when none is. */
  function ResetLevel(es: seq<Event>, init: int): (level: int)
    ensures (forall e <- es :: !e.ResetGpio?) ==> level == init
    ensures es != [] && es[|es| - 1].ResetGpio? ==> level == es[|es| - 1].level
    decreases |es|
  {
    if es == [] then init
    else if es[|es| - 1].ResetGpio? then es[|es| - 1].level
    else ResetLevel(es[..|es| - 1], init)
  }

  /** Whether the supplies are on after `es`, starting from `init`. */
  function Powered(es: seq<Event>, init: bool): (on: bool)
    ensures (forall e <- es :: !e.SuppliesEnable? && !e.SuppliesDisable?) ==> on == init
    ensures es != [] && es[|es| - 1].SuppliesEnable? ==> on
    ensures es != [] && es[|es| - 1].SuppliesDisable? ==> !on
    decreases |es|
  {
    if es == [] then init
    else if es[|es| - 1].SuppliesEnable? then true
    else if es[|es| - 1].SuppliesDisable? then false
    else Powered(es[..|es| - 1], init)
  }

  /** The reset level and supply state after `a + b` are those after `b`, started from those after `a`. */
  lemma {:induction false} LinesAppend(a: seq<Event>, b: seq<Event>, level: int, on: bool)
    ensures ResetLevel(a + b, level) == ResetLevel(b, ResetLevel(a, level))
    ensures Powered(a + b, on) == Powered(b, Powered(a, on))
    decreases |b|
  {
    if b != [] {
      var b' := b[..|b| - 1];
      assert (a + b)[..|a + b| - 1] == a + b';
      LinesAppend(a, b', level, on);
    } else {
      assert a + b == a;
    }
  }

  /**
   * A run of DSI transfers between a setup and a tail leaves the reset line
   * and the supplies as the setup and the tail alone would.
   */
  lemma LinesAround(pre: seq<Event>, setup: seq<Event>, cmds: seq<Cmd>, lpm: bool, tail: seq<Event>, level: int, on: bool)
    ensures var es := pre + setup + Transfers(cmds, lpm) + tail;
      && ResetLevel(es, level) == ResetLevel(tail, ResetLevel(setup, ResetLevel(pre, level)))
      && Powered(es, on) == Powered(tail, Powered(setup, Powered(pre, on)))
  {
    var ts := Transfers(cmds, lpm);
    LinesAppend(pre + setup + ts, tail, level, on);
    LinesAppend(pre + setup, ts, level, on);
    LinesAppend(pre, setup, level, on);
  }

  // The two reset conventions of the panel drivers.  The panels with
  // supplies pulse the reset line high-low-high after enabling them, and
  // drive it low and disable the supplies to power down; the others pulse
  // it low-high-low and hold it high to power down.

  /** s6e88a0_ams452ef01_reset and tianma_499_reset. */
  const PulseToHigh: seq<Event> := [ResetGpio(1), ResetGpio(0), ResetGpio(1)]

  /** What their prepare does before the init stream. */
  const SuppliedSetup: seq<Event> := [SuppliesEnable] + PulseToHigh

  /** What their failed prepare and their unprepare do last. */
  const SuppliedTail: seq<Event> := [ResetGpio(0), SuppliesDisable]

  /** ili9881c_ebbgdjn_reset, nt35521s_ebbg_reset and nt35521s_ctc_reset. */
  const PulseToLow: seq<Event> := [ResetGpio(0), ResetGpio(1), ResetGpio(0)]

  /** What their failed prepare and their unprepare do last. */
  const HoldReset: seq<Event> := [ResetGpio(1)]

  /**
   * With supplies: after the setup and any init stream the supplies are on
   * and reset is high when the stream succeeded; after the tail both are off.
   */
  lemma SuppliedOnLines(pre: seq<Event>, cmds: seq<Cmd>, lpm: bool, ok: bool)
    ensures var es := pre + SuppliedSetup + Transfers(cmds, lpm) + (if ok then [] else SuppliedTail);
      && Powered(es, false) == ok
      && ResetLevel(es, 0) == (if ok then 1 else 0)
  {
    LinesAround(pre, SuppliedSetup, cmds, lpm, if ok then [] else SuppliedTail, 0, false);
    LinesAppend([SuppliesEnable], PulseToHigh, ResetLevel(pre, 0), Powered(pre, false));
  }

  /** With supplies: whatever the shutdown stream did, the tail leaves reset low and the supplies off. */
  lemma SuppliedOffLines(pre: seq<Event>, cmds: seq<Cmd>, lpm: bool)
    ensures var es := pre + Transfers(cmds, lpm) + SuppliedTail;
      !Powered(es, false) && ResetLevel(es, 0) == 0
  {
    LinesAround(pre, [], cmds, lpm, SuppliedTail, 0, false);
    assert pre + [] == pre;
  }

  /** Without supplies: reset is released after the pulse and any init stream exactly when it succeeded. */
  lemma HeldOnLines(pre: seq<Event>, cmds: seq<Cmd>, lpm: bool, ok: bool)
    ensures var es := pre + PulseToLow + Transfers(cmds, lpm) + (if ok then [] else HoldReset);
      ResetLevel(es, 1) == (if ok then 0 else 1)
  {
    LinesAround(pre, PulseToLow, cmds, lpm, if ok then [] else HoldReset, 1, false);
  }

  /** Without supplies: whatever the shutdown stream did, reset ends held. */
  lemma HeldOffLines(pre: seq<Event>, cmds: seq<Cmd>, lpm: bool)
    ensures ResetLevel(pre + Transfers(cmds, lpm) + HoldReset, 1) == 1
  {
    LinesAround(pre, [], cmds, lpm, HoldReset, 1, false);
    assert pre + [] == pre;
  }

  /** The part of struct drm_display_mode the panels fill in. */
  datatype DisplayMode = DisplayMode(
    clock: nat,
    hdisplay: nat, hsyncStart: nat, hsyncEnd: nat, htotal: nat,
    vdisplay: nat, vsyncStart: nat, vsyncEnd: nat, vtotal: nat,
    widthMm: nat, heightMm: nat)

  /** Each timing starts after the active area and before the total, in both directions. */
  predicate Ordered(m: DisplayMode)
  {
    && 0 < m.hdisplay < m.hsyncStart < m.hsyncEnd < m.htotal
    && 0 < m.vdisplay < m.vsyncStart < m.vsyncEnd < m.vtotal
  }

  /** The pixel clock in kHz for a refresh rate in Hz: htotal * vtotal * refresh / 1000, truncated. */
  function PixelClock(m: DisplayMode, refresh: nat): (khz: nat)
    ensures khz * 1000 <= m.htotal * m.vtotal * refresh < (khz + 1) * 1000
  {
    m.htotal * m.vtotal * refresh / 1000
  }

  /** Registration of a panel with the DRM core during probe. */
  datatype Registration = PanelAdd | PanelRemove

  /** Whether a run of registrations leaves the panel registered. */
  function Registered(rs: seq<Registration>): (b: bool)
    ensures rs == [] ==> !b
    ensures rs != [] ==> (b <==> rs[|rs| - 1] == PanelAdd)
  {
    |rs| > 0 && rs[|rs| - 1] == PanelAdd
  }

  /**
   * The probe of the ili9881c and nt35521s drivers: allocate the context,
   * get the reset GPIO, get the backlight, then drm_panel_add and
   * mipi_dsi_attach.  The arguments are what those calls return; when
   * attach fails the panel is removed again.  Nothing is registered on the
   * earlier exits.
   */
  function Probe(allocOk: bool, resetGpio: int, backlight: int, attach: int): (r: (int, seq<Registration>))
    requires resetGpio <= 0 && backlight <= 0 && attach <= 0
    ensures !allocOk ==> r == (-ENOMEM, [])
    ensures allocOk && resetGpio < 0 ==> r == (resetGpio, [])
    ensures allocOk && resetGpio == 0 && backlight < 0 ==> r == (backlight, [])
    ensures allocOk && resetGpio == 0 && backlight == 0 ==>
      r.0 == attach && 1 <= |r.1| <= 2 && r.1[0] == PanelAdd
    ensures r.0 <= 0
  {
    if !allocOk then (-ENOMEM, [])
    else if resetGpio < 0 then (resetGpio, [])
    else if backlight < 0 then (backlight, [])
    else if attach < 0 then (attach, [PanelAdd, PanelRemove])
    else (0, [PanelAdd])
  }

  /** Probe leaves the panel registered exactly when it returns success. */
  lemma ProbeRegisteredIffSuccess(allocOk: bool, resetGpio: int, backlight: int, attach: int)
    requires resetGpio <= 0 && backlight <= 0 && attach <= 0
    ensures var r := Probe(allocOk, resetGpio, backlight, attach);
      Registered(r.1) <==> r.0 == 0
  {
  }
}
