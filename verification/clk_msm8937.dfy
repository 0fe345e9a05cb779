/**
 * Qualcomm MSM8937 global clock controller (GCC) debug measurement.  A
 * clock is routed to the debug mux, the XO/4 reference branch is enabled,
 * a ring-oscillator counter runs a short and a full measurement, and the
 * frequency follows from the full count; a short count equal to the full
 * one means the clock is off.
 */
module ClkMsm8937 {
  import opened Kernel

  /** A 16-bit mux select value, held in the 32-bit register width it is written with. */
  type Sel16 = x: bv32 | x < 0x1_0000

  /** One row of gcc_debug_mux_parents: mux select value and clock name, plus the optional fields. */
  datatype MuxItem = MuxItem(value: Sel16, name: string, mult: u16, muxAddr: u32, muxVal: u32)

  /** The (value, name) pairs of the table, in table order; every other field is zero. */
  const Parents: seq<(Sel16, string)> := [
    (0x000, "snoc_clk"), (0x001, "sysmmnoc_clk"), (0x008, "pcnoc_clk"),
    (0x15a, "bimc_clk"), (0x1b0, "ipa_clk"), (0x010, "gcc_gp1_clk"),
    (0x011, "gcc_gp2_clk"), (0x012, "gcc_gp3_clk"), (0x02d, "gcc_bimc_gfx_clk"),
    (0x030, "gcc_mss_cfg_ahb_clk"), (0x031, "gcc_mss_q6_bimc_axi_clk"), (0x049, "gcc_qdss_dap_clk"),
    (0x050, "gcc_apss_tcu_async_clk"), (0x051, "gcc_mdp_tbu_clk"), (0x052, "gcc_gfx_tbu_clk"),
    (0x053, "gcc_gfx_tcu_clk"), (0x054, "gcc_venus_tbu_clk"), (0x058, "gcc_gtcu_ahb_clk"),
    (0x05a, "gcc_vfe_tbu_clk"), (0x05b, "gcc_smmu_cfg_clk"), (0x05c, "gcc_jpeg_tbu_clk"),
    (0x060, "gcc_usb_hs_system_clk"), (0x061, "gcc_usb_hs_ahb_clk"), (0x063, "gcc_usb2a_phy_sleep_clk"),
    (0x064, "gcc_usb_hs_phy_cfg_ahb_clk"), (0x068, "gcc_sdcc1_apps_clk"), (0x069, "gcc_sdcc1_ahb_clk"),
    (0x06a, "gcc_sdcc1_ice_core_clk"), (0x070, "gcc_sdcc2_apps_clk"), (0x071, "gcc_sdcc2_ahb_clk"),
    (0x088, "gcc_blsp1_ahb_clk"), (0x08a, "gcc_blsp1_qup1_spi_apps_clk"), (0x08b, "gcc_blsp1_qup1_i2c_apps_clk"),
    (0x08c, "gcc_blsp1_uart1_apps_clk"), (0x08e, "gcc_blsp1_qup2_spi_apps_clk"), (0x090, "gcc_blsp1_qup2_i2c_apps_clk"),
    (0x091, "gcc_blsp1_uart2_apps_clk"), (0x093, "gcc_blsp1_qup3_spi_apps_clk"), (0x094, "gcc_blsp1_qup3_i2c_apps_clk"),
    (0x095, "gcc_blsp1_qup4_spi_apps_clk"), (0x096, "gcc_blsp1_qup4_i2c_apps_clk"), (0x098, "gcc_blsp2_ahb_clk"),
    (0x09a, "gcc_blsp2_qup1_spi_apps_clk"), (0x09b, "gcc_blsp2_qup1_i2c_apps_clk"), (0x09c, "gcc_blsp2_uart1_apps_clk"),
    (0x09e, "gcc_blsp2_qup2_spi_apps_clk"), (0x0a0, "gcc_blsp2_qup2_i2c_apps_clk"), (0x0a1, "gcc_blsp2_uart2_apps_clk"),
    (0x0a3, "gcc_blsp2_qup3_spi_apps_clk"), (0x0a4, "gcc_blsp2_qup3_i2c_apps_clk"), (0x0a5, "gcc_blsp2_qup4_spi_apps_clk"),
    (0x0a6, "gcc_blsp2_qup4_i2c_apps_clk"), (0x0a8, "gcc_camss_ahb_clk"), (0x0a9, "gcc_camss_top_ahb_clk"),
    (0x0aa, "gcc_camss_micro_ahb_clk"), (0x0ab, "gcc_camss_gp0_clk"), (0x0ac, "gcc_camss_gp1_clk"),
    (0x0ad, "gcc_camss_mclk0_clk"), (0x0ae, "gcc_camss_mclk1_clk"), (0x0af, "gcc_camss_cci_clk"),
    (0x0b0, "gcc_camss_cci_ahb_clk"), (0x0b1, "gcc_camss_csi0phytimer_clk"), (0x0b2, "gcc_camss_csi1phytimer_clk"),
    (0x0b3, "gcc_camss_jpeg0_clk"), (0x0b4, "gcc_camss_jpeg_ahb_clk"), (0x0b5, "gcc_camss_jpeg_axi_clk"),
    (0x0b8, "gcc_camss_vfe0_clk"), (0x0b9, "gcc_camss_cpp_clk"), (0x0ba, "gcc_camss_cpp_ahb_clk"),
    (0x0bb, "gcc_camss_vfe_ahb_clk"), (0x0bc, "gcc_camss_vfe_axi_clk"), (0x0bf, "gcc_camss_csi_vfe0_clk"),
    (0x0c0, "gcc_camss_csi0_clk"), (0x0c1, "gcc_camss_csi0_ahb_clk"), (0x0c2, "gcc_camss_csi0phy_clk"),
    (0x0c3, "gcc_camss_csi0rdi_clk"), (0x0c4, "gcc_camss_csi0pix_clk"), (0x0c5, "gcc_camss_csi1_clk"),
    (0x0c6, "gcc_camss_csi1_ahb_clk"), (0x0c7, "gcc_camss_csi1phy_clk"), (0x0d0, "gcc_pdm_ahb_clk"),
    (0x0d2, "gcc_pdm2_clk"), (0x0d8, "gcc_prng_ahb_clk"), (0x0dc, "gcc_camss_csi0_csiphy_3p_clk"),
    (0x0dd, "gcc_camss_csi1_csiphy_3p_clk"), (0x0de, "gcc_camss_csi2_csiphy_3p_clk"), (0x0e0, "gcc_camss_csi1rdi_clk"),
    (0x0e1, "gcc_camss_csi1pix_clk"), (0x0e2, "gcc_camss_ispif_ahb_clk"), (0x0e3, "gcc_camss_csi2_clk"),
    (0x0e4, "gcc_camss_csi2_ahb_clk"), (0x0e5, "gcc_camss_csi2phy_clk"), (0x0e6, "gcc_camss_csi2rdi_clk"),
    (0x0e7, "gcc_camss_csi2pix_clk"), (0x0e9, "gcc_cpp_tbu_clk"), (0x0f8, "gcc_boot_rom_ahb_clk"),
    (0x138, "gcc_crypto_clk"), (0x139, "gcc_crypto_axi_clk"), (0x13a, "gcc_crypto_ahb_clk"),
    (0x157, "gcc_bimc_gpu_clk"), (0x198, "gcc_ipa_tbu_clk"), (0x199, "gcc_vfe1_tbu_clk"),
    (0x1a0, "gcc_camss_csi_vfe1_clk"), (0x1a1, "gcc_camss_vfe1_clk"), (0x1a2, "gcc_camss_vfe1_ahb_clk"),
    (0x1a3, "gcc_camss_vfe1_axi_clk"), (0x1a4, "gcc_camss_cpp_axi_clk"), (0x1b8, "gcc_venus0_core0_vcodec0_clk"),
    (0x1b9, "gcc_dcc_clk"), (0x1bd, "gcc_camss_mclk2_clk"), (0x1e9, "gcc_oxili_timer_clk"),
    (0x1ea, "gcc_oxili_gfx3d_clk"), (0x0ee, "gcc_oxili_aon_clk"), (0x1eb, "gcc_oxili_ahb_clk"),
    (0x1f1, "gcc_venus0_vcodec0_clk"), (0x1f2, "gcc_venus0_axi_clk"), (0x1f3, "gcc_venus0_ahb_clk"),
    (0x1f6, "gcc_mdss_ahb_clk"), (0x1f7, "gcc_mdss_axi_clk"), (0x1f8, "gcc_mdss_pclk0_clk"),
    (0x1e3, "gcc_mdss_pclk1_clk"), (0x1f9, "gcc_mdss_mdp_clk"), (0x1fb, "gcc_mdss_vsync_clk"),
    (0x1fc, "gcc_mdss_byte0_clk"), (0x1e4, "gcc_mdss_byte1_clk"), (0x1fd, "gcc_mdss_esc0_clk"),
    (0x1e5, "gcc_mdss_esc1_clk"), (0x0ec, "wcnss_m_clk")
  ]

  /** gcc_debug_mux_parents. */
  const Table: seq<MuxItem> := seq(|Parents|, i requires 0 <= i < |Parents| => MuxItem(Parents[i].0, Parents[i].1, 0, 0, 0))

  // Register offsets from gcc_base, and values written (struct measure_clk_data debug_data).
  const MUX_REG: int := 0x74000
  const CTL_REG: int := 0x74004
  const STATUS_REG: int := 0x74008
  const PLLTEST_REG: int := 0x7400c
  const XO_DIV4_CBCR: int := 0x30034
  const PLLTEST_VAL: bv32 := 0x51a00

  const ENABLE_MASK: bv32 := 0x1_0000
  const CBCR_BRANCH_ENABLE: bv32 := 1
  const MEASURE_START: bv32 := 0x10_0000
  const SHORT_TICKS: bv32 := 0x1000
  const SAMPLE_TICKS: bv32 := 0x1_0000

  /** status & GENMASK(24, 0): the tick count of a status register value, its low 25 bits. */
  function Count(status: u32): (c: nat)
    ensures c < 0x200_0000
    ensures (status - c) % 0x200_0000 == 0
    ensures status < 0x200_0000 ==> c == status
  {
    status % 0x200_0000
  }

  /** The multiplier of an item: `mult` when set, else 1. */
  function Multiplier(item: MuxItem): (m: nat)
    ensures m >= 1
    ensures item.mult != 0 ==> m == item.mult
    ensures item.mult == 0 ==> m == 1
  {
    if item.mult != 0 then item.mult else 1
  }

  /** No row of the table sets mult, mux_addr or mux_val. */
  lemma TableDefaults(i: nat)
    requires i < |Table|
    ensures Multiplier(Table[i]) == 1 && Table[i].muxAddr == 0 && Table[i].muxVal == 0
  {
  }

  /** The divisor of the rate formula: sample_ticks * 10 + 35. */
  const RATE_DIVISOR: nat := 0x1_0000 * 10 + 35

  /**
   * The measured frequency in Hz: 0 when the short and full counts agree
   * (the clock is off), otherwise the full count scaled to Hz and multiplied.
   */
  function Rate(short: nat, full: nat, mult: nat): (hz: nat)
    ensures short == full ==> hz == 0
    ensures short != full ==> hz == Scaled(full) * mult
  {
    if full == short then 0
    else Scaled(full) * mult
  }

  /**
   * The full count in Hz before the multiplier: the largest q with
   * q * (sample_ticks * 10 + 35) <= (full * 10 + 15) * 4800000, which is
   * what do_div leaves in its dividend.
   */
  function Scaled(full: nat): (q: nat)
    ensures q * RATE_DIVISOR <= (full * 10 + 15) * 4800000 < (q + 1) * RATE_DIVISOR
  {
    (full * 10 + 15) * 4800000 / RATE_DIVISOR
  }

  /**
   * A count is at most 25 bits wide, so the intermediate product fits the
   * u64 the driver computes in, and the frequency stays below 2^63 for every
   * 16-bit multiplier: the -EOVERFLOW branch of gcc_debug_measure_named is
   * never taken.
   */
  lemma RateFits(short: nat, full: nat, mult: nat)
    requires full < 0x200_0000 && mult < 0x1_0000
    ensures (full * 10 + 15) * 4800000 < 0x1_0000_0000_0000_0000
    ensures Rate(short, full, mult) < 0x8000_0000_0000_0000
  {
    var q := Scaled(full);
    assert q <= (0x200_0000 * 10 + 15) * 4800000 / RATE_DIVISOR;
    assert q < 0x1_0000_0000;
    MulBound(q, mult, 0x1_0000_0000, 0x1_0000);
  }

  lemma MulBound(a: nat, b: nat, x: nat, y: nat)
    requires a < x && b < y
    ensures a * b < x * y
  {
    assert a * b <= a * y;
    assert a * y < x * y;
  }

  /** One MMIO access relative to gcc_base, in program order. */
  datatype Mmio = MmioRead(reg: int) | MmioWrite(reg: int, val: bv32)

  /**
   * The GCC register block.  `mapped` is whether gcc_base was set up; `regs`
   * holds the registers the measurement reads back; `log` every access.
   */
  class Gcc {
    const mapped: bool
    var regs: map<int, bv32>
    var log: seq<Mmio>

    ghost predicate Valid()
      reads this
    {
      MUX_REG in regs && XO_DIV4_CBCR in regs
    }

    constructor (mapped: bool, regs: map<int, bv32>)
      requires MUX_REG in regs && XO_DIV4_CBCR in regs
      ensures Valid() && this.mapped == mapped && this.regs == regs && log == []
    {
      this.mapped := mapped;
      this.regs := regs;
      log := [];
    }

    method Read(reg: int) returns (v: bv32)
      requires reg in regs
      modifies this
      ensures regs == old(regs) && v == regs[reg]
      ensures log == old(log) + [MmioRead(reg)]
    {
      log := log + [MmioRead(reg)];
      v := regs[reg];
    }

    method Write(reg: int, v: bv32)
      modifies this
      ensures regs == old(regs)[reg := v]
      ensures log == old(log) + [MmioWrite(reg, v)]
    {
      log := log + [MmioWrite(reg, v)];
      regs := regs[reg := v];
    }

    /**
     * run_measurement: load the tick count with the counter stopped, start
     * it, and return the 25-bit count of the status register once the
     * measurement is done.  The two busy-wait loops on bit 25 are not
     * modelled: `status` is the value the second loop exits with.
     */
    method RunMeasurement(ticks: bv32, status: u32) returns (count: nat)
      modifies this
      ensures count == Count(status)
      ensures regs == old(regs)[CTL_REG := SetBits(ticks, MEASURE_START)]
      ensures log == old(log) + [MmioWrite(CTL_REG, ticks), MmioWrite(CTL_REG, SetBits(ticks, MEASURE_START))]
    {
      Write(CTL_REG, ticks);
      Write(CTL_REG, SetBits(ticks, MEASURE_START));
      count := Count(status);
    }

    /**
     * gcc_debug_measure_clk: returns the status and the value written to
     * *val (None when it is left alone).  `statusShort` and `statusFull`
     * are the final status-register values of the two measurements;
     * `muxMapped` is whether ioremap of a per-item mux register succeeds.
     * On an item with a mux_addr (no table row has one) the value is written
     * to that register first; that write is not modelled.
     */
    method MeasureClk(item: MuxItem, muxMapped: bool, statusShort: u32, statusFull: u32)
      returns (ret: int, val: Option<nat>)
      requires Valid()
      modifies this
      ensures Valid()
      ensures item.muxAddr != 0 && !muxMapped ==> ret == 0 && val.None? && log == old(log) && regs == old(regs)
      ensures (item.muxAddr == 0 || muxMapped) && !mapped ==>
        ret == -EINVAL && val.None? && log == old(log) && regs == old(regs)
      ensures (item.muxAddr == 0 || muxMapped) && mapped ==>
        && ret == 0
        && val == Some(Rate(Count(statusShort), Count(statusFull), Multiplier(item)))
        && Measured(item.value, old(regs), old(log), regs, log)
    {
      if item.muxAddr != 0 && !muxMapped {
        // IS_ERR_OR_NULL on a NULL mapping: PTR_ERR(NULL) is 0.
        return 0, None;
      }
      if !mapped {
        return -EINVAL, None;
      }
      var hz := Measure(item, statusShort, statusFull);
      return 0, Some(hz);
    }

    /** The measurement proper, with gcc_base mapped. */
    method Measure(item: MuxItem, statusShort: u32, statusFull: u32) returns (hz: nat)
      requires Valid() && mapped
      modifies this
      ensures Valid()
      ensures hz == Rate(Count(statusShort), Count(statusFull), Multiplier(item))
      ensures Measured(item.value, old(regs), old(log), regs, log)
    {
      ghost var cbcr0 := regs[XO_DIV4_CBCR];
      var xo4, short, full := Sample(item.value, statusShort, statusFull);
      hz := Rate(short, full, Multiplier(item));
      Finish(item.value, xo4);
      MuxRestored(item.value);
      BranchRestored(cbcr0);
    }

    /**
     * The second half: disable the XO/4 branch again, restore the PLL test
     * register and release the mux.
     */
    method Finish(value: Sel16, xo4: bv32)
      requires Valid() && regs[MUX_REG] == SetBits(value, ENABLE_MASK)
      modifies this
      ensures Valid()
      ensures regs == old(regs)[XO_DIV4_CBCR := ClearBits(xo4, CBCR_BRANCH_ENABLE)][PLLTEST_REG := PLLTEST_VAL]
                               [MUX_REG := ClearBits(SetBits(value, ENABLE_MASK), ENABLE_MASK)]
      ensures log == old(log) + FinishLog(value, xo4)
    {
      Write(XO_DIV4_CBCR, ClearBits(xo4, CBCR_BRANCH_ENABLE));
      Write(PLLTEST_REG, PLLTEST_VAL);
      ReleaseMux();
    }

    /**
     * The first half of a measurement: select the clock, enable the XO/4
     * branch and run the short and the full measurement.
     */
    method Sample(value: Sel16, statusShort: u32, statusFull: u32) returns (xo4: bv32, short: nat, full: nat)
      requires Valid()
      modifies this
      ensures Valid()
      ensures xo4 == SetBits(old(regs)[XO_DIV4_CBCR], CBCR_BRANCH_ENABLE)
      ensures short == Count(statusShort) && full == Count(statusFull)
      ensures regs == old(regs)[MUX_REG := SetBits(value, ENABLE_MASK)][XO_DIV4_CBCR := xo4]
                              [CTL_REG := SetBits(SAMPLE_TICKS, MEASURE_START)]
      ensures log == old(log) + SampleLog(value, old(regs)[XO_DIV4_CBCR])
    {
      SelectClock(value);
      xo4 := EnableBranch();
      short := RunMeasurement(SHORT_TICKS, statusShort);
      full := RunMeasurement(SAMPLE_TICKS, statusFull);
    }

    /** Route the clock to the debug mux with the enable bit set; the value read first is discarded. */
    method SelectClock(value: Sel16)
      requires Valid()
      modifies this
      ensures Valid()
      ensures regs == old(regs)[MUX_REG := SetBits(value, ENABLE_MASK)]
      ensures log == old(log) + [MmioRead(MUX_REG), MmioWrite(MUX_REG, SetBits(value, ENABLE_MASK))]
    {
      var regval := Read(MUX_REG);
      regval := SetBits(value, ENABLE_MASK);
      Write(MUX_REG, regval);
    }

    /** Set bit 0 of the XO/4 CBCR, keeping the others; the value written is returned. */
    method EnableBranch() returns (xo4: bv32)
      requires Valid()
      modifies this
      ensures Valid()
      ensures xo4 == SetBits(old(regs)[XO_DIV4_CBCR], CBCR_BRANCH_ENABLE)
      ensures regs == old(regs)[XO_DIV4_CBCR := xo4]
      ensures log == old(log) + [MmioRead(XO_DIV4_CBCR), MmioWrite(XO_DIV4_CBCR, xo4)]
    {
      xo4 := Read(XO_DIV4_CBCR);
      xo4 := SetBits(xo4, CBCR_BRANCH_ENABLE);
      Write(XO_DIV4_CBCR, xo4);
    }

    /** Read the mux back and clear its enable bit, keeping the others. */
    method ReleaseMux()
      requires Valid()
      modifies this
      ensures Valid()
      ensures regs == old(regs)[MUX_REG := ClearBits(old(regs)[MUX_REG], ENABLE_MASK)]
      ensures log == old(log) + [MmioRead(MUX_REG), MmioWrite(MUX_REG, ClearBits(old(regs)[MUX_REG], ENABLE_MASK))]
    {
      var regval := Read(MUX_REG);
      regval := ClearBits(regval, ENABLE_MASK);
      Write(MUX_REG, regval);
    }
  }

  /**
   * The accesses and final registers of one measurement: the mux selects
   * the clock with the enable bit set and ends with only the select value;
   * the CBCR ends with bit 0 clear and its other bits as they were read.
   */
  ghost predicate Measured(value: Sel16, regs0: map<int, bv32>, log0: seq<Mmio>, regs: map<int, bv32>, log: seq<Mmio>)
    requires XO_DIV4_CBCR in regs0
  {
    var cbcr := regs0[XO_DIV4_CBCR];
    && log == log0 + MeasureLog(value, cbcr)
    && regs == regs0[MUX_REG := value][XO_DIV4_CBCR := ClearBits(cbcr, CBCR_BRANCH_ENABLE)]
                    [CTL_REG := SetBits(SAMPLE_TICKS, MEASURE_START)][PLLTEST_REG := PLLTEST_VAL]
  }

  /** The MMIO accesses of one measurement, given the mux value and the CBCR read back. */
  function MeasureLog(value: Sel16, cbcr: bv32): (ops: seq<Mmio>)
    ensures |ops| == 12
    ensures ops[1] == MmioWrite(MUX_REG, SetBits(value, ENABLE_MASK))
    ensures ops[11] == MmioWrite(MUX_REG, value)
    ensures ops[8] == MmioWrite(XO_DIV4_CBCR, ClearBits(cbcr, CBCR_BRANCH_ENABLE))
  {
    MuxRestored(value);
    BranchRestored(cbcr);
    SampleLog(value, cbcr) + FinishLog(value, SetBits(cbcr, CBCR_BRANCH_ENABLE))
  }

  /** Selecting the clock, enabling the branch and the two counter runs. */
  function SampleLog(value: Sel16, cbcr: bv32): (ops: seq<Mmio>)
    ensures |ops| == 8
  {
    [ MmioRead(MUX_REG), MmioWrite(MUX_REG, SetBits(value, ENABLE_MASK)),
      MmioRead(XO_DIV4_CBCR), MmioWrite(XO_DIV4_CBCR, SetBits(cbcr, CBCR_BRANCH_ENABLE)),
      MmioWrite(CTL_REG, SHORT_TICKS), MmioWrite(CTL_REG, SetBits(SHORT_TICKS, MEASURE_START)),
      MmioWrite(CTL_REG, SAMPLE_TICKS), MmioWrite(CTL_REG, SetBits(SAMPLE_TICKS, MEASURE_START)) ]
  }

  /** Disabling the branch, restoring the PLL test register and releasing the mux. */
  function FinishLog(value: Sel16, xo4: bv32): (ops: seq<Mmio>)
    ensures |ops| == 4
  {
    [ MmioWrite(XO_DIV4_CBCR, ClearBits(xo4, CBCR_BRANCH_ENABLE)), MmioWrite(PLLTEST_REG, PLLTEST_VAL),
      MmioRead(MUX_REG), MmioWrite(MUX_REG, ClearBits(SetBits(value, ENABLE_MASK), ENABLE_MASK)) ]
  }

  /** Setting then clearing the enable bit gives back the 16-bit select value. */
  lemma MuxRestored(value: Sel16)
    ensures ClearBits(SetBits(value, ENABLE_MASK), ENABLE_MASK) == value
  {
  }

  /** Setting then clearing bit 0 of the CBCR keeps its other bits and leaves bit 0 clear, whatever it was. */
  lemma BranchRestored(cbcr: bv32)
    ensures ClearBits(SetBits(cbcr, CBCR_BRANCH_ENABLE), CBCR_BRANCH_ENABLE) == ClearBits(cbcr, CBCR_BRANCH_ENABLE)
  {
  }

  /** The index of the first table row called `name`, or None. */
  method IndexOfName(name: string) returns (r: Option<nat>)
    ensures r.Some? ==> r.value < |Table| && Table[r.value].name == name
    ensures r.Some? ==> forall j :: 0 <= j < r.value ==> Table[j].name != name
    ensures r.None? <==> forall j :: 0 <= j < |Table| ==> Table[j].name != name
  {
    for i := 0 to |Table|
      invariant forall j :: 0 <= j < i ==> Table[j].name != name
    {
      if Table[i].name == name {
        return Some(i);
      }
    }
    return None;
  }

  /** The u64 *val reinterpreted as the int64_t freq of gcc_debug_measure_named. */
  function AsS64(v: nat): (f: int)
    requires v < 0x1_0000_0000_0000_0000
    ensures f < 0 <==> v >= 0x8000_0000_0000_0000
    ensures f >= 0 ==> f == v
    ensures (v - f) % 0x1_0000_0000_0000_0000 == 0
  {
    if v >= 0x8000_0000_0000_0000 then v - 0x1_0000_0000_0000_0000 else v
  }

  /**
   * What gcc_debug_measure_named returns for a found name as the code is
   * written: freq starts at 0 and is only overwritten by a successful
   * measurement, and the status of gcc_debug_measure_clk is not looked at.
   */
  function NamedResultAsWritten(clkRet: int, val: Option<nat>): (r: int)
    requires val.Some? ==> val.value < 0x1_0000_0000_0000_0000
    ensures val.None? ==> r == 0
    ensures val.Some? && val.value < 0x8000_0000_0000_0000 ==> r == val.value
    ensures val.Some? && val.value >= 0x8000_0000_0000_0000 ==> r == -EOVERFLOW
  {
    var freq := if val.Some? then AsS64(val.value) else 0;
    if freq < 0 then -EOVERFLOW else freq
  }

  /** A failed measurement (gcc_base unmapped) reads as a clock of 0 Hz. */
  lemma UnmappedReadsZero()
    ensures NamedResultAsWritten(-EINVAL, None) == 0
  {
  }

  /**
   * The result of a found name with the error of gcc_debug_measure_clk
   * passed on, the value the function's other error returns call for.
   */
  function NamedResult(clkRet: int, val: Option<nat>): (r: int)
    requires val.Some? ==> val.value < 0x1_0000_0000_0000_0000
    ensures clkRet < 0 ==> r == clkRet
    ensures clkRet >= 0 ==> r == NamedResultAsWritten(clkRet, val)
    ensures r >= 0 ==> clkRet >= 0
  {
    if clkRet < 0 then clkRet else NamedResultAsWritten(clkRet, val)
  }

  /**
   * Given that gcc_debug_measure_clk leaves *val alone whenever it fails,
   * the two differ exactly when the measurement fails.
   */
  lemma NamedResultAgrees(clkRet: int, val: Option<nat>)
    requires val.Some? ==> val.value < 0x1_0000_0000_0000_0000
    requires clkRet < 0 ==> val.None?
    ensures NamedResult(clkRet, val) != NamedResultAsWritten(clkRet, val) <==> clkRet < 0
  {
  }

  /**
   * Every row measured successfully yields its rate: the -EOVERFLOW branch
   * is never taken for the table.
   */
  lemma {:induction false} TableRateReturned(i: nat, statusShort: u32, statusFull: u32)
    requires i < |Table|
    ensures Rate(Count(statusShort), Count(statusFull), Multiplier(Table[i])) < 0x8000_0000_0000_0000
    ensures NamedResult(0, Some(Rate(Count(statusShort), Count(statusFull), Multiplier(Table[i]))))
            == Rate(Count(statusShort), Count(statusFull), Multiplier(Table[i]))
  {
    TableDefaults(i);
    RateFits(Count(statusShort), Count(statusFull), 1);
  }

  /**
   * gcc_debug_measure_named: -EINVAL without a name, -ENOENT when no row
   * has it, otherwise the measurement of the first row that does.
   */
  method MeasureNamed(gcc: Gcc, name: Option<string>, muxMapped: bool, statusShort: u32, statusFull: u32)
    returns (ret: int)
    requires gcc.Valid()
    modifies gcc
    ensures gcc.Valid()
    ensures name.None? ==> ret == -EINVAL && gcc.log == old(gcc.log)
    ensures name.Some? && (forall j :: 0 <= j < |Table| ==> Table[j].name != name.value) ==>
      ret == -ENOENT && gcc.log == old(gcc.log)
    ensures name.Some? && !gcc.mapped ==> ret < 0 && gcc.log == old(gcc.log)
    ensures ret == -ENOENT <==> name.Some? && forall j :: 0 <= j < |Table| ==> Table[j].name != name.value
    ensures name.Some? && (exists j :: 0 <= j < |Table| && Table[j].name == name.value) ==>
      if gcc.mapped then ret == Rate(Count(statusShort), Count(statusFull), 1)
      else ret == -EINVAL
    ensures ret >= 0 ==>
      exists i ::
        && 0 <= i < |Table| && Table[i].name == name.value
        && (forall j :: 0 <= j < i ==> Table[j].name != name.value)
        && (gcc.mapped ==> ret == Rate(Count(statusShort), Count(statusFull), 1))
        && (gcc.mapped ==> Measured(Table[i].value, old(gcc.regs), old(gcc.log), gcc.regs, gcc.log))
  {
    if name.None? {
      return -EINVAL;
    }
    var found := IndexOfName(name.value);
    if found.None? {
      return -ENOENT;
    }
    var i := found.value;
    TableDefaults(i);
    var clkRet, val := gcc.MeasureClk(Table[i], muxMapped, statusShort, statusFull);
    if val.Some? {
      TableRateReturned(i, statusShort, statusFull);
      RateFits(Count(statusShort), Count(statusFull), 1);
    }
    ret := NamedResult(clkRet, val);
  }
}
