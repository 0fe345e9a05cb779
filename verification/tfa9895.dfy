/**
 * NXP TFA9895 smart amplifier codec.  The device is a file of 16-bit
 * registers addressed by 8-bit numbers, reached over I2C without a cache;
 * the driver programs the I2S sample-rate field, bypasses the on-chip DSP
 * and, at probe, checks the revision before writing its init sequence.
 */
module Tfa9895 {
  import opened Kernel

  const TFA98XX_REVISIONNUMBER: u8 := 0x03
  const TFA98XX_I2SREG: u8 := 0x04
  const TFA98XX_BAT_PROT: u8 := 0x05
  const TFA98XX_AUDIO_CTR: u8 := 0x06
  const TFA98XX_SPKR_CALIBRATION: u8 := 0x08
  const TFA98XX_SYS_CTRL: u8 := 0x09

  /** CHSA, bits 7..6 of I2SREG: channel selection for the amplifier input. */
  const TFA98XX_I2SREG_CHSA: bv16 := 0x3 << 6
  /** I2SSR, bits 15..12 of I2SREG: the sample-rate code. */
  const TFA98XX_I2SREG_I2SSR_MASK: bv16 := 0xf000
  const TFA98XX_SYS_CTRL_CFE: bv16 := 0x1 << 2
  const TFA98XX_SYS_CTRL_AMPC: bv16 := 0x1 << 6

  const TFA9895_REVISION: bv16 := 0x12

  /** The rates the I2SSR field encodes, code n at index n. */
  const SupportedRates: seq<int> := [8000, 11025, 12000, 16000, 22050, 24000, 32000, 44100, 48000]

  /** The switch of tfa9895_hw_params: the I2SSR value for a sample rate, or none. */
  function RateField(rate: int): (sr: Option<bv16>)
    ensures sr.Some? <==> rate in SupportedRates
    ensures sr.Some? ==> sr.value & !TFA98XX_I2SREG_I2SSR_MASK == 0
    ensures sr.Some? ==> sr.value & TFA98XX_I2SREG_I2SSR_MASK == sr.value
  {
    match rate
    case 8000 => Some(0 << 12)
    case 11025 => Some(1 << 12)
    case 12000 => Some(2 << 12)
    case 16000 => Some(3 << 12)
    case 22050 => Some(4 << 12)
    case 24000 => Some(5 << 12)
    case 32000 => Some(6 << 12)
    case 44100 => Some(7 << 12)
    case 48000 => Some(8 << 12)
    case _ => None
  }

  /** The rates map to the codes 0 .. 8 in table order, so distinct rates get distinct codes. */
  lemma RateFieldCodes(n: nat)
    requires n < |SupportedRates|
    ensures RateField(SupportedRates[n]) == Some((n as bv16) << 12)
  {
  }

  lemma RateFieldInjective(r1: int, r2: int)
    requires RateField(r1).Some? && RateField(r1) == RateField(r2)
    ensures r1 == r2
  {
  }

  /** (orig & ~mask) | (val & mask): the register value after a masked update. */
  function Masked(orig: bv16, mask: bv16, val: bv16): (r: bv16)
    ensures r & !mask == orig & !mask
    ensures r & mask == val & mask
  {
    (orig & !mask) | (val & mask)
  }

  /** One register access on the bus. */
  datatype Access = RegRead(reg: u8) | RegWrite(reg: u8, val: bv16)

  /**
   * The accesses of a regmap_update_bits issued as access number k on a
   * register holding `orig`: the read, then the write of the masked value
   * only when the read succeeded and the value changes.
   */
  function UpdateAccesses(reg: u8, orig: bv16, mask: bv16, val: bv16, k: nat, outcome: nat -> int): (xs: seq<Access>)
    ensures 1 <= |xs| <= 2 && xs[0] == RegRead(reg)
    ensures |xs| == 2 <==> outcome(k) >= 0 && Masked(orig, mask, val) != orig
    ensures |xs| == 2 ==> xs[1] == RegWrite(reg, Masked(orig, mask, val))
  {
    if outcome(k) < 0 || Masked(orig, mask, val) == orig then [RegRead(reg)]
    else [RegRead(reg), RegWrite(reg, Masked(orig, mask, val))]
  }

  /**
   * What that regmap_update_bits returns: the read's error, else 0 when the
   * value does not change, else the write's result.
   */
  function UpdateStatus(orig: bv16, mask: bv16, val: bv16, k: nat, outcome: nat -> int): (r: int)
    ensures r <= 0
    ensures r < 0 <==> outcome(k) < 0 || (Masked(orig, mask, val) != orig && outcome(k + 1) < 0)
    ensures r < 0 ==> r == outcome(k) || r == outcome(k + 1)
  {
    if outcome(k) < 0 then outcome(k)
    else if Masked(orig, mask, val) == orig then 0
    else if outcome(k + 1) < 0 then outcome(k + 1)
    else 0
  }

  /** The register writes of a sequence, in order. */
  function Writes(seqn: seq<(u8, bv16)>): (xs: seq<Access>)
    ensures |xs| == |seqn|
    ensures forall k :: 0 <= k < |seqn| ==> xs[k] == RegWrite(seqn[k].0, seqn[k].1)
  {
    if seqn == [] then [] else Writes(seqn[..|seqn| - 1]) + [RegWrite(seqn[|seqn| - 1].0, seqn[|seqn| - 1].1)]
  }

  /** The register file after the writes of a sequence, first to last. */
  function Apply(regs: seq<bv16>, seqn: seq<(u8, bv16)>): (r: seq<bv16>)
    requires |regs| == 0x100
    ensures |r| == 0x100
    ensures seqn != [] ==> r[seqn[|seqn| - 1].0] == seqn[|seqn| - 1].1
  {
    if seqn == [] then regs
    else
      var last := seqn[|seqn| - 1];
      Apply(regs, seqn[..|seqn| - 1])[last.0 := last.1]
  }

  /**
   * The regmap over the I2C client.  `regs` is the device's register file;
   * `log` every access issued.  Access k fails with `outcome(k)` when that is
   * negative, and then changes nothing on the device.
   */
  class Regmap {
    var regs: seq<bv16>
    var log: seq<Access>
    const outcome: nat -> int

    ghost predicate Valid()
      reads this
    {
      |regs| == 0x100
    }

    constructor (regs: seq<bv16>, outcome: nat -> int)
      requires |regs| == 0x100
      ensures Valid() && this.regs == regs && log == [] && this.outcome == outcome
    {
      this.regs := regs;
      log := [];
      this.outcome := outcome;
    }

    /** regmap_read: 0 and the register's value, or the bus error. */
    method Read(reg: u8) returns (ret: int, val: bv16)
      requires Valid()
      modifies this
      ensures Valid() && regs == old(regs)
      ensures log == old(log) + [RegRead(reg)]
      ensures ret == if outcome(|old(log)|) < 0 then outcome(|old(log)|) else 0
      ensures ret == 0 ==> val == regs[reg]
    {
      var k := |log|;
      log := log + [RegRead(reg)];
      if outcome(k) < 0 {
        return outcome(k), 0;
      }
      return 0, regs[reg];
    }

    /** regmap_write: 0 with the register updated, or the bus error with nothing changed. */
    method Write(reg: u8, val: bv16) returns (ret: int)
      requires Valid()
      modifies this
      ensures Valid()
      ensures log == old(log) + [RegWrite(reg, val)]
      ensures ret == if outcome(|old(log)|) < 0 then outcome(|old(log)|) else 0
      ensures regs == if ret == 0 then old(regs)[reg := val] else old(regs)
    {
      var k := |log|;
      log := log + [RegWrite(reg, val)];
      if outcome(k) < 0 {
        return outcome(k);
      }
      regs := regs[reg := val];
      ret := 0;
    }

    /**
     * regmap_update_bits: read, compute the masked value, and write it back
     * only when it differs.  `changed` tells whether a write was issued and
     * succeeded.
     */
    method UpdateBits(reg: u8, mask: bv16, val: bv16) returns (ret: int, changed: bool)
      requires Valid()
      modifies this
      ensures Valid() && ret <= 0
      ensures ret == UpdateStatus(old(regs)[reg], mask, val, |old(log)|, outcome)
      ensures log == old(log) + UpdateAccesses(reg, old(regs)[reg], mask, val, |old(log)|, outcome)
      ensures var k := |old(log)|;
        var orig := old(regs)[reg];
        var updated := Masked(orig, mask, val);
        if outcome(k) < 0 then
          ret == outcome(k) && !changed && log == old(log) + [RegRead(reg)] && regs == old(regs)
        else if updated == orig then
          ret == 0 && !changed && log == old(log) + [RegRead(reg)] && regs == old(regs)
        else
          && log == old(log) + [RegRead(reg), RegWrite(reg, updated)]
          && ret == (if outcome(k + 1) < 0 then outcome(k + 1) else 0)
          && changed == (ret == 0)
          && regs == if ret == 0 then old(regs)[reg := updated] else old(regs)
    {
      var orig;
      ret, orig := Read(reg);
      if ret != 0 {
        return ret, false;
      }
      var updated := Masked(orig, mask, val);
      if updated == orig {
        return 0, false;
      }
      ret := Write(reg, updated);
      changed := ret == 0;
    }

    /**
     * regmap_multi_reg_write: the writes of `seqn` in order, returning at the
     * first failure.
     */
    method MultiRegWrite(seqn: seq<(u8, bv16)>) returns (ret: int)
      requires Valid()
      modifies this
      ensures Valid()
      ensures var s := |old(log)|;
        && log == old(log) + Writes(seqn[..Attempted(|seqn|, s, outcome)])
        && regs == Apply(old(regs), seqn[..FirstFailure(|seqn|, s, outcome)])
        && ret == SequenceStatus(|seqn|, s, outcome)
    {
      ghost var l0, r0 := log, regs;
      var s := |log|;
      for i := 0 to |seqn|
        invariant Valid()
        invariant log == l0 + Writes(seqn[..i])
        invariant regs == Apply(r0, seqn[..i])
        invariant forall j :: s <= j < s + i ==> outcome(j) >= 0
      {
        ret := WriteEntry(seqn, i, l0, r0);
        if ret != 0 {
          StopsAt(|seqn|, s, outcome, i);
          return;
        }
      }
      RunsThrough(|seqn|, s, outcome);
      assert seqn[..|seqn|] == seqn;
      ret := 0;
    }

    /** The write of entry i of a sequence whose earlier entries were written from `l0` and `r0` on. */
    method WriteEntry(seqn: seq<(u8, bv16)>, i: nat, ghost l0: seq<Access>, ghost r0: seq<bv16>) returns (ret: int)
      requires Valid() && |r0| == 0x100 && i < |seqn|
      requires log == l0 + Writes(seqn[..i]) && regs == Apply(r0, seqn[..i])
      modifies this
      ensures Valid()
      ensures ret == if outcome(|old(log)|) < 0 then outcome(|old(log)|) else 0
      ensures log == l0 + Writes(seqn[..i + 1])
      ensures regs == if ret == 0 then Apply(r0, seqn[..i + 1]) else old(regs)
    {
      ret := Write(seqn[i].0, seqn[i].1);
      WritesStep(seqn, i);
      ApplyStep(r0, seqn, i);
    }
  }

  /** Writing one more entry of a sequence logs one more write. */
  lemma WritesStep(seqn: seq<(u8, bv16)>, k: nat)
    requires k < |seqn|
    ensures Writes(seqn[..k + 1]) == Writes(seqn[..k]) + [RegWrite(seqn[k].0, seqn[k].1)]
  {
    assert seqn[..k + 1][..k] == seqn[..k];
  }

  /** tfa9895_reg_init: values for optimal amplifier behaviour, DCA cleared in SYS_CTRL. */
  const RegInit: seq<(u8, bv16)> := [
    (TFA98XX_BAT_PROT, 0x13ab),
    (TFA98XX_AUDIO_CTR, 0x001f),
    (TFA98XX_SPKR_CALIBRATION, 0x3c4e),
    (TFA98XX_SYS_CTRL, 0x024d),
    (0x41, 0x0308),
    (0x49, 0x0e82)
  ]

  /** The registers the init sequence or the bypass touches. */
  const InitRegisters: set<int> := {4, 5, 6, 8, 9, 0x41, 0x49}

  /** The register file once the DSP is bypassed: CHSA, CFE and AMPC clear. */
  function Bypassed(regs: seq<bv16>): (r: seq<bv16>)
    requires |regs| == 0x100
    ensures |r| == 0x100
    ensures r[TFA98XX_I2SREG] & TFA98XX_I2SREG_CHSA == 0
    ensures r[TFA98XX_SYS_CTRL] & (TFA98XX_SYS_CTRL_CFE | TFA98XX_SYS_CTRL_AMPC) == 0
    ensures forall i :: 0 <= i < 0x100 && i != TFA98XX_I2SREG && i != TFA98XX_SYS_CTRL ==> r[i] == regs[i]
  {
    regs[TFA98XX_I2SREG := Masked(regs[TFA98XX_I2SREG], TFA98XX_I2SREG_CHSA, 0)]
        [TFA98XX_SYS_CTRL := Masked(regs[TFA98XX_SYS_CTRL], TFA98XX_SYS_CTRL_CFE | TFA98XX_SYS_CTRL_AMPC, 0)]
  }

  /** Writing one more entry of a sequence updates one more register. */
  lemma ApplyStep(regs: seq<bv16>, seqn: seq<(u8, bv16)>, k: nat)
    requires |regs| == 0x100 && k < |seqn|
    ensures Apply(regs, seqn[..k + 1]) == Apply(regs, seqn[..k])[seqn[k].0 := seqn[k].1]
  {
    assert seqn[..k + 1][..k] == seqn[..k];
  }

  /** The value the last write to `reg` in a sequence stores, if any. */
  function LastWrite(seqn: seq<(u8, bv16)>, reg: int): (v: Option<bv16>)
    ensures v.None? <==> forall k :: 0 <= k < |seqn| ==> seqn[k].0 as int != reg
    ensures v.Some? ==> exists k :: && 0 <= k < |seqn| && seqn[k].0 as int == reg && seqn[k].1 == v.value
                                     && forall j :: k < j < |seqn| ==> seqn[j].0 as int != reg
  {
    if seqn == [] then None
    else if seqn[|seqn| - 1].0 as int == reg then Some(seqn[|seqn| - 1].1)
    else
      var front := seqn[..|seqn| - 1];
      var w := LastWrite(front, reg);
      assert w.Some? ==> exists k :: && 0 <= k < |seqn| && seqn[k].0 as int == reg && seqn[k].1 == w.value
                                     && forall j :: k < j < |seqn| ==> seqn[j].0 as int != reg by {
        if w.Some? {
          var k :| && 0 <= k < |front| && front[k].0 as int == reg && front[k].1 == w.value
                   && forall j :: k < j < |front| ==> front[j].0 as int != reg;
          assert seqn[k] == front[k];
          forall j | k < j < |seqn|
            ensures seqn[j].0 as int != reg
          {
            if j < |front| {
              assert seqn[j] == front[j];
            }
          }
        }
      }
      assert w.None? ==> forall k :: 0 <= k < |seqn| ==> seqn[k].0 as int != reg by {
        forall k | 0 <= k < |front|
          ensures seqn[k] == front[k]
        {
        }
      }
      w
  }

  /** Each register ends up holding its last write, or its old value when never written. */
  lemma {:induction false} ApplyAt(regs: seq<bv16>, seqn: seq<(u8, bv16)>, reg: int)
    requires |regs| == 0x100 && 0 <= reg < 0x100
    ensures Apply(regs, seqn)[reg] == match LastWrite(seqn, reg) case Some(v) => v case None => regs[reg]
  {
    if seqn != [] {
      ApplyAt(regs, seqn[..|seqn| - 1], reg);
    }
  }

  /** A write that no later entry overrides is the last one. */
  lemma LastWriteAt(seqn: seq<(u8, bv16)>, k: nat)
    requires k < |seqn|
    requires forall j :: k < j < |seqn| ==> seqn[j].0 != seqn[k].0
    ensures LastWrite(seqn, seqn[k].0 as int) == Some(seqn[k].1)
  {
  }

  /** The init sequence writes six distinct registers, so each keeps its init value. */
  lemma InitValueAt(regs: seq<bv16>, k: nat)
    requires |regs| == 0x100 && k < |RegInit|
    ensures Apply(regs, RegInit)[RegInit[k].0] == RegInit[k].1
  {
    LastWriteAt(RegInit, k);
    ApplyAt(regs, RegInit, RegInit[k].0 as int);
  }

  /** A register outside the init sequence keeps its value. */
  lemma InitUntouched(regs: seq<bv16>, i: int)
    requires |regs| == 0x100 && 0 <= i < 0x100 && (i == TFA98XX_I2SREG as int || i !in InitRegisters)
    ensures Apply(regs, RegInit)[i] == regs[i]
  {
    assert LastWrite(RegInit, i) == None;
    ApplyAt(regs, RegInit, i);
  }

  /**
   * After a successful probe the init values are in place, except that
   * SYS_CTRL has CFE and AMPC cleared (0x024d & ~0x0044 == 0x0209), I2SREG
   * has CHSA cleared, and every other register is as before.
   */
  lemma ProbedRegisters(regs: seq<bv16>)
    requires |regs| == 0x100
    ensures var r := Bypassed(Apply(regs, RegInit));
      && r[TFA98XX_SYS_CTRL] == 0x0209
      && r[TFA98XX_BAT_PROT] == 0x13ab && r[TFA98XX_AUDIO_CTR] == 0x001f
      && r[TFA98XX_SPKR_CALIBRATION] == 0x3c4e
      && r[0x41] == 0x0308 && r[0x49] == 0x0e82
      && r[TFA98XX_I2SREG] == Masked(regs[TFA98XX_I2SREG], TFA98XX_I2SREG_CHSA, 0)
      && forall i :: 0 <= i < 0x100 && i !in InitRegisters ==> r[i] == regs[i]
  {
    ghost var a := Apply(regs, RegInit);
    InitValueAt(regs, 0);
    InitValueAt(regs, 1);
    InitValueAt(regs, 2);
    InitValueAt(regs, 3);
    InitValueAt(regs, 4);
    InitValueAt(regs, 5);
    InitUntouched(regs, TFA98XX_I2SREG as int);
    assert Masked(0x024d, TFA98XX_SYS_CTRL_CFE | TFA98XX_SYS_CTRL_AMPC, 0) == 0x0209;
    forall i | 0 <= i < 0x100 && i !in InitRegisters
      ensures a[i] == regs[i]
    {
      InitUntouched(regs, i);
    }
  }

  /** The codec as probe leaves it: its regmap. */
  class Codec {
    const regmap: Regmap

    constructor (regmap: Regmap)
      ensures this.regmap == regmap
    {
      this.regmap := regmap;
    }

    /**
     * snd_soc_component_update_bits: the regmap update's error, else 1 if
     * the register changed and 0 if it already held the value.
     */
    method ComponentUpdateBits(reg: u8, mask: bv16, val: bv16) returns (ret: int)
      requires regmap.Valid()
      modifies regmap
      ensures regmap.Valid() && ret <= 1
      ensures var k := |old(regmap.log)|;
        var orig := old(regmap.regs)[reg];
        var status := UpdateStatus(orig, mask, val, k, regmap.outcome);
        && regmap.log == old(regmap.log) + UpdateAccesses(reg, orig, mask, val, k, regmap.outcome)
        && ret == if status < 0 then status else if Masked(orig, mask, val) != orig then 1 else 0
      ensures regmap.regs == if ret >= 0 then old(regmap.regs)[reg := Masked(old(regmap.regs)[reg], mask, val)]
                             else old(regmap.regs)
      ensures ret == 1 <==> regmap.regs != old(regmap.regs)
    {
      var changed;
      ret, changed := regmap.UpdateBits(reg, mask, val);
      if ret < 0 {
        return;
      }
      ret := if changed then 1 else 0;
    }

    /**
     * tfa9895_hw_params: an unsupported rate is refused with -EINVAL before
     * any register access; otherwise the I2SREG update's result is returned,
     * I2SSR takes the rate's code and every other bit of every register is
     * preserved.
     */
    method HwParams(rate: int) returns (ret: int)
      requires regmap.Valid()
      modifies regmap
      ensures regmap.Valid() && ret <= 1
      ensures RateField(rate).None? ==>
        ret == -EINVAL && regmap.regs == old(regmap.regs) && regmap.log == old(regmap.log)
      ensures RateField(rate).Some? ==>
        var k := |old(regmap.log)|;
        var status := UpdateStatus(old(regmap.regs)[TFA98XX_I2SREG], TFA98XX_I2SREG_I2SSR_MASK, RateField(rate).value, k, regmap.outcome);
        && regmap.log == old(regmap.log) + UpdateAccesses(TFA98XX_I2SREG, old(regmap.regs)[TFA98XX_I2SREG],
                                                          TFA98XX_I2SREG_I2SSR_MASK, RateField(rate).value, k, regmap.outcome)
        && (ret < 0 <==> status < 0)
        && (ret < 0 ==> ret == status)
      ensures RateField(rate).Some? && ret >= 0 ==>
        var i2s := regmap.regs[TFA98XX_I2SREG];
        && i2s & TFA98XX_I2SREG_I2SSR_MASK == RateField(rate).value
        && i2s & !TFA98XX_I2SREG_I2SSR_MASK == old(regmap.regs)[TFA98XX_I2SREG] & !TFA98XX_I2SREG_I2SSR_MASK
        && regmap.regs == old(regmap.regs)[TFA98XX_I2SREG := i2s]
      ensures ret < 0 ==> regmap.regs == old(regmap.regs)
    {
      var sr := RateField(rate);
      if sr.None? {
        return -EINVAL;
      }
      ghost var orig := regmap.regs[TFA98XX_I2SREG];
      ret := ComponentUpdateBits(TFA98XX_I2SREG, TFA98XX_I2SREG_I2SSR_MASK, sr.value);
      if ret >= 0 {
        ghost var i2s := Masked(orig, TFA98XX_I2SREG_I2SSR_MASK, sr.value);
        assert regmap.regs[TFA98XX_I2SREG] == i2s;
        assert i2s & TFA98XX_I2SREG_I2SSR_MASK == sr.value;
      }
    }
  }

  /** CFE | AMPC: the SYS_CTRL bits tfa9895_dsp_bypass clears. */
  const TFA98XX_SYS_CTRL_DSP: bv16 := TFA98XX_SYS_CTRL_CFE | TFA98XX_SYS_CTRL_AMPC

  /** The result of tfa9895_dsp_bypass's first update, the one of I2SREG, issued as access k. */
  function ChsaStatus(regs: seq<bv16>, k: nat, outcome: nat -> int): (r: int)
    requires |regs| == 0x100
    ensures r <= 0
  {
    UpdateStatus(regs[TFA98XX_I2SREG], TFA98XX_I2SREG_CHSA, 0, k, outcome)
  }

  /** The accesses of that first update. */
  function ChsaAccesses(regs: seq<bv16>, k: nat, outcome: nat -> int): (xs: seq<Access>)
    requires |regs| == 0x100
    ensures 1 <= |xs| <= 2 && xs[0] == RegRead(TFA98XX_I2SREG)
  {
    UpdateAccesses(TFA98XX_I2SREG, regs[TFA98XX_I2SREG], TFA98XX_I2SREG_CHSA, 0, k, outcome)
  }

  /**
   * What tfa9895_dsp_bypass returns when started at access k: the I2SREG
   * update's error, or else the SYS_CTRL update's result.
   */
  function BypassStatus(regs: seq<bv16>, k: nat, outcome: nat -> int): (r: int)
    requires |regs| == 0x100
    ensures r <= 0
    ensures ChsaStatus(regs, k, outcome) < 0 ==> r == ChsaStatus(regs, k, outcome)
    ensures (forall j :: k <= j < k + 4 ==> outcome(j) >= 0) ==> r == 0
  {
    var first := ChsaStatus(regs, k, outcome);
    if first < 0 then first
    else UpdateStatus(regs[TFA98XX_SYS_CTRL], TFA98XX_SYS_CTRL_DSP, 0, k + |ChsaAccesses(regs, k, outcome)|, outcome)
  }

  /** The accesses tfa9895_dsp_bypass issues: the SYS_CTRL update only after a successful I2SREG update. */
  function BypassAccesses(regs: seq<bv16>, k: nat, outcome: nat -> int): (xs: seq<Access>)
    requires |regs| == 0x100
    ensures ChsaStatus(regs, k, outcome) < 0 ==> xs == ChsaAccesses(regs, k, outcome)
    ensures ChsaStatus(regs, k, outcome) == 0 ==> |xs| > |ChsaAccesses(regs, k, outcome)|
  {
    var first := ChsaAccesses(regs, k, outcome);
    if ChsaStatus(regs, k, outcome) < 0 then first
    else first + UpdateAccesses(TFA98XX_SYS_CTRL, regs[TFA98XX_SYS_CTRL], TFA98XX_SYS_CTRL_DSP, 0, k + |first|, outcome)
  }

  /**
   * tfa9895_dsp_bypass: clear CHSA in I2SREG, then, only if that returned 0,
   * CFE and AMPC in SYS_CTRL; a failed read or write of the first update
   * leaves SYS_CTRL alone and is returned.
   */
  method DspBypass(regmap: Regmap) returns (ret: int)
    requires regmap.Valid()
    modifies regmap
    ensures regmap.Valid() && ret <= 0
    ensures ret == BypassStatus(old(regmap.regs), |old(regmap.log)|, regmap.outcome)
    ensures regmap.log == old(regmap.log) + BypassAccesses(old(regmap.regs), |old(regmap.log)|, regmap.outcome)
    ensures ChsaStatus(old(regmap.regs), |old(regmap.log)|, regmap.outcome) < 0 ==>
      && regmap.regs == old(regmap.regs)
      && regmap.log == old(regmap.log) + ChsaAccesses(old(regmap.regs), |old(regmap.log)|, regmap.outcome)
    ensures ret < 0 ==> regmap.regs[TFA98XX_SYS_CTRL] == old(regmap.regs)[TFA98XX_SYS_CTRL]
    ensures ret == 0 ==> regmap.regs == Bypassed(old(regmap.regs))
    ensures forall i :: 0 <= i < 0x100 && i != TFA98XX_I2SREG && i != TFA98XX_SYS_CTRL ==>
      regmap.regs[i] == old(regmap.regs)[i]
  {
    var changed;
    ret, changed := regmap.UpdateBits(TFA98XX_I2SREG, TFA98XX_I2SREG_CHSA, 0);
    if ret != 0 {
      return;
    }
    ret, changed := regmap.UpdateBits(TFA98XX_SYS_CTRL, TFA98XX_SYS_CTRL_DSP, 0);
  }

  /**
   * tfa9895_i2c_probe: create the regmap, read the revision, refuse a chip
   * that is not a TFA9895 without writing anything, write the init
   * sequence, bypass the DSP, and register the component.  The results of
   * devm_regmap_init_i2c and devm_snd_soc_register_component are parameters.
   */
  method Probe(regmapInit: int, regmap: Regmap, registerComponent: int) returns (ret: int)
    requires regmap.Valid()
    requires regmapInit <= 0 && registerComponent <= 0
    modifies regmap
    ensures regmap.Valid() && ret <= 0
    ensures regmapInit < 0 ==> ret == regmapInit && regmap.log == old(regmap.log) && regmap.regs == old(regmap.regs)
    ensures regmapInit == 0 ==>
      ProbeOutcome(old(regmap.regs), old(regmap.log), regmap.regs, regmap.log, regmap.outcome, registerComponent, ret)
  {
    if regmapInit < 0 {
      return regmapInit;
    }
    ret := ProbeRegmap(regmap, registerComponent);
  }

  /**
   * What probe guarantees once the regmap exists, in terms of the register
   * file and the access log before and after: each step runs only when the
   * one before it returned 0, and the first error is returned.
   */
  ghost predicate ProbeOutcome(regs0: seq<bv16>, log0: seq<Access>, regs: seq<bv16>, log: seq<Access>,
                               outcome: nat -> int, registerComponent: int, ret: int)
    requires |regs0| == 0x100
    ensures ProbeOutcome(regs0, log0, regs, log, outcome, registerComponent, ret) && ret == 0 ==>
      && regs == Bypassed(Apply(regs0, RegInit))
      && regs[TFA98XX_SYS_CTRL] == 0x0209
      && forall i :: 0 <= i < 0x100 && i !in InitRegisters ==> regs[i] == regs0[i]
  {
    ProbedRegisters(regs0);
    var s := |log0|;
    var read := log0 + [RegRead(TFA98XX_REVISIONNUMBER)];
    var chip := regs0[TFA98XX_REVISIONNUMBER] == TFA9895_REVISION;
    var init := SequenceStatus(|RegInit|, s + 1, outcome);
    var initialised := Apply(regs0, RegInit);
    var bypass := BypassStatus(initialised, s + 1 + |RegInit|, outcome);
    && (outcome(s) < 0 ==> ret == outcome(s) && log == read && regs == regs0)
    && (outcome(s) >= 0 && !chip ==> ret == -EINVAL && log == read && regs == regs0)
    && (outcome(s) >= 0 && chip && init < 0 ==>
          && ret == init
          && log == read + Writes(RegInit[..Attempted(|RegInit|, s + 1, outcome)])
          && regs == Apply(regs0, RegInit[..FirstFailure(|RegInit|, s + 1, outcome)]))
    && (outcome(s) >= 0 && chip && init == 0 ==>
          && log == read + Writes(RegInit) + BypassAccesses(initialised, s + 1 + |RegInit|, outcome)
          && ret == if bypass < 0 then bypass else registerComponent)
    && (ret == 0 ==> chip && regs == Bypassed(initialised))
    && (chip && (forall j :: s <= j < s + 11 ==> outcome(j) >= 0) ==> ret == registerComponent)
  }

  /** The regmap_multi_reg_write of tfa9895_reg_init in probe, stopping at the first failed write. */
  method RegInitWrite(regmap: Regmap) returns (ret: int)
    requires regmap.Valid()
    modifies regmap
    ensures regmap.Valid() && ret <= 0
    ensures var s := |old(regmap.log)|;
      && ret == SequenceStatus(|RegInit|, s, regmap.outcome)
      && regmap.log == old(regmap.log) + Writes(RegInit[..Attempted(|RegInit|, s, regmap.outcome)])
      && regmap.regs == Apply(old(regmap.regs), RegInit[..FirstFailure(|RegInit|, s, regmap.outcome)])
    ensures ret == 0 ==> regmap.log == old(regmap.log) + Writes(RegInit) && regmap.regs == Apply(old(regmap.regs), RegInit)
  {
    ret := regmap.MultiRegWrite(RegInit);
    if ret == 0 {
      assert RegInit[..6] == RegInit;
    }
  }

  /** tfa9895_i2c_probe from the revision read on. */
  method ProbeRegmap(regmap: Regmap, registerComponent: int) returns (ret: int)
    requires regmap.Valid()
    requires registerComponent <= 0
    modifies regmap
    ensures regmap.Valid() && ret <= 0
    ensures ProbeOutcome(old(regmap.regs), old(regmap.log), regmap.regs, regmap.log, regmap.outcome, registerComponent, ret)
  {
    ghost var s := |regmap.log|;
    var val;
    ret, val := regmap.Read(TFA98XX_REVISIONNUMBER);
    if ret != 0 {
      return;
    }
    if val != TFA9895_REVISION {
      return -EINVAL;
    }
    ret := RegInitWrite(regmap);
    if ret != 0 {
      return;
    }
    ret := DspBypass(regmap);
    if ret != 0 {
      return;
    }
    ret := registerComponent;
  }
}
