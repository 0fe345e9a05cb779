/**
 * Qualcomm MSM8916 secondary-CPU bring-up on arm64: the ACC power
 * sequence that releases a secondary core from reset, and the per-CPU
 * cold-boot flag of the cpu_operations that guards it.
 */
module SmpMsm8916 {
  import opened Kernel

  // Register offsets in the ACC block.
  const APCS_CPU_PWR_CTL: int := 0x04
  const APC_PWR_GATE_CTL: int := 0x14

  // APCS_CPU_PWR_CTL bits.
  const CORE_PWRD_UP: bv32 := 0x80
  const COREPOR_RST: bv32 := 0x20
  const CORE_RST: bv32 := 0x10
  const L2DT_SLP: bv32 := 0x8
  const CORE_MEM_CLAMP: bv32 := 0x2
  const CLAMP: bv32 := 0x1
  /** BIT(17) of APCS_CPU_PWR_CTL, set together with releasing the clamp. */
  const PWR_CTL_BIT17: bv32 := 0x2_0000

  /** APC_PWR_GATE_CTL: BHS_EN with a BHS count of 16 XO cycles (0x10 << BHS_CNT_SHIFT). */
  const BHS_ENABLE_VALUE: bv32 := 0x1000_0001

  /** A device-tree node the release takes a reference on. */
  datatype Node = CpuNode | AccNode

  /** What the release does, in order: node references, the mapping, and MMIO writes to the ACC block. */
  datatype Event =
    | Get(node: Node)
    | Put(node: Node)
    | Map
    | Unmap
    | Write(offset: int, val: bv32)

  /** The seven writes of a successful release, as offsets and values. */
  function PowerUpWrites(): (ws: seq<Event>)
    ensures |ws| == 7
    ensures forall i :: 0 <= i < 7 ==> ws[i].Write?
  {
    [ Write(APCS_CPU_PWR_CTL, 0x33), Write(APC_PWR_GATE_CTL, 0x1000_0001),
      Write(APCS_CPU_PWR_CTL, 0x31), Write(APCS_CPU_PWR_CTL, 0x39),
      Write(APCS_CPU_PWR_CTL, 0x2_0038), Write(APCS_CPU_PWR_CTL, 0x2_0008),
      Write(APCS_CPU_PWR_CTL, 0x2_0088) ]
  }

  /**
   * The events of qcom_cortex_a_release_secondary given whether the cpu
   * node and its "qcom,acc" node are found and whether of_iomap succeeds.
   */
  function ReleaseEvents(cpuFound: bool, accFound: bool, mapped: bool): (es: seq<Event>)
    ensures cpuFound <==> es != []
    ensures cpuFound ==> es[0] == Get(CpuNode) && es[|es| - 1] == Put(CpuNode)
    ensures Map in es <==> cpuFound && accFound && mapped
    ensures Map in es <==> Unmap in es
  {
    if !cpuFound then []
    else if !accFound then [Get(CpuNode), Put(CpuNode)]
    else if !mapped then [Get(CpuNode), Get(AccNode), Put(AccNode), Put(CpuNode)]
    else [Get(CpuNode), Get(AccNode), Map] + PowerUpWrites() + [Unmap, Put(AccNode), Put(CpuNode)]
  }

  /** The status of the release: -ENODEV for a missing node, -ENOMEM for a failed mapping. */
  function ReleaseStatus(cpuFound: bool, accFound: bool, mapped: bool): (ret: int)
    ensures ret <= 0
    ensures ret == 0 <==> cpuFound && accFound && mapped
  {
    if !cpuFound || !accFound then -ENODEV
    else if !mapped then -ENOMEM
    else 0
  }

  /** On every exit path each node reference taken is put exactly once. */
  lemma ReleaseBalanced(cpuFound: bool, accFound: bool, mapped: bool, n: Node)
    ensures var es := ReleaseEvents(cpuFound, accFound, mapped);
      multiset(es)[Get(n)] == multiset(es)[Put(n)] <= 1
  {
    if cpuFound && accFound && mapped {
      SuccessBalanced(n);
    }
  }

  lemma SuccessBalanced(n: Node)
    ensures multiset(ReleaseEvents(true, true, true))[Get(n)] == 1
    ensures multiset(ReleaseEvents(true, true, true))[Put(n)] == 1
  {
    var pre: seq<Event> := [Get(CpuNode), Get(AccNode), Map];
    var post: seq<Event> := [Unmap, Put(AccNode), Put(CpuNode)];
    var ws := PowerUpWrites();
    WritesTakeNoReference(n);
    CountThree(pre, ws, post, Get(n));
    CountThree(pre, ws, post, Put(n));
    EndsBalanced(n);
  }

  /** The references taken before the writes and dropped after them. */
  lemma EndsBalanced(n: Node)
    ensures multiset([Get(CpuNode), Get(AccNode), Map])[Get(n)] == 1
    ensures multiset([Get(CpuNode), Get(AccNode), Map])[Put(n)] == 0
    ensures multiset([Unmap, Put(AccNode), Put(CpuNode)])[Get(n)] == 0
    ensures multiset([Unmap, Put(AccNode), Put(CpuNode)])[Put(n)] == 1
  {
    if n == CpuNode {
      assert multiset([Get(CpuNode), Get(AccNode), Map]) == multiset{Get(CpuNode), Get(AccNode), Map};
    }
  }

  /** Occurrences in a concatenation of three event sequences add up. */
  lemma CountThree(a: seq<Event>, b: seq<Event>, c: seq<Event>, e: Event)
    ensures multiset(a + b + c)[e] == multiset(a)[e] + multiset(b)[e] + multiset(c)[e]
  {
    assert multiset(a + b + c) == multiset(a) + multiset(b) + multiset(c);
  }

  /** The register writes take and drop no reference. */
  lemma WritesTakeNoReference(n: Node)
    ensures multiset(PowerUpWrites())[Get(n)] == 0 && multiset(PowerUpWrites())[Put(n)] == 0
  {
    assert Get(n) !in PowerUpWrites() && Put(n) !in PowerUpWrites();
  }

  /** Each put comes after the get it releases. */
  lemma PutAfterGet(cpuFound: bool, accFound: bool, mapped: bool, n: Node)
    ensures var es := ReleaseEvents(cpuFound, accFound, mapped);
      forall i, j :: 0 <= i < |es| && 0 <= j < |es| && es[i] == Get(n) && es[j] == Put(n) ==> i < j
  {
    var es := ReleaseEvents(cpuFound, accFound, mapped);
    if cpuFound && accFound && mapped {
      assert forall k :: 3 <= k < 10 ==> es[k] == PowerUpWrites()[k - 3];
    }
  }

  /** Registers are written only by a release that found both nodes and mapped the block. */
  lemma WritesOnlyOnSuccess(cpuFound: bool, accFound: bool, mapped: bool)
    ensures (exists i :: 0 <= i < |ReleaseEvents(cpuFound, accFound, mapped)| && ReleaseEvents(cpuFound, accFound, mapped)[i].Write?)
            <==> ReleaseStatus(cpuFound, accFound, mapped) == 0
  {
    if cpuFound && accFound && mapped {
      assert ReleaseEvents(cpuFound, accFound, mapped)[3] == PowerUpWrites()[0];
    }
  }

  /**
   * The last value written to APCS_CPU_PWR_CTL leaves the core powered up
   * and out of reset: CORE_PWRD_UP, L2DT_SLP and bit 17 set; CORE_RST,
   * COREPOR_RST, CLAMP and CORE_MEM_CLAMP clear.
   */
  lemma FinalPowerControl()
    ensures PowerUpWrites()[6].offset == APCS_CPU_PWR_CTL
    ensures PowerUpWrites()[6].val & (CORE_PWRD_UP | L2DT_SLP | PWR_CTL_BIT17) == CORE_PWRD_UP | L2DT_SLP | PWR_CTL_BIT17
    ensures PowerUpWrites()[6].val & (CORE_RST | COREPOR_RST | CLAMP | CORE_MEM_CLAMP) == 0
  {
  }

  /**
   * The core is held in reset by every write before the last two, and
   * power-up is signalled only by the final write.
   */
  lemma ResetHeldUntilClampsReleased()
    ensures forall i :: 0 <= i < 7 && i != 1 && i < 5 ==>
      PowerUpWrites()[i].val & (CORE_RST | COREPOR_RST) == CORE_RST | COREPOR_RST
    ensures forall i :: 0 <= i < 6 && i != 1 ==> PowerUpWrites()[i].val & CORE_PWRD_UP == 0
    ensures PowerUpWrites()[4].val & (CLAMP | CORE_MEM_CLAMP) == 0
  {
  }

  /** The SoC as this driver sees it: the log of what the releases did. */
  class Soc {
    var log: seq<Event>

    constructor ()
      ensures log == []
    {
      log := [];
    }

    method Record(e: Event)
      modifies this
      ensures log == old(log) + [e]
    {
      log := log + [e];
    }

    /**
     * qcom_cortex_a_release_secondary.  `cpuFound`, `accFound` and
     * `mapped` are the outcomes of of_get_cpu_node, of_parse_phandle and
     * of_iomap; the 2 µs settle delays are not modelled.
     */
    method ReleaseSecondary(cpu: nat, cpuFound: bool, accFound: bool, mapped: bool) returns (ret: int)
      modifies this
      ensures ret == ReleaseStatus(cpuFound, accFound, mapped)
      ensures log == old(log) + ReleaseEvents(cpuFound, accFound, mapped)
    {
      if !cpuFound {
        return -ENODEV;
      }
      Record(Get(CpuNode));
      if !accFound {
        ret := -ENODEV;
      } else {
        Record(Get(AccNode));
        if !mapped {
          ret := -ENOMEM;
        } else {
          Record(Map);
          PowerUp();
          Record(Unmap);
          ret := 0;
        }
        Record(Put(AccNode));
      }
      Record(Put(CpuNode));
    }

    /** The power-up sequence proper, computing each value from the previous one. */
    method PowerUp()
      modifies this
      ensures log == old(log) + PowerUpWrites()
    {
      var regVal: bv32 := CORE_RST | COREPOR_RST | CLAMP | CORE_MEM_CLAMP;
      Record(Write(APCS_CPU_PWR_CTL, regVal));
      Record(Write(APC_PWR_GATE_CTL, BHS_ENABLE_VALUE));
      regVal := ClearBits(regVal, CORE_MEM_CLAMP);
      Record(Write(APCS_CPU_PWR_CTL, regVal));
      regVal := SetBits(regVal, L2DT_SLP);
      Record(Write(APCS_CPU_PWR_CTL, regVal));
      regVal := ClearBits(SetBits(regVal, PWR_CTL_BIT17), CLAMP);
      Record(Write(APCS_CPU_PWR_CTL, regVal));
      regVal := ClearBits(regVal, CORE_RST | COREPOR_RST);
      Record(Write(APCS_CPU_PWR_CTL, regVal));
      regVal := SetBits(regVal, CORE_PWRD_UP);
      Record(Write(APCS_CPU_PWR_CTL, regVal));
    }
  }

  /** The BHS gate value is BHS_EN with a count of 16 in bits 24 and up. */
  lemma BhsEnableValue()
    ensures BHS_ENABLE_VALUE == 1 | (0x10 << 24)
  {
  }

  /** qcom_cpu_prepare: -ENOSYS when the cold boot address cannot be set. */
  function CpuPrepare(setBootAddr: int): (ret: int)
    ensures ret == 0 <==> setBootAddr == 0
    ensures ret != 0 ==> ret == -ENOSYS
  {
    if setBootAddr != 0 then -ENOSYS else 0
  }

  /**
   * The arm64 cpu_operations: the per-CPU cold_boot_done flag, a map from
   * CPU number to bool in which a missing CPU reads false.
   */
  class CpuOps {
    const soc: Soc
    var coldBootDone: map<nat, bool>

    constructor (soc: Soc)
      ensures this.soc == soc && coldBootDone == map[]
    {
      this.soc := soc;
      coldBootDone := map[];
    }

    function Done(cpu: nat): bool
      reads this
    {
      cpu in coldBootDone && coldBootDone[cpu]
    }

    /** qcom_cpu_init: mark the boot CPU's cold boot as done; no other CPU's flag changes. */
    method CpuInit(cpu: nat) returns (ret: int)
      modifies this
      ensures ret == 0
      ensures cpu == 0 ==> Done(0)
      ensures forall c :: c != 0 ==> (c in coldBootDone <==> c in old(coldBootDone))
      ensures forall c :: c != 0 && c in coldBootDone ==> coldBootDone[c] == old(coldBootDone)[c]
      ensures cpu != 0 ==> coldBootDone == old(coldBootDone)
    {
      if cpu == 0 && !Done(cpu) {
        coldBootDone := coldBootDone[cpu := true];
      }
      return 0;
    }

    /**
     * qcom_cpu_boot: release the CPU unless its cold boot is done, and
     * mark it done only when the release succeeds.
     */
    method CpuBoot(cpu: nat, cpuFound: bool, accFound: bool, mapped: bool) returns (ret: int)
      modifies this, soc
      ensures old(Done(cpu)) ==> ret == 0 && soc.log == old(soc.log) && coldBootDone == old(coldBootDone)
      ensures !old(Done(cpu)) ==>
        && ret == ReleaseStatus(cpuFound, accFound, mapped)
        && soc.log == old(soc.log) + ReleaseEvents(cpuFound, accFound, mapped)
        && coldBootDone == (if ret == 0 then old(coldBootDone)[cpu := true] else old(coldBootDone))
      ensures Done(cpu) <==> old(Done(cpu)) || ret == 0
    {
      ret := 0;
      if !Done(cpu) {
        ret := soc.ReleaseSecondary(cpu, cpuFound, accFound, mapped);
        if ret != 0 {
          return ret;
        }
        coldBootDone := coldBootDone[cpu := true];
      }
      return ret;
    }
  }
}
