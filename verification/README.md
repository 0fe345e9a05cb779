# Verified models of ten MSM8916/MSM8937 board drivers

This project models the sequential core of a set of Linux drivers for
Qualcomm MSM8916/MSM8937 phones:

- the Zinitix BT541 touchscreen;
- the NXP TFA9895 amplifier codec;
- a battery measured by one ADC channel;
- the MSM8937 clock-measurement debug driver;
- the MSM8916 secondary-CPU release;
- five MIPI-DSI panels: Samsung S6E88A0/AMS452EF01, Tianma 499, ILI9881C/EBBG DJN, NT35521S/EBBG and NT35521S/CTC.

Every bus is an abstract log: I2C, MIPI-DSI, MMIO, the regmap and the device-tree lookups. Each bus operation is appended to its log. For I2C, MIPI-DSI and the regmap, its return value comes from an injected oracle `outcome: nat -> int`, where the k-th operation fails when `outcome(k)` is negative; the device-tree lookups and mappings are parameters. MMIO registers are memory that returns the last value written. Calls into other kernel cores are method parameters, holding the value each call returns. Those cores are the regulator, GPIO, backlight, input, IIO, DRM and SCM cores. The model proves these things:

- the bytes and the order of what each driver issues;
- that each command sequence, and each probe, stops at its first failure and returns that error;
- the state machines over the `prepared`, `enabled` and `cold_boot_done` flags;
- the arithmetic of rates, capacities and display modes.

Files:

- `kernel.dfy` holds the shared integer widths, errno values and little-endian helpers. It also holds `FirstFailure`/`Attempted`/`SequenceStatus`, which describe every "return on the first error" sequence.
- `dsi.dfy` holds the DSI host shared by the five panels, the reset-line and supply bookkeeping, the display mode, and the probe shared by three panels.
- `zinitix_wire.dfy` holds the touchscreen's packet and `point_info` layout. `zinitix.dfy` holds its driver.
- `tfa9895.dfy`, `battery.dfy`, `clk_msm8937.dfy` and `smp_msm8916.dfy` hold one driver each.
- `panel_*.dfy` hold one panel each.

## Model

| member | source | states |
|---|---|---|
| Kernel.Le16 | drivers/input/touchscreen/zinitix.c:176-179 | cpu_to_le16 gives two bytes whose value, low byte first, is the 16-bit input |
| Kernel.FromLe16 | drivers/input/touchscreen/zinitix.c:338-340 | le16_to_cpu of two bytes is the value whose Le16 encoding they are |
| Kernel.FromLe16Le16 | drivers/input/touchscreen/zinitix.c:176-179 | decoding an encoded register address or coordinate gives the value back |
| Kernel.ToU16 | drivers/input/touchscreen/zinitix.c:229-233 | the C `(u16)` cast: the value itself below 2^16, and always congruent to it modulo 2^16 |
| Kernel.FirstFailure | drivers/gpu/drm/panel/panel-nt35521s-ctc.c:29-35 | the index of the first failing call of an early-returning sequence: all before it succeed, and it fails unless it is the length |
| Kernel.SequenceStatus | drivers/gpu/drm/panel/panel-nt35521s-ctc.c:53-89 | an early-returning sequence reports 0 exactly when no call fails, and otherwise a negative error |
| Kernel.Attempted | drivers/gpu/drm/panel/panel-nt35521s-ctc.c:53-89 | how many calls an early-returning sequence issues: all n when none fails, otherwise up to and including the first failure |
| Kernel.FirstFailureUnique | drivers/gpu/drm/panel/panel-nt35521s-ctc.c:53-89 | the first failure is determined by which calls succeed: any k before which all succeed and at which one fails is it |
| Kernel.StopsAt | drivers/gpu/drm/panel/panel-nt35521s-ctc.c:53-89 | a sequence whose step k fails first issues k+1 calls and returns step k's error |
| Kernel.RunsThrough | drivers/gpu/drm/panel/panel-nt35521s-ctc.c:53-89 | a sequence in which no call fails issues all of them and returns 0 |
| ZinitixWire.Packet | drivers/input/touchscreen/zinitix.c:170-188 | a write packet is the address low byte, then the high byte, then the payload unchanged; its length is payload + 2 |
| ZinitixWire.EncodeCoord | drivers/input/touchscreen/zinitix.c:128-136 | the packed `struct coord` bytes: x and y little-endian at 0 and 2, then width, sub_status, minor width and angle |
| ZinitixWire.DecodeCoord | drivers/input/touchscreen/zinitix.c:128-136 | the record 8 bytes overlay, whose encoding is exactly those bytes |
| ZinitixWire.Encode | drivers/input/touchscreen/zinitix.c:138-142 | the 44 bytes of a `point_info`: status and event flag little-endian, then the five coords |
| ZinitixWire.Decode | drivers/input/touchscreen/zinitix.c:138-142 | the `point_info` 44 bytes overlay: a header of two little-endian words and five coords |
| ZinitixWire.DecodeEncodeCoord | drivers/input/touchscreen/zinitix.c:128-136 | decoding the 8 bytes of a packed `struct coord` gives the record back |
| ZinitixWire.DecodeEncode | drivers/input/touchscreen/zinitix.c:138-142 | decoding the 44 bytes of a packed `point_info` gives the frame back |
| ZinitixWire.EncodeDecode | drivers/input/touchscreen/zinitix.c:138-142 | every 44-byte buffer is the encoding of the frame it decodes to, so the layout is a bijection |
| ZinitixWire.DecodeEncodeCoords | drivers/input/touchscreen/zinitix.c:138-142 | the five coords decode back from their concatenated bytes |
| ZinitixWire.EncodeDecodeCoords | drivers/input/touchscreen/zinitix.c:138-142 | a buffer of whole coords is re-encoded unchanged |
| ZinitixWire.CoordsAt | drivers/input/touchscreen/zinitix.c:332-340 | slot i of a frame is decoded from bytes 8i .. 8i+8 after the header |
| ZinitixWire.SlotLayout | drivers/input/touchscreen/zinitix.c:332-340 | slot i's x, y and width are the little-endian words at bytes 4+8i, 6+8i and byte 8+8i of the frame, and its `sub_status` is byte 9+8i |
| ZinitixWire.SlotReport | drivers/input/touchscreen/zinitix.c:333-341 | five events for a present slot, starting with its slot number and an active state, carrying its position and width |
| ZinitixWire.Reports | drivers/input/touchscreen/zinitix.c:332-342 | every slot the frame reports is one of its slots whose exists bit is set, five events each |
| ZinitixWire.ReportsExactlyPresent | drivers/input/touchscreen/zinitix.c:332-342 | the slots reported are exactly those whose `sub_status` bit 0 is set |
| ZinitixWire.ReportsLength | drivers/input/touchscreen/zinitix.c:332-342 | a frame with k present slots reports five events per slot, 5k in all |
| ZinitixWire.ReportsNeverDeactivate | drivers/input/touchscreen/zinitix.c:332-342 | no event of a frame marks a slot inactive; absent slots get no report |
| Zinitix.Overlay | drivers/input/touchscreen/zinitix.c:160-165 | a receive fills the front of the buffer with what arrived and leaves the rest as it was |
| Zinitix.I2cClient.MasterSend | drivers/input/touchscreen/zinitix.c:181 | one send is logged; it returns the byte count or the bus error |
| Zinitix.I2cClient.MasterRecv | drivers/input/touchscreen/zinitix.c:160 | one receive is logged; on success the answer overlays the buffer, and on failure the buffer is unchanged |
| Zinitix.ReadData | drivers/input/touchscreen/zinitix.c:151-168 | the address goes out first, and the receive is attempted only if that succeeded; 0 only when both succeed, and a short receive still gives 0 |
| Zinitix.WriteData | drivers/input/touchscreen/zinitix.c:170-188 | exactly one send, of address then payload; 0 or the bus error |
| Zinitix.WriteU16 | drivers/input/touchscreen/zinitix.c:190-195 | the payload is exactly the two little-endian bytes of the value |
| Zinitix.WriteCmd | drivers/input/touchscreen/zinitix.c:197-208 | only the two address bytes are sent, with no payload |
| Zinitix.Bytes | drivers/input/touchscreen/zinitix.c:190-208 | a u16 write is 4 bytes and a command 2, both starting with the little-endian address |
| Zinitix.InitWrites | drivers/input/touchscreen/zinitix.c:216-251 | the eight configuration writes: SWRESET, INT_ENABLE=0, X_RES/Y_RES=(u16)max, FINGER_NUM=5, INITIAL_MODE=1, TOUCH_MODE=1, INT_ENABLE=0x000f |
| Zinitix.ClearQueue | drivers/input/touchscreen/zinitix.c:253-257 | n CLEAR_INT_STATUS (0x0003) commands |
| Zinitix.PowerOnWrites | drivers/input/touchscreen/zinitix.c:283-311 | (0xc000,1), cmd 0xc004, (0xc002,1), (0xc001,1), in that order |
| Zinitix.WriteStep | drivers/input/touchscreen/zinitix.c:190-208 | one sequence step sends exactly its bytes and returns 0 or the bus error |
| Zinitix.WriteSequence | drivers/input/touchscreen/zinitix.c:283-311 | the writes go out in order up to and including the first failure, nothing after it, and that error is returned |
| Zinitix.InitTouchResultAsWritten | drivers/input/touchscreen/zinitix.c:210 | the `bool` return type turns every error into 1: probe still fails, but reports 1 instead of the error code |
| Zinitix.InputDevStatus | drivers/input/touchscreen/zinitix.c:350-391 | what zinitix_init_input_dev returns: 0 exactly when max_x, max_y, slot init and registration are all good, -EINVAL for a zero max_x or max_y |
| Zinitix.BringUpResult | drivers/input/touchscreen/zinitix.c:424-450 | probe's status after the regulators, with init_touch's error passed on: 0 exactly when power-on, input device, init_touch and IRQ request all return 0, and never positive |
| Zinitix.BringUpResultAsWritten | drivers/input/touchscreen/zinitix.c:436-440 | the same status as the code is written: a failed init_touch makes probe return 1 |
| Zinitix.BringUpOutcome | drivers/input/touchscreen/zinitix.c:424-450 | after the regulators: the power-on writes up to the first failure; the input device only after they all succeed; the configuration writes up to the first failure and the 10 clears only once it is registered; on 0, the full traffic |
| Zinitix.InitTouchErrorLost | drivers/input/touchscreen/zinitix.c:436-440 | whenever the eight configuration writes fail, init_touch as written gives 1 and probe then returns 1, while the corrected probe returns the write's negative error |
| Zinitix.Bt541.SendPowerOnSequence | drivers/input/touchscreen/zinitix.c:278-312 | the four vendor writes stop at the first failure, and that error is returned |
| Zinitix.Bt541.InitTouch | drivers/input/touchscreen/zinitix.c:210-260 | the 8 writes stop at the first failure, whose error is returned; once all succeed, exactly 10 clears follow with their results ignored, and 0 |
| Zinitix.Bt541.IrqHandler | drivers/input/touchscreen/zinitix.c:314-348 | a failed 44-byte read of 0x0080 reports and clears nothing; otherwise one clear, the present slots' reports in order, and one frame sync |
| Zinitix.Bt541.ReportSlot | drivers/input/touchscreen/zinitix.c:333-341 | a present slot reports slot, active state, x, y and width; an absent one reports nothing |
| Zinitix.Bt541.ReportFrame | drivers/input/touchscreen/zinitix.c:332-345 | the slot loop reports `Reports(coords)`, then MT sync and sync |
| Zinitix.ReceivedFrame | drivers/input/touchscreen/zinitix.c:320-328 | the frame decoded from the zeroed buffer: the received bytes, and 0 past a short answer |
| Zinitix.Bt541.InitInputDev | drivers/input/touchscreen/zinitix.c:350-391 | a zero max_x or max_y gives -EINVAL; otherwise the first error of slot init or registration; registered exactly on 0 |
| Zinitix.Bt541.Probe | drivers/input/touchscreen/zinitix.c:393-453 | missing I2C functionality gives -ENXIO and regulator errors are returned, each with no traffic; the supplies are on exactly when get and enable succeed; from there `BringUpOutcome` holds, with init_touch's error corrected as in the Findings row; the IRQ is requested exactly on success |
| Zinitix.Bt541.BringUp | drivers/input/touchscreen/zinitix.c:424-448 | `BringUpOutcome`: power-on sequence, input device, configuration and IRQ, in that order, each failure returned with no later step issued; it uses the corrected init_touch of the Findings row |
| Zinitix.Bt541.Remove | drivers/input/touchscreen/zinitix.c:455-462 | the supplies are off and 0 is returned |
| Tfa9895.RateField | sound/soc/codecs/tfa9895.c:49-79 | a code exists exactly for the nine supported rates, and it lies within the I2SSR mask 0xf000 |
| Tfa9895.RateFieldCodes | sound/soc/codecs/tfa9895.c:26-34 | the n-th supported rate (8000 .. 48000) maps to n << 12 |
| Tfa9895.RateFieldInjective | sound/soc/codecs/tfa9895.c:49-76 | distinct supported rates get distinct codes |
| Tfa9895.Masked | sound/soc/codecs/tfa9895.c:81-82 | a masked update takes the masked bits from the new value and keeps every other bit |
| Tfa9895.UpdateAccesses | sound/soc/codecs/tfa9895.c:149-150 | a regmap_update_bits issues its read, then the write of the masked value only when the read succeeded and the value changes |
| Tfa9895.UpdateStatus | sound/soc/codecs/tfa9895.c:149-152 | regmap_update_bits fails exactly when its read fails or its needed write fails, with that error; otherwise 0 |
| Tfa9895.Writes | sound/soc/codecs/tfa9895.c:183-184 | one register write per sequence entry, with that entry's register and value, in order |
| Tfa9895.Apply | sound/soc/codecs/tfa9895.c:183-184 | the register file after a sequence of writes: the last entry's register holds its value |
| Tfa9895.Regmap.Read | sound/soc/codecs/tfa9895.c:171-175 | regmap_read logs one read and gives the register's value or the bus error |
| Tfa9895.Regmap.Write | sound/soc/codecs/tfa9895.c:183-188 | regmap_write updates exactly that register on success and nothing on failure |
| Tfa9895.Regmap.UpdateBits | sound/soc/codecs/tfa9895.c:148-157 | read-modify-write: the result is `UpdateStatus` and the accesses `UpdateAccesses`; only masked bits change, and only when the write succeeds |
| Tfa9895.Regmap.MultiRegWrite | sound/soc/codecs/tfa9895.c:183-188 | the writes go out in order up to the first failure; on success the file is `Apply` of the whole sequence |
| Tfa9895.LastWrite | sound/soc/codecs/tfa9895.c:130-142 | the last value a sequence writes to a register, or none when it never writes it |
| Tfa9895.ApplyAt | sound/soc/codecs/tfa9895.c:130-142 | after a sequence of writes each register holds its last write, or its old value |
| Tfa9895.InitValueAt | sound/soc/codecs/tfa9895.c:130-142 | after the init sequence each of its six registers holds its init value |
| Tfa9895.InitUntouched | sound/soc/codecs/tfa9895.c:130-142 | the init sequence leaves every other register alone |
| Tfa9895.Bypassed | sound/soc/codecs/tfa9895.c:144-158 | CHSA (I2SREG bits 7..6) and CFE, AMPC (SYS_CTRL bits 2, 6) clear, every other bit and register unchanged |
| Tfa9895.ProbedRegisters | sound/soc/codecs/tfa9895.c:130-142 | after a successful probe SYS_CTRL is 0x0209, the other init registers hold their values, and every other register is unchanged |
| Tfa9895.Codec.ComponentUpdateBits | sound/soc/codecs/tfa9895.c:81-82 | the update's error when its read or write fails, else 1 exactly when the register changed and 0 when it already held the value; only the masked bits change |
| Tfa9895.Codec.HwParams | sound/soc/codecs/tfa9895.c:42-83 | an unsupported rate gives -EINVAL with no register access; otherwise the I2SREG update is issued, fails exactly when its bus accesses do, and on success only I2SSR (bits 15..12) takes the rate's code |
| Tfa9895.ChsaStatus | sound/soc/codecs/tfa9895.c:149-152 | the result of dsp_bypass's first update, the one clearing CHSA in I2SREG |
| Tfa9895.ChsaAccesses | sound/soc/codecs/tfa9895.c:149-150 | the accesses of that update, starting with the I2SREG read |
| Tfa9895.BypassStatus | sound/soc/codecs/tfa9895.c:144-158 | dsp_bypass returns the first update's error when it fails, and 0 when all its accesses succeed |
| Tfa9895.BypassAccesses | sound/soc/codecs/tfa9895.c:144-158 | after a failed first update nothing more is accessed; after a successful one the SYS_CTRL update follows |
| Tfa9895.DspBypass | sound/soc/codecs/tfa9895.c:144-158 | the result is `BypassStatus` and the traffic `BypassAccesses`; if the I2SREG read or write fails, that error is returned, SYS_CTRL is never accessed and no register changes; on 0 the file is `Bypassed` |
| Tfa9895.Probe | sound/soc/codecs/tfa9895.c:160-198 | a failed regmap init is returned with no access; otherwise `ProbeOutcome` holds |
| Tfa9895.ProbeOutcome | sound/soc/codecs/tfa9895.c:171-197 | a failed revision read is returned with nothing else accessed; a wrong revision gives -EINVAL with no write; a failed init write is returned with the writes up to it only; otherwise the bypass's error, or the registration result; with every access succeeding the registration result is returned; on 0 SYS_CTRL is 0x0209 and every register outside the init set is unchanged |
| Tfa9895.RegInitWrite | sound/soc/codecs/tfa9895.c:183-188 | the six init writes go out in order up to the first failure, whose error is returned; the registers hold the writes that succeeded |
| Tfa9895.ProbeRegmap | sound/soc/codecs/tfa9895.c:171-197 | `ProbeOutcome`: revision read, revision check, init writes, bypass and registration, each running only after the one before returned 0, the first error returned |
| DumbAdcBattery.HealthOf | drivers/power/supply/dumb-adc-battery.c:33-41 | DEAD exactly below min, OVERVOLTAGE exactly above max, GOOD exactly within |
| DumbAdcBattery.CapacityOf | drivers/power/supply/dumb-adc-battery.c:42-52 | 0 below min, 100 above max, and within the range the whole number of truncated one-percent steps above min |
| DumbAdcBattery.GetProperty | drivers/power/supply/dumb-adc-battery.c:21-67 | health and capacity pass on the ADC status with the computed value; the design voltages are returned with 0; any other property gives -EINVAL |
| DumbAdcBattery.CapacityBounded | drivers/power/supply/dumb-adc-battery.c:49-51 | when the step exceeds what the truncation dropped, every voltage reads 0..100 |
| DumbAdcBattery.CapacityOverflows | drivers/power/supply/dumb-adc-battery.c:49-51 | otherwise the maximum voltage reads above 100 |
| DumbAdcBattery.CapacityMonotone | drivers/power/supply/dumb-adc-battery.c:42-52 | a higher voltage never reads a lower capacity |
| DumbAdcBattery.Probe | drivers/power/supply/dumb-adc-battery.c:77-124 | each failing step returns its own error (-ENOMEM, the channel's, the registration's, the battery information's, then a negative design voltage itself) and stops there; 0 exactly when every step succeeds |
| ClkMsm8937.Count | drivers/clk/qcom/debug-msm8937.c:180 | the count is the low 25 bits of the status register |
| ClkMsm8937.Multiplier | drivers/clk/qcom/debug-msm8937.c:206 | `mult` when nonzero, else 1 |
| ClkMsm8937.TableDefaults | drivers/clk/qcom/debug-msm8937.c:28-157 | no table row sets mult, mux_addr or mux_val, so every row measures with multiplier 1 |
| ClkMsm8937.Rate | drivers/clk/qcom/debug-msm8937.c:254-262 | 0 when the short and full counts agree; otherwise the scaled full count times the multiplier |
| ClkMsm8937.Scaled | drivers/clk/qcom/debug-msm8937.c:259-260 | the quotient do_div leaves: the largest q with q * 655395 <= (full*10 + 15) * 4800000 |
| ClkMsm8937.RateFits | drivers/clk/qcom/debug-msm8937.c:259-261 | for a 25-bit count the intermediate fits in u64 and the rate stays below 2^63 for any 16-bit multiplier |
| ClkMsm8937.Gcc.Read | drivers/clk/qcom/debug-msm8937.c:230 | a `readl` of a mapped register is logged and returns the register's current value, with no register changed |
| ClkMsm8937.Gcc.Write | drivers/clk/qcom/debug-msm8937.c:232 | a `writel` is logged and sets exactly that register to the value |
| ClkMsm8937.Gcc.RunMeasurement | drivers/clk/qcom/debug-msm8937.c:159-181 | the tick count is written, then written with the start bit 20, and the 25-bit count of the final status is returned |
| ClkMsm8937.Gcc.MeasureClk | drivers/clk/qcom/debug-msm8937.c:199-272 | an unmapped base gives -EINVAL with no register access; otherwise 0, the rate, and the accesses and final registers of `Measured` |
| ClkMsm8937.Gcc.Measure | drivers/clk/qcom/debug-msm8937.c:221-269 | the measurement proper: the rate of the two counts, and the mux and CBCR restored |
| ClkMsm8937.Gcc.Sample | drivers/clk/qcom/debug-msm8937.c:223-249 | mux select, branch enable and the short and full runs, in order |
| ClkMsm8937.Gcc.Finish | drivers/clk/qcom/debug-msm8937.c:251-268 | branch disabled, PLL test register restored, mux enable bit cleared |
| ClkMsm8937.Gcc.SelectClock | drivers/clk/qcom/debug-msm8937.c:223-225 | the mux is written with exactly `value \| BIT(16)`; the value read first is discarded |
| ClkMsm8937.Gcc.EnableBranch | drivers/clk/qcom/debug-msm8937.c:230-232 | bit 0 of the XO/4 CBCR is set and its other bits are kept |
| ClkMsm8937.Gcc.ReleaseMux | drivers/clk/qcom/debug-msm8937.c:265-268 | bit 16 of the mux is cleared and the other bits read back are kept |
| ClkMsm8937.MeasureLog | drivers/clk/qcom/debug-msm8937.c:221-269 | twelve accesses; the mux is written with `value \| BIT(16)` and ends with `value`; the CBCR ends with bit 0 clear |
| ClkMsm8937.MuxRestored | drivers/clk/qcom/debug-msm8937.c:265-268 | setting then clearing BIT(16) gives back the 16-bit select value |
| ClkMsm8937.BranchRestored | drivers/clk/qcom/debug-msm8937.c:251-252 | setting then clearing bit 0 of the CBCR leaves its other bits as read |
| ClkMsm8937.IndexOfName | drivers/clk/qcom/debug-msm8937.c:282-290 | the first row with that name, or none exactly when no row has it |
| ClkMsm8937.AsS64 | drivers/clk/qcom/debug-msm8937.c:275-288 | the u64 result read as int64_t: negative exactly from 2^63 up, congruent modulo 2^64 |
| ClkMsm8937.NamedResultAsWritten | drivers/clk/qcom/debug-msm8937.c:283-287 | the status of the measurement is ignored: a failed one reads as 0 Hz; a value from 2^63 up gives -EOVERFLOW |
| ClkMsm8937.UnmappedReadsZero | drivers/clk/qcom/debug-msm8937.c:218-219 | a measurement that fails with -EINVAL comes out as 0 Hz |
| ClkMsm8937.NamedResult | drivers/clk/qcom/debug-msm8937.c:275-291 | the measurement's error is passed on; a non-negative result implies the measurement succeeded |
| ClkMsm8937.NamedResultAgrees | drivers/clk/qcom/debug-msm8937.c:283-287 | the corrected and as-written results differ exactly when the measurement fails |
| ClkMsm8937.TableRateReturned | drivers/clk/qcom/debug-msm8937.c:285-287 | for every table row the -EOVERFLOW branch is never taken, and the rate is returned |
| ClkMsm8937.MeasureNamed | drivers/clk/qcom/debug-msm8937.c:275-291 | -EINVAL without a name; -ENOENT exactly when no row has the name; a present name on a mapped base returns the measured rate of the first matching row with its accesses; on an unmapped base, -EINVAL rather than 0 |
| SmpMsm8916.PowerUpWrites | drivers/soc/qcom/platsmp-msm8916.c:70-94 | PWR_CTL=0x33, GATE=0x10000001, then PWR_CTL = 0x31, 0x39, 0x20038, 0x20008, 0x20088 |
| SmpMsm8916.ReleaseEvents | drivers/soc/qcom/platsmp-msm8916.c:47-104 | the release's event trace: empty when the cpu node is missing, otherwise opened by its get and closed by its put; the block is mapped, and unmapped, exactly on the success path |
| SmpMsm8916.ReleaseStatus | drivers/soc/qcom/platsmp-msm8916.c:54-68 | 0 exactly when both nodes are found and the block is mapped; -ENODEV or -ENOMEM otherwise |
| SmpMsm8916.ReleaseBalanced | drivers/soc/qcom/platsmp-msm8916.c:96-101 | on every exit path each node reference taken is put exactly once |
| SmpMsm8916.PutAfterGet | drivers/soc/qcom/platsmp-msm8916.c:54-101 | each put comes after the get it releases |
| SmpMsm8916.WritesOnlyOnSuccess | drivers/soc/qcom/platsmp-msm8916.c:54-68 | a register is written exactly when the release succeeds |
| SmpMsm8916.FinalPowerControl | drivers/soc/qcom/platsmp-msm8916.c:86-94 | the last PWR_CTL has CORE_PWRD_UP, L2DT_SLP and bit 17 set and CORE_RST, COREPOR_RST, CLAMP, CORE_MEM_CLAMP clear |
| SmpMsm8916.ResetHeldUntilClampsReleased | drivers/soc/qcom/platsmp-msm8916.c:70-94 | the core stays in reset until both clamps are released, and power-up is signalled only by the last write |
| SmpMsm8916.BhsEnableValue | drivers/soc/qcom/platsmp-msm8916.c:75 | the gate value is BHS_EN with a count of 16 at BHS_CNT_SHIFT |
| SmpMsm8916.Soc.ReleaseSecondary | drivers/soc/qcom/platsmp-msm8916.c:47-104 | the status is `ReleaseStatus` and the events are the gets, map, writes, unmap and puts of that path |
| SmpMsm8916.Soc.PowerUp | drivers/soc/qcom/platsmp-msm8916.c:70-94 | the step-by-step bit updates produce exactly `PowerUpWrites` |
| SmpMsm8916.CpuPrepare | drivers/soc/qcom/platsmp-msm8916.c:116-126 | 0 exactly when the boot address is set, and -ENOSYS otherwise |
| SmpMsm8916.CpuOps.CpuInit | drivers/soc/qcom/platsmp-msm8916.c:107-114 | only CPU 0's flag is set, and no other CPU's flag changes |
| SmpMsm8916.CpuOps.CpuBoot | drivers/soc/qcom/platsmp-msm8916.c:128-140 | a CPU already booted gives 0 with no release; otherwise the release runs, and the flag is set exactly when it succeeds |
| Dsi.Transfers | drivers/gpu/drm/panel/panel-nt35521s-ctc.c:29-35 | one transfer per command, in order, each in the given LPM mode |
| Dsi.Host.Transfer | drivers/gpu/drm/panel/panel-nt35521s-ctc.c:29-35 | one DSI command logged in the current mode, returning its outcome |
| Dsi.Host.Run | drivers/gpu/drm/panel/panel-nt35521s-ctc.c:53-89 | the commands are issued up to and including the first failure, and that error, or 0, is returned |
| Dsi.ResetLevel | drivers/gpu/drm/panel/panel-nt35521s-ctc.c:37-45 | the level last driven on the reset GPIO, or the probe level when none was driven |
| Dsi.Powered | drivers/gpu/drm/panel/panel-tianma-499.c:115-135 | whether the last supply event enabled the regulators |
| Dsi.SuppliedOnLines | drivers/gpu/drm/panel/panel-tianma-499.c:115-135 | after supply and reset pulse and any init stream, the supplies are on and reset high exactly when the stream succeeded |
| Dsi.SuppliedOffLines | drivers/gpu/drm/panel/panel-tianma-499.c:144-155 | whatever the shutdown stream did, the tail leaves reset low and the supplies off |
| Dsi.HeldOnLines | drivers/gpu/drm/panel/panel-nt35521s-ctc.c:121-133 | after the 0-1-0 pulse and any init stream, reset stays low exactly when the stream succeeded |
| Dsi.HeldOffLines | drivers/gpu/drm/panel/panel-nt35521s-ctc.c:143-153 | whatever the shutdown stream did, reset ends held at 1 |
| Dsi.PixelClock | drivers/gpu/drm/panel/panel-nt35521s-ctc.c:156-168 | the kHz clock is htotal * vtotal * refresh / 1000, truncated |
| Dsi.Registered | drivers/gpu/drm/panel/panel-nt35521s-ctc.c:226-233 | the panel is registered exactly when the last registration event added it |
| Dsi.Probe | drivers/gpu/drm/panel/panel-ili9881c-ebbgdjn.c:204-245 | allocation, reset GPIO and backlight errors return with nothing registered; a failed attach removes the panel again; the NT35521S EBBG and CTC probes have the same shape |
| Dsi.ProbeRegisteredIffSuccess | drivers/gpu/drm/panel/panel-nt35521s-ebbg.c:227-238 | probe leaves the panel registered exactly when it returns 0 |
| PanelS6e88a0.ModeTiming | drivers/gpu/drm/panel/panel-samsung-s6e88a0-ams452ef01.c:198-211 | the timings are ordered and the clock is the 60 Hz pixel clock, 38494 kHz |
| PanelS6e88a0.Panel.Reset | drivers/gpu/drm/panel/panel-samsung-s6e88a0-ams452ef01.c:39-47 | reset is driven 1, 0, 1 |
| PanelS6e88a0.Panel.On | drivers/gpu/drm/panel/panel-samsung-s6e88a0-ams452ef01.c:49-86 | LPM is set, then the init stream runs up to its first failure, whose error is returned |
| PanelS6e88a0.Panel.Off | drivers/gpu/drm/panel/panel-samsung-s6e88a0-ams452ef01.c:88-111 | LPM is cleared, then display off and sleep run up to the first failure |
| PanelS6e88a0.Panel.Prepare | drivers/gpu/drm/panel/panel-samsung-s6e88a0-ams452ef01.c:113-140 | a no-op returning 0 when prepared; prepared exactly when regulators and `_on` succeed; a failed `_on` drives reset 0 and disables the regulators; the invariant is kept |
| PanelS6e88a0.Panel.SupplyAndReset | drivers/gpu/drm/panel/panel-samsung-s6e88a0-ams452ef01.c:122-128 | the regulators are enabled, then reset is pulsed |
| PanelS6e88a0.Panel.ResetAndCut | drivers/gpu/drm/panel/panel-samsung-s6e88a0-ams452ef01.c:133-134 | reset is driven low, then the regulators are disabled |
| PanelS6e88a0.Panel.PowerOn | drivers/gpu/drm/panel/panel-samsung-s6e88a0-ams452ef01.c:122-138 | the supplies end on, and reset high, exactly when `_on` succeeded |
| PanelS6e88a0.Panel.Unprepare | drivers/gpu/drm/panel/panel-samsung-s6e88a0-ams452ef01.c:142-160 | a no-op when not prepared; otherwise it always ends with reset 0, the regulators off and unprepared, and returns 0 even if `_off` failed |
| PanelS6e88a0.Panel.Enable | drivers/gpu/drm/panel/panel-samsung-s6e88a0-ams452ef01.c:162-178 | idempotent; `enabled` becomes true only when backlight_enable succeeds |
| PanelS6e88a0.Panel.Disable | drivers/gpu/drm/panel/panel-samsung-s6e88a0-ams452ef01.c:180-196 | idempotent; `enabled` becomes false only when backlight_disable succeeds |
| PanelS6e88a0.LowByte | drivers/gpu/drm/panel/panel-samsung-s6e88a0-ams452ef01.c:253 | `brightness & 0xff` agrees with the value modulo 256 and is the value below 256 |
| PanelS6e88a0.LowByteAgrees | drivers/gpu/drm/panel/panel-samsung-s6e88a0-ams452ef01.c:253 | two brightnesses give the same byte exactly when they agree modulo 256 |
| PanelS6e88a0.GetBrightness | drivers/gpu/drm/panel/panel-samsung-s6e88a0-ams452ef01.c:239-254 | the read is sent with LPM cleared; LPM is restored and the low byte returned only on success |
| PanelS6e88a0.UpdateStatus | drivers/gpu/drm/panel/panel-samsung-s6e88a0-ams452ef01.c:256-270 | the u16 brightness is sent with LPM cleared; LPM is restored only on success |
| PanelTianma.ModeTiming | drivers/gpu/drm/panel/panel-tianma-499.c:158-171 | the timings are ordered and the clock is the 60 Hz pixel clock, 69799 kHz |
| PanelTianma.Blanked | drivers/gpu/drm/panel/panel-tianma-499.c:221-223 | blanked whenever power or fb_blank is not UNBLANK or the state has SUSPENDED or FBBLANK set, and only then |
| PanelTianma.Panel.Reset | drivers/gpu/drm/panel/panel-tianma-499.c:41-49 | reset is driven 1, 0, 1 |
| PanelTianma.Panel.On | drivers/gpu/drm/panel/panel-tianma-499.c:51-84 | the init stream runs up to its first failure in the current mode |
| PanelTianma.Panel.Off | drivers/gpu/drm/panel/panel-tianma-499.c:86-107 | display off and sleep run up to the first failure |
| PanelTianma.Panel.Prepare | drivers/gpu/drm/panel/panel-tianma-499.c:109-136 | a no-op when prepared; prepared only after regulators, reset and `_on` succeed; a failed `_on` drives reset 0 and disables the regulators |
| PanelTianma.Panel.SupplyAndReset | drivers/gpu/drm/panel/panel-tianma-499.c:118-124 | the regulators are enabled, then reset is pulsed |
| PanelTianma.Panel.ResetAndCut | drivers/gpu/drm/panel/panel-tianma-499.c:129-130 | reset is driven low, then the regulators are disabled |
| PanelTianma.Panel.PowerOn | drivers/gpu/drm/panel/panel-tianma-499.c:118-134 | the supplies end on, and reset high, exactly when `_on` succeeded |
| PanelTianma.Panel.Unprepare | drivers/gpu/drm/panel/panel-tianma-499.c:138-156 | once entered it always clears `prepared`, drives reset 0, disables the regulators and returns 0, whatever `_off` returned |
| PanelTianma.EffectiveBrightness | drivers/gpu/drm/panel/panel-tianma-499.c:219-224 | 0 when blanked, powered down or suspended, otherwise the requested value cut to u16 |
| PanelTianma.BrightnessPacket | drivers/gpu/drm/panel/panel-tianma-499.c:201-202 | [0x51, bits 11..8, bits 7..0] of the value |
| PanelTianma.PacketBrightness | drivers/gpu/drm/panel/panel-tianma-499.c:201-202 | the brightness a panel reads from such a packet, below 0x10000; any well-formed packet is the packet of the brightness it reads as |
| PanelTianma.PacketRoundTrip | drivers/gpu/drm/panel/panel-tianma-499.c:241-242 | every brightness up to the 4095 maximum goes over the wire unchanged |
| PanelTianma.PacketDropsHighBits | drivers/gpu/drm/panel/panel-tianma-499.c:201-202 | two values give the same packet exactly when their low 12 bits agree |
| PanelTianma.GpioMatchesPacket | drivers/gpu/drm/panel/panel-tianma-499.c:226-228 | within the 0..4095 range the GPIO is high exactly when a nonzero brightness is sent |
| PanelTianma.GpioPacketOutOfRange | drivers/gpu/drm/panel/panel-tianma-499.c:219-228 | above that range they can disagree: every unblanked brightness that is a multiple of 4096 but not of 65536 lights the GPIO and sends brightness 0; the backlight core caps brightness at the 4095 maximum, so such a value does not reach the driver |
| PanelTianma.SendBrightness | drivers/gpu/drm/panel/panel-tianma-499.c:198-213 | the packet is sent with LPM cleared, and LPM is restored only on success |
| PanelTianma.UpdateStatus | drivers/gpu/drm/panel/panel-tianma-499.c:215-229 | the GPIO is driven to whether the effective brightness is nonzero, then that brightness is sent |
| PanelIli9881c.ModeTiming | drivers/gpu/drm/panel/panel-ili9881c-ebbgdjn.c:165-177 | the timings are ordered and the clock is the 60 Hz pixel clock, 80451 kHz |
| PanelIli9881c.Panel.Reset | drivers/gpu/drm/panel/panel-ili9881c-ebbgdjn.c:38-46 | reset is driven 0, 1, 0 |
| PanelIli9881c.Panel.On | drivers/gpu/drm/panel/panel-ili9881c-ebbgdjn.c:48-96 | the init stream runs up to its first failing write or DCS call, whose error is returned |
| PanelIli9881c.Panel.Off | drivers/gpu/drm/panel/panel-ili9881c-ebbgdjn.c:98-122 | the shutdown stream runs up to its first failure |
| PanelIli9881c.Panel.Prepare | drivers/gpu/drm/panel/panel-ili9881c-ebbgdjn.c:124-144 | a no-op when prepared; pulse then `_on`; a failed `_on` sets reset 1 and leaves the panel unprepared; success prepares it |
| PanelIli9881c.Panel.PowerOn | drivers/gpu/drm/panel/panel-ili9881c-ebbgdjn.c:133-140 | reset ends low exactly when `_on` succeeded |
| PanelIli9881c.Panel.Unprepare | drivers/gpu/drm/panel/panel-ili9881c-ebbgdjn.c:146-163 | a no-op when not prepared; otherwise reset 1, unprepared and 0, even if `_off` failed |
| PanelNt35521sEbbg.ModeTiming | drivers/gpu/drm/panel/panel-nt35521s-ebbg.c:160-172 | the timings are ordered and the clock is the 60 Hz pixel clock, 98534 kHz |
| PanelNt35521sEbbg.Panel.Reset | drivers/gpu/drm/panel/panel-nt35521s-ebbg.c:35-43 | reset is driven 0, 1, 0 |
| PanelNt35521sEbbg.Panel.On | drivers/gpu/drm/panel/panel-nt35521s-ebbg.c:45-93 | LPM is set first, then the stream runs up to its first failing write |
| PanelNt35521sEbbg.Panel.Off | drivers/gpu/drm/panel/panel-nt35521s-ebbg.c:95-117 | LPM is cleared before any command, then the stream runs up to its first failure |
| PanelNt35521sEbbg.Panel.Prepare | drivers/gpu/drm/panel/panel-nt35521s-ebbg.c:119-139 | a no-op when prepared; pulse then `_on`; a failed `_on` sets reset 1 and leaves the panel unprepared; success prepares it |
| PanelNt35521sEbbg.Panel.PowerOn | drivers/gpu/drm/panel/panel-nt35521s-ebbg.c:128-135 | reset ends low exactly when `_on` succeeded |
| PanelNt35521sEbbg.Panel.Unprepare | drivers/gpu/drm/panel/panel-nt35521s-ebbg.c:141-158 | always ends with reset 1 and unprepared, returning 0 |
| PanelNt35521sCtc.ModeTiming | drivers/gpu/drm/panel/panel-nt35521s-ctc.c:156-168 | the timings are ordered and the clock is the 60 Hz pixel clock, 83605 kHz |
| PanelNt35521sCtc.Panel.Reset | drivers/gpu/drm/panel/panel-nt35521s-ctc.c:37-45 | reset is driven 0, 1, 0 |
| PanelNt35521sCtc.Panel.On | drivers/gpu/drm/panel/panel-nt35521s-ctc.c:47-90 | the init stream runs up to its first failing write or DCS call |
| PanelNt35521sCtc.Panel.Off | drivers/gpu/drm/panel/panel-nt35521s-ctc.c:92-113 | the shutdown stream runs up to its first failure |
| PanelNt35521sCtc.Panel.Prepare | drivers/gpu/drm/panel/panel-nt35521s-ctc.c:115-135 | a no-op when prepared; pulse then `_on`; a failed `_on` sets reset 1 and leaves the panel unprepared; success prepares it |
| PanelNt35521sCtc.Panel.PowerOn | drivers/gpu/drm/panel/panel-nt35521s-ctc.c:124-131 | reset ends low exactly when `_on` succeeded |
| PanelNt35521sCtc.Panel.Unprepare | drivers/gpu/drm/panel/panel-nt35521s-ctc.c:137-154 | always ends with reset 1 and unprepared, returning 0 even if `_off` failed |

## Left out

- Bus primitives are not modelled as hardware. This covers I2C transfers, MIPI-DSI calls, `readl`/`writel`, regmap over I2C, IIO reads, GPIO and regulator calls, and the SCM boot-address call. Each is an entry in a log, and its result is injected.
- Delays (`udelay`, `msleep`, `usleep_range`) are not modelled. They carry no observable ordering beyond the log.
- The busy-wait loops of `run_measurement` depend on the hardware to terminate. The final status-register value of each measurement is a parameter instead.
- Concurrency is not modelled: the clock driver's spinlock, the threaded IRQ, and per-CPU storage, which is a map from CPU number to flag.
- ClkMsm8937.Gcc: MMIO registers are modelled as memory that returns the last value written. Side effects of hardware reads, and bits that change on their own, are not captured, apart from the polled ACTIVE bit: its polling reads are not logged, and the final status value is a parameter.
- ClkMsm8937.Gcc.MeasureClk: the write of `mux_val` to a per-item `mux_addr` is not logged, because no table row sets `mux_addr`. Only its ioremap failure path is modelled.
- The clock driver's debugfs plumbing is left out. That covers `gcc_debug_measure_all`, which only prints, and the probe and remove that create and drop debugfs files.
- Zinitix.Bt541.Probe: the `-ENOMEM` returns of `devm_kzalloc` and of input-device allocation are not modelled. Regulator lookup and enable are one parameter each.
- The touchscreen's `kmalloc` in `zinitix_write_data` is assumed to succeed, as the driver does.
- DRM `get_modes`, connector plumbing, backlight registration and power-supply registration are left out.
- The probes of the S6E88A0 and Tianma 499 panels are left out. They look up their regulators and GPIOs, check the result of `drm_panel_add`, and, unlike the other three panels, do not remove the panel when `mipi_dsi_attach` fails. `Dsi.Probe` states only the shape of the other three probes.
- The vendor init bytes in the panels' `_on` functions are constant command lists. Nothing is proved about them beyond "sent in order, stop at the first failure".
- The panel constructors require an empty DSI log, which stands for the state probe leaves: reset at its requested level and supplies off.
- DumbAdcBattery.CapacityOf: requires a range of at least 100 µV on the in-range branch. There the driver divides by `(max - min) / 100`, which is zero for a narrower range.
- DumbAdcBattery.GetProperty: the `iio_read_channel_raw` that VOLTAGE_NOW issues before the processed read is not modelled, because its result is discarded.
- DumbAdcBattery.Probe: the allocation, channel, registration and battery-info results are parameters. The driver registers the supply before reading the battery information, so the supply may be queried with zeroed design voltages. That ordering is not modelled.

## Findings

| source | as written | input that shows it | evidently intended | confidence | as-written member | corrected member |
|---|---|---|---|---|---|---|
| drivers/input/touchscreen/zinitix.c:210 | `zinitix_init_touch` is declared `bool` but returns the int error of its first failed write, so every error becomes 1 and probe returns 1 | the SWRESET write fails with -EIO: probe still fails but returns 1 instead of -EIO | return the negative errno, which probe passes on | not executed | Zinitix.BringUpResultAsWritten | Zinitix.BringUpResult |
| drivers/clk/qcom/debug-msm8937.c:284 | `gcc_debug_measure_named` ignores the status of `gcc_debug_measure_clk` and returns the untouched `freq` of 0 | gcc_base unmapped: the measurement fails with -EINVAL and the named lookup reports 0 Hz | pass the measurement's error on, as the function's other error exits do | not executed | ClkMsm8937.NamedResultAsWritten | ClkMsm8937.NamedResult |
