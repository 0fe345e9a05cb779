/**
 * A battery whose only sensor is an ADC channel giving the voltage in µV.
 * Health and capacity are derived from that voltage and the design minimum
 * and maximum voltages of the battery information.
 */
module DumbAdcBattery {
  import opened Kernel

  /** enum power_supply_health values the driver reports. */
  const POWER_SUPPLY_HEALTH_GOOD: int := 1
  const POWER_SUPPLY_HEALTH_DEAD: int := 3
  const POWER_SUPPLY_HEALTH_OVERVOLTAGE: int := 4

  /** The properties the driver lists, and any other the core may ask for. */
  datatype Property = Health | Capacity | VoltageNow | VoltageMinDesign | VoltageMaxDesign | Other

  /** The design voltages of power_supply_battery_info, in µV. */
  datatype Info = Info(minUv: int, maxUv: int)

  /** One iio_read_channel_processed: its status and the value it left in intval. */
  datatype Reading = Reading(ret: int, uv: int)

  /** What get_property returns, and the value left in val->intval (None: not written). */
  datatype Answer = Answer(ret: int, intval: Option<int>)

  /** The classification of the HEALTH property: below, above or inside the design range. */
  function HealthOf(info: Info, uv: int): (h: int)
    ensures h == POWER_SUPPLY_HEALTH_DEAD <==> uv < info.minUv
    ensures h == POWER_SUPPLY_HEALTH_OVERVOLTAGE <==> info.minUv <= uv && info.maxUv < uv
    ensures h == POWER_SUPPLY_HEALTH_GOOD <==> info.minUv <= uv <= info.maxUv
  {
    if uv < info.minUv then POWER_SUPPLY_HEALTH_DEAD
    else if uv > info.maxUv then POWER_SUPPLY_HEALTH_OVERVOLTAGE
    else POWER_SUPPLY_HEALTH_GOOD
  }

  /** The step of the in-range formula: one percent of the design range, truncated. */
  function Step(info: Info): int
  {
    (info.maxUv - info.minUv) / 100
  }

  /**
   * The CAPACITY property: 0 below the range, 100 above it, and inside it
   * the distance from the minimum in whole steps of one percent of the
   * range.  Inside the range both operands are non-negative, so C's
   * truncating division is Dafny's.  The divisor is zero when the range is
   * narrower than 100 µV; the driver does not guard against that.
   */
  function CapacityOf(info: Info, uv: int): (c: int)
    requires info.minUv <= uv <= info.maxUv ==> Step(info) > 0
    ensures c >= 0
    ensures uv < info.minUv ==> c == 0
    ensures info.minUv <= uv && info.maxUv < uv ==> c == 100
    ensures info.minUv <= uv <= info.maxUv ==>
      c * Step(info) <= uv - info.minUv < (c + 1) * Step(info)
  {
    if uv < info.minUv then 0
    else if uv > info.maxUv then 100
    else (uv - info.minUv) / Step(info)
  }

  /** dumb_adc_battery_get_property. */
  function GetProperty(info: Info, psp: Property, read: Reading): (a: Answer)
    requires psp == Capacity && info.minUv <= read.uv <= info.maxUv ==> Step(info) > 0
    ensures psp == Health ==> a == Answer(read.ret, Some(HealthOf(info, read.uv)))
    ensures psp == Capacity ==> a == Answer(read.ret, Some(CapacityOf(info, read.uv)))
    ensures psp == VoltageNow ==> a == Answer(read.ret, Some(read.uv))
    ensures psp == VoltageMinDesign ==> a == Answer(0, Some(info.minUv))
    ensures psp == VoltageMaxDesign ==> a == Answer(0, Some(info.maxUv))
    ensures psp == Other ==> a == Answer(-EINVAL, None)
  {
    match psp
    case Health => Answer(read.ret, Some(HealthOf(info, read.uv)))
    case Capacity => Answer(read.ret, Some(CapacityOf(info, read.uv)))
    case VoltageNow => Answer(read.ret, Some(read.uv))
    case VoltageMinDesign => Answer(0, Some(info.minUv))
    case VoltageMaxDesign => Answer(0, Some(info.maxUv))
    case Other => Answer(-EINVAL, None)
  }

  /** Non-negative integer division is monotone in the dividend. */
  lemma DivMonotone(a: int, b: int, d: int)
    requires 0 <= a <= b && d > 0
    ensures a / d <= b / d
  {
    if a / d > b / d {
      MulMonotone(b / d + 1, a / d, d);
    }
  }

  lemma MulMonotone(a: int, b: int, d: int)
    requires a <= b && d >= 0
    ensures a * d <= b * d
  {
    assert b * d - a * d == (b - a) * d;
  }

  /**
   * When one percent of the range, truncated, exceeds what the truncation
   * dropped, every voltage reads between 0 and 100 percent.
   */
  lemma CapacityBounded(info: Info, uv: int)
    requires Step(info) > (info.maxUv - info.minUv) % 100
    ensures 0 <= CapacityOf(info, uv) <= 100
  {
    if info.minUv <= uv <= info.maxUv {
      var d, r := Step(info), (info.maxUv - info.minUv) % 100;
      var c := CapacityOf(info, uv);
      assert info.maxUv - info.minUv == 100 * d + r;
      if c > 100 {
        MulMonotone(101, c, d);
      }
    }
  }

  /**
   * Otherwise the maximum voltage reads above 100 percent: the bound above
   * holds exactly when the step exceeds the remainder.
   */
  lemma CapacityOverflows(info: Info)
    requires 0 < Step(info) <= (info.maxUv - info.minUv) % 100
    ensures CapacityOf(info, info.maxUv) > 100
  {
    var d, r := Step(info), (info.maxUv - info.minUv) % 100;
    var c := CapacityOf(info, info.maxUv);
    assert info.maxUv - info.minUv == 100 * d + r;
    if c <= 100 {
      MulMonotone(c + 1, 101, d);
    }
  }

  /** Within a range whose percentages stay bounded, more voltage never reads less capacity. */
  lemma CapacityMonotone(info: Info, v1: int, v2: int)
    requires Step(info) > (info.maxUv - info.minUv) % 100
    requires v1 <= v2
    ensures CapacityOf(info, v1) <= CapacityOf(info, v2)
  {
    CapacityBounded(info, v1);
    if info.minUv <= v1 && v2 <= info.maxUv {
      DivMonotone(v1 - info.minUv, v2 - info.minUv, Step(info));
    }
  }

  /**
   * dumb_adc_battery_probe: allocation, the ADC channel, registration and
   * the battery information, then the two design voltages must not be
   * negative; a negative one is itself the error returned.  The results of
   * the kernel calls are parameters.
   */
  function Probe(allocOk: bool, channelGet: int, register: int, batteryInfo: int, info: Info): (ret: int)
    requires channelGet <= 0 && register <= 0 && batteryInfo <= 0
    ensures ret <= 0
    ensures ret == 0 <==>
      allocOk && channelGet == 0 && register == 0 && batteryInfo == 0 && info.minUv >= 0 && info.maxUv >= 0
    ensures !allocOk ==> ret == -ENOMEM
    ensures allocOk && channelGet < 0 ==> ret == channelGet
    ensures allocOk && channelGet == 0 && register < 0 ==> ret == register
    ensures allocOk && channelGet == 0 && register == 0 && batteryInfo < 0 ==> ret == batteryInfo
    ensures allocOk && channelGet == 0 && register == 0 && batteryInfo == 0 ==>
      (info.minUv < 0 ==> ret == info.minUv) && (info.minUv >= 0 && info.maxUv < 0 ==> ret == info.maxUv)
  {
    if !allocOk then -ENOMEM
    else if channelGet < 0 then channelGet
    else if register < 0 then register
    else if batteryInfo != 0 then batteryInfo
    else if info.minUv < 0 then info.minUv
    else if info.maxUv < 0 then info.maxUv
    else 0
  }
}
