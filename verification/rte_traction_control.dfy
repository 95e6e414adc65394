/** Runtime environment of the traction controller (Rte_TractionControl):
    the four-wheel configuration and the wheel-velocity read, which is
    forwarded without a null check. */
module RteTractionControl {
  import opened StdTypes
  import opened Adapter
  import opened IoHwAb
  import WheelAngularVelocity

  /** Front-right, front-left, rear-right, rear-left: ADC channels 8..11, all
      150 rad/s at full scale. */
  const WHEEL_CONFIGS: seq<WheelAngularVelocity.Config> := [
    WheelAngularVelocity.Config(8, 150),
    WheelAngularVelocity.Config(9, 150),
    WheelAngularVelocity.Config(10, 150),
    WheelAngularVelocity.Config(11, 150)]

  const WHEEL_MAX: uint16 := 150

  /** Rte_Call_RpWheelAngularVelSensor_Init: returns the adapter's status. */
  function CallWheelInit(hw: Configs): (r: InitResult)
    requires WellFormed(hw)
    ensures WellFormed(r.hw)
    ensures r.status == E_OK
    ensures r.hw == hw.(wheels := WHEEL_CONFIGS)
  {
    var o := WheelAngularVelocity.Init(Some(WHEEL_CONFIGS), hw.wheels);
    InitResult(o.status, hw.(wheels := o.stored))
  }

  /** Rte_Read_RpWheelAngularVelSensor_AngularVel: the adapter is called
      directly; it succeeds exactly when all four conversions do. */
  function ReadAngularVel(hw: Configs, adc: Adc): (r: WheelAngularVelocity.WheelReading)
    requires WellFormed(hw)
    ensures r == WheelAngularVelocity.Read(hw.wheels, adc)
    ensures r.status == E_OK <==>
      forall i :: 0 <= i < WheelAngularVelocity.WHEEL_NUMBERS ==> adc(hw.wheels[i].channel).Some?
    ensures r.written.Some? <==> r.status == E_OK
    ensures r.written.Some? ==> |r.written.value| == WheelAngularVelocity.WHEEL_NUMBERS
  {
    WheelAngularVelocity.Read(hw.wheels, adc)
  }

  /** With this configuration every wheel has maximum 150, so scaling all of
      them by the first wheel's maximum gives each wheel its own reading. */
  lemma ConfiguredReadIsPerWheel(hw: Configs, adc: Adc)
    requires hw.wheels == WHEEL_CONFIGS
    ensures var r := ReadAngularVel(hw, adc);
      r.written.Some? ==>
        forall i :: 0 <= i < WheelAngularVelocity.WHEEL_NUMBERS ==>
          r.written.value[i] == Scale(adc(WHEEL_CONFIGS[i].channel).value, WHEEL_CONFIGS[i].maxValue)
  {
    WheelAngularVelocity.UniformMaximumIsPerWheel(hw.wheels, adc);
  }

  /** With this configuration and the converter in range every wheel reads in
      [0, 150] rad/s. */
  lemma ConfiguredReadInRange(hw: Configs, adc: Adc)
    requires hw.wheels == WHEEL_CONFIGS
    requires AdcInRange(adc)
    ensures var r := ReadAngularVel(hw, adc);
      r.written.Some? ==>
        forall i :: 0 <= i < WheelAngularVelocity.WHEEL_NUMBERS ==>
          0.0 <= r.written.value[i] <= WHEEL_MAX as real
  {
    WheelAngularVelocity.ReadInRange(hw.wheels, adc);
  }
}
