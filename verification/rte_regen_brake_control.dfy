/** Runtime environment of the regenerative-braking controller
    (Rte_RegenBrakeControl): fixed configurations for the brake, battery and
    inclination adapters and null-checked reads. */
module RteRegenBrakeControl {
  import opened StdTypes
  import opened Adapter
  import opened IoHwAb
  import PedalSensor
  import ScaledSensor
  import BatterySoc

  const BRAKE_SENSOR_CONFIG: PedalSensor.Config := PedalSensor.Config(4)
  const BATTERY_SOC_CONFIG: BatterySoc.Config := BatterySoc.Config(5, 6, 50)
  const INCLINATION_SENSOR_CONFIG: ScaledSensor.Config := ScaledSensor.Config(7, 30)

  /** The three `Rte_Call_*_Init` ports, in the order the controller calls them. */
  datatype Port = BrakeSensor | BatterySocSensor | InclinationSensor

  const INIT_ORDER: seq<Port> := [BrakeSensor, BatterySocSensor, InclinationSensor]

  /** Rte_Call_*_Init: hands the port's fixed configuration to its adapter's
      Init and returns that Init's status. */
  function CallInit(port: Port, hw: Configs): (r: InitResult)
    ensures r.status == E_OK
    ensures port == BrakeSensor ==> r.hw == hw.(brake := BRAKE_SENSOR_CONFIG)
    ensures port == BatterySocSensor ==> r.hw == hw.(battery := BATTERY_SOC_CONFIG)
    ensures port == InclinationSensor ==> r.hw == hw.(inclination := INCLINATION_SENSOR_CONFIG)
  {
    match port
    case BrakeSensor =>
      var o := PedalSensor.Init(Some(BRAKE_SENSOR_CONFIG), hw.brake);
      InitResult(o.status, hw.(brake := o.stored))
    case BatterySocSensor =>
      var o := BatterySoc.Init(Some(BATTERY_SOC_CONFIG), hw.battery);
      InitResult(o.status, hw.(battery := o.stored))
    case InclinationSensor =>
      var o := ScaledSensor.Init(Some(INCLINATION_SENSOR_CONFIG), hw.inclination);
      InitResult(o.status, hw.(inclination := o.stored))
  }

  /** The configurations after every port in INIT_ORDER has been initialised. */
  predicate Bound(hw: Configs) {
    hw.brake == BRAKE_SENSOR_CONFIG && hw.battery == BATTERY_SOC_CONFIG &&
    hw.inclination == INCLINATION_SENSOR_CONFIG
  }

  /** Calls CallInit for each port in turn and stops at the first E_NOT_OK. */
  function CallInits(ports: seq<Port>, hw: Configs): (r: InitResult)
    ensures r.status == E_OK
    ensures r.hw.throttle == hw.throttle && r.hw.speed == hw.speed && r.hw.load == hw.load &&
            r.hw.torque == hw.torque && r.hw.motor == hw.motor && r.hw.wheels == hw.wheels
  {
    if |ports| == 0 then InitResult(E_OK, hw)
    else
      var first := CallInit(ports[0], hw);
      if first.status != E_OK then first else CallInits(ports[1..], first.hw)
  }

  /** Running the three inits binds the brake, battery and inclination
      configurations. */
  lemma {:induction false} InitOrderBindsAll(hw: Configs)
    ensures Bound(CallInits(INIT_ORDER, hw).hw)
  {
    var h1 := CallInit(BrakeSensor, hw).hw;
    var h2 := CallInit(BatterySocSensor, h1).hw;
    var h3 := CallInit(InclinationSensor, h2).hw;
    var p1 := [BatterySocSensor, InclinationSensor];
    assert INIT_ORDER[1..] == p1;
    assert CallInits(INIT_ORDER, hw) == CallInits(p1, h1);
    assert CallInits(p1, h1) == CallInits(p1[1..], h2);
    assert CallInits(p1[1..], h2) == CallInits([], h3);
  }

  /** Rte_Read_RpBrakeSensor_BrakePosition: a null pointer is refused before
      the adapter is called; the result is the adapter's own either way. */
  function ReadBrakePosition(nullOut: bool, hw: Configs, adc: Adc): (r: ReadOutcome<real>)
    ensures nullOut ==> r == ReadOutcome(E_NOT_OK, None)
    ensures r == PedalSensor.Read(nullOut, hw.brake, adc)
  {
    if nullOut then ReadOutcome(E_NOT_OK, None) else PedalSensor.Read(false, hw.brake, adc)
  }

  /** Rte_Read_RpBatterySOC_BatterySOC: either null pointer is refused and
      nothing is written; otherwise the adapter's result, partial write
      included. */
  function ReadBatterySoc(socNull: bool, tempNull: bool, hw: Configs, adc: Adc): (r: BatterySoc.BatteryReading)
    ensures socNull || tempNull ==> r == BatterySoc.BatteryReading(E_NOT_OK, None, None)
    ensures r == BatterySoc.Read(socNull, tempNull, hw.battery, adc)
  {
    if socNull || tempNull then BatterySoc.BatteryReading(E_NOT_OK, None, None)
    else BatterySoc.Read(false, false, hw.battery, adc)
  }

  /** Rte_Read_RpInclinationSensor_Inclination, null-checked like the brake read. */
  function ReadInclination(nullOut: bool, hw: Configs, adc: Adc): (r: ReadOutcome<real>)
    ensures nullOut ==> r == ReadOutcome(E_NOT_OK, None)
    ensures r == ScaledSensor.Read(nullOut, hw.inclination, adc)
  {
    if nullOut then ReadOutcome(E_NOT_OK, None) else ScaledSensor.Read(false, hw.inclination, adc)
  }

  /** With this configuration and the converter in range, an inclination read
      lies in [0, 30] degrees: the vehicle never reads as going downhill. */
  lemma InclinationInRange(hw: Configs, adc: Adc)
    requires hw.inclination == INCLINATION_SENSOR_CONFIG
    requires AdcInRange(adc)
    ensures var r := ReadInclination(false, hw, adc);
      r.written.Some? ==> 0.0 <= r.written.value <= 30.0
  {
  }

  /** With this configuration the battery temperature reaches 50 degrees (the
      controller's thermal limit) only at the top raw value 1023. */
  lemma TemperatureLimitOnlyAtFullScale(hw: Configs, adc: Adc)
    requires hw.battery == BATTERY_SOC_CONFIG
    requires AdcInRange(adc)
    ensures var r := ReadBatterySoc(false, false, hw, adc);
      r.temp.Some? ==> (r.temp.value >= 50.0 <==> adc(BATTERY_SOC_CONFIG.tempChannel).value == ADC_MAX_RAW)
  {
  }
}
