/** Runtime environment of the torque controller (Rte_TorqueControl): binds
    fixed configurations to the throttle, speed, load and torque sensors and
    to the motor driver, and forwards reads and the torque write. */
module RteTorqueControl {
  import opened StdTypes
  import opened Adapter
  import opened IoHwAb
  import PedalSensor
  import ScaledSensor
  import MotorDriver

  const THROTTLE_SENSOR_CONFIG: PedalSensor.Config := PedalSensor.Config(0)
  const SPEED_SENSOR_CONFIG: ScaledSensor.Config := ScaledSensor.Config(1, 200)
  const LOAD_SENSOR_CONFIG: ScaledSensor.Config := ScaledSensor.Config(2, 1000)
  const TORQUE_SENSOR_CONFIG: ScaledSensor.Config := ScaledSensor.Config(3, 500)
  const MOTOR_DRIVER_CONFIG: MotorDriver.Config := MotorDriver.Config(1, 300)

  /** The five `Rte_Call_*_Init` ports, in the order the controller calls them. */
  datatype Port = ThrottleSensor | SpeedSensor | LoadSensor | TorqueSensor | MotorDriverPort

  const INIT_ORDER: seq<Port> := [ThrottleSensor, SpeedSensor, LoadSensor, TorqueSensor, MotorDriverPort]

  /** Rte_Call_*_Init: hands the port's fixed configuration to its adapter's
      Init and returns that Init's status. Only that adapter's configuration
      changes. */
  function CallInit(port: Port, hw: Configs): (r: InitResult)
    ensures r.status == E_OK
    ensures port == ThrottleSensor ==> r.hw == hw.(throttle := THROTTLE_SENSOR_CONFIG)
    ensures port == SpeedSensor ==> r.hw == hw.(speed := SPEED_SENSOR_CONFIG)
    ensures port == LoadSensor ==> r.hw == hw.(load := LOAD_SENSOR_CONFIG)
    ensures port == TorqueSensor ==> r.hw == hw.(torque := TORQUE_SENSOR_CONFIG)
    ensures port == MotorDriverPort ==> r.hw == hw.(motor := MOTOR_DRIVER_CONFIG)
  {
    match port
    case ThrottleSensor =>
      var o := PedalSensor.Init(Some(THROTTLE_SENSOR_CONFIG), hw.throttle);
      InitResult(o.status, hw.(throttle := o.stored))
    case SpeedSensor =>
      var o := ScaledSensor.Init(Some(SPEED_SENSOR_CONFIG), hw.speed);
      InitResult(o.status, hw.(speed := o.stored))
    case LoadSensor =>
      var o := ScaledSensor.Init(Some(LOAD_SENSOR_CONFIG), hw.load);
      InitResult(o.status, hw.(load := o.stored))
    case TorqueSensor =>
      var o := ScaledSensor.Init(Some(TORQUE_SENSOR_CONFIG), hw.torque);
      InitResult(o.status, hw.(torque := o.stored))
    case MotorDriverPort =>
      var o := MotorDriver.Init(Some(MOTOR_DRIVER_CONFIG), hw.motor);
      InitResult(o.status, hw.(motor := o.stored))
  }

  /** The configurations after every port in INIT_ORDER has been initialised. */
  predicate Bound(hw: Configs) {
    hw.throttle == THROTTLE_SENSOR_CONFIG && hw.speed == SPEED_SENSOR_CONFIG &&
    hw.load == LOAD_SENSOR_CONFIG && hw.torque == TORQUE_SENSOR_CONFIG &&
    hw.motor == MOTOR_DRIVER_CONFIG
  }

  /** Calls CallInit for each port in turn and stops at the first E_NOT_OK. */
  function CallInits(ports: seq<Port>, hw: Configs): (r: InitResult)
    ensures r.status == E_OK
    ensures r.hw.brake == hw.brake && r.hw.inclination == hw.inclination &&
            r.hw.battery == hw.battery && r.hw.wheels == hw.wheels
  {
    if |ports| == 0 then InitResult(E_OK, hw)
    else
      var first := CallInit(ports[0], hw);
      if first.status != E_OK then first else CallInits(ports[1..], first.hw)
  }

  /** Running all five inits binds all five configurations and touches no
      other adapter. */
  lemma {:induction false} InitOrderBindsAll(hw: Configs)
    ensures Bound(CallInits(INIT_ORDER, hw).hw)
  {
    var h1 := CallInit(ThrottleSensor, hw).hw;
    var h2 := CallInit(SpeedSensor, h1).hw;
    var h3 := CallInit(LoadSensor, h2).hw;
    var h4 := CallInit(TorqueSensor, h3).hw;
    var h5 := CallInit(MotorDriverPort, h4).hw;
    var p1 := [SpeedSensor, LoadSensor, TorqueSensor, MotorDriverPort];
    assert INIT_ORDER[1..] == p1;
    assert CallInits(INIT_ORDER, hw) == CallInits(p1, h1);
    assert CallInits(p1, h1) == CallInits(p1[1..], h2);
    assert CallInits(p1[1..], h2) == CallInits(p1[2..], h3);
    assert CallInits(p1[2..], h3) == CallInits(p1[3..], h4);
    assert CallInits(p1[3..], h4) == CallInits([], h5);
    assert CallInits(INIT_ORDER, hw).hw == h5;
  }

  /** Rte_Read_RpThrottleSensor_ThrottlePosition: a null pointer is refused
      before the adapter is called. The adapter refuses it the same way, so the
      result is the adapter's own. */
  function ReadThrottlePosition(nullOut: bool, hw: Configs, adc: Adc): (r: ReadOutcome<real>)
    ensures nullOut ==> r == ReadOutcome(E_NOT_OK, None)
    ensures r == PedalSensor.Read(nullOut, hw.throttle, adc)
  {
    if nullOut then ReadOutcome(E_NOT_OK, None) else PedalSensor.Read(false, hw.throttle, adc)
  }

  /** Rte_Read_RpSpeedSensor_Speed, null-checked like the throttle read. */
  function ReadSpeed(nullOut: bool, hw: Configs, adc: Adc): (r: ReadOutcome<real>)
    ensures nullOut ==> r == ReadOutcome(E_NOT_OK, None)
    ensures r == ScaledSensor.Read(nullOut, hw.speed, adc)
  {
    if nullOut then ReadOutcome(E_NOT_OK, None) else ScaledSensor.Read(false, hw.speed, adc)
  }

  /** Rte_Read_RpLoadSensor_LoadWeight, null-checked like the throttle read. */
  function ReadLoadWeight(nullOut: bool, hw: Configs, adc: Adc): (r: ReadOutcome<real>)
    ensures nullOut ==> r == ReadOutcome(E_NOT_OK, None)
    ensures r == ScaledSensor.Read(nullOut, hw.load, adc)
  {
    if nullOut then ReadOutcome(E_NOT_OK, None) else ScaledSensor.Read(false, hw.load, adc)
  }

  /** Rte_Read_RpTorqueSensor_ActualTorque, null-checked like the throttle read. */
  function ReadActualTorque(nullOut: bool, hw: Configs, adc: Adc): (r: ReadOutcome<real>)
    ensures nullOut ==> r == ReadOutcome(E_NOT_OK, None)
    ensures r == ScaledSensor.Read(nullOut, hw.torque, adc)
  {
    if nullOut then ReadOutcome(E_NOT_OK, None) else ScaledSensor.Read(false, hw.torque, adc)
  }

  /** Rte_Write_PpMotorDriver_SetTorque: the value reaches the motor driver
      unchanged, so the driver's range check is the only one. */
  function WriteMotorTorque(hw: Configs, torque: real): (r: MotorDriver.TorqueRequest)
    requires 0 < hw.motor.maxTorque || torque != 0.0
    ensures r == MotorDriver.SetTorque(hw.motor, torque)
    ensures r.status == E_OK <==> 0.0 <= torque <= hw.motor.maxTorque as real
    ensures r.command.Some? <==> r.status == E_OK
    ensures r.command.Some? ==>
      r.command.value.channel == hw.motor.channel &&
      r.command.value.dutyCycle as real * hw.motor.maxTorque as real <= torque * 100.0 &&
      torque * 100.0 < (r.command.value.dutyCycle + 1) as real * hw.motor.maxTorque as real
  {
    MotorDriver.SetTorque(hw.motor, torque)
  }
}
