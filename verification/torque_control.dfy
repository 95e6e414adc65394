/** Torque controller (Torque_Control.c): turns the throttle, speed and load
    readings into a desired motor torque, sends it to the motor and compares
    it with the measured torque. */
module TorqueControl {
  import opened StdTypes
  import opened Adapter
  import opened IoHwAb
  import opened Vehicle
  import Rte = RteTorqueControl
  import PedalSensor
  import ScaledSensor
  import MotorDriver

  const MAX_TORQUE: real := 100.0
  const MIN_TORQUE: real := 0.0
  /** Above this speed (km/h, strict) the request is derated. */
  const DERATE_SPEED: real := 50.0
  const DERATE_FACTOR: real := 0.8
  /** Above this load (kg, strict) the request is boosted. */
  const BOOST_LOAD: real := 500.0
  const LOAD_BOOST: real := 10.0

  /** The requested torque before clamping: throttle times MAX_TORQUE, derated
      at high speed, then boosted under heavy load. */
  function RequestedTorque(throttle: real, speed: real, load: real): (t: real)
    ensures speed <= DERATE_SPEED && load <= BOOST_LOAD ==> t == throttle * 100.0
    ensures speed > DERATE_SPEED && load <= BOOST_LOAD ==> t == throttle * 80.0
    ensures speed <= DERATE_SPEED && load > BOOST_LOAD ==> t == throttle * 100.0 + 10.0
    ensures speed > DERATE_SPEED && load > BOOST_LOAD ==> t == throttle * 80.0 + 10.0
  {
    var base := throttle * MAX_TORQUE;
    var derated := if speed > DERATE_SPEED then base * DERATE_FACTOR else base;
    if load > BOOST_LOAD then derated + LOAD_BOOST else derated
  }

  /** Limits a torque to [MIN_TORQUE, MAX_TORQUE]. */
  function Clamp(t: real): (c: real)
    ensures MIN_TORQUE <= c <= MAX_TORQUE
    ensures MIN_TORQUE <= t <= MAX_TORQUE ==> c == t
    ensures t > MAX_TORQUE ==> c == MAX_TORQUE
    ensures t < MIN_TORQUE ==> c == MIN_TORQUE
  {
    if t > MAX_TORQUE then MAX_TORQUE
    else if t < MIN_TORQUE then MIN_TORQUE
    else t
  }

  /** desired_torque as computed in every update. */
  function DesiredTorque(throttle: real, speed: real, load: real): (t: real)
    ensures MIN_TORQUE <= t <= MAX_TORQUE
  {
    Clamp(RequestedTorque(throttle, speed, load))
  }

  /** Throttle 0.5 at 60 km/h with no load: 50 Nm derated to 40 Nm. */
  lemma DesiredTorqueScenario()
    ensures DesiredTorque(0.5, 60.0, 0.0) == 40.0
  {
  }

  /** With throttle and speed fixed, more load never lowers the desired torque. */
  lemma DesiredTorqueMonotoneInLoad(throttle: real, speed: real, load1: real, load2: real)
    requires load1 <= load2
    ensures DesiredTorque(throttle, speed, load1) <= DesiredTorque(throttle, speed, load2)
  {
  }

  /** A failed throttle read (-1.0) always yields zero desired torque, whatever
      the speed and load. */
  lemma FailedThrottleGivesZeroTorque(speed: real, load: real)
    ensures DesiredTorque(SENSOR_FAILED, speed, load) == MIN_TORQUE
  {
  }

  /** The advisory the update prints after reading the actual torque. */
  datatype Advice = IncreaseTorque | DecreaseTorque | OnTarget

  function Advise(actual: real, desired: real): (a: Advice)
    ensures a == IncreaseTorque <==> actual < desired
    ensures a == DecreaseTorque <==> actual > desired
    ensures a == OnTarget <==> actual == desired
  {
    if actual < desired then IncreaseTorque
    else if actual > desired then DecreaseTorque
    else OnTarget
  }

  /** The globals after an update, the motor driver's answer to the torque
      write, and the advisory. */
  datatype UpdateOutcome = UpdateOutcome(state: State, motor: MotorDriver.TorqueRequest, advice: Advice)

  /** The value a sensor variable holds after a read whose failure stores -1.0. */
  function ReadOrFailed(r: ReadOutcome<real>): (v: real)
    ensures r.status == E_OK && r.written.Some? ==> v == r.written.value
    ensures r.status != E_OK ==> v == SENSOR_FAILED
  {
    if r.status == E_OK && r.written.Some? then r.written.value else SENSOR_FAILED
  }

  /** Only the torque controller's own variables differ between s and t. */
  predicate OnlyTorqueVariablesChange(s: State, t: State) {
    t == s.(throttle := t.throttle, speed := t.speed, load := t.load,
            actualTorque := t.actualTorque, desiredTorque := t.desiredTorque)
  }

  /** TorqueControl_Update: reads throttle, speed and load (a failure stores
      -1.0), computes and clamps the desired torque, writes it to the motor,
      reads the actual torque (a failure keeps the previous value) and
      compares the two. */
  function Update(s: State, hw: Configs, adc: Adc): (o: UpdateOutcome)
    requires 0 < hw.motor.maxTorque
    ensures OnlyTorqueVariablesChange(s, o.state)
    ensures o.state.throttle ==
      if adc(hw.throttle.channel).Some? then PedalSensor.Position(adc(hw.throttle.channel).value) else SENSOR_FAILED
    ensures o.state.speed ==
      if adc(hw.speed.channel).Some? then Scale(adc(hw.speed.channel).value, hw.speed.maxValue) else SENSOR_FAILED
    ensures o.state.load ==
      if adc(hw.load.channel).Some? then Scale(adc(hw.load.channel).value, hw.load.maxValue) else SENSOR_FAILED
    ensures o.state.actualTorque ==
      if adc(hw.torque.channel).Some? then Scale(adc(hw.torque.channel).value, hw.torque.maxValue) else s.actualTorque
    ensures o.state.desiredTorque == DesiredTorque(o.state.throttle, o.state.speed, o.state.load)
    ensures MIN_TORQUE <= o.state.desiredTorque <= MAX_TORQUE
    ensures o.motor == MotorDriver.SetTorque(hw.motor, o.state.desiredTorque)
    ensures o.motor.status == E_OK <==> o.state.desiredTorque <= hw.motor.maxTorque as real
    ensures o.advice == Advise(o.state.actualTorque, o.state.desiredTorque)
  {
    var throttle := ReadOrFailed(Rte.ReadThrottlePosition(false, hw, adc));
    var speed := ReadOrFailed(Rte.ReadSpeed(false, hw, adc));
    var load := ReadOrFailed(Rte.ReadLoadWeight(false, hw, adc));
    var desired := DesiredTorque(throttle, speed, load);
    var motor := Rte.WriteMotorTorque(hw, desired);
    var actual := Stored(s.actualTorque, Rte.ReadActualTorque(false, hw, adc));
    var t := s.(throttle := throttle, speed := speed, load := load,
                actualTorque := actual, desiredTorque := desired);
    UpdateOutcome(t, motor, Advise(actual, desired))
  }

  /** With the motor configured by the runtime environment (300 Nm), the
      motor driver accepts every torque the controller sends. */
  lemma MotorAcceptsDesiredTorque(s: State, hw: Configs, adc: Adc)
    requires hw.motor == Rte.MOTOR_DRIVER_CONFIG
    ensures Update(s, hw, adc).motor.status == E_OK
  {
  }

  /** The globals after Init and how many `Rte_Call_*_Init` calls it made. */
  datatype InitReport = InitReport(state: State, attempted: nat)

  /** TorqueControl_Init given the statuses its five init calls return, in
      call order: it stops at the first failure; a failed throttle, speed or
      load init stores -1.0 in that variable, a failed torque-sensor or motor
      init changes nothing. */
  function InitChain(s: State, statuses: seq<StdReturn>): (r: InitReport)
    requires |statuses| == |Rte.INIT_ORDER|
    ensures 1 <= r.attempted <= |statuses|
    ensures forall i :: 0 <= i < r.attempted - 1 ==> statuses[i] == E_OK
    ensures r.attempted < |statuses| ==> statuses[r.attempted - 1] == E_NOT_OK
    ensures r.state == s.(throttle := r.state.throttle, speed := r.state.speed, load := r.state.load)
    ensures r.state.throttle == if statuses[0] == E_NOT_OK then SENSOR_FAILED else s.throttle
    ensures r.state.speed ==
      if r.attempted == 2 && statuses[1] == E_NOT_OK then SENSOR_FAILED else s.speed
    ensures r.state.load ==
      if r.attempted == 3 && statuses[2] == E_NOT_OK then SENSOR_FAILED else s.load
  {
    var k := FirstIndex(statuses, (status: StdReturn) => status != E_OK);
    if k == 0 then InitReport(s.(throttle := SENSOR_FAILED), 1)
    else if k == 1 then InitReport(s.(speed := SENSOR_FAILED), 2)
    else if k == 2 then InitReport(s.(load := SENSOR_FAILED), 3)
    else if k < |statuses| then InitReport(s, k + 1)
    else InitReport(s, |statuses|)
  }

  /** TorqueControl_Init against the runtime environment: every init call
      succeeds, so all five configurations are bound and no global changes. */
  function Init(s: State, hw: Configs): (r: (State, Configs))
    ensures r.0 == s
    ensures Rte.Bound(r.1)
    ensures r.1.brake == hw.brake && r.1.inclination == hw.inclination &&
            r.1.battery == hw.battery && r.1.wheels == hw.wheels
  {
    var bound := Rte.CallInits(Rte.INIT_ORDER, hw);
    Rte.InitOrderBindsAll(hw);
    var report := InitChain(s, seq(|Rte.INIT_ORDER|, _ => bound.status));
    (report.state, bound.hw)
  }
}
