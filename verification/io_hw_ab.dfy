/** The configurations every IoHwAb adapter keeps in its static
    `*_CurrentConfig` variable. C zero-initialises them, so before its Init an
    adapter reads channel 0 with maximum 0. */
module IoHwAb {
  import opened StdTypes
  import PedalSensor
  import ScaledSensor
  import BatterySoc
  import WheelAngularVelocity
  import MotorDriver

  datatype Configs = Configs(
    throttle: PedalSensor.Config,
    brake: PedalSensor.Config,
    speed: ScaledSensor.Config,
    load: ScaledSensor.Config,
    torque: ScaledSensor.Config,
    inclination: ScaledSensor.Config,
    battery: BatterySoc.Config,
    wheels: seq<WheelAngularVelocity.Config>,
    motor: MotorDriver.Config)

  /** The wheel adapter's array always holds exactly four entries. */
  predicate WellFormed(hw: Configs) {
    WheelAngularVelocity.WellFormed(hw.wheels)
  }

  /** Every adapter's configuration before any Init ran. */
  const INITIAL: Configs := Configs(
    PedalSensor.Config(0),
    PedalSensor.Config(0),
    ScaledSensor.Config(0, 0),
    ScaledSensor.Config(0, 0),
    ScaledSensor.Config(0, 0),
    ScaledSensor.Config(0, 0),
    BatterySoc.Config(0, 0, 0),
    seq(WheelAngularVelocity.WHEEL_NUMBERS, _ => WheelAngularVelocity.Config(0, 0)),
    MotorDriver.Config(0, 0))

  /** The status of an RTE init call and the adapter configurations after it. */
  datatype InitResult = InitResult(status: StdReturn, hw: Configs)
}
