/** The global variables the three control components share (defined in
    Torque_Control.c, Regen_Brake_Control.c and Traction_Control.c and
    reached from the others through `extern`). float32 is modelled as real. */
module Vehicle {
  import opened StdTypes

  /** The value a component stores in a sensor variable whose read failed. */
  const SENSOR_FAILED: real := -1.0

  /** Number of wheels, as in IoHwAb_WheelAngularVelocity.h. */
  const WHEELS: nat := 4

  datatype State = State(
    throttle: real,        // throttle_input, pedal fraction
    speed: real,           // current_speed, km/h
    load: real,            // load_weight, kg
    actualTorque: real,    // actual_torque, Nm
    desiredTorque: real,   // desired_torque, Nm
    brake: real,           // brake_input, pedal fraction
    inclination: real,     // inclination_angle, degrees
    batterySoc: uint16,    // battery_soc, percent
    batteryTemp: real,     // battery_temp, degrees Celsius
    regenActive: bool,     // regenbrake_active
    wheels: seq<real>)     // wheel_angular_vel, rad/s

  /** The wheel array always has one entry per wheel. */
  predicate WellFormed(s: State) {
    |s.wheels| == WHEELS
  }

  /** The globals' static initialisers: everything zero, regen inactive. */
  const INITIAL: State :=
    State(0.0, 0.0, 0.0, 0.0, 0.0, 0.0, 0.0, 0, 0.0, false, seq(WHEELS, _ => 0.0))
}
