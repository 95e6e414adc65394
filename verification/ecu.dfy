/** The three control tasks of Main.c. Each task runs its Init once and then
    repeats its Update, every call under the one mutex, so the controller is
    a sequence of atomic steps on the shared globals in any task order. */
module Ecu {
  import opened StdTypes
  import IoHwAb
  import Vehicle
  import TorqueControl
  import RegenBrakeControl
  import TractionControl
  import RteTorqueControl
  import RteRegenBrakeControl
  import RteTractionControl

  datatype Task = TorqueTask | RegenTask | TractionTask

  /** The shared globals, every adapter's stored configuration, and the tasks
      that have finished their Init. */
  datatype Ecu = Ecu(vehicle: Vehicle.State, hw: IoHwAb.Configs, started: set<Task>)

  /** Start-up: zero-initialised globals, no task started. */
  const BOOT: Ecu := Ecu(Vehicle.INITIAL, IoHwAb.INITIAL, {})

  /** What every step needs: the fixed shapes, and a motor maximum the duty
      cycle can divide by once the torque task has started. */
  predicate Ready(e: Ecu) {
    IoHwAb.WellFormed(e.hw) && Vehicle.WellFormed(e.vehicle) &&
    (TorqueTask in e.started ==> 0 < e.hw.motor.maxTorque)
  }

  /** One critical section of `task`: its Init the first time it runs, one
      Update afterwards. `adc` is what the converter delivers meanwhile. */
  function Step(e: Ecu, task: Task, adc: Adc): (r: Ecu)
    requires Ready(e)
    ensures Ready(r)
    ensures r.started == e.started + {task}
    ensures task !in e.started ==> r.vehicle == e.vehicle
    ensures task in e.started ==> r.hw == e.hw
    ensures task !in e.started ==>
      (task == TorqueTask ==> (r.vehicle, r.hw) == TorqueControl.Init(e.vehicle, e.hw)) &&
      (task == RegenTask ==> (r.vehicle, r.hw) == RegenBrakeControl.Init(e.vehicle, e.hw)) &&
      (task == TractionTask ==> (r.vehicle, r.hw) == TractionControl.Init(e.vehicle, e.hw))
    ensures task in e.started ==>
      (task == TorqueTask ==> r.vehicle == TorqueControl.Update(e.vehicle, e.hw, adc).state) &&
      (task == RegenTask ==> r.vehicle == RegenBrakeControl.Update(e.vehicle, e.hw, adc).state) &&
      (task == TractionTask ==> r.vehicle == TractionControl.Update(e.vehicle, e.hw, adc).state)
  {
    if task !in e.started then
      match task
      case TorqueTask =>
        var (v, hw) := TorqueControl.Init(e.vehicle, e.hw);
        Ecu(v, hw, e.started + {task})
      case RegenTask =>
        var (v, hw) := RegenBrakeControl.Init(e.vehicle, e.hw);
        Ecu(v, hw, e.started + {task})
      case TractionTask =>
        var (v, hw) := TractionControl.Init(e.vehicle, e.hw);
        Ecu(v, hw, e.started + {task})
    else
      match task
      case TorqueTask => e.(vehicle := TorqueControl.Update(e.vehicle, e.hw, adc).state)
      case RegenTask => e.(vehicle := RegenBrakeControl.Update(e.vehicle, e.hw, adc).state)
      case TractionTask => e.(vehicle := TractionControl.Update(e.vehicle, e.hw, adc).state)
  }

  /** The facts about the globals that hold in every reachable state. */
  predicate Inv(e: Ecu) {
    Ready(e) &&
    (TorqueTask in e.started ==> RteTorqueControl.Bound(e.hw)) &&
    (RegenTask in e.started ==> RteRegenBrakeControl.Bound(e.hw)) &&
    (TractionTask in e.started ==> e.hw.wheels == RteTractionControl.WHEEL_CONFIGS) &&
    var v := e.vehicle;
    TorqueControl.MIN_TORQUE <= v.desiredTorque <= TorqueControl.MAX_TORQUE &&
    !v.regenActive &&
    0.0 <= v.inclination <= 30.0 &&
    v.throttle <= 1.0 && v.brake <= 1.0 &&
    forall i :: 0 <= i < Vehicle.WHEELS ==> 0.0 <= v.wheels[i] <= RteTractionControl.WHEEL_MAX as real
  }

  lemma BootSatisfiesInv()
    ensures Inv(BOOT)
  {
  }

  /** Every step, in any task order, keeps the invariant while the converter
      stays in its 0..1023 range. */
  lemma StepPreservesInv(e: Ecu, task: Task, adc: Adc)
    requires Inv(e)
    requires AdcInRange(adc)
    ensures Inv(Step(e, task, adc))
  {
    var r := Step(e, task, adc);
    if task in e.started {
      match task
      case TorqueTask =>
      case RegenTask =>
        RegenBrakeControl.UpdateNeverActivates(e.vehicle, e.hw, adc);
        RegenBrakeControl.NeverDownhill(e.vehicle, e.hw, adc);
      case TractionTask =>
        TractionControl.BrakeStaysAtMostOne(e.vehicle, e.hw, adc);
        RteTractionControl.ConfiguredReadInRange(e.hw, adc);
    }
  }

  /** One task activation: which task took the mutex and what the converter
      delivered during its step. */
  datatype Slot = Slot(task: Task, adc: Adc)

  /** The state after the activations of `schedule`, in order. */
  function Run(e: Ecu, schedule: seq<Slot>): (r: Ecu)
    requires Ready(e)
    ensures Ready(r)
    ensures r.started == e.started + set i | 0 <= i < |schedule| :: schedule[i].task
    decreases |schedule|
  {
    if |schedule| == 0 then e
    else
      var r := Run(Step(e, schedule[0].task, schedule[0].adc), schedule[1..]);
      assert forall i :: 1 <= i < |schedule| ==> schedule[i] == schedule[1..][i - 1];
      r
  }

  /** The invariant holds after any interleaving of the tasks. */
  lemma {:induction false} RunPreservesInv(e: Ecu, schedule: seq<Slot>)
    requires Inv(e)
    requires forall i :: 0 <= i < |schedule| ==> AdcInRange(schedule[i].adc)
    ensures Inv(Run(e, schedule))
    decreases |schedule|
  {
    if |schedule| > 0 {
      StepPreservesInv(e, schedule[0].task, schedule[0].adc);
      var tail := schedule[1..];
      assert forall i :: 0 <= i < |tail| ==> tail[i] == schedule[i + 1];
      RunPreservesInv(Step(e, schedule[0].task, schedule[0].adc), tail);
    }
  }

  /** In every reachable state regeneration is inactive, the desired torque
      lies in [0, 100] and, once the torque task has started, the motor driver
      accepts the torque its next update sends. */
  lemma ReachableStateFacts(schedule: seq<Slot>, adc: Adc)
    requires forall i :: 0 <= i < |schedule| ==> AdcInRange(schedule[i].adc)
    ensures var e := Run(BOOT, schedule);
      !e.vehicle.regenActive &&
      TorqueControl.MIN_TORQUE <= e.vehicle.desiredTorque <= TorqueControl.MAX_TORQUE &&
      (TorqueTask in e.started ==> TorqueControl.Update(e.vehicle, e.hw, adc).motor.status == E_OK)
  {
    BootSatisfiesInv();
    RunPreservesInv(BOOT, schedule);
    var e := Run(BOOT, schedule);
    if TorqueTask in e.started {
      TorqueControl.MotorAcceptsDesiredTorque(e.vehicle, e.hw, adc);
    }
  }
}
