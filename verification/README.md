# Electric-vehicle controller on AUTOSAR Classic — a Dafny model

This project models the control core of a small AUTOSAR-Classic-style
electric-vehicle ECU written in C.

- Three software components (SWCs):
  - torque control turns throttle, speed and load into a motor torque;
  - regenerative braking decides whether to regenerate and how much energy it yields;
  - traction control computes the wheel slip and corrects the brake or the throttle.
- The runtime environment (RTE) binds each SWC to its sensor configurations and forwards the reads.
- The I/O hardware abstraction (IoHwAb) has nine adapters. Each converts raw 10-bit ADC samples
  into physical values, or turns a torque into a PWM duty cycle.
- Three basic-software services:
  - the diagnostic event manager (Dem): a ten-slot event table;
  - the diagnostic communication manager (Dcm): dispatches on the service id;
  - a bookkeeping allocator (Mem): tracks up to 100 allocations.

## How the model is built

- **Values.** Every C `float32` is a Dafny `real`. `uint8` and `uint16` are subset types.
  Where the C code narrows an `int` into a `uint16`, the wrap-around is written out (`StdTypes.ToUint16`).
- **The ADC.** The converter is an oracle `Adc = uint8 -> Option<uint16>`. `None` is a failed
  conversion. `AdcInRange` states the converter's 0..1023 range where a lemma needs it.
- **Adapters.** An adapter's Init is a pure function from the caller's configuration pointer and the
  stored configuration to a status and the new stored configuration. A null pointer is `None`.
- **Reads.** A read returns a `ReadOutcome`: the status and what was written through the output
  pointer. A null output pointer is a `nullOut` flag.
- **SWC updates.** Each SWC update is a function from the shared globals (`Vehicle.State`), the
  adapters' stored configurations (`IoHwAb.Configs`) and the ADC to the new globals and the values
  the update computed.
- **Tasks.** `Ecu` composes the updates as the three tasks of the main program run them. Each task
  runs its Init once, then repeats its Update, each call inside one critical section. The model
  proves an invariant that holds after any interleaving of those steps.
- **Observed behaviour.** The model follows the C code wherever the behaviour is surprising:
  - the battery state of charge can only be 0 or 100, because of integer division;
  - the brake gate of regenerative braking compares a [0, 1] pedal fraction with 10.0, so it never opens;
  - the traction controller doubles a failed brake reading (-1.0) to -2.0;
  - freeing a block leaves a null entry that `Mem_Check` then reports as valid.

  Each of these is proved, as a lemma or as a postcondition.

## Model

| member | source | states |
|---|---|---|
| StdTypes.ToUint16 | BSW/Services/Dem/Dem.c:22 | storing an int into a uint16 keeps it modulo 65536 and leaves in-range values alone, so the -1 Dem writes becomes 65535 |
| Adapter.StoreConfig | BSW/ECU_Abstraction/IoHwAb/IoHwAb_SpeedSensor.c:30-38 | an adapter Init answers E_OK exactly when the configuration pointer is non-null; a null pointer keeps the stored configuration, otherwise the new one is stored |
| Adapter.StoreConfigIdempotent | BSW/ECU_Abstraction/IoHwAb/IoHwAb_LoadSensor.c:29-37 | calling an adapter Init twice with the same configuration has the same effect as calling it once |
| Adapter.Scale | BSW/ECU_Abstraction/IoHwAb/IoHwAb_LoadSensor.c:71 | the (raw / 1023) * max conversion is non-negative, satisfies value * 1023 = raw * max, and stays at most max for a raw value within the 10-bit range |
| Adapter.ScaleEnds | BSW/ECU_Abstraction/IoHwAb/IoHwAb_SpeedSensor.c:73 | raw 0 converts to 0 and raw 1023 to exactly the configured maximum |
| Adapter.ScaleMonotone | BSW/ECU_Abstraction/IoHwAb/IoHwAb_TorqueSensor.c:73 | a larger raw sample never converts to a smaller physical value |
| PedalSensor.Init | BSW/ECU_Abstraction/IoHwAb/IoHwAb_ThrottleSensor.c:42-64 | the pedal Init refuses a null configuration and keeps the stored channel; otherwise it stores the new one |
| PedalSensor.Position | BSW/ECU_Abstraction/IoHwAb/IoHwAb_ThrottleSensor.c:86-94 | the pedal fraction always lies in [0, 1]; in range it is raw / 1023, and from 1023 upwards it is 1 |
| PedalSensor.PositionEnds | BSW/ECU_Abstraction/IoHwAb/IoHwAb_BrakeSensor.c:86-94 | an unpressed pedal (raw 0) reads 0.0 and a fully pressed one (raw 1023) reads 1.0 |
| PedalSensor.PositionMonotone | BSW/ECU_Abstraction/IoHwAb/IoHwAb_BrakeSensor.c:86-94 | pressing further never lowers the pedal fraction |
| PedalSensor.Read | BSW/ECU_Abstraction/IoHwAb/IoHwAb_ThrottleSensor.c:73-101 | a pedal read succeeds exactly when the output pointer is non-null and the conversion succeeds, and writes only on success, writing the converted pedal fraction |
| PedalSensor.ReadInRange | BSW/ECU_Abstraction/IoHwAb/IoHwAb_BrakeSensor.c:73-101 | after any pedal read the caller's variable is either its previous value or a fraction in [0, 1] |
| ScaledSensor.Init | BSW/ECU_Abstraction/IoHwAb/IoHwAb_InclinationSensor.c:30-51 | a scaled sensor's Init refuses a null configuration; otherwise it stores the channel and the maximum |
| ScaledSensor.Read | BSW/ECU_Abstraction/IoHwAb/IoHwAb_SpeedSensor.c:60-80 | a speed, load, torque or inclination read succeeds exactly when the output pointer is non-null and the conversion succeeds, and then writes the scaled value; nothing is written otherwise |
| ScaledSensor.ReadInRange | BSW/ECU_Abstraction/IoHwAb/IoHwAb_InclinationSensor.c:60-80 | a successful scaled read is non-negative, and at most the configured maximum when the sample is within 10 bits |
| BatterySoc.Init | BSW/ECU_Abstraction/IoHwAb/IoHwAb_BatterySOC.c:42-68 | the battery Init refuses a null configuration; otherwise it stores both channels and the temperature maximum |
| BatterySoc.Soc | BSW/ECU_Abstraction/IoHwAb/IoHwAb_BatterySOC.c:93-101 | the integer state-of-charge conversion only ever yields 0 or 100, and 100 exactly when the raw sample is at least 1023 |
| BatterySoc.Temperature | BSW/ECU_Abstraction/IoHwAb/IoHwAb_BatterySOC.c:115-116 | the battery temperature is raw / 1023 of the configured maximum: non-negative, and within the maximum for a 10-bit sample |
| BatterySoc.Read | BSW/ECU_Abstraction/IoHwAb/IoHwAb_BatterySOC.c:79-125 | either null pointer: E_NOT_OK and nothing written; a failed SOC conversion: nothing written; E_OK exactly when both conversions succeed; each written value is the converted one |
| BatterySoc.PartialWriteOnTemperatureFailure | BSW/ECU_Abstraction/IoHwAb/IoHwAb_BatterySOC.c:86-112 | when only the temperature conversion fails, the read reports E_NOT_OK yet has already written the state of charge |
| WheelAngularVelocity.Init | BSW/ECU_Abstraction/IoHwAb/IoHwAb_WheelAngularVelocity.c:30-60 | the wheel Init refuses a null configuration array; otherwise it copies all four wheel configurations |
| WheelAngularVelocity.Read | BSW/ECU_Abstraction/IoHwAb/IoHwAb_WheelAngularVelocity.c:69-94 | the wheel read converts wheels in order and stops at the first failed conversion; E_OK exactly when all four succeed; every velocity is scaled by the first wheel's maximum |
| WheelAngularVelocity.UniformMaximumIsPerWheel | BSW/ECU_Abstraction/IoHwAb/IoHwAb_WheelAngularVelocity.c:83-85 | when all wheels share one maximum, each velocity is scaled by its own wheel's maximum |
| WheelAngularVelocity.ReadInRange | BSW/ECU_Abstraction/IoHwAb/IoHwAb_WheelAngularVelocity.c:83-85 | with the converter in range, every velocity lies between 0 and the first wheel's maximum |
| MotorDriver.Init | BSW/ECU_Abstraction/IoHwAb/IoHwAb_MotorDriver.c:28-52 | the motor Init refuses a null configuration; otherwise it stores it and configures the PWM channel with period 1000 and duty 0 |
| MotorDriver.DutyCycle | BSW/ECU_Abstraction/IoHwAb/IoHwAb_MotorDriver.c:69 | the duty cycle is the torque as a whole percentage of the maximum, truncated: duty * max <= torque * 100 < (duty + 1) * max, and at most 100 |
| MotorDriver.DutyCycleEnds | BSW/ECU_Abstraction/IoHwAb/IoHwAb_MotorDriver.c:69 | zero torque gives duty 0 and the maximum torque gives duty 100 |
| MotorDriver.DutyCycleMonotone | BSW/ECU_Abstraction/IoHwAb/IoHwAb_MotorDriver.c:69 | more torque never gives a smaller duty cycle |
| MotorDriver.SetTorque | BSW/ECU_Abstraction/IoHwAb/IoHwAb_MotorDriver.c:61-78 | a torque outside [0, max] is refused with no PWM command; a torque inside is accepted and commands the configured channel with its duty cycle |
| RteTorqueControl.CallInit | RTE/Rte_TorqueControl.c:21-95 | each of the five init calls passes the RTE's fixed configuration to its adapter, always succeeds, and changes only that adapter's stored configuration |
| RteTorqueControl.CallInits | SWC/Torque_Control.c:36-81 | the torque controller's init calls all succeed and leave the other components' adapters untouched |
| RteTorqueControl.InitOrderBindsAll | RTE/Rte_TorqueControl.c:21-95 | after the init calls in program order, throttle, speed, load, torque sensor and motor hold the RTE's configurations (speed max 200, load max 1000, torque max 500, motor max 300) |
| RteTorqueControl.ReadThrottlePosition | RTE/Rte_TorqueControl.c:105-110 | the throttle read is the pedal adapter's read on the bound throttle configuration; a null pointer is refused |
| RteTorqueControl.ReadSpeed | RTE/Rte_TorqueControl.c:120-125 | the speed read is the scaled adapter's read on the bound speed configuration; a null pointer is refused |
| RteTorqueControl.ReadLoadWeight | RTE/Rte_TorqueControl.c:135-140 | the load read is the scaled adapter's read on the bound load configuration; a null pointer is refused |
| RteTorqueControl.ReadActualTorque | RTE/Rte_TorqueControl.c:150-155 | the actual-torque read is the scaled adapter's read on the bound torque configuration; a null pointer is refused |
| RteTorqueControl.WriteMotorTorque | RTE/Rte_TorqueControl.c:165-167 | the torque reaches the motor driver unchanged: the answer is the driver's own, so a torque in [0, motor maximum] is accepted and commands the bound motor channel with the truncated percentage duty, and any other torque is refused with no command |
| RteRegenBrakeControl.CallInit | RTE/Rte_RegenBrakeControl.c:22-64 | each of the three init calls passes the RTE's fixed configuration to its adapter, always succeeds, and changes only that adapter |
| RteRegenBrakeControl.CallInits | SWC/Regen_Brake_Control.c:37-80 | the regenerative-braking init calls all succeed and leave the other components' adapters untouched |
| RteRegenBrakeControl.InitOrderBindsAll | RTE/Rte_RegenBrakeControl.c:22-64 | after the init calls in program order, brake, battery (temperature max 50) and inclination (max 30) hold the RTE's configurations |
| RteRegenBrakeControl.ReadBrakePosition | RTE/Rte_RegenBrakeControl.c:74-79 | the brake read is the pedal adapter's read on the bound brake configuration; a null pointer is refused |
| RteRegenBrakeControl.ReadBatterySoc | RTE/Rte_RegenBrakeControl.c:91-96 | the battery read is the battery adapter's read on the bound configuration; either null pointer is refused |
| RteRegenBrakeControl.ReadInclination | RTE/Rte_RegenBrakeControl.c:106-111 | the inclination read is the scaled adapter's read on the bound inclination configuration; a null pointer is refused |
| RteRegenBrakeControl.InclinationInRange | RTE/Rte_RegenBrakeControl.c:57-64 | with the RTE's inclination configuration and the converter in range, a successful inclination read lies in [0, 30] degrees |
| RteRegenBrakeControl.TemperatureLimitOnlyAtFullScale | RTE/Rte_RegenBrakeControl.c:39-47 | with the RTE's battery configuration, the temperature read reaches the 50-degree limit only at raw 1023 |
| RteTractionControl.CallWheelInit | RTE/Rte_TractionControl.c:22-31 | the wheel init call always succeeds and binds channels 8 to 11 with maximum 150 |
| RteTractionControl.ReadAngularVel | RTE/Rte_TractionControl.c:41-43 | the wheel read is the wheel adapter's read on the bound configurations: E_OK exactly when all four conversions succeed, writing four values |
| RteTractionControl.ConfiguredReadIsPerWheel | RTE/Rte_TractionControl.c:24-29 | with the RTE's wheel configurations every velocity is its own wheel's sample scaled by 150 |
| RteTractionControl.ConfiguredReadInRange | RTE/Rte_TractionControl.c:24-29 | with the RTE's wheel configurations and the converter in range, every velocity lies in [0, 150] |
| TorqueControl.RequestedTorque | SWC/Torque_Control.c:119-125 | the request is throttle * 100, times 0.8 above 50 km/h, plus 10 above 500 kg, for each of the four speed and load cases |
| TorqueControl.Clamp | SWC/Torque_Control.c:128-132 | the clamp lands in [0, 100], leaves in-range torques alone, and sends out-of-range torques to the nearer bound |
| TorqueControl.DesiredTorque | SWC/Torque_Control.c:119-132 | the desired torque always lies in [0, 100] |
| TorqueControl.DesiredTorqueScenario | SWC/Torque_Control.c:119-132 | throttle 0.5 at 60 km/h with no load yields 40 |
| TorqueControl.DesiredTorqueMonotoneInLoad | SWC/Torque_Control.c:119-132 | at fixed throttle and speed, more load never lowers the desired torque |
| TorqueControl.FailedThrottleGivesZeroTorque | SWC/Torque_Control.c:95-132 | a failed throttle read (-1.0) yields zero desired torque at any speed and load |
| TorqueControl.Advise | SWC/Torque_Control.c:152-156 | the advisory is increase, decrease or on target exactly as the actual torque is below, above or equal to the desired torque |
| TorqueControl.ReadOrFailed | SWC/Torque_Control.c:95-116 | a failed throttle, speed or load read leaves -1.0 in its variable; a successful one leaves the value read |
| TorqueControl.Update | SWC/Torque_Control.c:93-160 | an update changes only the torque controller's five globals; failed reads store -1.0 except the actual torque, which keeps its value; the desired torque is the law applied to the new readings, lies in [0, 100], and exactly that torque is sent to the motor driver, which accepts it exactly when it is within the motor maximum |
| TorqueControl.MotorAcceptsDesiredTorque | SWC/Torque_Control.c:128-142 | with the RTE's 300 Nm motor, every torque the update sends is accepted |
| TorqueControl.InitChain | SWC/Torque_Control.c:29-84 | the Init stops at the first failing init call; a failed throttle, speed or load init leaves -1.0 in that global; nothing else changes |
| TorqueControl.Init | SWC/Torque_Control.c:29-84 | against the real RTE the Init changes no global and binds all five configurations |
| RegenBrakeControl.Force | SWC/Regen_Brake_Control.c:114 | the regenerative force is non-negative from 10 km/h up with a non-negative brake, and zero without brake or exactly at 10 km/h |
| RegenBrakeControl.Power | SWC/Regen_Brake_Control.c:117 | non-negative force and speed give non-negative power |
| RegenBrakeControl.Energy | SWC/Regen_Brake_Control.c:120 | energy in Wh is power * 5 s * 0.85 / 3600, and non-negative for non-negative power |
| RegenBrakeControl.DeltaSoc | SWC/Regen_Brake_Control.c:137 | the state-of-charge gain is the energy as a percentage of the 50000 Wh capacity: never negative for non-negative energy, within [0, 100] for an energy up to the capacity, and exactly 100 at the capacity |
| RegenBrakeControl.DeltaSocMonotone | SWC/Regen_Brake_Control.c:137 | more regenerated energy never gives a smaller state-of-charge gain |
| RegenBrakeControl.ChainDeltaSocNonNegative | SWC/Regen_Brake_Control.c:114-137 | from 10 km/h up with a brake in [0, 1], the gain the force, power and energy chain yields is never negative |
| RegenBrakeControl.EnergyClosedForm | SWC/Regen_Brake_Control.c:114-120 | the chain of force, power and energy is proportional to (speed - 10) * speed * brake |
| RegenBrakeControl.ChainNonNegative | SWC/Regen_Brake_Control.c:114-120 | from 10 km/h up with a brake in [0, 1], force, power and energy are all non-negative |
| RegenBrakeControl.Activation | SWC/Regen_Brake_Control.c:123-131 | regeneration is refused below 10 km/h, refused below brake 10.0, and activated otherwise; each case is an if-and-only-if |
| RegenBrakeControl.BrakeGateNeverOpens | SWC/Regen_Brake_Control.c:106-131 | every value the brake variable can hold after its read (a fraction in [0, 1] or -1.0) keeps the brake gate shut |
| RegenBrakeControl.Classify | SWC/Regen_Brake_Control.c:177-203 | the terrain is uphill above 15 degrees, downhill below -15, and flat in between, each as an if-and-only-if |
| RegenBrakeControl.AdjustedForce | SWC/Regen_Brake_Control.c:171-213 | the adjusted force is the slope-scaled force times 1.2, 0.8 or 1 by terrain, and times a further 1.1, 1.05 or 1.05 above 400 kg |
| RegenBrakeControl.Update | SWC/Regen_Brake_Control.c:92-217 | an update changes only the brake, battery, inclination and activation globals; a failed brake read stores -1.0; the battery is read only when regeneration activates; once regeneration activates, the charge result is a failed battery read exactly when the read fails, recharging exactly when it succeeds below 50 degrees, and a thermal pause exactly when it succeeds at 50 degrees or more; a failed inclination read keeps the old value |
| RegenBrakeControl.UpdateNeverActivates | SWC/Regen_Brake_Control.c:123-149 | in any state with any sensor values an update neither activates regeneration nor touches the battery globals |
| RegenBrakeControl.NeverDownhill | SWC/Regen_Brake_Control.c:152-201 | with the RTE's inclination configuration and the converter in range, the inclination stays in [0, 30] and the downhill branch is never taken |
| RegenBrakeControl.InitChain | SWC/Regen_Brake_Control.c:31-83 | the Init stops at the first failing init call, and only a failed brake init changes a global (brake := -1.0) |
| RegenBrakeControl.Init | SWC/Regen_Brake_Control.c:31-83 | against the real RTE the Init changes no global and binds the brake, battery and inclination configurations |
| TractionControl.SlipRatio | SWC/Traction_Control.c:137-142 | the slip is always in [0, 1]; it is undefined exactly when the wheel is still and the vehicle speed is zero; it is 1 for a still wheel on a moving vehicle, and otherwise the speed difference over the rolling speed, capped at 1 |
| TractionControl.ClampUnit | SWC/Traction_Control.c:141-142 | the slip clamp lands in [0, 1] and leaves values already in it alone |
| TractionControl.TrackMax | SWC/Traction_Control.c:133-149 | the maximum slip bounds every defined slip; the worst wheel, if any, is the first one that reaches it, with a positive slip; with no worst wheel the maximum stays 0 |
| TractionControl.Mitigate | SWC/Traction_Control.c:152-165 | brake boost exactly above slip 0.5, throttle cut exactly strictly between 0.2 and 0.5, and nothing otherwise (including exactly 0.5) |
| TractionControl.BoostBrake | SWC/Traction_Control.c:154-155 | the boosted brake is twice the brake capped at 1.0, and never above 1.0 |
| TractionControl.FailedBrakeDoubles | SWC/Traction_Control.c:154-155 | a failed brake reading (-1.0) is boosted to -2.0 |
| TractionControl.WheelsAfterRead | SWC/Traction_Control.c:122-130 | after the wheel read the four velocities are the new scaled samples when every conversion succeeds, and the previous ones otherwise |
| TractionControl.Update | SWC/Traction_Control.c:80-169 | an update changes only the wheel, brake and throttle globals; the slips are those of the new velocities at the current speed; the maximum and worst wheel are as the loop tracks them; the correction follows the maximum slip; the pedal conflict is detected exactly when both pedals are positive |
| TractionControl.BrakeStaysAtMostOne | SWC/Traction_Control.c:152-158 | a brake of at most 1.0 stays at most 1.0 across an update |
| TractionControl.SpeedNeverWritten | SWC/Traction_Control.c:80-169 | an update never writes the speed, load, desired torque, activation flag or inclination |
| TractionControl.Init | SWC/Traction_Control.c:29-71 | against the real RTE the Init changes no global and binds the four wheel configurations |
| Dem.Lookup | BSW/Services/Dem/Dem.c:43-49 | the search over the events in use finds the first slot with the id, or reports that no slot in use has it |
| Dem.Truncate | BSW/Services/Dem/Dem.c:54 | the stored description is a prefix of the given one: the whole description when it fits in 49 characters, and exactly its first 49 characters otherwise |
| Dem.Init | BSW/Services/Dem/Dem.c:19-27 | after Init the table is valid and empty, and every slot holds id 65535, an empty description and inactive |
| Dem.Report | BSW/Services/Dem/Dem.c:36-58 | a full table ignores the report; a known id is reactivated in place; a new id is appended, active, with its truncated description |
| Dem.Clear | BSW/Services/Dem/Dem.c:67-76 | the first slot with the id becomes inactive; an unknown id changes nothing; the count never changes |
| Dem.Check | BSW/Services/Dem/Dem.c:87-101 | -1 exactly when no slot in use has the id; otherwise 1 or 0 exactly as the first such slot is active or not |
| Dem.CheckActiveIffPresent | BSW/Services/Dem/Dem.c:87-101 | in a table with distinct ids, Check answers 1 exactly when some slot in use holds the id and is active |
| Dem.InitKnowsNothing | BSW/Services/Dem/Dem.c:19-27 | after Init every id is unknown |
| Dem.ReportPreservesValid | BSW/Services/Dem/Dem.c:36-58 | Report keeps the table at most ten events with pairwise distinct ids |
| Dem.ClearPreservesValid | BSW/Services/Dem/Dem.c:67-76 | Clear keeps the table at most ten events with pairwise distinct ids |
| Dem.ReportThenCheck | BSW/Services/Dem/Dem.c:36-58 | reporting an id while the table has room makes Check answer 1 for it |
| Dem.ClearThenCheck | BSW/Services/Dem/Dem.c:67-76 | after clearing a known id Check answers 0 for it; an unknown id stays unknown |
| Dem.ClearLeavesOthers | BSW/Services/Dem/Dem.c:67-76 | clearing one id leaves Check's answer for every other id unchanged |
| Dem.ReportLeavesOthers | BSW/Services/Dem/Dem.c:36-58 | reporting one id leaves Check's answer for every other id unchanged |
| Dcm.ClearIds | BSW/Services/Dcm/Dcm.c:47-49 | clearing a run of ids keeps the table's shape and event count |
| Dcm.ProcessRequest | BSW/Services/Dcm/Dcm.c:21-57 | the response echoes the service id; each acknowledgement text is sent exactly for its service, and "Unknown Service ID" exactly for any other id; only Clear DTC touches the event table, and it removes no event |
| Dcm.ClearIdsEffect | BSW/Services/Dcm/Dcm.c:45-49 | after clearing ids 0..n-1, each such id that was known reads inactive, and every other id reads as before |
| Dcm.ClearDtcByEventId | BSW/Services/Dcm/Dcm.c:43-50 | Clear DTC clears by event id 0..9, not by slot: those ids read inactive if known, all others keep their status |
| Dcm.HighIdSurvivesClearDtc | BSW/Services/Dcm/Dcm.c:43-50 | an active event with id 10 or more is still active after Clear DTC |
| Mem.Init | BSW/Services/Mem/Mem.c:26-32 | after Init no slot is in use and every slot is null |
| Mem.Alloc | BSW/Services/Mem/Mem.c:42-57 | a full table or a failed malloc returns null and changes nothing; otherwise the block is recorded in the next slot and returned |
| Mem.Free | BSW/Services/Mem/Mem.c:66-82 | a null pointer is refused; the first slot in use holding the pointer is nulled without lowering the count; an untracked pointer changes nothing |
| Mem.Check | BSW/Services/Mem/Mem.c:93-102 | 1 exactly when the pointer is recorded in a slot in use, 0 otherwise |
| Mem.InitTracksNothing | BSW/Services/Mem/Mem.c:26-32 | after Init no pointer, not even null, checks as valid |
| Mem.AllocPreservesLiveDistinct | BSW/Services/Mem/Mem.c:42-57 | when malloc returns a block not already tracked, live blocks stay recorded at most once |
| Mem.FreePreservesLiveDistinct | BSW/Services/Mem/Mem.c:66-82 | Free keeps live blocks recorded at most once |
| Mem.DoubleFreeDetected | BSW/Services/Mem/Mem.c:72-81 | freeing a live block a second time finds nothing and changes nothing |
| Mem.NullValidAfterFree | BSW/Services/Mem/Mem.c:93-102 | once a block has been freed, Check reports the null pointer as valid |
| Mem.Run | BSW/Services/Mem/Mem.c:42-82 | replaying any sequence of Alloc and Free calls keeps the table's shape, and each call makes at most one successful allocation |
| Mem.CountCountsAllocations | BSW/Services/Mem/Mem.c:43-56 | over any sequence of calls the count grows by exactly the number of successful allocations and never passes 100 |
| Mem.LifetimeAllocationsBounded | BSW/Services/Mem/Mem.c:43-56 | from Init at most 100 allocations ever succeed, however many blocks are freed |
| Ecu.Step | Main.c:72-163 | one task step runs exactly the task's Init (globals and bound configurations as that Init leaves them) the first time, and afterwards exactly its Update on the globals with the configurations untouched; it marks the task started and keeps the motor maximum positive once torque control has started |
| Ecu.BootSatisfiesInv | SWC/Regen_Brake_Control.c:16-22 | the zero-initialised globals before any task starts satisfy the controller invariant (the regenerative-braking globals here, together with the torque globals of SWC/Torque_Control.c:16-20 and the wheel velocities of SWC/Traction_Control.c:20) |
| Ecu.StepPreservesInv | Main.c:83-90 | with the converter in range, every step of every task keeps the controller invariant: configurations bound, desired torque in [0, 100], regeneration inactive, inclination in [0, 30], pedals at most 1, wheel velocities in [0, 150] |
| Ecu.Run | Main.c:72-163 | running any interleaving of task steps (the three update loops under the mutex) marks exactly the tasks that appear in it as started, and keeps the motor maximum positive once torque control has started |
| Ecu.RunPreservesInv | Main.c:72-163 | the invariant holds after any interleaving of task steps |
| Ecu.ReachableStateFacts | Main.c:72-163 | in every reachable state regeneration is inactive, the desired torque lies in [0, 100], and once torque control has started the motor accepts its next torque |

## Left out

- Console output (every `printf`) is left out. It affects no state. The torque comparison's message is modelled as the `Advice` value.
- `Dem_PrintEventList`, `Dcm_Init` and `Dcm_SendResponse` only print; they are not modelled. A response is the `Response` value `ProcessRequest` returns.
- The Fahrenheit value the battery read computes is left out; it is only printed.
- The checks of the speed and load variables in the regenerative-braking update only print; they are left out.
- Threads, the mutex and the one-second `Os_Delay` between updates are left out. Each task's call is an atomic `Ecu.Step`, and the scheduler is an arbitrary sequence of steps.
- The ADC, DIO, PWM and CAN drivers, the PDU router and the OS layer are not part of this model.
  - ADC conversions are an oracle parameter.
  - `Adc_Init` inside the adapter Inits configures only the simulated converter, so it is left out.
  - A PWM command is returned as a value.
- IEEE `float32` rounding is not modelled; values are exact reals. The slip ratio follows IEEE only at a still wheel: a positive numerator over 0 saturates to 1, and 0/0 is a `None` that later comparisons skip.
- `malloc` and `free` themselves are left out. The pointer `malloc` returns is a parameter of `Mem.Alloc`, and the requested size is not modelled.
- Descriptions are Dafny strings. An embedded NUL character inside a C description, which would end it early, is not modelled.
- Dem.Truncate: counts characters, while `strncpy` counts bytes. A description with multi-byte characters is cut at the 49th character here, but at the 49th byte in C.
- MotorDriver.SetTorque: requires a positive motor maximum or a non-zero torque. With maximum 0 and torque 0 the C code divides 0.0 by 0 and casts NaN to `uint16`, which is undefined.
- TorqueControl.Update: requires a positive motor maximum for the same reason. The RTE configures 300, and `Ecu` proves the requirement holds in every reachable state.
- WheelAngularVelocity.Read: takes no null-output flag, because the C read never checks its output pointer.
- Every read converts a channel once per call. Two reads of the same channel within one update therefore see the same sample.
