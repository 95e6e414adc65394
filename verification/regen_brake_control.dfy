/** Regenerative-braking controller (Regen_Brake_Control.c): computes the
    regenerative force, power and energy, decides whether to activate, checks
    the battery, and adjusts the force for the terrain. */
module RegenBrakeControl {
  import opened StdTypes
  import opened Adapter
  import opened IoHwAb
  import opened Vehicle
  import Rte = RteRegenBrakeControl
  import PedalSensor
  import BatterySoc

  const CHARGING_EFFICIENCY: real := 0.85
  const KINETIC_CONVERSION_EFF: real := 0.8
  /** Battery capacity in Wh. */
  const BATTERY_CAPACITY: real := 50000.0
  /** Regeneration time in seconds. */
  const TIME_REGEN: real := 5.0
  const BRAKE_INPUT_THRESHOLD: real := 10.0
  /** km/h; below it there is no regeneration. */
  const SPEED_THRESHOLD: real := 10.0
  const BRAKE_COEFFICIENT: real := 0.5
  /** Degrees Celsius; at or above it charging pauses. */
  const MAX_BATTERY_TEMP: real := 50.0
  /** Degrees; beyond it the vehicle is on a slope. */
  const INCLINATION_THRESHOLD: real := 15.0
  /** Above this load (kg, strict) the force is raised again. */
  const HEAVY_LOAD: real := 400.0

  /** Regenerative brake force in N. The brake fraction is divided by 100. */
  function Force(speed: real, brake: real): (f: real)
    ensures speed >= SPEED_THRESHOLD && brake >= 0.0 ==> f >= 0.0
    ensures brake == 0.0 || speed == SPEED_THRESHOLD ==> f == 0.0
  {
    (speed - SPEED_THRESHOLD) * BRAKE_COEFFICIENT * (brake / 100.0)
  }

  /** Regenerative power in W. */
  function Power(force: real, speed: real): (p: real)
    ensures force >= 0.0 && speed >= 0.0 ==> p >= 0.0
  {
    force * speed * KINETIC_CONVERSION_EFF
  }

  /** Regenerated energy in Wh over TIME_REGEN seconds. */
  function Energy(power: real): (e: real)
    ensures power >= 0.0 ==> e >= 0.0
    ensures e * 3600.0 == power * TIME_REGEN * CHARGING_EFFICIENCY
  {
    power * (TIME_REGEN / 3600.0) * CHARGING_EFFICIENCY
  }

  /** The share of the battery the energy represents, in percent: no energy
      gives no gain, and the full capacity gives 100 %. */
  function DeltaSoc(energy: real): (d: real)
    ensures d * BATTERY_CAPACITY == energy * 100.0
    ensures energy >= 0.0 ==> d >= 0.0
    ensures 0.0 <= energy <= BATTERY_CAPACITY ==> 0.0 <= d <= 100.0
    ensures energy == BATTERY_CAPACITY ==> d == 100.0
  {
    (energy / BATTERY_CAPACITY) * 100.0
  }

  /** The whole chain in closed form: energy is proportional to
      (speed - 10) * speed * brake. */
  lemma EnergyClosedForm(speed: real, brake: real)
    ensures Energy(Power(Force(speed, brake), speed)) * 3600.0 * 100.0
         == (speed - SPEED_THRESHOLD) * speed * brake * 0.5 * 0.8 * 5.0 * 0.85
  {
  }

  /** At or above the speed threshold with the brake in [0, 1], force, power
      and energy are all non-negative. */
  lemma ChainNonNegative(speed: real, brake: real)
    requires speed >= SPEED_THRESHOLD
    requires 0.0 <= brake <= 1.0
    ensures Force(speed, brake) >= 0.0
    ensures Power(Force(speed, brake), speed) >= 0.0
    ensures Energy(Power(Force(speed, brake), speed)) >= 0.0
  {
  }

  /** More energy never gives a smaller state-of-charge gain. */
  lemma DeltaSocMonotone(e1: real, e2: real)
    requires e1 <= e2
    ensures DeltaSoc(e1) <= DeltaSoc(e2)
  {
  }

  /** From the speed threshold up with the brake in [0, 1], the whole chain
      never yields a negative state-of-charge gain. */
  lemma ChainDeltaSocNonNegative(speed: real, brake: real)
    requires speed >= SPEED_THRESHOLD
    requires 0.0 <= brake <= 1.0
    ensures DeltaSoc(Energy(Power(Force(speed, brake), speed))) >= 0.0
  {
    ChainNonNegative(speed, brake);
  }

  /** Why an update did or did not activate regeneration. */
  datatype Gate = SpeedTooLow | BrakeNotPressed | Activated

  function Activation(speed: real, brake: real): (g: Gate)
    ensures g == SpeedTooLow <==> speed < SPEED_THRESHOLD
    ensures g == BrakeNotPressed <==> speed >= SPEED_THRESHOLD && brake < BRAKE_INPUT_THRESHOLD
    ensures g == Activated <==> speed >= SPEED_THRESHOLD && brake >= BRAKE_INPUT_THRESHOLD
  {
    if speed < SPEED_THRESHOLD then SpeedTooLow
    else if brake < BRAKE_INPUT_THRESHOLD then BrakeNotPressed
    else Activated
  }

  /** Every value the brake variable can hold after its read (a pedal fraction
      in [0, 1], or -1.0 after a failure) is below the threshold 10.0, so the
      brake gate never opens. */
  lemma BrakeGateNeverOpens(speed: real, brake: real)
    requires brake == SENSOR_FAILED || 0.0 <= brake <= 1.0
    ensures Activation(speed, brake) != Activated
  {
  }

  datatype Terrain = Uphill | Downhill | Flat

  function Classify(inclination: real): (t: Terrain)
    ensures t == Uphill <==> inclination > INCLINATION_THRESHOLD
    ensures t == Downhill <==> inclination < -INCLINATION_THRESHOLD
    ensures t == Flat <==> -INCLINATION_THRESHOLD <= inclination <= INCLINATION_THRESHOLD
  {
    if inclination > INCLINATION_THRESHOLD then Uphill
    else if inclination < -INCLINATION_THRESHOLD then Downhill
    else Flat
  }

  /** The force scaled by (1 + inclination / 100), then by the terrain and
      load factors. */
  function AdjustedForce(force: real, inclination: real, load: real): (a: real)
    ensures var base := force * (1.0 + inclination / 100.0);
      match Classify(inclination)
      case Uphill => a == if load > HEAVY_LOAD then base * 1.32 else base * 1.2
      case Downhill => a == if load > HEAVY_LOAD then base * 0.84 else base * 0.8
      case Flat => a == if load > HEAVY_LOAD then base * 1.05 else base
  {
    var adjusted := force * (1.0 + inclination / 100.0);
    match Classify(inclination)
    case Uphill =>
      var a := adjusted * 1.2;
      if load > HEAVY_LOAD then a * 1.1 else a
    case Downhill =>
      var a := adjusted * 0.8;
      if load > HEAVY_LOAD then a * 1.05 else a
    case Flat =>
      if load > HEAVY_LOAD then adjusted * 1.05 else adjusted
  }

  /** What happened to the battery during an update. */
  datatype Charge =
    | NotAttempted              // regeneration not activated
    | BatteryReadFailed         // the battery read returned E_NOT_OK
    | Recharging(deltaSoc: real)
    | ThermalPause              // battery at or above MAX_BATTERY_TEMP

  /** The globals after an update and the values the update computed. */
  datatype UpdateOutcome = UpdateOutcome(
    state: State, gate: Gate, force: real, power: real, energy: real,
    charge: Charge, terrain: Terrain, adjustedForce: real)

  /** Only the brake, battery, inclination and activation variables differ
      between s and t. */
  predicate OnlyRegenVariablesChange(s: State, t: State) {
    t == s.(brake := t.brake, batterySoc := t.batterySoc, batteryTemp := t.batteryTemp,
            inclination := t.inclination, regenActive := t.regenActive)
  }

  /** RegenBrakeControl_Update. */
  function Update(s: State, hw: Configs, adc: Adc): (o: UpdateOutcome)
    ensures OnlyRegenVariablesChange(s, o.state)
    ensures o.state.brake ==
      if adc(hw.brake.channel).Some? then PedalSensor.Position(adc(hw.brake.channel).value) else SENSOR_FAILED
    ensures o.force == Force(s.speed, o.state.brake)
    ensures o.energy == Energy(Power(o.force, s.speed))
    ensures o.gate == Activation(s.speed, o.state.brake)
    ensures o.state.regenActive == (s.regenActive || o.gate == Activated)
    ensures o.gate != Activated ==>
      o.charge == NotAttempted && o.state.batterySoc == s.batterySoc && o.state.batteryTemp == s.batteryTemp
    ensures o.state.batterySoc == s.batterySoc ||
      (adc(hw.battery.socChannel).Some? &&
       o.state.batterySoc == BatterySoc.Soc(adc(hw.battery.socChannel).GetOr(0)))
    ensures o.charge.Recharging? ==>
      o.state.batteryTemp < MAX_BATTERY_TEMP && o.charge == Recharging(DeltaSoc(o.energy))
    ensures o.charge == ThermalPause ==> o.state.batteryTemp >= MAX_BATTERY_TEMP
    ensures o.gate == Activated ==>
      var status := Rte.ReadBatterySoc(false, false, hw, adc).status;
      (o.charge == BatteryReadFailed <==> status != E_OK) &&
      (o.charge.Recharging? <==> status == E_OK && o.state.batteryTemp < MAX_BATTERY_TEMP) &&
      (o.charge == ThermalPause <==> status == E_OK && o.state.batteryTemp >= MAX_BATTERY_TEMP)
    ensures o.state.inclination ==
      if adc(hw.inclination.channel).Some? then Scale(adc(hw.inclination.channel).value, hw.inclination.maxValue)
      else s.inclination
    ensures o.terrain == Classify(o.state.inclination)
    ensures o.adjustedForce == AdjustedForce(o.force, o.state.inclination, s.load)
  {
    var brakeRead := Rte.ReadBrakePosition(false, hw, adc);
    var brake := if brakeRead.status == E_OK then brakeRead.written.value else SENSOR_FAILED;
    var force := Force(s.speed, brake);
    var power := Power(force, s.speed);
    var energy := Energy(power);
    var gate := Activation(s.speed, brake);
    var s1 := s.(brake := brake);
    var (s2, charge) :=
      if gate != Activated then (s1, NotAttempted)
      else
        var battery := Rte.ReadBatterySoc(false, false, hw, adc);
        var soc := battery.soc.GetOr(s1.batterySoc);
        var temp := battery.temp.GetOr(s1.batteryTemp);
        var s2 := s1.(regenActive := true, batterySoc := soc, batteryTemp := temp);
        if battery.status != E_OK then (s2, BatteryReadFailed)
        else if temp < MAX_BATTERY_TEMP then (s2, Recharging(DeltaSoc(energy)))
        else (s2, ThermalPause);
    var inclination := Stored(s2.inclination, Rte.ReadInclination(false, hw, adc));
    var s3 := s2.(inclination := inclination);
    UpdateOutcome(s3, gate, force, power, energy, charge, Classify(inclination),
                  AdjustedForce(force, inclination, s3.load))
  }

  /** Whatever the state and the sensors, an update never activates
      regeneration, never touches the battery variables and leaves the
      activation flag as it was. */
  lemma UpdateNeverActivates(s: State, hw: Configs, adc: Adc)
    ensures var o := Update(s, hw, adc);
      o.gate != Activated && o.charge == NotAttempted &&
      o.state.regenActive == s.regenActive &&
      o.state.batterySoc == s.batterySoc && o.state.batteryTemp == s.batteryTemp
  {
    var o := Update(s, hw, adc);
    BrakeGateNeverOpens(s.speed, o.state.brake);
  }

  /** With the runtime environment's inclination sensor and the converter in
      range, the downhill branch is never taken. */
  lemma NeverDownhill(s: State, hw: Configs, adc: Adc)
    requires hw.inclination == Rte.INCLINATION_SENSOR_CONFIG
    requires AdcInRange(adc)
    requires 0.0 <= s.inclination <= 30.0
    ensures Update(s, hw, adc).terrain != Downhill
    ensures 0.0 <= Update(s, hw, adc).state.inclination <= 30.0
  {
    Rte.InclinationInRange(hw, adc);
  }

  /** The globals after Init and how many `Rte_Call_*_Init` calls it made. */
  datatype InitReport = InitReport(state: State, attempted: nat)

  /** RegenBrakeControl_Init given the statuses of its three init calls: it
      stops at the first failure; only a failed brake init changes a global
      (brake := -1.0). */
  function InitChain(s: State, statuses: seq<StdReturn>): (r: InitReport)
    requires |statuses| == |Rte.INIT_ORDER|
    ensures 1 <= r.attempted <= |statuses|
    ensures forall i :: 0 <= i < r.attempted - 1 ==> statuses[i] == E_OK
    ensures r.attempted < |statuses| ==> statuses[r.attempted - 1] == E_NOT_OK
    ensures r.state == if statuses[0] == E_NOT_OK then s.(brake := SENSOR_FAILED) else s
  {
    var k := FirstIndex(statuses, (status: StdReturn) => status != E_OK);
    if k == 0 then InitReport(s.(brake := SENSOR_FAILED), 1)
    else if k < |statuses| then InitReport(s, k + 1)
    else InitReport(s, |statuses|)
  }

  /** RegenBrakeControl_Init against the runtime environment: every init
      call succeeds, so the three configurations are bound and no global
      changes. */
  function Init(s: State, hw: Configs): (r: (State, Configs))
    ensures r.0 == s
    ensures Rte.Bound(r.1)
    ensures r.1.throttle == hw.throttle && r.1.speed == hw.speed && r.1.load == hw.load &&
            r.1.torque == hw.torque && r.1.motor == hw.motor && r.1.wheels == hw.wheels
  {
    var bound := Rte.CallInits(Rte.INIT_ORDER, hw);
    Rte.InitOrderBindsAll(hw);
    var report := InitChain(s, seq(|Rte.INIT_ORDER|, _ => bound.status));
    (report.state, bound.hw)
  }
}
