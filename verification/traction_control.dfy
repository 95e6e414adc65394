/** Traction controller (Traction_Control.c): per-wheel slip from the wheel
    velocities and the vehicle speed, the largest slip, and a brake or
    throttle correction. */
module TractionControl {
  import opened StdTypes
  import opened Adapter
  import opened IoHwAb
  import opened Vehicle
  import Rte = RteTractionControl
  import WheelAngularVelocity

  /** Wheel radius in m. */
  const WHEEL_RADIUS: real := 0.35
  const SLIP_THRESHOLD: real := 0.2
  const BRAKE_THRESHOLD: real := 0.5
  /** km/h to m/s. */
  const KMH_PER_MS: real := 3.6

  function Abs(x: real): (a: real)
    ensures a >= 0.0 && (a == x || a == -x)
  {
    if x < 0.0 then -x else x
  }

  /** The slip ratio |omega * r - v| / (omega * r), clamped into [0, 1]. At
      omega == 0 the C division follows IEEE 754: a positive numerator gives
      +infinity, which the clamp turns into 1, and 0 / 0 gives NaN, which every
      later comparison ignores; None stands for that NaN. */
  function SlipRatio(omega: real, speed: real): (r: Option<real>)
    ensures r.Some? ==> 0.0 <= r.value <= 1.0
    ensures r.None? <==> omega == 0.0 && speed == 0.0
    ensures omega > 0.0 && r.Some? ==>
      var rolling := omega * WHEEL_RADIUS;
      var diff := Abs(rolling - speed / KMH_PER_MS);
      (diff <= rolling ==> r.value * rolling == diff) && (diff > rolling ==> r.value == 1.0)
    ensures omega == 0.0 && speed != 0.0 ==> r == Some(1.0)
  {
    var rolling := omega * WHEEL_RADIUS;
    var diff := Abs(rolling - speed / KMH_PER_MS);
    if rolling == 0.0 then
      if diff == 0.0 then None else Some(1.0)
    else
      Some(ClampUnit(Quotient(diff, rolling)))
  }

  /** The clamp of the slip ratio into [0, 1]. */
  function ClampUnit(x: real): (c: real)
    ensures 0.0 <= c <= 1.0
    ensures 0.0 <= x <= 1.0 ==> c == x
    ensures x > 1.0 ==> c == 1.0
    ensures x < 0.0 ==> c == 0.0
  {
    if x < 0.0 then 0.0 else if x > 1.0 then 1.0 else x
  }

  /** The largest slip seen and the wheel that first reached it (None: no
      slip exceeded the initial 0.0, so the C variable stays unassigned). */
  datatype SlipTrack = SlipTrack(maxSlip: real, worst: Option<nat>)

  /** The loop over the wheels: a slip replaces the maximum only when it is
      strictly larger; NaN slips are skipped. */
  function TrackMax(slips: seq<Option<real>>): (t: SlipTrack)
    ensures t.maxSlip >= 0.0
    ensures forall i :: 0 <= i < |slips| && slips[i].Some? ==> slips[i].value <= t.maxSlip
    ensures t.worst.None? ==> t.maxSlip == 0.0
    ensures t.worst.Some? ==>
      t.worst.value < |slips| && slips[t.worst.value] == Some(t.maxSlip) && t.maxSlip > 0.0 &&
      forall i :: 0 <= i < t.worst.value && slips[i].Some? ==> slips[i].value < t.maxSlip
  {
    if |slips| == 0 then SlipTrack(0.0, None)
    else
      var prefix := slips[..|slips| - 1];
      var t := TrackMax(prefix);
      assert forall i :: 0 <= i < |prefix| ==> prefix[i] == slips[i];
      var last := slips[|slips| - 1];
      if last.Some? && last.value > t.maxSlip then SlipTrack(last.value, Some(|slips| - 1))
      else t
  }

  /** The correction the controller applies. */
  datatype Mitigation = BrakeBoost | ThrottleCut | NoMitigation

  function Mitigate(maxSlip: real): (m: Mitigation)
    ensures m == BrakeBoost <==> maxSlip > BRAKE_THRESHOLD
    ensures m == ThrottleCut <==> SLIP_THRESHOLD < maxSlip < BRAKE_THRESHOLD
    ensures m == NoMitigation <==> maxSlip <= SLIP_THRESHOLD || maxSlip == BRAKE_THRESHOLD
  {
    if maxSlip > BRAKE_THRESHOLD then BrakeBoost
    else if maxSlip > SLIP_THRESHOLD && maxSlip < BRAKE_THRESHOLD then ThrottleCut
    else NoMitigation
  }

  /** The brake doubled and capped at 1.0; there is no lower bound. */
  function BoostBrake(brake: real): (b: real)
    ensures b <= 1.0
    ensures brake * 2.0 <= 1.0 ==> b == brake * 2.0
    ensures brake * 2.0 > 1.0 ==> b == 1.0
  {
    var doubled := brake * 2.0;
    if doubled > 1.0 then 1.0 else doubled
  }

  /** A failed brake read (-1.0) is doubled to -2.0. */
  lemma FailedBrakeDoubles()
    ensures BoostBrake(SENSOR_FAILED) == -2.0
  {
  }

  /** The globals after an update and what the update computed. */
  datatype UpdateOutcome = UpdateOutcome(
    state: State, slips: seq<Option<real>>, maxSlip: real, worstWheel: Option<nat>,
    mitigation: Mitigation, pedalConflict: bool)

  /** Only the wheel velocities, the brake and the throttle differ between s and t. */
  predicate OnlyTractionVariablesChange(s: State, t: State) {
    t == s.(wheels := t.wheels, brake := t.brake, throttle := t.throttle)
  }

  /** wheel_angular_vel after the read: all four new values, or all four old
      ones when any conversion fails. */
  function WheelsAfterRead(s: State, hw: Configs, adc: Adc): (w: seq<real>)
    requires IoHwAb.WellFormed(hw) && Vehicle.WellFormed(s)
    ensures |w| == WHEELS
    ensures (forall i :: 0 <= i < WHEELS ==> adc(hw.wheels[i].channel).Some?) ==>
      forall i :: 0 <= i < WHEELS ==>
        w[i] == Scale(adc(hw.wheels[i].channel).GetOr(0), hw.wheels[0].maxValue)
    ensures (exists i :: 0 <= i < WHEELS && adc(hw.wheels[i].channel).None?) ==> w == s.wheels
  {
    var read := Rte.ReadAngularVel(hw, adc);
    if read.status == E_OK then read.written.value else s.wheels
  }

  /** The slip ratio of every wheel at the given vehicle speed. */
  function Slips(wheels: seq<real>, speed: real): (slips: seq<Option<real>>)
    ensures |slips| == |wheels|
    ensures forall i :: 0 <= i < |wheels| ==> slips[i] == SlipRatio(wheels[i], speed)
    ensures forall i :: 0 <= i < |wheels| && slips[i].Some? ==> 0.0 <= slips[i].value <= 1.0
  {
    seq(|wheels|, i requires 0 <= i < |wheels| => SlipRatio(wheels[i], speed))
  }

  /** TractionControl_Update. */
  function Update(s: State, hw: Configs, adc: Adc): (o: UpdateOutcome)
    requires IoHwAb.WellFormed(hw) && Vehicle.WellFormed(s)
    ensures Vehicle.WellFormed(o.state)
    ensures OnlyTractionVariablesChange(s, o.state)
    ensures (forall i :: 0 <= i < WHEELS ==> adc(hw.wheels[i].channel).Some?) ==>
      forall i :: 0 <= i < WHEELS ==>
        o.state.wheels[i] == Scale(adc(hw.wheels[i].channel).GetOr(0), hw.wheels[0].maxValue)
    ensures (exists i :: 0 <= i < WHEELS && adc(hw.wheels[i].channel).None?) ==> o.state.wheels == s.wheels
    ensures |o.slips| == WHEELS
    ensures forall i :: 0 <= i < WHEELS ==> o.slips[i] == SlipRatio(o.state.wheels[i], s.speed)
    ensures 0.0 <= o.maxSlip <= 1.0
    ensures forall i :: 0 <= i < WHEELS && o.slips[i].Some? ==> o.slips[i].value <= o.maxSlip
    ensures o.worstWheel.None? ==> o.maxSlip == 0.0
    ensures o.worstWheel.Some? ==>
      o.worstWheel.value < WHEELS && o.slips[o.worstWheel.value] == Some(o.maxSlip) &&
      forall i :: 0 <= i < o.worstWheel.value && o.slips[i].Some? ==> o.slips[i].value < o.maxSlip
    ensures o.mitigation == Mitigate(o.maxSlip)
    ensures o.mitigation == BrakeBoost ==> o.state.brake == BoostBrake(s.brake) && o.state.throttle == s.throttle
    ensures o.mitigation == ThrottleCut ==> o.state.throttle == s.throttle * 0.5 && o.state.brake == s.brake
    ensures o.mitigation == NoMitigation ==> o.state.throttle == s.throttle && o.state.brake == s.brake
    ensures o.pedalConflict <==> s.throttle > 0.0 && s.brake > 0.0
  {
    var wheels := WheelsAfterRead(s, hw, adc);
    var slips := Slips(wheels, s.speed);
    var track := TrackMax(slips);
    var m := Mitigate(track.maxSlip);
    var brake := if m == BrakeBoost then BoostBrake(s.brake) else s.brake;
    var throttle := if m == ThrottleCut then s.throttle * 0.5 else s.throttle;
    UpdateOutcome(s.(wheels := wheels, brake := brake, throttle := throttle),
                  slips, track.maxSlip, track.worst, m, s.throttle > 0.0 && s.brake > 0.0)
  }

  /** The brake stays at most 1.0 across an update, but it has no lower
      bound: a sentinel -1.0 under high slip becomes -2.0. */
  lemma BrakeStaysAtMostOne(s: State, hw: Configs, adc: Adc)
    requires IoHwAb.WellFormed(hw) && Vehicle.WellFormed(s)
    requires s.brake <= 1.0
    ensures Update(s, hw, adc).state.brake <= 1.0
  {
  }

  /** An update never writes the vehicle speed (nor any other component's
      variable); the pedal-conflict check changes nothing. */
  lemma SpeedNeverWritten(s: State, hw: Configs, adc: Adc)
    requires IoHwAb.WellFormed(hw) && Vehicle.WellFormed(s)
    ensures var t := Update(s, hw, adc).state;
      t.speed == s.speed && t.load == s.load && t.desiredTorque == s.desiredTorque &&
      t.regenActive == s.regenActive && t.inclination == s.inclination
  {
  }

  /** TractionControl_Init against the runtime environment: the one init call
      succeeds and binds the wheel configuration; no global changes. */
  function Init(s: State, hw: Configs): (r: (State, Configs))
    requires IoHwAb.WellFormed(hw)
    ensures r.0 == s
    ensures IoHwAb.WellFormed(r.1)
    ensures r.1 == hw.(wheels := Rte.WHEEL_CONFIGS)
  {
    var result := Rte.CallWheelInit(hw);
    (s, result.hw)
  }
}
