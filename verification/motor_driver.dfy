/** Motor actuator adapter (IoHwAb_MotorDriver): a PWM channel whose duty
    cycle is the requested torque as a percentage of the motor's maximum. */
module MotorDriver {
  import opened StdTypes
  import opened Adapter

  /** PWM period set at initialisation, in milliseconds. */
  const PWM_PERIOD: uint16 := 1000
  /** Duty cycle set at initialisation, in percent. */
  const PWM_INITIAL_DUTY: uint16 := 0

  /** PWM channel and the maximum torque in Nm. */
  datatype Config = Config(channel: uint8, maxTorque: uint16)

  /** The configuration handed to Pwm_Init. */
  datatype PwmConfig = PwmConfig(channel: uint8, period: uint16, dutyCycle: uint16)

  /** Status of IoHwAb_MotorDriver_Init, the stored configuration and the PWM
      initialisation it issued (None: Pwm_Init was not called). */
  datatype MotorInit = MotorInit(status: StdReturn, stored: Config, pwm: Option<PwmConfig>)

  /** IoHwAb_MotorDriver_Init: a null configuration is refused; otherwise it is
      stored and the PWM channel starts with period 1000 ms and duty 0 %. */
  function Init(cfg: Option<Config>, stored: Config): (r: MotorInit)
    ensures r.status == E_OK <==> cfg.Some?
    ensures r.pwm.Some? <==> cfg.Some?
    ensures cfg.None? ==> r.stored == stored
    ensures cfg.Some? ==>
      r.stored == cfg.value && r.pwm.value == PwmConfig(cfg.value.channel, PWM_PERIOD, PWM_INITIAL_DUTY)
  {
    var s := StoreConfig(cfg, stored);
    MotorInit(s.status, s.stored,
              if cfg.Some? then Some(PwmConfig(s.stored.channel, PWM_PERIOD, PWM_INITIAL_DUTY)) else None)
  }

  /** (uint16)((torque / maxTorque) * 100): the percentage truncated toward zero. */
  function DutyCycle(torque: real, maxTorque: uint16): (duty: uint16)
    requires 0 < maxTorque
    requires 0.0 <= torque <= maxTorque as real
    ensures duty <= 100
    ensures duty as real * maxTorque as real <= torque * 100.0
    ensures torque * 100.0 < (duty + 1) as real * maxTorque as real
  {
    var share := Quotient(torque, maxTorque as real);
    FloorBracket(torque, maxTorque as real, share);
    (share * 100.0).Floor
  }

  /** The truncated percentage of a share brackets the share times 100 on
      the scale of the divisor. */
  lemma FloorBracket(torque: real, m: real, share: real)
    requires 0.0 < m && share * m == torque
    ensures (share * 100.0).Floor as real * m <= torque * 100.0
    ensures torque * 100.0 < ((share * 100.0).Floor + 1) as real * m
  {
    var percent := share * 100.0;
    assert percent * m == torque * 100.0;
    var lower := percent.Floor as real;
    var upper := (percent.Floor + 1) as real;
    Bracket(lower, percent, upper, m, torque * 100.0);
  }

  /** lower <= p < upper carries over to the products with a positive factor. */
  lemma Bracket(lower: real, p: real, upper: real, m: real, product: real)
    requires 0.0 < m && p * m == product
    requires lower <= p < upper
    ensures lower * m <= product < upper * m
  {
    ScalePositive(lower, p, m);
    ScalePositive(p, upper, m);
  }

  /** Zero torque gives 0 %, the maximum gives 100 %. */
  lemma DutyCycleEnds(maxTorque: uint16)
    requires 0 < maxTorque
    ensures DutyCycle(0.0, maxTorque) == 0
    ensures DutyCycle(maxTorque as real, maxTorque) == 100
  {
    assert Quotient(maxTorque as real, maxTorque as real) == 1.0;
  }

  /** More torque never gives a smaller duty cycle. */
  lemma DutyCycleMonotone(a: real, b: real, maxTorque: uint16)
    requires 0 < maxTorque
    requires 0.0 <= a <= b <= maxTorque as real
    ensures DutyCycle(a, maxTorque) <= DutyCycle(b, maxTorque)
  {
    var m := maxTorque as real;
    var qa, qb := Quotient(a, m), Quotient(b, m);
    QuotientMonotone(a, b, m);
    FloorMonotone(qa * 100.0, qb * 100.0);
  }

  /** A larger dividend gives a larger quotient by the same positive divisor. */
  lemma QuotientMonotone(a: real, b: real, m: real)
    requires 0.0 < m && a <= b
    ensures Quotient(a, m) <= Quotient(b, m)
  {
    FactorsOrdered(a, b, m, Quotient(a, m), Quotient(b, m));
  }

  /** qa * m <= qb * m with m positive gives qa <= qb. */
  lemma FactorsOrdered(a: real, b: real, m: real, qa: real, qb: real)
    requires 0.0 < m && a <= b && qa * m == a && qb * m == b
    ensures qa <= qb
  {
    if qa > qb {
      ScalePositive(qb, qa, m);
    }
  }

  lemma FloorMonotone(x: real, y: real)
    requires x <= y
    ensures x.Floor <= y.Floor
  {
  }

  /** The Pwm_SetDutyCycle call a torque request issues. */
  datatype PwmCommand = PwmCommand(channel: uint8, dutyCycle: uint16)

  /** Status of IoHwAb_MotorDriver_SetTorque and the PWM command it issued. */
  datatype TorqueRequest = TorqueRequest(status: StdReturn, command: Option<PwmCommand>)

  /** IoHwAb_MotorDriver_SetTorque: a torque outside [0, maxTorque] is refused
      without touching the PWM; otherwise the duty cycle is set on the motor's
      channel. */
  function SetTorque(cfg: Config, torque: real): (r: TorqueRequest)
    requires 0 < cfg.maxTorque || torque != 0.0
    ensures r.status == E_OK <==> 0.0 <= torque <= cfg.maxTorque as real
    ensures r.command.Some? <==> r.status == E_OK
    ensures r.command.Some? ==>
      r.command.value.channel == cfg.channel &&
      r.command.value.dutyCycle <= 100 &&
      r.command.value.dutyCycle as real * cfg.maxTorque as real <= torque * 100.0 &&
      torque * 100.0 < (r.command.value.dutyCycle + 1) as real * cfg.maxTorque as real
  {
    if torque < 0.0 || torque > cfg.maxTorque as real then TorqueRequest(E_NOT_OK, None)
    else TorqueRequest(E_OK, Some(PwmCommand(cfg.channel, DutyCycle(torque, cfg.maxTorque))))
  }
}
