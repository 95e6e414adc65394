/** Pedal position adapters: the throttle (IoHwAb_ThrottleSensor) and the
    brake (IoHwAb_BrakeSensor) sensors, whose code is identical apart from
    names. A raw conversion becomes a pedal fraction clamped into [0, 1]. */
module PedalSensor {
  import opened StdTypes
  import opened Adapter

  const SENSOR_MIN_RAW: int := 0
  const SENSOR_MAX_RAW: int := 1023
  const POSITION_MIN: real := 0.0
  const POSITION_MAX: real := 1.0

  /** The pedal adapter's configuration: only its ADC channel. */
  datatype Config = Config(channel: uint8)

  /** IoHwAb_ThrottleSensor_Init / IoHwAb_BrakeSensor_Init: a null configuration is refused and the stored one kept;
      otherwise every field of the configuration is stored verbatim. */
  function Init(cfg: Option<Config>, stored: Config): (r: InitOutcome<Config>)
    ensures r.status == E_OK <==> cfg.Some?
    ensures r.stored == (if cfg.Some? then cfg.value else stored)
  {
    StoreConfig(cfg, stored)
  }

  /** (raw - min) / (max - min), then clamped into [POSITION_MIN, POSITION_MAX]. */
  function Position(raw: uint16): (p: real)
    ensures POSITION_MIN <= p <= POSITION_MAX
    ensures raw <= SENSOR_MAX_RAW ==>
      p * (SENSOR_MAX_RAW - SENSOR_MIN_RAW) as real == (raw - SENSOR_MIN_RAW) as real
    ensures raw >= SENSOR_MAX_RAW ==> p == POSITION_MAX
  {
    var ratio := (raw - SENSOR_MIN_RAW) as real / (SENSOR_MAX_RAW - SENSOR_MIN_RAW) as real;
    if ratio < POSITION_MIN then POSITION_MIN
    else if ratio > POSITION_MAX then POSITION_MAX
    else ratio
  }

  /** Released pedal reads 0.0, fully pressed reads 1.0. */
  lemma PositionEnds()
    ensures Position(0) == POSITION_MIN
    ensures Position(SENSOR_MAX_RAW) == POSITION_MAX
  {
  }

  /** A larger raw value never yields a smaller pedal position. */
  lemma PositionMonotone(a: uint16, b: uint16)
    requires a <= b
    ensures Position(a) <= Position(b)
  {
  }

  /** IoHwAb_*Sensor_Read: a null output pointer or a failed conversion
      returns E_NOT_OK and writes nothing; otherwise the clamped position is
      written and E_OK returned. */
  function Read(nullOut: bool, cfg: Config, adc: Adc): (r: ReadOutcome<real>)
    ensures r.status == E_OK <==> !nullOut && adc(cfg.channel).Some?
    ensures r.written.Some? <==> r.status == E_OK
    ensures r.status == E_OK ==> r.written.value == Position(adc(cfg.channel).value)
  {
    if nullOut then ReadOutcome(E_NOT_OK, None)
    else match adc(cfg.channel)
      case None => ReadOutcome(E_NOT_OK, None)
      case Some(raw) => ReadOutcome(E_OK, Some(Position(raw)))
  }

  /** Whatever the caller's variable held, after a read it holds either its
      previous content or a value in [0, 1]. */
  lemma ReadInRange(nullOut: bool, cfg: Config, adc: Adc, previous: real)
    ensures var v := Stored(previous, Read(nullOut, cfg, adc));
      v == previous || POSITION_MIN <= v <= POSITION_MAX
  {
  }
}
