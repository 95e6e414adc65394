/** Linear sensor adapters: speed (IoHwAb_SpeedSensor), load
    (IoHwAb_LoadSensor), actual torque (IoHwAb_TorqueSensor) and inclination
    (IoHwAb_InclinationSensor). Their code is identical apart from names: a
    raw conversion becomes (raw / 1023) * the configured maximum, unclamped. */
module ScaledSensor {
  import opened StdTypes
  import opened Adapter

  /** ADC channel and the physical value that raw 1023 stands for. */
  datatype Config = Config(channel: uint8, maxValue: uint16)

  /** IoHwAb_*Sensor_Init: a null configuration is refused and the stored one kept;
      otherwise every field of the configuration is stored verbatim. */
  function Init(cfg: Option<Config>, stored: Config): (r: InitOutcome<Config>)
    ensures r.status == E_OK <==> cfg.Some?
    ensures r.stored == (if cfg.Some? then cfg.value else stored)
  {
    StoreConfig(cfg, stored)
  }

  /** IoHwAb_*Sensor_Read: a null output pointer or a failed conversion
      returns E_NOT_OK and writes nothing; otherwise the scaled value is
      written and E_OK returned. */
  function Read(nullOut: bool, cfg: Config, adc: Adc): (r: ReadOutcome<real>)
    ensures r.status == E_OK <==> !nullOut && adc(cfg.channel).Some?
    ensures r.written.Some? <==> r.status == E_OK
    ensures r.status == E_OK ==> r.written.value == Scale(adc(cfg.channel).value, cfg.maxValue)
  {
    if nullOut then ReadOutcome(E_NOT_OK, None)
    else match adc(cfg.channel)
      case None => ReadOutcome(E_NOT_OK, None)
      case Some(raw) => ReadOutcome(E_OK, Some(Scale(raw, cfg.maxValue)))
  }

  /** With the converter in range, a written value lies in [0, maxValue];
      it is never negative whatever the raw value. */
  lemma ReadInRange(nullOut: bool, cfg: Config, adc: Adc)
    ensures var r := Read(nullOut, cfg, adc);
      r.written.Some? ==> 0.0 <= r.written.value
    ensures var r := Read(nullOut, cfg, adc);
      r.written.Some? && adc(cfg.channel).value <= ADC_MAX_RAW ==> r.written.value <= cfg.maxValue as real
  {
  }
}
