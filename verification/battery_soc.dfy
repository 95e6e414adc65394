/** Battery adapter (IoHwAb_BatterySOC): one ADC channel for the state of
    charge, one for the temperature. The SOC conversion is integer arithmetic
    on uint16, so it can only produce 0 or 100. */
module BatterySoc {
  import opened StdTypes
  import opened Adapter

  const SENSOR_MIN_RAW: int := 0
  const SENSOR_MAX_RAW: int := 1023
  const SOC_VALUE_MIN: uint16 := 0
  const SOC_VALUE_MAX: uint16 := 100

  /** SOC channel, temperature channel, temperature that raw 1023 stands for. */
  datatype Config = Config(socChannel: uint8, tempChannel: uint8, tempMaxValue: uint16)

  /** IoHwAb_BatterySOC_Init: a null configuration is refused and the stored one kept;
      otherwise every field of the configuration is stored verbatim. */
  function Init(cfg: Option<Config>, stored: Config): (r: InitOutcome<Config>)
    ensures r.status == E_OK <==> cfg.Some?
    ensures r.stored == (if cfg.Some? then cfg.value else stored)
  {
    StoreConfig(cfg, stored)
  }

  /** (raw - min) / (max - min) * (SOC_MAX - SOC_MIN) in C integer arithmetic,
      stored into a uint16, then clamped into [SOC_MIN, SOC_MAX]. The lower
      clamp can never fire: the stored value is unsigned. */
  function Soc(raw: uint16): (soc: uint16)
    ensures soc == SOC_VALUE_MIN || soc == SOC_VALUE_MAX
    ensures soc == SOC_VALUE_MAX <==> raw >= SENSOR_MAX_RAW
  {
    var quotient := (raw - SENSOR_MIN_RAW) / (SENSOR_MAX_RAW - SENSOR_MIN_RAW);
    var converted := ToUint16(quotient * (SOC_VALUE_MAX - SOC_VALUE_MIN));
    assert quotient == 0 ==> converted == 0;
    assert quotient >= 1 ==> converted >= 100;
    if converted < SOC_VALUE_MIN then SOC_VALUE_MIN
    else if converted > SOC_VALUE_MAX then SOC_VALUE_MAX
    else converted
  }

  /** Temperature in degrees Celsius: (raw / 1023) * tempMaxValue. */
  function Temperature(raw: uint16, cfg: Config): (t: real)
    ensures 0.0 <= t
    ensures raw <= ADC_MAX_RAW ==> t <= cfg.tempMaxValue as real
    ensures t * 1023.0 == raw as real * cfg.tempMaxValue as real
  {
    Scale(raw, cfg.tempMaxValue)
  }

  /** What one IoHwAb_BatterySOC_Read call leaves behind: its status and the
      values written through each of its two output pointers. */
  datatype BatteryReading = BatteryReading(status: StdReturn, soc: Option<uint16>, temp: Option<real>)

  /** IoHwAb_BatterySOC_Read. Either null pointer: E_NOT_OK, nothing written.
      SOC conversion failure: E_NOT_OK, nothing written. Temperature
      conversion failure: E_NOT_OK, but the SOC has already been written. */
  function Read(socNull: bool, tempNull: bool, cfg: Config, adc: Adc): (r: BatteryReading)
    ensures socNull || tempNull ==> r == BatteryReading(E_NOT_OK, None, None)
    ensures r.status == E_OK <==>
      !socNull && !tempNull && adc(cfg.socChannel).Some? && adc(cfg.tempChannel).Some?
    ensures r.soc.Some? <==> !socNull && !tempNull && adc(cfg.socChannel).Some?
    ensures r.temp.Some? <==> r.status == E_OK
    ensures r.soc.Some? ==> r.soc.value == Soc(adc(cfg.socChannel).value)
    ensures r.temp.Some? ==> r.temp.value == Temperature(adc(cfg.tempChannel).value, cfg)
  {
    if socNull || tempNull then BatteryReading(E_NOT_OK, None, None)
    else match adc(cfg.socChannel)
      case None => BatteryReading(E_NOT_OK, None, None)
      case Some(socRaw) =>
        var soc := Soc(socRaw);
        match adc(cfg.tempChannel)
        case None => BatteryReading(E_NOT_OK, Some(soc), None)
        case Some(tempRaw) => BatteryReading(E_OK, Some(soc), Some(Temperature(tempRaw, cfg)))
  }

  /** A read whose status is E_NOT_OK can still have overwritten the SOC. */
  lemma PartialWriteOnTemperatureFailure(cfg: Config, adc: Adc)
    requires adc(cfg.socChannel).Some? && adc(cfg.tempChannel).None?
    ensures var r := Read(false, false, cfg, adc);
      r.status == E_NOT_OK && r.soc == Some(Soc(adc(cfg.socChannel).value)) && r.temp.None?
  {
  }
}
