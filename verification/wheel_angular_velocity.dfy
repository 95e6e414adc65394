/** Wheel angular-velocity adapter (IoHwAb_WheelAngularVelocity): four ADC
    channels, one per wheel, converted in rad/s. */
module WheelAngularVelocity {
  import opened StdTypes
  import opened Adapter

  const WHEEL_NUMBERS: nat := 4

  /** One wheel's ADC channel and the angular velocity raw 1023 stands for. */
  datatype Config = Config(channel: uint8, maxValue: uint16)

  /** The four per-wheel configurations, as the adapter's static array holds them. */
  predicate WellFormed(cfgs: seq<Config>) {
    |cfgs| == WHEEL_NUMBERS
  }

  /** IoHwAb_WheelAngularVel_Init: a null array is refused, otherwise all four
      channel/maximum pairs are copied. */
  function Init(cfgs: Option<seq<Config>>, stored: seq<Config>): (r: InitOutcome<seq<Config>>)
    requires cfgs.Some? ==> WellFormed(cfgs.value)
    requires WellFormed(stored)
    ensures WellFormed(r.stored)
    ensures r.status == E_OK <==> cfgs.Some?
    ensures r.stored == (if cfgs.Some? then cfgs.value else stored)
  {
    StoreConfig(cfgs, stored)
  }

  /** The conversions the four channels deliver, in wheel order. */
  function Conversions(cfgs: seq<Config>, adc: Adc): (raws: seq<AdcResult>)
    ensures |raws| == |cfgs|
    ensures forall i :: 0 <= i < |cfgs| ==> raws[i] == adc(cfgs[i].channel)
  {
    seq(|cfgs|, i requires 0 <= i < |cfgs| => adc(cfgs[i].channel))
  }

  /** Status of IoHwAb_WheelAngularVel_Read, the four velocities it wrote (None:
      the array was left untouched) and how many ADC reads it issued. */
  datatype WheelReading = WheelReading(status: StdReturn, written: Option<seq<real>>, adcReads: nat)

  /** IoHwAb_WheelAngularVel_Read: the channels are read in wheel order and the
      first failure returns E_NOT_OK before anything is written. Otherwise every
      wheel is converted with the maximum of the first stored configuration. */
  function Read(cfgs: seq<Config>, adc: Adc): (r: WheelReading)
    requires WellFormed(cfgs)
    ensures r.status == E_OK <==> forall i :: 0 <= i < WHEEL_NUMBERS ==> adc(cfgs[i].channel).Some?
    ensures r.written.Some? <==> r.status == E_OK
    ensures 1 <= r.adcReads <= WHEEL_NUMBERS
    ensures forall i :: 0 <= i < r.adcReads - 1 ==> adc(cfgs[i].channel).Some?
    ensures r.status == E_OK ==> r.adcReads == WHEEL_NUMBERS
    ensures r.status == E_NOT_OK ==> adc(cfgs[r.adcReads - 1].channel).None?
    ensures r.written.Some? ==>
      |r.written.value| == WHEEL_NUMBERS &&
      forall i :: 0 <= i < WHEEL_NUMBERS ==>
        r.written.value[i] == Scale(adc(cfgs[i].channel).value, cfgs[0].maxValue)
  {
    var raws := Conversions(cfgs, adc);
    var k := FirstIndex(raws, (raw: AdcResult) => raw.None?);
    if k < WHEEL_NUMBERS then WheelReading(E_NOT_OK, None, k + 1)
    else
      WheelReading(E_OK, Some(seq(WHEEL_NUMBERS, i requires 0 <= i < WHEEL_NUMBERS && raws[i].Some? =>
                                    Scale(raws[i].value, cfgs[0].maxValue))), WHEEL_NUMBERS)
  }

  /** When every wheel is configured with the same maximum, converting with the
      first wheel's maximum is the same as converting each with its own. */
  lemma UniformMaximumIsPerWheel(cfgs: seq<Config>, adc: Adc)
    requires WellFormed(cfgs)
    requires forall i :: 0 <= i < WHEEL_NUMBERS ==> cfgs[i].maxValue == cfgs[0].maxValue
    ensures var r := Read(cfgs, adc);
      r.written.Some? ==>
        forall i :: 0 <= i < WHEEL_NUMBERS ==>
          r.written.value[i] == Scale(adc(cfgs[i].channel).value, cfgs[i].maxValue)
  {
  }

  /** With the converter in range every written velocity lies in
      [0, first wheel's maximum]. */
  lemma ReadInRange(cfgs: seq<Config>, adc: Adc)
    requires WellFormed(cfgs)
    requires AdcInRange(adc)
    ensures var r := Read(cfgs, adc);
      r.written.Some? ==>
        forall i :: 0 <= i < WHEEL_NUMBERS ==> 0.0 <= r.written.value[i] <= cfgs[0].maxValue as real
  {
  }
}
