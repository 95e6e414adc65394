/** Platform types shared by every layer: fixed-width integers, the standard
    return status, Option, and the ADC conversions the sensor adapters consume. */
module StdTypes {

  /** Unsigned 8-bit integer (ADC/PWM channels, counters). */
  type uint8 = x: int | 0 <= x < 0x100

  /** Unsigned 16-bit integer (raw ADC values, SOC, event and service ids). */
  type uint16 = x: int | 0 <= x < 0x1_0000

  /** The value C stores when an int is assigned to a uint16 (modular wrap-around). */
  function ToUint16(x: int): (r: uint16)
    ensures 0 <= x < 0x1_0000 ==> r == x
    ensures (x - r) % 0x1_0000 == 0
  {
    x % 0x1_0000
  }

  /** Index of the first element satisfying `found`, or |s| when none does:
      where a linear search stops, and where a chain of calls that stops at
      its first failure stops. */
  function FirstIndex<T>(s: seq<T>, found: T -> bool): (k: nat)
    ensures k <= |s|
    ensures forall i :: 0 <= i < k ==> !found(s[i])
    ensures k < |s| ==> found(s[k])
  {
    if |s| == 0 || found(s[0]) then 0
    else 1 + FirstIndex(s[1..], found)
  }

  /** The float division the C code performs, with the facts its callers use:
      the quotient times the divisor gives back the dividend, and for a
      non-negative dividend over a positive divisor the quotient lies in
      [0, 1] exactly when the dividend does not exceed the divisor. */
  function Quotient(x: real, y: real): (q: real)
    requires y != 0.0
    ensures q * y == x
    ensures 0.0 <= x && 0.0 < y ==> 0.0 <= q && (q <= 1.0 <==> x <= y)
  {
    x / y
  }

  /** Multiplying both sides of an inequality by a positive factor. */
  lemma ScalePositive(x: real, y: real, m: real)
    requires 0.0 < m
    ensures x <= y ==> x * m <= y * m
    ensures x < y ==> x * m < y * m
  {
  }

  /** Std_ReturnType: E_OK or E_NOT_OK. */
  datatype StdReturn = E_OK | E_NOT_OK

  datatype Option<+T> = None | Some(value: T) {
    /** The carried value, or `default` when there is none. */
    function GetOr(default: T): T {
      match this
      case Some(v) => v
      case None => default
    }
  }

  /** The outcome of one Adc_ReadChannel call: the raw conversion, or None
      when the driver returns E_NOT_OK. */
  type AdcResult = Option<uint16>

  /** The conversion each ADC channel delivers during one control-loop update. */
  type Adc = uint8 -> AdcResult

  /** Full scale of the simulated 10-bit converter. */
  const ADC_MAX_RAW: int := 1023

  /** Every successful conversion lies in the converter's range 0..1023. */
  ghost predicate AdcInRange(adc: Adc) {
    forall ch: uint8 :: adc(ch).Some? ==> adc(ch).value <= ADC_MAX_RAW
  }
}
