/** Conventions every sensor/actuator adapter (IoHwAb) follows: an Init that
    stores a non-null configuration, reads that report a status and write
    their output only on success, and the linear raw-to-physical scaling. */
module Adapter {
  import opened StdTypes

  /** Status of an Init call and the configuration the adapter keeps afterwards. */
  datatype InitOutcome<C> = InitOutcome(status: StdReturn, stored: C)

  /** Status of a read and the value written through the output pointer
      (None: nothing was written, the caller's variable keeps its content). */
  datatype ReadOutcome<T> = ReadOutcome(status: StdReturn, written: Option<T>)

  /** The content of the caller's variable after a read. */
  function Stored<T>(previous: T, r: ReadOutcome<T>): (v: T)
    ensures r.written.None? ==> v == previous
    ensures r.written.Some? ==> v == r.written.value
  {
    r.written.GetOr(previous)
  }

  /** Init of an adapter: a null configuration pointer is refused and the
      stored configuration is kept; otherwise every field is copied. */
  function StoreConfig<C>(cfg: Option<C>, stored: C): (r: InitOutcome<C>)
    ensures r.status == E_OK <==> cfg.Some?
    ensures cfg.None? ==> r.stored == stored
    ensures cfg.Some? ==> r.stored == cfg.value
  {
    match cfg
    case None => InitOutcome(E_NOT_OK, stored)
    case Some(c) => InitOutcome(E_OK, c)
  }

  /** Calling Init again with the same configuration changes nothing. */
  lemma StoreConfigIdempotent<C>(cfg: Option<C>, stored: C)
    ensures StoreConfig(cfg, StoreConfig(cfg, stored).stored) == StoreConfig(cfg, stored)
  {
  }

  /** (raw / 1023.0f) * maxValue: the conversion of the speed, load, torque,
      inclination, wheel and battery-temperature adapters (no clamp). The
      full-scale divisor is written as the literal 1023.0 so that dividing by
      it stays linear arithmetic. */
  function Scale(raw: uint16, maxValue: uint16): (v: real)
    ensures 0.0 <= v
    ensures v * 1023.0 == raw as real * maxValue as real
    ensures raw <= ADC_MAX_RAW ==> v <= maxValue as real
  {
    var ratio := raw as real / 1023.0;
    ScaleFacts(raw, maxValue, ratio, ratio * maxValue as real);
    ratio * maxValue as real
  }

  /** The facts Scale promises, for v the share raw / 1023 of the maximum. */
  lemma ScaleFacts(raw: uint16, maxValue: uint16, ratio: real, v: real)
    requires ratio * 1023.0 == raw as real && v == ratio * maxValue as real
    ensures 0.0 <= v
    ensures v * 1023.0 == raw as real * maxValue as real
    ensures raw <= ADC_MAX_RAW ==> v <= maxValue as real
  {
    ScaleBounds(ratio, maxValue as real, v);
    assert raw as real * maxValue as real == (ratio * 1023.0) * maxValue as real;
  }

  /** A ratio in [0, 1] of a non-negative maximum lies between 0 and the
      maximum. */
  lemma ScaleBounds(ratio: real, m: real, v: real)
    requires 0.0 <= ratio && 0.0 <= m && v == ratio * m
    ensures 0.0 <= v
    ensures ratio <= 1.0 ==> v <= m
  {
    if 0.0 < m {
      ScalePositive(0.0, ratio, m);
      ScalePositive(ratio, 1.0, m);
    } else {
      assert m == 0.0 && ratio * m == 0.0;
    }
  }

  /** Raw 0 reads as 0 and raw 1023 reads as the configured maximum. */
  lemma ScaleEnds(maxValue: uint16)
    ensures Scale(0, maxValue) == 0.0
    ensures Scale(ADC_MAX_RAW, maxValue) == maxValue as real
  {
  }

  /** The conversion never decreases when the raw value grows. */
  lemma ScaleMonotone(a: uint16, b: uint16, maxValue: uint16)
    requires a <= b
    ensures Scale(a, maxValue) <= Scale(b, maxValue)
  {
    ProductOrdered(a as real, b as real, maxValue as real);
  }

  /** Scaling by a non-negative factor keeps order. */
  lemma ProductOrdered(x: real, y: real, m: real)
    requires x <= y && 0.0 <= m
    ensures x * m <= y * m
  {
    if 0.0 < m {
      ScalePositive(x, y, m);
    } else {
      assert x * m == 0.0 && y * m == 0.0;
    }
  }
}
