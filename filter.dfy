/**
 * The low-pass filter that EstimateBW and EstimateRE apply to each raw
 * sample, and the raw-sample computation itself.
 */
module SampleFilter {
  import opened WestwoodTypes

  /** Smoothing coefficient of the Tustin filter. */
  const Alpha: real := 0.9

  /**
   * One estimation channel: the current estimate (`m_currentBW` / `m_currentRE`),
   * the last filtered value (`m_lastBW` / `m_lastRE`) and the last raw sample
   * (`m_lastSampleBW` / `m_lastSampleRE`).
   */
  datatype Channel = Channel(current: real, last: real, lastSample: real)

  const ZeroChannel: Channel := Channel(0.0, 0.0, 0.0)

  predicate NonNegative(c: Channel) {
    c.current >= 0.0 && c.last >= 0.0 && c.lastSample >= 0.0
  }

  /**
   * A raw sample: segments acked times segment size, per second of interval.
   * The product `int * uint32_t` is computed in unsigned 32-bit arithmetic.
   * The sample times the interval gives back the acked bytes (mod 2^32).
   */
  function RawSample(acked: int, segmentSize: nat, interval: Time): (raw: real)
    requires interval != 0
    ensures raw * Seconds(interval) == ((acked * segmentSize) % Uint32Modulus) as real
    ensures interval > 0 ==> raw >= 0.0
  {
    ((acked * segmentSize) % Uint32Modulus) as real / Seconds(interval)
  }

  /**
   * Adding a multiple of 2^32 to the acked-segment counter does not change the
   * sample: a wrapped 32-bit counter yields the same sample as an unbounded one.
   */
  lemma {:induction false} RawSampleWrapInvariant(acked: int, k: int, segmentSize: nat, interval: Time)
    requires interval != 0
    ensures RawSample(acked + k * Uint32Modulus, segmentSize, interval) == RawSample(acked, segmentSize, interval)
  {
    var m := Uint32Modulus;
    calc {
      (acked + k * m) * segmentSize;
      acked * segmentSize + (k * segmentSize) * m;
    }
    ModAddMultiple(acked * segmentSize, k * segmentSize, m);
  }

  lemma {:induction false} ModAddMultiple(a: int, j: int, m: int)
    requires m == Uint32Modulus
    ensures (a + j * m) % m == a % m
  {
    var q, r := a / m, a % m;
    assert a == q * m + r && 0 <= r < m;
    assert a + j * m == (q + j) * m + r;
  }

  /** The Tustin (bilinear) low-pass step on the average of the last two raw samples. */
  function TustinStep(last: real, lastSample: real, raw: real): (v: real)
    ensures MinReal(last, MinReal(lastSample, raw)) <= v <= MaxReal(last, MaxReal(lastSample, raw))
    ensures last == lastSample == raw ==> v == raw
  {
    Alpha * last + (1.0 - Alpha) * ((raw + lastSample) / 2.0)
  }

  /**
   * Feeds one raw sample through the configured filter. Without a filter the
   * estimate is the raw sample and the memory is untouched; with Tustin the
   * estimate is a convex combination of the memory and the sample, and both
   * memory values are refreshed.
   */
  function Apply(f: FilterType, c: Channel, raw: real): (r: Channel)
    ensures f == NoFilter ==> r.current == raw && r.last == c.last && r.lastSample == c.lastSample
    ensures f == Tustin ==> r.last == r.current && r.lastSample == raw
    ensures f == Tustin ==> MinReal(c.last, MinReal(c.lastSample, raw)) <= r.current <= MaxReal(c.last, MaxReal(c.lastSample, raw))
    ensures NonNegative(c) && raw >= 0.0 ==> NonNegative(r)
  {
    match f
    case NoFilter => c.(current := raw)
    case Tustin =>
      var v := TustinStep(c.last, c.lastSample, raw);
      Channel(v, v, raw)
  }

  /** A Tustin channel whose memory and input all equal x stays at x. */
  lemma TustinSteadyState(c: Channel, x: real)
    requires c.last == x && c.lastSample == x
    ensures Apply(Tustin, c, x) == Channel(x, x, x)
  {
  }

  /** Feeding the same raw sample n times through the Tustin filter. */
  function Iterate(c: Channel, x: real, n: nat): Channel
    decreases n
  {
    if n == 0 then c else Iterate(Apply(Tustin, c, x), x, n - 1)
  }

  function Pow(a: real, n: nat): real
  {
    if n == 0 then 1.0 else a * Pow(a, n - 1)
  }

  /**
   * Under a constant input x, once the last raw sample is x the filtered value's
   * distance to x shrinks by the factor Alpha at every step.
   */
  lemma {:induction false} ConstantInputContracts(c: Channel, x: real, n: nat)
    requires c.lastSample == x
    decreases n
    ensures Iterate(c, x, n).lastSample == x
    ensures c.current == c.last ==> Iterate(c, x, n).current == Iterate(c, x, n).last
    ensures Iterate(c, x, n).last - x == Pow(Alpha, n) * (c.last - x)
  {
    if n > 0 {
      var c' := Apply(Tustin, c, x);
      assert c'.last - x == Alpha * (c.last - x);
      ConstantInputContracts(c', x, n - 1);
    }
  }

  /** Alpha^n is at most 9 / (9 + n), so it tends to zero. */
  lemma {:induction false} AlphaPowBound(n: nat)
    ensures 0.0 <= Pow(Alpha, n) <= 1.0
    ensures Pow(Alpha, n) * (9 + n) as real <= 9.0
  {
    if n > 0 {
      AlphaPowBound(n - 1);
      var p := Pow(Alpha, n - 1);
      assert Pow(Alpha, n) == 0.9 * p;
      assert 0.9 * p * (9 + n) as real == 0.9 * (p * (9 + n - 1) as real) + 0.9 * p;
    }
  }

  /**
   * Convergence under a constant input x. Any Tustin channel is in the state
   * required here after its first step (Apply's contract). From there, n more
   * steps shrink the error e0 to Alpha^n * e0, at most 9 / (9 + n) times |e0|.
   */
  lemma ConstantInputConverges(c: Channel, x: real, n: nat)
    requires c.lastSample == x && c.current == c.last
    ensures var e0 := c.current - x;
      var e := Iterate(c, x, n).current - x;
      e == Pow(Alpha, n) * e0 && (e * (9 + n) as real) * (e * (9 + n) as real) <= 81.0 * (e0 * e0)
  {
    ConstantInputContracts(c, x, n);
    var e := Iterate(c, x, n).current - x;
    var p := Pow(Alpha, n);
    assert e == p * (c.current - x);
    AlphaPowBound(n);
    ErrorBound(p, c.current - x, e, (9 + n) as real);
  }

  lemma ErrorBound(p: real, e0: real, e: real, k: real)
    requires 0.0 <= p && 0.0 <= k && p * k <= 9.0 && e == p * e0
    ensures (e * k) * (e * k) <= 81.0 * (e0 * e0)
  {
    var t := p * k;
    assert e * k == t * e0;
    SquareBound(t, 9.0);
    ScaleBound(t * t, 81.0, e0 * e0);
    calc {
      (e * k) * (e * k);
      (t * e0) * (t * e0);
      (t * t) * (e0 * e0);
    }
  }

  lemma SquareBound(t: real, b: real)
    requires 0.0 <= t <= b
    ensures t * t <= b * b
  {
    assert t * t <= t * b;
    assert t * b <= b * b;
  }

  lemma ScaleBound(a: real, b: real, c: real)
    requires a <= b && c >= 0.0
    ensures a * c <= b * c
  {
    assert (b - a) * c >= 0.0;
  }
}
