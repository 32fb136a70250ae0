/**
 * Configuration enums, simulated time and the fixed-width integer helpers
 * shared by every part of the TCP Westwood / Westwood+ / Westwood-CRB model.
 */
module WestwoodTypes {

  /** The three protocol variants (`ProtocolType` in the header). */
  datatype ProtocolType = Westwood | WestwoodPlus | WestwoodCrb

  /** The two filters applied to raw samples (`FilterType` in the header). */
  datatype FilterType = NoFilter | Tustin

  /** Simulated time in integer nanoseconds, ns-3's default `Time` resolution. */
  type Time = int

  /** Default CRB re-estimation period `m_tvalue`, 0.4 s. */
  const DefaultTValue: Time := 400_000_000

  /** 2^32: unsigned 32-bit arithmetic wraps modulo this value. */
  const Uint32Modulus: int := 0x1_0000_0000

  /** `Time::GetSeconds`, as an exact real. */
  function Seconds(t: Time): (sec: real)
    ensures sec * 1_000_000_000.0 == t as real
    ensures (sec == 0.0) == (t == 0)
    ensures (sec > 0.0) == (t > 0)
  {
    t as real / 1_000_000_000.0
  }

  /** `uint32_t(x)` for a non-negative double: truncation toward zero. */
  function ToUint32(x: real): (n: nat)
    requires x >= 0.0
    ensures n as real <= x < n as real + 1.0
  {
    x.Floor
  }

  function Max(a: int, b: int): (m: int)
    ensures m >= a && m >= b && (m == a || m == b)
  {
    if a >= b then a else b
  }

  function MinReal(a: real, b: real): (m: real)
    ensures m <= a && m <= b && (m == a || m == b)
  {
    if a <= b then a else b
  }

  function MaxReal(a: real, b: real): (m: real)
    ensures m >= a && m >= b && (m == a || m == b)
  {
    if a >= b then a else b
  }
}
