/**
 * The slow-start threshold policy (GetSsThresh): the larger of two segments
 * and an estimate times the minimum RTT, where the rate estimate is preferred
 * when the congestion window is below theta times its bandwidth-delay product.
 */
module SsThreshPolicy {
  import opened WestwoodTypes

  /** Threshold on cWnd / (RE * minRtt) below which the rate estimate is used. */
  const Theta: real := 1.4

  /** What the source's expression evaluates to: a value or an integer division by zero. */
  datatype Outcome = Threshold(bytes: nat) | DivisionByZero

  /** `2 * tcb->m_segmentSize`, evaluated in unsigned 32-bit arithmetic. */
  function MinThreshold(segmentSize: nat): (b: nat)
    ensures b < Uint32Modulus
    ensures 2 * segmentSize < Uint32Modulus ==> b == 2 * segmentSize
  {
    (2 * segmentSize) % Uint32Modulus
  }

  /** An estimate (bytes per second) times the minimum RTT, truncated to whole bytes. */
  function WindowBytes(estimate: real, minRtt: Time): (n: nat)
    requires estimate >= 0.0 && minRtt >= 0
    ensures n as real <= estimate * Seconds(minRtt) < n as real + 1.0
    ensures n == 0 <==> estimate * Seconds(minRtt) < 1.0
  {
    assert estimate * Seconds(minRtt) >= 0.0;
    ToUint32(estimate * Seconds(minRtt))
  }

  /**
   * GetSsThresh exactly as written: the rate test divides cWnd by the truncated
   * product RE * minRtt, which is zero whenever that product is below one byte.
   */
  function SsThreshAsWritten(cWnd: nat, segmentSize: nat, bw: real, re: real, minRtt: Time): (r: Outcome)
    requires bw >= 0.0 && re >= 0.0 && minRtt >= 0
    ensures minRtt == 0 || re == 0.0 ==> r == Threshold(Max(MinThreshold(segmentSize), WindowBytes(bw, minRtt)))
    ensures r.Threshold? ==> r.bytes >= MinThreshold(segmentSize)
  {
    var floor := MinThreshold(segmentSize);
    if Seconds(minRtt) != 0.0 && re != 0.0 then
      var d := WindowBytes(re, minRtt);
      if d == 0 then DivisionByZero
      else if ((cWnd / d) as real) < Theta then Threshold(Max(floor, d))
      else Threshold(Max(floor, WindowBytes(bw, minRtt)))
    else
      Threshold(Max(floor, WindowBytes(bw, minRtt)))
  }

  /** The rate-estimate branch is taken (a zero divisor falls back to the bandwidth estimate). */
  predicate UsesRateEstimate(cWnd: nat, re: real, minRtt: Time)
    requires re >= 0.0 && minRtt >= 0
  {
    && minRtt != 0
    && re != 0.0
    && WindowBytes(re, minRtt) != 0
    && ((cWnd / WindowBytes(re, minRtt)) as real) < Theta
  }

  /**
   * GetSsThresh with the division guarded: never below two segments (when
   * that product does not wrap), otherwise the chosen estimate's
   * bandwidth-delay product in whole bytes.
   */
  function SsThresh(cWnd: nat, segmentSize: nat, bw: real, re: real, minRtt: Time): (r: nat)
    requires bw >= 0.0 && re >= 0.0 && minRtt >= 0
    ensures r >= MinThreshold(segmentSize)
    ensures 2 * segmentSize < Uint32Modulus ==> r >= 2 * segmentSize
    ensures var est := if UsesRateEstimate(cWnd, re, minRtt) then re else bw;
      && r >= WindowBytes(est, minRtt)
      && (r == MinThreshold(segmentSize) || r as real <= est * Seconds(minRtt) < r as real + 1.0)
  {
    var est := if UsesRateEstimate(cWnd, re, minRtt) then re else bw;
    Max(MinThreshold(segmentSize), WindowBytes(est, minRtt))
  }

  /**
   * The integer test `cWnd / d < 1.4` holds exactly when the quotient is 0 or 1,
   * that is when cWnd is below twice the rate estimate's window.
   */
  lemma RateBranchCondition(cWnd: nat, re: real, minRtt: Time)
    requires re >= 0.0 && minRtt >= 0
    ensures UsesRateEstimate(cWnd, re, minRtt) <==>
      minRtt != 0 && re != 0.0 && 1.0 <= re * Seconds(minRtt) && cWnd < 2 * WindowBytes(re, minRtt)
  {
    if minRtt != 0 && re != 0.0 && WindowBytes(re, minRtt) != 0 {
      var d := WindowBytes(re, minRtt);
      var q := cWnd / d;
      assert cWnd == q * d + cWnd % d && 0 <= cWnd % d < d;
      assert (q as real) < Theta <==> q <= 1;
      if q <= 1 {
        assert cWnd < 2 * d;
      } else {
        assert q * d >= 2 * d;
      }
    }
  }

  /**
   * The source's expression fails exactly when both factors are non-zero but
   * their product is below one byte; whenever it yields a value, that value is
   * the guarded threshold.
   */
  lemma AsWrittenAgreesWhenDefined(cWnd: nat, segmentSize: nat, bw: real, re: real, minRtt: Time)
    requires bw >= 0.0 && re >= 0.0 && minRtt >= 0
    ensures SsThreshAsWritten(cWnd, segmentSize, bw, re, minRtt) == DivisionByZero <==>
      minRtt != 0 && re != 0.0 && re * Seconds(minRtt) < 1.0
    ensures SsThreshAsWritten(cWnd, segmentSize, bw, re, minRtt).Threshold? ==>
      SsThreshAsWritten(cWnd, segmentSize, bw, re, minRtt).bytes == SsThresh(cWnd, segmentSize, bw, re, minRtt)
  {
  }

  /**
   * The first Tustin-filtered rate sample of one 1446-byte segment over 0.4 s is
   * 180.75 bytes/s; with a 5 ms minimum RTT the product truncates to a zero
   * divisor: the source divides by zero where the guarded policy returns the floor.
   */
  lemma ZeroDivisorExample()
    ensures SsThreshAsWritten(2892, 1446, 0.0, 180.75, 5_000_000) == DivisionByZero
    ensures SsThresh(2892, 1446, 0.0, 180.75, 5_000_000) == 2892
  {
  }
}
