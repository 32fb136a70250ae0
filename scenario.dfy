/**
 * The reference test of the TCP Westwood test suite, driven through the class:
 * default variant (Westwood) and filter (Tustin), segment size 1446, a
 * congestion window of two segments, and eight ACKs acknowledging 4 to 11
 * segments with RTTs of 100, 105, 80, 100, 110, 140, 150 and 190 ms, each
 * followed by a threshold query. The asserted estimates are exact rationals.
 */
module WestwoodScenario {
  import opened WestwoodTypes
  import opened TcpWestwoodClass
  import SsThreshPolicy

  /** One millisecond in nanoseconds. */
  const Ms: Time := 1_000_000

  /** The test's segment size in bytes. */
  const SegmentSize: nat := 1446

  /**
   * One round of the test on a Westwood/Tustin object whose counter is empty:
   * an ACK of `packetsAcked` segments with an RTT of `rttMs` milliseconds, then
   * a threshold query. The raw sample is the acked bytes over the RTT, the
   * estimate moves by the Tustin step, the counter is empty again, and the
   * threshold is the larger of two segments and the estimate's window.
   */
  method Round(cong: TcpWestwood, packetsAcked: nat, rttMs: nat) returns (ssThresh: nat)
    requires cong.Valid() && cong.pType == Westwood && cong.fType == Tustin
    requires cong.ackedSegments == 0 && rttMs > 0 && packetsAcked * SegmentSize < Uint32Modulus
    modifies cong
    ensures cong.Valid() && cong.ackedSegments == 0
    ensures cong.lastSampleBW == (1000 * packetsAcked * SegmentSize) as real / rttMs as real
    ensures cong.currentBW == cong.lastBW
    ensures cong.currentBW == 0.9 * old(cong.lastBW) + 0.05 * (cong.lastSampleBW + old(cong.lastSampleBW))
    ensures var rtt := rttMs * Ms;
      cong.minRtt == if old(cong.minRtt) == 0 || rtt < old(cong.minRtt) then rtt else old(cong.minRtt)
    ensures ssThresh == Max(2 * SegmentSize, SsThreshPolicy.WindowBytes(cong.currentBW, cong.minRtt))
  {
    cong.PktsAcked(SegmentSize, packetsAcked, rttMs * Ms);
    ghost var sec := Seconds(rttMs * Ms);
    assert sec * 1000.0 == rttMs as real;
    assert cong.lastSampleBW * sec == (packetsAcked * SegmentSize) as real;
    ssThresh := cong.GetSsThresh(2 * SegmentSize, SegmentSize, 32);
  }

  /** The first two rounds of the test: ACKs of 4 and 5 segments after 100 and 105 ms. */
  method FirstRounds(cong: TcpWestwood) returns (ssThresh: nat)
    requires cong.Valid() && cong.pType == Westwood && cong.fType == Tustin
    requires cong.ackedSegments == 0 && cong.currentBW == cong.lastBW
    requires cong.lastSampleBW == 0.0 && cong.lastBW == 0.0 && cong.minRtt == 0
    modifies cong
    ensures cong.Valid() && cong.ackedSegments == 0 && cong.currentBW == cong.lastBW
    ensures cong.lastSampleBW == 482000.0 / 7.0 && cong.currentBW == 312818.0 / 35.0 && cong.minRtt == 100 * Ms
    ensures ssThresh == 2892
  {
    ssThresh := Round(cong, 4, 100);
    assert cong.lastSampleBW == 57840.0 && cong.currentBW == 2892.0 && cong.minRtt == 100 * Ms;
    assert ssThresh == 2892 by { assert Seconds(100 * Ms) == 0.1; }
    ssThresh := Round(cong, 5, 105);
    assert Seconds(100 * Ms) == 0.1;
  }

  /** The second two rounds of the test: ACKs of 6 and 7 segments after 80 and 100 ms. */
  method SecondRounds(cong: TcpWestwood) returns (ssThresh: nat)
    requires cong.Valid() && cong.pType == Westwood && cong.fType == Tustin
    requires cong.ackedSegments == 0 && cong.currentBW == cong.lastBW
    requires cong.lastSampleBW == 482000.0 / 7.0 && cong.currentBW == 312818.0 / 35.0 && cong.minRtt == 100 * Ms
    modifies cong
    ensures cong.Valid() && cong.ackedSegments == 0 && cong.currentBW == cong.lastBW
    ensures cong.lastSampleBW == 101220.0 && cong.currentBW == 89956383.0 / 3500.0 && cong.minRtt == 80 * Ms
    ensures ssThresh == 2892
  {
    ssThresh := Round(cong, 6, 80);
    assert cong.lastSampleBW == 108450.0 && cong.currentBW == 5918237.0 / 350.0 && cong.minRtt == 80 * Ms;
    assert ssThresh == 2892 by { assert Seconds(80 * Ms) == 0.08; }
    ssThresh := Round(cong, 7, 100);
    assert Seconds(80 * Ms) == 0.08;
  }

  /** The third two rounds of the test: ACKs of 8 and 9 segments after 110 and 140 ms. */
  method ThirdRounds(cong: TcpWestwood) returns (ssThresh: nat)
    requires cong.Valid() && cong.pType == Westwood && cong.fType == Tustin
    requires cong.ackedSegments == 0 && cong.currentBW == cong.lastBW
    requires cong.lastSampleBW == 101220.0 && cong.currentBW == 89956383.0 / 3500.0 && cong.minRtt == 80 * Ms
    modifies cong
    ensures cong.Valid() && cong.ackedSegments == 0 && cong.currentBW == cong.lastBW
    ensures cong.lastSampleBW == 650700.0 / 7.0 && cong.currentBW == 154045352253.0 / 3850000.0 && cong.minRtt == 80 * Ms
    ensures ssThresh == 3200
  {
    ssThresh := Round(cong, 8, 110);
    assert cong.lastSampleBW == 1156800.0 / 11.0 && cong.currentBW == 12878566917.0 / 385000.0 && cong.minRtt == 80 * Ms;
    assert ssThresh == 2892 by { assert Seconds(80 * Ms) == 0.08; }
    ssThresh := Round(cong, 9, 140);
    assert Seconds(80 * Ms) == 0.08;
  }

  /** The last two rounds of the test: ACKs of 10 and 11 segments after 150 and 190 ms. */
  method LastRounds(cong: TcpWestwood) returns (ssThresh: nat)
    requires cong.Valid() && cong.pType == Westwood && cong.fType == Tustin
    requires cong.ackedSegments == 0 && cong.currentBW == cong.lastBW
    requires cong.lastSampleBW == 650700.0 / 7.0 && cong.currentBW == 154045352253.0 / 3850000.0 && cong.minRtt == 80 * Ms
    modifies cong
    ensures cong.Valid() && cong.ackedSegments == 0 && cong.currentBW == cong.lastBW
    ensures cong.lastSampleBW == 1590600.0 / 19.0 && cong.currentBW == 365284784617367.0 / 7315000000.0 && cong.minRtt == 80 * Ms
    ensures ssThresh == 3994
  {
    ssThresh := Round(cong, 10, 150);
    assert cong.lastSampleBW == 96400.0 && cong.currentBW == 1750920670277.0 / 38500000.0 && cong.minRtt == 80 * Ms;
    assert ssThresh == 3638 by { assert Seconds(80 * Ms) == 0.08; }
    ssThresh := Round(cong, 11, 190);
    assert Seconds(80 * Ms) == 0.08;
  }

  /**
   * The reference test: a default object, eight rounds, and a final slow-start
   * threshold of 3994 bytes.
   */
  method ReferenceScenario() returns (ssThresh: nat)
    ensures ssThresh == 3994
  {
    var cong := new TcpWestwood(Westwood, Tustin);
    ssThresh := FirstRounds(cong);
    ssThresh := SecondRounds(cong);
    ssThresh := ThirdRounds(cong);
    ssThresh := LastRounds(cong);
  }
}
