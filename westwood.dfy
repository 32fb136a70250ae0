/**
 * The TcpWestwood congestion-control object: the fields of the class,
 * updated in place by PktsAcked and by the EstimateBW / EstimateRE callbacks
 * the simulator fires. Each method is proved to perform the transition of
 * WestwoodModel on the object's state and to keep its invariant.
 */
module TcpWestwoodClass {
  import opened WestwoodTypes
  import opened SampleFilter
  import SsThreshPolicy
  import M = WestwoodModel
  import P = WestwoodProperties

  class TcpWestwood {
    var currentBW: real
    var currentRE: real
    var tvalue: Time
    var lastSampleBW: real
    var lastBW: real
    var lastSampleRE: real
    var lastRE: real
    var minRtt: Time
    const pType: ProtocolType
    const fType: FilterType
    var ackedSegments: int
    var ackedSinceT: int
    var isCount: bool
    var bwEstimateEvent: nat
    var reEstimateEvent: nat
    /** This object's pending callbacks in the simulator's queue, by uid. */
    var pending: map<nat, M.Callback>
    /** The uid the next scheduled callback receives. */
    var nextUid: nat

    /** The object's state as a value. */
    function Model(): M.State
      reads this
    {
      M.State(pType, fType, tvalue,
              Channel(currentBW, lastBW, lastSampleBW),
              Channel(currentRE, lastRE, lastSampleRE),
              minRtt, ackedSegments, ackedSinceT, isCount,
              bwEstimateEvent, reEstimateEvent, pending, nextUid)
    }

    ghost predicate Valid()
      reads this
    {
      M.Valid(Model())
    }

    /** The default constructor; variant and filter come from the configuration. */
    constructor (pType: ProtocolType, fType: FilterType)
      ensures Model() == M.Initial(pType, fType) && Valid()
    {
      this.pType := pType;
      this.fType := fType;
      currentBW, currentRE := 0.0, 0.0;
      tvalue := DefaultTValue;
      lastSampleBW, lastBW, lastSampleRE, lastRE := 0.0, 0.0, 0.0, 0.0;
      minRtt := 0;
      ackedSegments, ackedSinceT := 0, 0;
      isCount := false;
      bwEstimateEvent, reEstimateEvent := 0, 0;
      pending, nextUid := map[], 1;
      new;
      P.InitialValid(pType, fType);
    }

    /** The copy constructor used by Fork, with the defects of the source corrected. */
    constructor Copy(sock: TcpWestwood)
      requires sock.Valid()
      ensures Model() == M.Clone(sock.Model()) && Valid()
    {
      pType, fType := sock.pType, sock.fType;
      currentBW, currentRE := sock.currentBW, sock.currentRE;
      tvalue := sock.tvalue;
      lastSampleBW, lastBW := sock.lastSampleBW, sock.lastBW;
      lastSampleRE, lastRE := sock.lastSampleRE, sock.lastRE;
      minRtt := 0;
      ackedSegments, ackedSinceT := 0, 0;
      isCount := false;
      bwEstimateEvent, reEstimateEvent := 0, 0;
      pending, nextUid := map[], 1;
      new;
      P.CloneValid(sock.Model());
    }

    /** A new, independent object carrying this one's configuration and estimates. */
    method Fork() returns (c: TcpWestwood)
      requires Valid()
      ensures fresh(c) && c.Valid() && c.Model() == M.Clone(Model())
    {
      c := new TcpWestwood.Copy(this);
    }

    /** `EventId::Cancel` on this object's callback `uid`; a no-op when it is not pending. */
    method Cancel(uid: nat)
      modifies this
      ensures Model() == M.Cancel(old(Model()), uid)
    {
      pending := pending - {uid};
    }

    /** `Simulator::Schedule` of a callback; returns its uid. */
    method Schedule(cb: M.Callback) returns (uid: nat)
      modifies this
      ensures uid == old(nextUid) && Model() == M.Schedule(old(Model()), cb)
    {
      uid := nextUid;
      pending := pending[uid := cb];
      nextUid := nextUid + 1;
    }

    /** One bandwidth sample over `rtt`, then the filter. */
    method EstimateBW(rtt: Time, segmentSize: nat)
      requires rtt != 0
      modifies this
      ensures Model() == M.EstimateBW(old(Model()), rtt, segmentSize)
    {
      currentBW := RawSample(ackedSegments, segmentSize, rtt);
      if pType == WestwoodPlus {
        isCount := false;
      }
      ackedSegments := 0;
      if fType == Tustin {
        var sample := currentBW;
        currentBW := Alpha * lastBW + (1.0 - Alpha) * ((sample + lastSampleBW) / 2.0);
        lastSampleBW := sample;
        lastBW := currentBW;
      }
    }

    /** One rate sample over `tvalue`, then the filter. */
    method EstimateRE(tvalue: Time, segmentSize: nat)
      requires tvalue != 0
      modifies this
      ensures Model() == M.EstimateRE(old(Model()), tvalue, segmentSize)
    {
      currentRE := RawSample(ackedSinceT, segmentSize, tvalue);
      ackedSinceT := 0;
      if pType == WestwoodCrb {
        isCount := false;
      }
      if fType == Tustin {
        var sample := currentRE;
        currentRE := Alpha * lastRE + (1.0 - Alpha) * ((sample + lastSampleRE) / 2.0);
        lastSampleRE := sample;
        lastRE := currentRE;
      }
    }

    /** Westwood+: set the flag, cancel the previous BW callback, schedule EstimateBW after `rtt`. */
    method ArmBwTimer(rtt: Time)
      modifies this
      ensures Model() == M.ArmBwTimer(old(Model()), rtt)
    {
      isCount := true;
      Cancel(bwEstimateEvent);
      bwEstimateEvent := Schedule(M.Callback(M.BwEstimate, rtt));
    }

    /** Westwood-CRB: set the flag, cancel the previous RE callback, schedule EstimateRE after `tvalue`. */
    method ArmReTimer()
      modifies this
      ensures Model() == M.ArmReTimer(old(Model()))
    {
      isCount := true;
      Cancel(reEstimateEvent);
      reEstimateEvent := Schedule(M.Callback(M.ReEstimate, tvalue));
    }

    /** Called by the transport on every ACK with the segments acked and the RTT sample. */
    method PktsAcked(segmentSize: nat, packetsAcked: nat, rtt: Time)
      requires Valid() && rtt >= 0
      modifies this
      ensures Valid() && Model() == M.PktsAcked(old(Model()), segmentSize, packetsAcked, rtt)
    {
      P.PktsAckedPreservesValid(Model(), segmentSize, packetsAcked, rtt);
      OnAck(segmentSize, packetsAcked, rtt);
    }

    /** The body of PktsAcked, proved against the model without the invariant. */
    method OnAck(segmentSize: nat, packetsAcked: nat, rtt: Time)
      requires rtt >= 0
      modifies this
      ensures Model() == M.PktsAcked(old(Model()), segmentSize, packetsAcked, rtt)
    {
      ghost var s0 := Model();
      if rtt == 0 {
        return;
      }
      ackedSegments := ackedSegments + packetsAcked;
      ackedSinceT := ackedSinceT + packetsAcked;
      if minRtt == 0 {
        minRtt := rtt;
      } else if rtt < minRtt {
        minRtt := rtt;
      }
      ghost var s1 := s0.(ackedSegments := s0.ackedSegments + packetsAcked,
                          ackedSinceT := s0.ackedSinceT + packetsAcked,
                          minRtt := M.UpdateMinRtt(s0.minRtt, rtt));
      assert Model() == s1;
      if pType == Westwood {
        EstimateBW(rtt, segmentSize);
        assert Model() == M.EstimateBW(s1, rtt, segmentSize);
        assert M.PktsAcked(s0, segmentSize, packetsAcked, rtt) == M.EstimateBW(s1, rtt, segmentSize);
      } else if pType == WestwoodPlus {
        if !isCount {
          ArmBwTimer(rtt);
          assert Model() == M.ArmBwTimer(s1, rtt);
        }
        assert M.PktsAcked(s0, segmentSize, packetsAcked, rtt) == if s1.isCount then s1 else M.ArmBwTimer(s1, rtt);
      } else {
        if !isCount {
          ArmReTimer();
          assert Model() == M.ArmReTimer(s1);
        }
        ghost var s2 := Model();
        assert s2 == if s1.isCount then s1 else M.ArmReTimer(s1);
        EstimateBW(rtt, segmentSize);
        assert Model() == M.EstimateBW(s2, rtt, segmentSize);
        assert M.PktsAcked(s0, segmentSize, packetsAcked, rtt) == M.EstimateBW(s2, rtt, segmentSize);
      }
    }

    /** The simulator runs the pending callback `uid`. */
    method Fire(uid: nat, segmentSize: nat)
      requires Valid() && uid in pending
      modifies this
      ensures Valid() && Model() == M.Fire(old(Model()), uid, segmentSize)
    {
      P.FirePreservesValid(Model(), uid, segmentSize);
      var cb := pending[uid];
      pending := pending - {uid};
      if cb.kind == M.BwEstimate {
        EstimateBW(cb.interval, segmentSize);
      } else {
        EstimateRE(cb.interval, segmentSize);
      }
    }

    /**
     * The new slow-start threshold; reads the estimates and changes nothing.
     * `bytesInFlight` is accepted and ignored. Wherever the source's expression
     * is defined the result is its value; where it divides by zero the
     * guarded policy falls back to the bandwidth estimate.
     */
    function GetSsThresh(cWnd: nat, segmentSize: nat, bytesInFlight: nat): (r: nat)
      requires Valid()
      reads this
      ensures r == SsThreshPolicy.SsThresh(cWnd, segmentSize, currentBW, currentRE, minRtt)
      ensures var w := SsThreshPolicy.SsThreshAsWritten(cWnd, segmentSize, currentBW, currentRE, minRtt);
        w.Threshold? ==> r == w.bytes
      ensures 2 * segmentSize < Uint32Modulus ==> r >= 2 * segmentSize
      ensures pType != WestwoodCrb ==>
        r == Max(SsThreshPolicy.MinThreshold(segmentSize), SsThreshPolicy.WindowBytes(currentBW, minRtt))
    {
      SsThreshPolicy.AsWrittenAgreesWhenDefined(cWnd, segmentSize, currentBW, currentRE, minRtt);
      if pType == WestwoodCrb then
        M.SsThresh(Model(), cWnd, segmentSize)
      else
        P.NonCrbUsesBandwidth(Model(), cWnd, segmentSize);
        M.SsThresh(Model(), cWnd, segmentSize)
    }
  }
}
