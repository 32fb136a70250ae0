/**
 * What the operations of WestwoodModel promise: the invariant they keep,
 * the accounting of acked segments, the minimum RTT, the timer discipline,
 * the threshold branch outside CRB, and the two defects of the copy
 * constructor as written.
 */
module WestwoodProperties {
  import opened WestwoodTypes
  import opened SampleFilter
  import SsThreshPolicy
  import opened WestwoodModel

  // ------------------------------------------------------------- invariant

  lemma InitialValid(pType: ProtocolType, fType: FilterType)
    ensures Valid(Initial(pType, fType))
    ensures Initial(pType, fType).minRtt == 0 && !Initial(pType, fType).isCount
    ensures Initial(pType, fType).pending == map[]
  {
  }

  lemma {:induction false} PktsAckedPreservesValid(s: State, segmentSize: nat, packetsAcked: nat, rtt: Time)
    requires Valid(s) && rtt >= 0
    ensures Valid(PktsAcked(s, segmentSize, packetsAcked, rtt))
  {
    if rtt != 0 {
      var s1 := s.(ackedSegments := s.ackedSegments + packetsAcked,
                   ackedSinceT := s.ackedSinceT + packetsAcked,
                   minRtt := UpdateMinRtt(s.minRtt, rtt));
      assert Valid(s1);
      var raw := RawSample(s1.ackedSegments, segmentSize, rtt);
      assert raw >= 0.0;
      match s.pType
      case Westwood =>
      case WestwoodPlus =>
        if !s1.isCount {
          ArmBwTimerValid(s1, rtt);
        }
      case WestwoodCrb =>
        var s2 := if s1.isCount then s1 else ArmReTimer(s1);
        if !s1.isCount {
          ArmReTimerValid(s1);
        }
        assert Valid(s2);
    }
  }

  lemma ArmBwTimerValid(s: State, rtt: Time)
    requires Valid(s) && s.pType == WestwoodPlus && !s.isCount && rtt > 0
    ensures Valid(ArmBwTimer(s, rtt))
  {
    var t := ArmBwTimer(s, rtt);
    assert t.pending == (s.pending - {s.bwEstimateEvent})[s.nextUid := Callback(BwEstimate, rtt)];
  }

  lemma ArmReTimerValid(s: State)
    requires Valid(s) && s.pType == WestwoodCrb && !s.isCount
    ensures Valid(ArmReTimer(s))
  {
    var t := ArmReTimer(s);
    assert t.pending == (s.pending - {s.reEstimateEvent})[s.nextUid := Callback(ReEstimate, s.tvalue)];
  }

  lemma FirePreservesValid(s: State, uid: nat, segmentSize: nat)
    requires Valid(s) && uid in s.pending
    ensures s.pending[uid].interval > 0
    ensures Valid(Fire(s, uid, segmentSize))
  {
    var cb := s.pending[uid];
    var raw := RawSample(if cb.kind == BwEstimate then s.ackedSegments else s.ackedSinceT, segmentSize, cb.interval);
    assert raw >= 0.0;
  }

  /**
   * The intended clone of a valid state is valid, and starts with no minimum
   * RTT, empty counters, a clear flag and no pending timers.
   */
  lemma CloneValid(s: State)
    requires Valid(s)
    ensures var c := Clone(s);
      && Valid(c)
      && c.bw == s.bw && c.re == s.re && c.pType == s.pType && c.fType == s.fType && c.tvalue == s.tvalue
      && c.minRtt == 0 && c.ackedSegments == 0 && c.ackedSinceT == 0 && !c.isCount && c.pending == map[]
  {
  }

  // ------------------------------------------------------- acknowledgments

  /**
   * A zero RTT changes nothing. Otherwise the acked segments are added to both
   * counters; Westwood and Westwood-CRB then take one bandwidth sample over the
   * ACK's RTT (not over an ACK inter-arrival time) and reset the counter, while
   * Westwood+ leaves the estimate alone until its timer fires.
   */
  lemma AckAccounting(s: State, segmentSize: nat, packetsAcked: nat, rtt: Time)
    requires rtt >= 0
    ensures var t := PktsAcked(s, segmentSize, packetsAcked, rtt);
      && (rtt == 0 ==> t == s)
      && (rtt > 0 ==> t.ackedSinceT == s.ackedSinceT + packetsAcked && t.re == s.re)
      && (rtt > 0 && s.pType == WestwoodPlus ==>
            t.ackedSegments == s.ackedSegments + packetsAcked && t.bw == s.bw)
      && (rtt > 0 && s.pType != WestwoodPlus ==>
            t.ackedSegments == 0 &&
            t.bw == Apply(s.fType, s.bw, RawSample(s.ackedSegments + packetsAcked, segmentSize, rtt)))
      && t.pType == s.pType && t.fType == s.fType && t.tvalue == s.tvalue
  {
  }

  /** Once recorded, the minimum RTT stays non-zero and never increases; it never exceeds a new sample. */
  lemma MinRttStep(s: State, segmentSize: nat, packetsAcked: nat, rtt: Time)
    requires s.minRtt >= 0 && rtt >= 0
    ensures var m := PktsAcked(s, segmentSize, packetsAcked, rtt).minRtt;
      && (m == s.minRtt || m == rtt)
      && (s.minRtt != 0 ==> 0 < m <= s.minRtt)
      && (rtt != 0 ==> 0 < m <= rtt)
  {
  }

  /** Firing a timer does not touch the minimum RTT. */
  lemma FireKeepsMinRtt(s: State, uid: nat, segmentSize: nat)
    requires uid in s.pending && s.pending[uid].interval != 0
    ensures Fire(s, uid, segmentSize).minRtt == s.minRtt
  {
  }

  /**
   * After a sequence of acknowledgments the minimum RTT is the least non-zero
   * RTT among them and the one recorded before (zero when there is none).
   */
  lemma {:induction false} MinRttIsMinimum(s: State, segmentSize: nat, acks: seq<Ack>)
    requires s.minRtt >= 0
    requires forall i | 0 <= i < |acks| :: acks[i].rtt >= 0
    ensures var m := AckAll(s, segmentSize, acks).minRtt;
      && (m == 0 <==> s.minRtt == 0 && forall i | 0 <= i < |acks| :: acks[i].rtt == 0)
      && (forall i | 0 <= i < |acks| && acks[i].rtt != 0 :: m <= acks[i].rtt)
      && (s.minRtt != 0 ==> m <= s.minRtt)
      && (m == s.minRtt || exists i | 0 <= i < |acks| :: m == acks[i].rtt)
    decreases |acks|
  {
    if acks != [] {
      var t := PktsAcked(s, segmentSize, acks[0].packetsAcked, acks[0].rtt);
      MinRttStep(s, segmentSize, acks[0].packetsAcked, acks[0].rtt);
      MinRttIsMinimum(t, segmentSize, acks[1..]);
      var m := AckAll(t, segmentSize, acks[1..]).minRtt;
      assert AckAll(s, segmentSize, acks).minRtt == m;
      forall i | 0 <= i < |acks| && acks[i].rtt != 0
        ensures m <= acks[i].rtt
      {
        if i > 0 {
          assert acks[1..][i - 1] == acks[i];
        }
      }
      if m != s.minRtt {
        if m == t.minRtt {
          assert m == acks[0].rtt;
        } else {
          var j :| 0 <= j < |acks[1..]| && m == acks[1..][j].rtt;
          assert m == acks[j + 1].rtt;
        }
      }
      if m == 0 {
        forall i | 0 <= i < |acks|
          ensures acks[i].rtt == 0
        {
          if i > 0 {
            assert acks[1..][i - 1] == acks[i];
          }
        }
      }
    }
  }

  // ----------------------------------------------------------------- timers

  /** At most one bandwidth and one rate callback are ever pending, each the one its handle names. */
  lemma AtMostOnePending(s: State)
    requires Valid(s)
    ensures PendingOf(s.pending, BwEstimate) <= {s.bwEstimateEvent}
    ensures PendingOf(s.pending, ReEstimate) <= {s.reEstimateEvent}
    ensures |PendingOf(s.pending, BwEstimate)| <= 1 && |PendingOf(s.pending, ReEstimate)| <= 1
  {
    SubsetOfSingleton(PendingOf(s.pending, BwEstimate), s.bwEstimateEvent);
    SubsetOfSingleton(PendingOf(s.pending, ReEstimate), s.reEstimateEvent);
  }

  lemma SubsetOfSingleton(a: set<nat>, x: nat)
    requires a <= {x}
    ensures |a| <= 1
  {
    if a != {} {
      assert a == {x};
    }
  }

  /**
   * A timer is armed only while `isCount` is false: with the flag set, an ACK
   * queues nothing. With it clear, Westwood+ replaces its bandwidth callback by
   * one over the ACK's RTT and Westwood-CRB its rate callback by one over
   * `tvalue`, and the flag is set.
   */
  lemma SchedulingGuard(s: State, segmentSize: nat, packetsAcked: nat, rtt: Time)
    requires Valid(s) && rtt > 0
    ensures var t := PktsAcked(s, segmentSize, packetsAcked, rtt);
      && (s.isCount || s.pType == Westwood ==> t.pending == s.pending && t.nextUid == s.nextUid)
      && (!s.isCount && s.pType == WestwoodPlus ==>
            t.isCount && PendingOf(t.pending, BwEstimate) == {t.bwEstimateEvent} &&
            t.pending[t.bwEstimateEvent] == Callback(BwEstimate, rtt))
      && (!s.isCount && s.pType == WestwoodCrb ==>
            t.isCount && PendingOf(t.pending, ReEstimate) == {t.reEstimateEvent} &&
            t.pending[t.reEstimateEvent] == Callback(ReEstimate, s.tvalue))
  {
    var t := PktsAcked(s, segmentSize, packetsAcked, rtt);
    PktsAckedPreservesValid(s, segmentSize, packetsAcked, rtt);
    AtMostOnePending(t);
  }

  /**
   * Two Westwood+ ACKs in quick succession leave exactly one bandwidth callback
   * pending; when it fires it takes one sample, and none is left to fire again.
   */
  lemma TimerReplacement(s: State, segmentSize: nat, k1: nat, rtt1: Time, k2: nat, rtt2: Time)
    requires Valid(s) && s.pType == WestwoodPlus && rtt1 > 0 && rtt2 > 0
    ensures var t := PktsAcked(PktsAcked(s, segmentSize, k1, rtt1), segmentSize, k2, rtt2);
      && PendingOf(t.pending, BwEstimate) == {t.bwEstimateEvent}
      && var u := Fire(t, t.bwEstimateEvent, segmentSize);
         PendingOf(u.pending, BwEstimate) == {} && !u.isCount && u.ackedSegments == 0
  {
    var t1 := PktsAcked(s, segmentSize, k1, rtt1);
    PktsAckedPreservesValid(s, segmentSize, k1, rtt1);
    SchedulingGuard(s, segmentSize, k1, rtt1);
    assert t1.isCount;
    var t := PktsAcked(t1, segmentSize, k2, rtt2);
    SchedulingGuard(t1, segmentSize, k2, rtt2);
    PktsAckedPreservesValid(t1, segmentSize, k2, rtt2);
    assert t.bwEstimateEvent == t1.bwEstimateEvent;
    var u := Fire(t, t.bwEstimateEvent, segmentSize);
    FirePreservesValid(t, t.bwEstimateEvent, segmentSize);
    AtMostOnePending(u);
    assert t.bwEstimateEvent !in u.pending;
  }

  /**
   * Firing a callback of a valid state removes it, takes one sample over its
   * interval, resets that sample's counter and clears `isCount`; the other
   * channel is untouched.
   */
  lemma FireEffect(s: State, uid: nat, segmentSize: nat)
    requires Valid(s) && uid in s.pending
    ensures s.pending[uid].interval > 0
    ensures var t := Fire(s, uid, segmentSize);
      var cb := s.pending[uid];
      && t.pending == s.pending - {uid}
      && !t.isCount
      && (cb.kind == BwEstimate ==>
            t.ackedSegments == 0 && t.ackedSinceT == s.ackedSinceT && t.re == s.re &&
            t.bw == Apply(s.fType, s.bw, RawSample(s.ackedSegments, segmentSize, cb.interval)))
      && (cb.kind == ReEstimate ==>
            t.ackedSinceT == 0 && t.ackedSegments == s.ackedSegments && t.bw == s.bw &&
            t.re == Apply(s.fType, s.re, RawSample(s.ackedSinceT, segmentSize, cb.interval)))
  {
  }

  // -------------------------------------------------------------- threshold

  /**
   * The rate branch of GetSsThresh is not gated on the variant, but outside
   * Westwood-CRB the rate estimate stays zero, so the bandwidth estimate is used.
   */
  lemma NonCrbUsesBandwidth(s: State, cWnd: nat, segmentSize: nat)
    requires Valid(s) && s.pType != WestwoodCrb
    ensures !SsThreshPolicy.UsesRateEstimate(cWnd, s.re.current, s.minRtt)
    ensures SsThresh(s, cWnd, segmentSize) ==
      Max(SsThreshPolicy.MinThreshold(segmentSize), SsThreshPolicy.WindowBytes(s.bw.current, s.minRtt))
  {
  }

  // ------------------------------------------------- the copy constructor

  /**
   * A Westwood+ connection forked while its bandwidth timer is pending yields
   * a clone with `isCount` set and no timer: no later ACK arms one, so the
   * clone's bandwidth estimate is frozen. Such a parent is reachable after a
   * single ACK.
   */
  lemma ForkedPlusNeverSamples(p: State, a: int, b: int, segmentSize: nat, acks: seq<Ack>)
    requires Valid(p) && p.pType == WestwoodPlus && p.isCount
    requires forall i | 0 <= i < |acks| :: acks[i].rtt >= 0
    ensures var c := CloneAsWritten(p, a, b);
      && !Valid(c)
      && var t := AckAll(c, segmentSize, acks);
         t.isCount && t.pending == map[] && t.bw == p.bw
    ensures var q := PktsAcked(Initial(WestwoodPlus, Tustin), 1446, 4, 100_000_000);
      Valid(q) && q.isCount
  {
    StuckStaysStuck(CloneAsWritten(p, a, b), segmentSize, acks);
    InitialValid(WestwoodPlus, Tustin);
    PktsAckedPreservesValid(Initial(WestwoodPlus, Tustin), 1446, 4, 100_000_000);
  }

  lemma {:induction false} StuckStaysStuck(s: State, segmentSize: nat, acks: seq<Ack>)
    requires s.pType == WestwoodPlus && s.isCount && s.pending == map[]
    requires forall i | 0 <= i < |acks| :: acks[i].rtt >= 0
    ensures var t := AckAll(s, segmentSize, acks);
      t.isCount && t.pending == map[] && t.bw == s.bw
    decreases |acks|
  {
    if acks != [] {
      var t := PktsAcked(s, segmentSize, acks[0].packetsAcked, acks[0].rtt);
      StuckStaysStuck(t, segmentSize, acks[1..]);
    }
  }

  /**
   * A Westwood-CRB clone, whose `m_tvalue` the copy constructor leaves at the
   * default (zero) time, arms on its first ACK a rate callback with a zero
   * interval, which EstimateRE's assertion rejects.
   */
  lemma ForkedCrbZeroInterval(p: State, a: int, b: int, segmentSize: nat, packetsAcked: nat, rtt: Time)
    requires p.pType == WestwoodCrb && !p.isCount && rtt > 0
    ensures var t := PktsAcked(CloneAsWritten(p, a, b), segmentSize, packetsAcked, rtt);
      t.reEstimateEvent in t.pending && t.pending[t.reEstimateEvent] == Callback(ReEstimate, 0)
  {
  }
}
