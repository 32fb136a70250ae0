/**
 * The per-connection state of TcpWestwood as a value, and each operation of
 * the class as a function from state to state. The class in westwood.dfy is
 * proved against these functions; the lemmas here state what they promise.
 *
 * Timers: `pending` is this connection's share of the simulator's event queue,
 * keyed by event uid. `bwEstimateEvent` and `reEstimateEvent` are the two
 * EventId handles (uid 0 is the default, empty EventId). New uids come from
 * `nextUid`.
 */
module WestwoodModel {
  import opened WestwoodTypes
  import opened SampleFilter
  import SsThreshPolicy

  datatype EventKind = BwEstimate | ReEstimate

  /** A scheduled callback: EstimateBW or EstimateRE with the interval it was bound to. */
  datatype Callback = Callback(kind: EventKind, interval: Time)

  datatype State = State(
    pType: ProtocolType,
    fType: FilterType,
    tvalue: Time,
    bw: Channel,
    re: Channel,
    minRtt: Time,
    ackedSegments: int,
    ackedSinceT: int,
    isCount: bool,
    bwEstimateEvent: nat,
    reEstimateEvent: nat,
    pending: map<nat, Callback>,
    nextUid: nat)

  /** One acknowledgment as the transport reports it: segments acked and its RTT sample. */
  datatype Ack = Ack(packetsAcked: nat, rtt: Time)

  /** The uids of pending callbacks of one kind. */
  function PendingOf(pending: map<nat, Callback>, kind: EventKind): set<nat>
  {
    set u | u in pending && pending[u].kind == kind
  }

  /**
   * The invariant every reachable state keeps: non-negative counters and
   * estimates; Tustin memory in step with the estimate; no rate estimate
   * outside CRB; every pending callback has a positive interval and is the one
   * named by its handle; and the shared `isCount` flag is set exactly while
   * the variant's timer is pending.
   */
  ghost predicate Valid(s: State)
  {
    && s.tvalue > 0
    && s.minRtt >= 0
    && s.ackedSegments >= 0 && s.ackedSinceT >= 0
    && NonNegative(s.bw) && NonNegative(s.re)
    && (s.fType == Tustin ==> s.bw.last == s.bw.current && s.re.last == s.re.current)
    && (s.pType != WestwoodCrb ==> s.re == ZeroChannel)
    && s.nextUid >= 1
    && (forall u | u in s.pending :: 0 < u < s.nextUid && s.pending[u].interval > 0)
    && (forall u | u in s.pending && s.pending[u].kind == BwEstimate ::
          u == s.bwEstimateEvent && s.pType == WestwoodPlus)
    && (forall u | u in s.pending && s.pending[u].kind == ReEstimate ::
          u == s.reEstimateEvent && s.pType == WestwoodCrb)
    && (s.pType == Westwood ==> !s.isCount)
    && (s.pType == WestwoodPlus ==> (s.isCount <==> s.bwEstimateEvent in s.pending))
    && (s.pType == WestwoodCrb ==> (s.isCount <==> s.reEstimateEvent in s.pending))
  }

  // ---------------------------------------------------------------- operations

  /** The default constructor, with the variant and filter chosen by configuration. */
  function Initial(pType: ProtocolType, fType: FilterType): State
  {
    State(pType, fType, DefaultTValue, ZeroChannel, ZeroChannel, 0, 0, 0, false, 0, 0, map[], 1)
  }

  /** `EventId::Cancel`: removes the event if it is still pending, otherwise nothing. */
  function Cancel(s: State, uid: nat): State
  {
    s.(pending := s.pending - {uid})
  }

  /** `Simulator::Schedule`: queues a callback under the uid `s.nextUid`. */
  function Schedule(s: State, cb: Callback): State
  {
    s.(pending := s.pending[s.nextUid := cb], nextUid := s.nextUid + 1)
  }

  /** EstimateBW: one bandwidth sample over `rtt`, then the filter. */
  function EstimateBW(s: State, rtt: Time, segmentSize: nat): State
    requires rtt != 0
  {
    s.(bw := Apply(s.fType, s.bw, RawSample(s.ackedSegments, segmentSize, rtt)),
       ackedSegments := 0,
       isCount := if s.pType == WestwoodPlus then false else s.isCount)
  }

  /** EstimateRE: one rate sample over `tvalue`, then the filter. */
  function EstimateRE(s: State, tvalue: Time, segmentSize: nat): State
    requires tvalue != 0
  {
    s.(re := Apply(s.fType, s.re, RawSample(s.ackedSinceT, segmentSize, tvalue)),
       ackedSinceT := 0,
       isCount := if s.pType == WestwoodCrb then false else s.isCount)
  }

  /** `m_minRtt` after an RTT sample: the sample if none is recorded, else the smaller. */
  function UpdateMinRtt(minRtt: Time, rtt: Time): Time
  {
    if minRtt == 0 then rtt else if rtt < minRtt then rtt else minRtt
  }

  /** Westwood+: set the flag, cancel the old BW event and schedule EstimateBW after `rtt`. */
  function ArmBwTimer(s: State, rtt: Time): State
  {
    var c := Cancel(s.(isCount := true), s.bwEstimateEvent);
    Schedule(c, Callback(BwEstimate, rtt)).(bwEstimateEvent := c.nextUid)
  }

  /** Westwood-CRB: set the flag, cancel the old RE event and schedule EstimateRE after `tvalue`. */
  function ArmReTimer(s: State): State
  {
    var c := Cancel(s.(isCount := true), s.reEstimateEvent);
    Schedule(c, Callback(ReEstimate, s.tvalue)).(reEstimateEvent := c.nextUid)
  }

  /** PktsAcked: count the segments, track the minimum RTT, and sample per variant. */
  function PktsAcked(s: State, segmentSize: nat, packetsAcked: nat, rtt: Time): State
    requires rtt >= 0
  {
    if rtt == 0 then s
    else
      var s1 := s.(ackedSegments := s.ackedSegments + packetsAcked,
                   ackedSinceT := s.ackedSinceT + packetsAcked,
                   minRtt := UpdateMinRtt(s.minRtt, rtt));
      match s.pType
      case Westwood => EstimateBW(s1, rtt, segmentSize)
      case WestwoodPlus => if s1.isCount then s1 else ArmBwTimer(s1, rtt)
      case WestwoodCrb => EstimateBW(if s1.isCount then s1 else ArmReTimer(s1), rtt, segmentSize)
  }

  /**
   * The simulator runs the pending callback `uid`. The segment size is read
   * through the socket state when the callback runs. EstimateBW and EstimateRE
   * assert that their interval is non-zero.
   */
  function Fire(s: State, uid: nat, segmentSize: nat): State
    requires uid in s.pending && s.pending[uid].interval != 0
  {
    var cb := s.pending[uid];
    var s1 := s.(pending := s.pending - {uid});
    match cb.kind
    case BwEstimate => EstimateBW(s1, cb.interval, segmentSize)
    case ReEstimate => EstimateRE(s1, cb.interval, segmentSize)
  }

  /** GetSsThresh over the state (the bytes in flight are not used). */
  function SsThresh(s: State, cWnd: nat, segmentSize: nat): nat
    requires NonNegative(s.bw) && NonNegative(s.re) && s.minRtt >= 0
  {
    SsThreshPolicy.SsThresh(cWnd, segmentSize, s.bw.current, s.re.current, s.minRtt)
  }

  /**
   * The copy constructor as written: estimates, filter memory, variant,
   * filter and `isCount` are copied, `m_minRtt` restarts at zero and the event
   * handles are fresh. `m_tvalue` is not in the initialiser list, so it is the
   * default time, zero. The `int` counters `m_ackedSegments` and
   * `m_ackedSinceT` are not initialised; whatever they hold is passed in.
   * It differs from the intended clone exactly in the T value, the counters
   * and the flag, and never satisfies the invariant.
   */
  function CloneAsWritten(s: State, ackedSegments: int, ackedSinceT: int): (r: State)
    ensures r == Clone(s).(tvalue := 0, ackedSegments := ackedSegments,
                           ackedSinceT := ackedSinceT, isCount := s.isCount)
    ensures !Valid(r)
  {
    State(s.pType, s.fType, 0, s.bw, s.re, 0, ackedSegments, ackedSinceT, s.isCount, 0, 0, map[], 1)
  }

  /**
   * The copy constructor as intended: the same configuration (including
   * `m_tvalue`) and estimates, with the minimum RTT, the counters and the
   * sampling flag reset, and no pending events.
   */
  function Clone(s: State): State
  {
    State(s.pType, s.fType, s.tvalue, s.bw, s.re, 0, 0, 0, false, 0, 0, map[], 1)
  }

  /** Feeds a sequence of acknowledgments, with no timer firing in between. */
  function AckAll(s: State, segmentSize: nat, acks: seq<Ack>): State
    requires forall i | 0 <= i < |acks| :: acks[i].rtt >= 0
    decreases |acks|
  {
    if acks == [] then s
    else AckAll(PktsAcked(s, segmentSize, acks[0].packetsAcked, acks[0].rtt), segmentSize, acks[1..])
  }
}
