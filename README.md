# TCP Westwood congestion control (ns-3.26), modelled in Dafny

This project models `TcpWestwood`, the TCP Westwood / Westwood+ / Westwood-CRB
congestion-control class of the ns-3 network simulator. On every ACK the
class counts acknowledged segments and tracks the minimum RTT. It turns the
counts into a bandwidth estimate (BW) and, for Westwood-CRB, a rate estimate
(RE), each optionally smoothed by a Tustin low-pass filter. After a loss it
derives the slow-start threshold from these estimates.

The files:

- `types.dfy` (`WestwoodTypes`): the protocol variants and filter types, time
  as integer nanoseconds, and conversions (`GetSeconds`, truncation to
  `uint32_t`).
- `filter.dfy` (`SampleFilter`): the raw sample (segments × segment size /
  interval, with the source's unsigned 32-bit product) and the Tustin filter,
  with its steady state and its convergence under a constant input.
- `threshold.dfy` (`SsThreshPolicy`): `GetSsThresh` as a pure policy. There
  is one version as written, with its integer division, and one with the
  division guarded.
- `model.dfy` (`WestwoodModel`): the per-connection state as a value and each
  operation as a state transition. It includes the connection's pending
  simulator callbacks and the class invariant.
- `properties.dfy` (`WestwoodProperties`): lemmas about the transitions. They
  cover the invariant, ACK accounting, the minimum RTT, the timer discipline,
  the threshold branch, and the two defects of the copy constructor.
- `westwood.dfy` (`TcpWestwoodClass`): the class itself. Its fields are
  updated in place, and each method is proved to perform its transition of
  `WestwoodModel`. Methods that the invariant governs also keep it.
- `scenario.dfy` (`WestwoodScenario`): the test suite's reference run. It uses
  the default Westwood variant with the Tustin filter and eight ACKs, and it
  ends with a slow-start threshold of 3994 bytes.

Timers: `pending` is the connection's share of the simulator's event queue,
keyed by event uid. `bwEstimateEvent` and `reEstimateEvent` are the two
`EventId` handles, where 0 stands for the default, empty handle. `Fire`
lets any pending callback run, because the model has no clock.

Behaviour of the code worth noting:

- The RE branch of `GetSsThresh` applies to every variant. The invariant
  keeps RE at zero outside CRB, so the branch is never taken there
  (`WestwoodProperties.NonCrbUsesBandwidth`).
- With filter NONE, the code sets the estimate to the raw sample and leaves
  the filter memory untouched.
- The destructor is empty and cancels no timer.
- One shared `m_IsCount` flag guards both the Westwood+ and the CRB timer.
- The header describes Westwood's sampling interval as the ACK inter-arrival
  time, but the code samples over the ACK's RTT (`WestwoodProperties.AckAccounting`).

## Model

| member | source | states |
|---|---|---|
| SampleFilter.RawSample | ns-allinone-3.26/ns-3.26/src/internet/model/tcp-westwood.cc:213 | the sample times the interval gives back the acked bytes, as a 32-bit unsigned product; a positive interval gives a non-negative sample |
| SampleFilter.RawSampleWrapInvariant | ns-allinone-3.26/ns-3.26/src/internet/model/tcp-westwood.cc:213 | adding any multiple of 2^32 to the segment counter leaves the sample unchanged, so a wrapped 32-bit counter gives the same sample as an unbounded one |
| SampleFilter.TustinStep | ns-allinone-3.26/ns-3.26/src/internet/model/tcp-westwood.cc:229-235 | the filtered value lies between the least and the greatest of the last filtered value, the last raw sample and the new raw sample; if all three are equal, it is that value |
| SampleFilter.Apply | ns-allinone-3.26/ns-3.26/src/internet/model/tcp-westwood.cc:226-235 | NONE: the estimate becomes the raw sample and the memory is untouched. TUSTIN: the last sample becomes the raw sample, the last value becomes the new estimate, and the estimate is bounded by memory and sample. Non-negativity is preserved |
| SampleFilter.TustinSteadyState | ns-allinone-3.26/ns-3.26/src/internet/model/tcp-westwood.cc:194-200 | a Tustin channel whose memory and input all equal x stays at x |
| SampleFilter.ConstantInputContracts | ns-allinone-3.26/ns-3.26/src/internet/model/tcp-westwood.cc:229-235 | under a constant input x, the filtered value's distance to x shrinks by the factor 0.9 at every step, and the memory stays in step |
| SampleFilter.ConstantInputConverges | ns-allinone-3.26/ns-3.26/src/internet/model/tcp-westwood.cc:229-235 | after n more steps of a constant input, the error is 0.9^n times the initial error and at most 9/(9+n) of it in magnitude: the estimate converges to the input |
| SsThreshPolicy.MinThreshold | ns-allinone-3.26/ns-3.26/src/internet/model/tcp-westwood.cc:256 | two segments in 32-bit unsigned arithmetic: exactly 2·segmentSize when that does not wrap |
| SsThreshPolicy.WindowBytes | ns-allinone-3.26/ns-3.26/src/internet/model/tcp-westwood.cc:263 | the `uint32_t` cast of estimate × minRtt: the largest whole number of bytes not above the product; zero exactly when the product is below one byte |
| SsThreshPolicy.SsThreshAsWritten | ns-allinone-3.26/ns-3.26/src/internet/model/tcp-westwood.cc:240-267 | the threshold exactly as written, with `DivisionByZero` where the truncated divisor is zero; without a minimum RTT or without RE it is max(two segments, floor(BW·minRtt)), and any value it yields is at least two segments (mod 2^32) |
| SsThreshPolicy.SsThresh | ns-allinone-3.26/ns-3.26/src/internet/model/tcp-westwood.cc:240-267 | the threshold is max(two segments, floor(est·minRtt)), where est is RE when the rate test holds and BW otherwise: it is at least both, and equal to one of them |
| SsThreshPolicy.RateBranchCondition | ns-allinone-3.26/ns-3.26/src/internet/model/tcp-westwood.cc:251-254 | the RE branch is taken if and only if minRtt ≠ 0, RE ≠ 0, RE·minRtt ≥ 1 byte and cWnd < 2·floor(RE·minRtt), that is when the integer quotient is 0 or 1 |
| SsThreshPolicy.AsWrittenAgreesWhenDefined | ns-allinone-3.26/ns-3.26/src/internet/model/tcp-westwood.cc:254-264 | the source's expression divides by zero if and only if minRtt ≠ 0, RE ≠ 0 and RE·minRtt < 1 byte; whenever it yields a value, that value equals the guarded threshold |
| SsThreshPolicy.ZeroDivisorExample | ns-allinone-3.26/ns-3.26/src/internet/model/tcp-westwood.cc:254 | with RE = 180.75 bytes/s and a 5 ms minimum RTT, the expression as written divides by zero, and the guarded one returns two segments |
| WestwoodModel.Initial | ns-allinone-3.26/ns-3.26/src/internet/model/tcp-westwood.cc:70-85 | (body) both estimates and all filter memory zero, `m_tvalue` 0.4 s, no minimum RTT, empty counters, a clear flag and no pending callback; its properties are in `WestwoodProperties.InitialValid` |
| WestwoodModel.PktsAcked | ns-allinone-3.26/ns-3.26/src/internet/model/tcp-westwood.cc:110-167 | (body) a zero RTT returns the state unchanged; otherwise both counters grow, the minimum RTT is updated, and Westwood samples BW, Westwood+ arms its timer unless the flag is set, and CRB arms its timer unless the flag is set and then samples BW; partners `AckAccounting`, `MinRttIsMinimum`, `SchedulingGuard`, `PktsAckedPreservesValid` |
| WestwoodModel.EstimateBW | ns-allinone-3.26/ns-3.26/src/internet/model/tcp-westwood.cc:205-238 | (body) the BW channel takes the filtered raw sample of `m_ackedSegments` over the interval, the counter resets, and the flag is cleared only under Westwood+; partners `AckAccounting`, `FireEffect` |
| WestwoodModel.EstimateRE | ns-allinone-3.26/ns-3.26/src/internet/model/tcp-westwood.cc:170-203 | (body) the RE channel takes the filtered raw sample of `m_ackedSinceT` over the interval, the counter resets, and the flag is cleared only under CRB; partner `FireEffect` |
| WestwoodModel.Fire | ns-allinone-3.26/ns-3.26/src/internet/model/tcp-westwood.cc:150-161 | (body) the simulator runs a pending callback: it is removed and EstimateBW or EstimateRE runs with the interval bound when it was scheduled; partners `FireEffect`, `FirePreservesValid`, `FireKeepsMinRtt` |
| WestwoodModel.SsThresh | ns-allinone-3.26/ns-3.26/src/internet/model/tcp-westwood.cc:240-267 | (body) the guarded threshold policy applied to the state's BW, RE and minimum RTT; partner `NonCrbUsesBandwidth` |
| WestwoodModel.Clone | ns-allinone-3.26/ns-3.26/src/internet/model/tcp-westwood.cc:87-102 | (body) the copy constructor as intended: configuration, `m_tvalue`, estimates and filter memory copied; minimum RTT, counters, flag and timers reset; partner `CloneValid` |
| WestwoodModel.CloneAsWritten | ns-allinone-3.26/ns-3.26/src/internet/model/tcp-westwood.cc:87-99 | the copy constructor as written differs from the intended clone exactly in a zero `m_tvalue`, indeterminate counters and a copied `m_IsCount`, and it never satisfies the invariant |
| WestwoodProperties.InitialValid | ns-allinone-3.26/ns-3.26/src/internet/model/tcp-westwood.cc:70-85 | a new object satisfies the invariant, has no minimum RTT, a clear `m_IsCount` and no pending callback |
| WestwoodProperties.PktsAckedPreservesValid | ns-allinone-3.26/ns-3.26/src/internet/model/tcp-westwood.cc:110-167 | PktsAcked keeps the invariant |
| WestwoodProperties.ArmBwTimerValid | ns-allinone-3.26/ns-3.26/src/internet/model/tcp-westwood.cc:146-152 | arming the Westwood+ timer with a positive RTT keeps the invariant |
| WestwoodProperties.ArmReTimerValid | ns-allinone-3.26/ns-3.26/src/internet/model/tcp-westwood.cc:156-162 | arming the CRB timer keeps the invariant |
| WestwoodProperties.FirePreservesValid | ns-allinone-3.26/ns-3.26/src/internet/model/tcp-westwood.cc:170-238 | a pending callback has a positive interval, so the assertions at lines 176 and 211 hold, and running it keeps the invariant |
| WestwoodProperties.CloneValid | ns-allinone-3.26/ns-3.26/src/internet/model/tcp-westwood.cc:87-102 | the corrected clone satisfies the invariant. It copies the estimates, the filter memory, the variant, the filter and `m_tvalue`, and it resets the minimum RTT, the counters, `m_IsCount` and the timers |
| WestwoodProperties.AckAccounting | ns-allinone-3.26/ns-3.26/src/internet/model/tcp-westwood.cc:117-166 | a zero RTT changes nothing. Otherwise both counters grow by the acked count. Westwood and CRB then take one BW sample over the ACK's RTT and reset the counter, while Westwood+ leaves BW alone. RE and the configuration are unchanged |
| WestwoodProperties.MinRttStep | ns-allinone-3.26/ns-3.26/src/internet/model/tcp-westwood.cc:126-136 | the new minimum RTT is the old one or the sample. Once set, it stays non-zero and never increases, and it never exceeds a non-zero sample |
| WestwoodProperties.FireKeepsMinRtt | ns-allinone-3.26/ns-3.26/src/internet/model/tcp-westwood.cc:170-238 | running a callback does not change the minimum RTT |
| WestwoodProperties.MinRttIsMinimum | ns-allinone-3.26/ns-3.26/src/internet/model/tcp-westwood.cc:126-136 | after a sequence of ACKs the minimum RTT is the least of the non-zero RTTs and the earlier minimum; it is zero exactly when there is none |
| WestwoodProperties.AtMostOnePending | ns-allinone-3.26/ns-3.26/src/internet/model/tcp-westwood.cc:146-162 | at most one BW callback and at most one RE callback are pending, each the one its handle names |
| WestwoodProperties.SchedulingGuard | ns-allinone-3.26/ns-3.26/src/internet/model/tcp-westwood.cc:146-162 | with `m_IsCount` set (or under Westwood) an ACK queues nothing. With it clear, Westwood+ replaces its BW callback by one over the ACK's RTT, CRB replaces its RE callback by one over `m_tvalue`, and the flag is set |
| WestwoodProperties.TimerReplacement | ns-allinone-3.26/ns-3.26/src/internet/model/tcp-westwood.cc:146-152 | two Westwood+ ACKs leave exactly one BW callback pending; firing it clears the flag and the counter and leaves none |
| WestwoodProperties.FireEffect | ns-allinone-3.26/ns-3.26/src/internet/model/tcp-westwood.cc:170-238 | running a callback removes it, samples its own channel over its interval, resets that channel's counter, clears `m_IsCount`, and leaves the other channel untouched |
| WestwoodProperties.NonCrbUsesBandwidth | ns-allinone-3.26/ns-3.26/src/internet/model/tcp-westwood.cc:254-264 | outside CRB the RE branch is never taken, and the threshold is max(two segments, floor(BW·minRtt)) |
| WestwoodProperties.ForkedPlusNeverSamples | ns-allinone-3.26/ns-3.26/src/internet/model/tcp-westwood.cc:87-99 | a Westwood+ object cloned as written while its timer is pending breaks the invariant. No sequence of ACKs ever arms a timer in the clone, so its BW stays frozen. Such a parent exists after one ACK |
| WestwoodProperties.StuckStaysStuck | ns-allinone-3.26/ns-3.26/src/internet/model/tcp-westwood.cc:144-153 | a Westwood+ state with the flag set and no pending timer keeps that shape and its BW under any ACK sequence |
| WestwoodProperties.ForkedCrbZeroInterval | ns-allinone-3.26/ns-3.26/src/internet/model/tcp-westwood.cc:87-99 | a CRB object cloned as written, with `m_tvalue` zero, schedules EstimateRE with a zero interval on its first ACK |
| TcpWestwoodClass.TcpWestwood.constructor | ns-allinone-3.26/ns-3.26/src/internet/model/tcp-westwood.cc:70-85 | the fields start at zero, `m_tvalue` at 0.4 s, `m_IsCount` false and no timer, and the invariant holds |
| TcpWestwoodClass.TcpWestwood.Copy | ns-allinone-3.26/ns-3.26/src/internet/model/tcp-westwood.cc:87-102 | the corrected copy constructor builds the clone of `WestwoodModel.Clone` and keeps the invariant |
| TcpWestwoodClass.TcpWestwood.Fork | ns-allinone-3.26/ns-3.26/src/internet/model/tcp-westwood.cc:269-273 | returns a fresh, valid object that is the clone of this one |
| TcpWestwoodClass.TcpWestwood.Cancel | ns-allinone-3.26/ns-3.26/src/internet/model/tcp-westwood.cc:149 | the callback is no longer pending; nothing else changes |
| TcpWestwoodClass.TcpWestwood.Schedule | ns-allinone-3.26/ns-3.26/src/internet/model/tcp-westwood.cc:150-151 | the callback is queued under a new uid, which is returned |
| TcpWestwoodClass.TcpWestwood.EstimateBW | ns-allinone-3.26/ns-3.26/src/internet/model/tcp-westwood.cc:205-238 | performs the BW sampling transition: the raw sample, a reset counter, the flag cleared only under Westwood+, and the filter |
| TcpWestwoodClass.TcpWestwood.EstimateRE | ns-allinone-3.26/ns-3.26/src/internet/model/tcp-westwood.cc:170-203 | performs the RE sampling transition: the raw sample over `tvalue`, a reset counter, the flag cleared only under CRB, and the filter |
| TcpWestwoodClass.TcpWestwood.ArmBwTimer | ns-allinone-3.26/ns-3.26/src/internet/model/tcp-westwood.cc:146-152 | sets the flag, cancels the previous BW callback and schedules EstimateBW after the RTT |
| TcpWestwoodClass.TcpWestwood.ArmReTimer | ns-allinone-3.26/ns-3.26/src/internet/model/tcp-westwood.cc:156-162 | sets the flag, cancels the previous RE callback and schedules EstimateRE after `m_tvalue` |
| TcpWestwoodClass.TcpWestwood.PktsAcked | ns-allinone-3.26/ns-3.26/src/internet/model/tcp-westwood.cc:110-167 | performs the ACK transition of `WestwoodModel.PktsAcked` and keeps the invariant |
| TcpWestwoodClass.TcpWestwood.OnAck | ns-allinone-3.26/ns-3.26/src/internet/model/tcp-westwood.cc:117-166 | the statements of PktsAcked, branch by branch, perform the ACK transition |
| TcpWestwoodClass.TcpWestwood.Fire | ns-allinone-3.26/ns-3.26/src/internet/model/tcp-westwood.cc:150-161 | running a scheduled EstimateBW or EstimateRE performs the transition of `WestwoodModel.Fire` and keeps the invariant |
| TcpWestwoodClass.TcpWestwood.GetSsThresh | ns-allinone-3.26/ns-3.26/src/internet/model/tcp-westwood.cc:240-267 | reads the object and changes nothing. The result is the guarded policy on the object's estimates, equal to the source's value wherever that is defined; it is at least two segments (without wrap), and outside CRB it is max(two segments, floor(BW·minRtt)) |
| WestwoodScenario.Round | ns-allinone-3.26/ns-3.26/src/internet/test/tcp-westwood-test.cc:100-101 | one ACK and a threshold query on a Westwood/Tustin object: the exact raw sample, the Tustin step, the minimum RTT and the threshold |
| WestwoodScenario.FirstRounds | ns-allinone-3.26/ns-3.26/src/internet/test/tcp-westwood-test.cc:100-106 | after ACKs of 4 and 5 segments (100 and 105 ms), BW = 312818/35 bytes/s and the threshold is 2892 |
| WestwoodScenario.SecondRounds | ns-allinone-3.26/ns-3.26/src/internet/test/tcp-westwood-test.cc:110-116 | after ACKs of 6 and 7 segments (80 and 100 ms), BW = 89956383/3500 bytes/s, minRtt = 80 ms and the threshold is 2892 |
| WestwoodScenario.ThirdRounds | ns-allinone-3.26/ns-3.26/src/internet/test/tcp-westwood-test.cc:120-126 | after ACKs of 8 and 9 segments (110 and 140 ms), the threshold is 3200 |
| WestwoodScenario.LastRounds | ns-allinone-3.26/ns-3.26/src/internet/test/tcp-westwood-test.cc:130-136 | after ACKs of 10 and 11 segments (150 and 190 ms), the threshold is 3994 |
| WestwoodScenario.ReferenceScenario | ns-allinone-3.26/ns-3.26/src/internet/test/tcp-westwood-test.cc:98-139 | the reference run ends with a slow-start threshold of 3994 bytes |

## Left out

- `GetTypeId`, attribute and trace-source registration, and all logging: these are reflection and logging plumbing.
- Changing `ProtocolType` or `FilterType` through attributes after construction: the variant and the filter are fixed at construction.
- The simulator's event queue, clock and time ordering: a pending callback may fire at any time, so the model allows more orderings than the simulator does.
- The `TcpNewReno` base class, `Ptr`/`CreateObject` and `TracedValue` callbacks: they are outside this model, and `TcpSocketState` is reduced to its segment size and congestion window.
- IEEE-754 rounding: estimates are exact reals. Casts to `uint32_t` are modelled as truncation of non-negative values. Out-of-range casts, which are undefined, are not modelled.
- Overflow of the `int` counters past 2^31: the sample only depends on the counters modulo 2^32 (`SampleFilter.RawSampleWrapInvariant`), so counters are unbounded integers.
- TcpWestwoodClass.TcpWestwood.PktsAcked: requires a non-negative RTT; a negative `Time` is not modelled.
- The declared but never defined `UpdateAckedSegments` at ns-allinone-3.26/ns-3.26/src/internet/model/tcp-westwood.h:117: it has no behaviour to model.
- The destructor: it is empty, so callbacks still pending for a destroyed object are not modelled.
- `NS_ASSERT` in EstimateBW and EstimateRE: it is modelled as the precondition of a non-zero interval.
- The test harness's `Simulator::Run` wiring and its registration at tcp-westwood-test.cc:154: only the run's values are modelled.
- TcpWestwoodClass.TcpWestwood.GetSsThresh: returns the bandwidth fallback of `SsThreshPolicy.SsThresh` where the expression at tcp-westwood.cc:254 divides by zero (RE and minRtt non-zero, their product below one byte); the source's behaviour there is `SsThreshPolicy.SsThreshAsWritten`.
- TcpWestwoodClass.TcpWestwood.Copy: models the corrected copy constructor. The copy as written is the value-level `WestwoodModel.CloneAsWritten`, because a class constructor cannot leave fields uninitialised.

## Findings

| source | as written | input that shows it | evidently intended | confidence | as-written member | corrected member |
|---|---|---|---|---|---|---|
| ns-allinone-3.26/ns-3.26/src/internet/model/tcp-westwood.cc:254 | `cWnd / uint32_t(RE * minRtt)` divides by the truncated product, which is zero whenever RE and minRtt are non-zero but their product is below one byte | Westwood-CRB with Tustin, whose first rate sample of one 1446-byte segment gives RE = 180.75 bytes/s, and a 5 ms minimum RTT | treat a zero divisor like a zero RE and use the BW estimate | high, not executed | SsThreshPolicy.SsThreshAsWritten, SsThreshPolicy.ZeroDivisorExample | SsThreshPolicy.SsThresh, SsThreshPolicy.AsWrittenAgreesWhenDefined |
| ns-allinone-3.26/ns-3.26/src/internet/model/tcp-westwood.cc:98 | the copy constructor copies `m_IsCount` but not the event handles | a Westwood+ object forked after one ACK of 4 segments at 100 ms, with its BW timer pending | the clone starts with `m_IsCount` clear, so its first ACK arms its own timer | medium, not executed | WestwoodModel.CloneAsWritten, WestwoodProperties.ForkedPlusNeverSamples | WestwoodModel.Clone, WestwoodProperties.CloneValid |
| ns-allinone-3.26/ns-3.26/src/internet/model/tcp-westwood.cc:87-99 | the copy constructor does not initialise `m_tvalue`, so the clone's T value is the default time, zero | a forked Westwood-CRB object receiving its first ACK schedules EstimateRE with a zero interval, failing the assertion at line 176 | copy `m_tvalue` from the parent | high, not executed | WestwoodModel.CloneAsWritten, WestwoodProperties.ForkedCrbZeroInterval | WestwoodModel.Clone, WestwoodProperties.CloneValid |
