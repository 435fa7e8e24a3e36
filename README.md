# Chaos on the Tmote Sky, modelled in Dafny

Chaos is an all-to-all data sharing primitive for low-power wireless
networks. One node, the initiator, starts a flood; every node that receives
the packet merges its own contribution (one flag bit per node) into it and
relays it at once, and all relays of one slot are sent in lock step. From the
relay counter in the packet and a measured slot length, receivers work out the
time at which the initiator started. This gives them a shared reference time
that they use to wake up for the next round.

This project models the core of that system:

- **The Chaos engine** (`chaos.c`, `chaos.h`). The SFD/timer interrupt handler
  with its five branches:
  - start of a reception, with the length, header and timeout checks;
  - end of a reception, with the CRC test, the flag merge, the busy wait and
    the T_irq check, and the relay;
  - start and end of a transmission, with the reference-time computation;
  - the backoff timeout with its retransmission;
  - the catch-all.

  It also covers chaos_start, chaos_stop, the flag merge
  chaos_data_processing, the slot-length estimator with its 32-sample
  window, compute_sync_reference_time, the timeout planner and the getters
  and setters.

  Each handler is a function on a value `ChaosSpec.Engine` (module
  `ChaosSpec`). It is also a method of the class `Chaos.ChaosEngine`, whose
  fields are the statics of `chaos.c` and whose `packet` and `data` are
  arrays. Each method is proved to change the state exactly as its function
  says. The lemmas in `ChaosProperties` state what the handlers guarantee.
- **The record layout and configuration** (`chaos-test.h`): the size of the
  flags array, the complete flag, the record size, and the timing constants
  (module `ChaosTestConfig`). The packet layout is in `ChaosHeader`.
- **The flag algebra** (module `FlagMerge`): merge as bitwise OR, the relay
  test, and completion. It is proved to mean "every node has contributed".
- **The scheduler of chaos-test.c** (module `ChaosScheduler`). The protothread
  is modelled as a resume point and the statics as the class
  `ChaosScheduler.Scheduler`. One invocation is modelled as a function from the
  statics and the engine's reference time to new statics, and one step: the
  engine call, the forced reference, the next alarm and the poll. The module
  also covers the skew estimation, bootstrap, guard times, node-index mapping
  and record preparation.
- **rtimer** (`rtimer.c`, module `Rtimer`): one pending-timer slot, with
  overflow counting for long timers.
- **putchar over UART1** (`uart1-putchar.c`, module `Uart1Putchar`): the TinyOS
  serial framer, with the CRC-16 byte step (module `Crc16`), and the plain
  putchar.

Configuration the model fixes, all as the Cooja build of the repository
sets it:
- COOJA = 1 (`contiki/platform/sky/contiki-conf.h:10`), so CLOCK_PHI = 128 and
  CHAOS_GUARD_TIME = 98 ticks.
- RTIMER_SECOND = 32768. The msp430 `int` is 16 bits and `unsigned long` is
  2-byte aligned, so DATA_LEN = 106 and PACKET_LEN = 110.
- Three nodes, so MERGE_LEN = 1 and CHAOS_COMPLETE_FLAG = 0x07.
- Sync mode on, with FINAL_CHAOS_FLOOD and TIMEOUT on. LOG_FLAGS is on, but it
  only logs.
- Both putchar variants are modelled. The selected build
  (`contiki-conf.h:15`) compiles the plain one.

Hardware and time are parameters:
- a reading of RTIMER_NOW / RTIMER_NOW_DCO is a `u16` argument;
- the bytes the radio delivers to the receive FIFO are a `seq<u8>`;
- the SFD pin and the TBIV source are booleans (`Interrupt(sfd, ccr4, hw)`);
- the UART is the sequence of bytes written to it (`SerialPort.out`).

A callback that rtimer runs is returned to the caller rather than called.

## Model

| member | source | states |
|---|---|---|
| Bytes.AsInt16 | contiki/apps/chaos-test/chaos-test.c:232 | storing the 16-bit skew into a 16-bit `int` keeps its bit pattern: the result is congruent to the input mod 2^16 |
| Bytes.CrcOkBit | contiki/core/dev/chaos.c:262 | the CRC-ok test `b & FOOTER1_CRC_OK` is non-zero exactly when the footer byte is at least 0x80 |
| Crc16.CrcByteIsBitwise | contiki/cpu/msp430/dev/uart1-putchar.c:44-53 | crc_byte equals eight bit-serial steps of the CRC-16 with generator 0x1021, the byte entering at the top of the register |
| Crc16.CrcOfOne | contiki/cpu/msp430/dev/uart1-putchar.c:44-53 | the CRC of the single byte 0x01 from 0 is the generator 0x1021, both by crc_byte and by the bitwise reference |
| Crc16.ShiftsLinear | contiki/cpu/msp430/dev/uart1-putchar.c:47-51 | the bit-serial reference is linear over exclusive or, for any number of shifts |
| ChaosTestConfig.MergeLen | contiki/apps/chaos-test/chaos-test.h:105 | MERGE_LEN is the least number of bytes that holds one bit per node: 8 (m - 1) < n <= 8 m |
| ChaosTestConfig.FlagBits | contiki/apps/chaos-test/chaos-test.h:110 | the number of bits in the last complete flag byte is between 1 and 8 |
| ChaosTestConfig.CompleteFlagBits | contiki/apps/chaos-test/chaos-test.h:110 | CHAOS_COMPLETE_FLAG has exactly ((n - 1) mod 8) + 1 bits set, all at the bottom |
| ChaosTestConfig.CompleteFlagCounts | contiki/apps/chaos-test/chaos-test.h:105-110 | the full bytes before the last, plus the bits of the complete flag, count each of the n nodes exactly once |
| ChaosTestConfig.CompleteFlagFull | contiki/apps/chaos-test/chaos-test.h:110 | for a multiple of 8 nodes the last complete flag byte is 0xFF |
| ChaosTestConfig.DataLen | contiki/apps/chaos-test/chaos-test.h:185-201 | sizeof(chaos_data_struct) is the 4-byte sequence number, flags and payload, padded to an even size |
| ChaosTestConfig.ConfiguredSizes | contiki/apps/chaos-test/chaos-test.h:95-110 | with 3 nodes and a 100-byte payload: MERGE_LEN = 1, complete flag 0x07, DATA_LEN = 106, and the payload fits the record |
| ChaosTestConfig.TimingConstants | contiki/apps/chaos-test/chaos-test.h:122-171 | the period, duration and guard times in ticks. A phase plus its guard fits in a period. The bootstrap pause is RTIMER_SECOND / 100 |
| ChaosHeader.ClockPhi | contiki/core/dev/chaos.h:103 | CLOCK_PHI = 4194304 / RTIMER_SECOND = 128 |
| ChaosHeader.PacketLen | contiki/core/dev/chaos.h:117-121 | PACKET_LEN is the record plus footer, relay counter and header in sync mode; the relay counter is dropped without sync |
| ChaosHeader.SyncLayout | contiki/core/dev/chaos.h:123-129 | in sync mode, for any record length, length, header, data, relay counter, RSSI and CRC fields tile the buffer of PACKET_LEN + 1 bytes, in order and without overlap |
| ChaosHeader.NoSyncRelayOverlapsData | contiki/core/dev/chaos.h:120-127 | without sync, the relay-counter macro names the last data byte |
| ChaosHeader.ConfiguredLayout | contiki/core/dev/chaos.h:117-129 | the configured field indices, and that the two-part timeout write covers the same bytes as radio_write_tx, split inside the data field |
| ChaosHeader.AcceptedHeaders | contiki/core/dev/chaos.c:752 | the header test `>= CHAOS_HEADER` accepts exactly CHAOS_HEADER and CHAOS_HEADER + 1 |
| ChaosHeader.FooterMasksPartition | contiki/core/dev/chaos.h:113-114 | FOOTER1_CRC_OK and FOOTER1_CORRELATION split every bit of the footer byte, each bit into exactly one of them |
| ChaosHeader.RoleValue | contiki/core/dev/chaos.h:131-133 | CHAOS_INITIATOR = 1 and CHAOS_RECEIVER = 0 |
| FlagMerge.Merge | contiki/core/dev/chaos.c:213-221 | each merged byte holds exactly the bits of the received byte and of the local byte |
| FlagMerge.AndPrefix | contiki/core/dev/chaos.c:205-214 | the running AND of the merged bytes is 0xFF exactly when all those bytes are 0xFF |
| FlagMerge.MergeIsUnion | contiki/core/dev/chaos.c:213-221 | a node is in the merged flags exactly when it is in the received or the local ones |
| FlagMerge.MergeIdempotent | contiki/core/dev/chaos.c:213-221 | merging the same local flags a second time changes nothing |
| FlagMerge.MergeCommutes | contiki/core/dev/chaos.c:213-221 | the merge does not depend on which side is received and which is local |
| FlagMerge.DiffersIffMergeAdds | contiki/core/dev/chaos.c:212-220 | the relay test (some byte differs) holds exactly when the merge changes the packet's flags or would change the local ones |
| FlagMerge.MergeWellFormed | contiki/core/dev/chaos.c:213-221 | merging flags that name only the first n nodes names only the first n nodes |
| FlagMerge.CompleteIffAllNodes | contiki/core/dev/chaos.c:222 | for well-formed flags, the completion test holds exactly when all n nodes have contributed |
| FlagMerge.CompleteStable | contiki/core/dev/chaos.c:213-222 | once the received flags are complete, merging in any well-formed local flags keeps them complete |
| ChaosSync.SlotIntervals | contiki/core/dev/chaos.c:641-644 | each of the four intervals is the 16-bit clock difference that carries one capture to the next |
| ChaosSync.SlotSample | contiki/core/dev/chaos.c:645 | the sample is half the 32-bit sum of the four intervals, rounded down, and never exceeds the largest possible sample |
| ChaosSync.SlotIntervalsTelescope | contiki/core/dev/chaos.c:640-645 | the four intervals together span, mod 2^16, the time from the previous reception's end to this one's end |
| ChaosSync.WindowAdd | contiki/core/dev/chaos.c:647-659 | the first sample seeds the estimate. At the 32nd sample the estimate becomes the average and sum and count are halved. Otherwise only the sum grows |
| ChaosSync.WindowAddOk | contiki/core/dev/chaos.c:647-659 | the count stays below 32 and the 32-bit sum never wraps |
| ChaosSync.WindowConverges | contiki/core/dev/chaos.c:647-659 | with a constant slot length s, the sum stays count * s and every estimate taken is s |
| ChaosSync.RefFromDelay | contiki/core/dev/chaos.c:682-686 | the offset is below CLOCK_PHI. Reference plus the rounded-up low-frequency delay is the capture. Delay plus offset plus 1 is a whole number of low-frequency ticks |
| ChaosSync.ReferenceTime | contiki/core/dev/chaos.c:670-690 | the reference time lies the relay counter's slots minus one, plus the time since the SFD, before the capture; relay_cnt is the field minus one, wrapped |
| ChaosSync.RelayZeroWraps | contiki/core/dev/chaos.c:680 | with a relay counter of 0, the delay (0 - 1) * T_slot_h wraps around 2^32 |
| ChaosSync.WaitCount | contiki/core/dev/chaos.c:104-113 | for a duration of 2^16 or more, the number of extra wrap-arounds is the remaining duration over 2^16, and at most 6 |
| ChaosSync.PlanTimeout | contiki/core/dev/chaos.c:98-117 | 3 to 7 slots, duration slots * T_slot_h, stop time its 16-bit sum with the start, and no extra wrap-arounds below 2^16 |
| ChaosSync.TimeoutOnTime | contiki/core/dev/chaos.c:98-117 | the extra wrap-arounds plus the distance from the later reading to the compare value add up to exactly the duration still to go. For a duration below 2^16 the compare value is exactly the duration after the start |
| ChaosSpec.Sizes | contiki/core/dev/chaos.c:699 | the reception timeout is (PACKET_LEN * 35 + 200) * 4 DCO ticks, and the field offsets the handlers use |
| ChaosSpec.Init | contiki/core/dev/chaos.c:54-77 | the zero-initialised statics satisfy the invariant and are OFF with no timeout and no slot length |
| ChaosSpec.WithFlags | contiki/core/dev/chaos.c:213-221 | replacing the flag bytes of the packet changes those bytes and no other |
| ChaosSpec.ScheduleTimeout | contiki/core/dev/chaos.c:98-118 | only the timeout changes. Nothing happens while T_slot_h is 0. Otherwise the timeout is armed for 3 to 7 slots with fewer than 7 wrap-arounds to wait, and its start is kept |
| ChaosSpec.StartTx | contiki/core/dev/chaos.c:185-195 | only the timeout changes, and its start is the DCO reading taken at the strobe |
| ChaosSpec.Consumed | contiki/core/dev/chaos.c:720-777 | chaos_begin_rx stores at most the bytes delivered and at most PACKET_LEN - 7 of them |
| ChaosSpec.EstimateSlotLength | contiki/core/dev/chaos.c:637-668 | only the intervals, the window and estimate_length change |
| ChaosSpec.MaybeEstimate | contiki/core/dev/chaos.c:815-817 | only the intervals, the window and estimate_length change |
| ChaosProperties.DataProcessingMerges | contiki/core/dev/chaos.c:201-222 | chaos_data_processing ORs every local flag byte into the packet. It raises tx exactly when a byte differed and never clears it. It recomputes completion and changes nothing else |
| ChaosProperties.DataProcessingIsUnion | contiki/core/dev/chaos.c:213-221 | after the merge the packet holds every bit of the local flags and of the received ones, and no other |
| ChaosProperties.DataProcessingRelaysOnChange | contiki/core/dev/chaos.c:212-220 | tx is raised exactly when the merge changes the packet's flags or would change the local ones (or tx was already set) |
| ChaosProperties.DataProcessingIdempotent | contiki/core/dev/chaos.c:201-222 | processing the same local record twice leaves the packet and the completion as after once |
| ChaosProperties.DataProcessingCompleteMeansAllNodes | contiki/core/dev/chaos.c:222 | with well-formed flags, the completion flag is set exactly when every node's bit is in the merged flags |
| ChaosProperties.BeginRxOutcome | contiki/core/dev/chaos.c:693-779 | the state is RECEIVING exactly when the length and header checks pass and all head bytes arrive; ABORTED otherwise. tx is cleared, and forced on in the final flood. The head bytes land in the packet. Record and counters are untouched |
| ChaosProperties.BeginRxFrame | contiki/core/dev/chaos.c:693-779 | chaos_begin_rx changes only the packet, state, tx, bytes_read and the two reception captures |
| ChaosProperties.InterruptDispatch | contiki/core/dev/chaos.c:245-427 | each branch of timerb1_interrupt runs the handler its state, SFD level and TBIV select |
| ChaosProperties.DispatchCases | contiki/core/dev/chaos.c:249-420 | which branch each combination of state, SFD level and TBIV takes |
| ChaosProperties.AbortedResumes | contiki/core/dev/chaos.c:370-372 | ABORTED becomes WAITING on the next interrupt whatever its source, and nothing else changes |
| ChaosProperties.UnmatchedReturnsToWaiting | contiki/core/dev/chaos.c:413-420 | an interrupt no handler matches, in any state but OFF, stops the timeout and returns to WAITING |
| ChaosProperties.EndRxWithoutTx | contiki/core/dev/chaos.c:848-851 | chaos_end_rx without tx goes to WAITING and changes nothing else |
| ChaosProperties.EndRxRelays | contiki/core/dev/chaos.c:781-819 | with tx: the relay counter rises by one. rx_cnt increments. The engine is OFF at tx_max, otherwise RECEIVED with the packet queued and header CHAOS_HEADER + 1 once complete. The local record becomes the packet's data field |
| ChaosProperties.FlagsOfData | contiki/core/dev/chaos.c:202-203 | the received flags are the flags of the record in the packet's data field |
| ChaosProperties.StopOrQueueFacts | contiki/core/dev/chaos.c:789-801 | OFF with the timeout stopped at tx_max; otherwise RECEIVED with the first PACKET_LEN - 1 bytes queued |
| ChaosProperties.AcceptReceptionFacts | contiki/core/dev/chaos.c:802-824 | a relayed frame is counted, its first-reception time noted once, and the record adopted; the packet is untouched |
| ChaosProperties.MaybeEstimateFacts | contiki/core/dev/chaos.c:815-817 | a slot sample needs estimation on, header CHAOS_HEADER and the sample condition, and ends estimation for the round |
| ChaosProperties.ReadTailLayout | contiki/core/dev/chaos.c:259-260 | the trailing bytes complete the packet and the CRC byte is the last of them |
| ChaosProperties.FrameOutcomeFacts | contiki/core/dev/chaos.c:249-354 | what the end-of-frame branch hands to chaos_end_rx. tx survives only for a good CRC on time with the relay started. A bad CRC leaves record and timeout alone. A late frame is merged with the timeout stopped |
| ChaosProperties.RelayIfOnTimeFacts | contiki/core/dev/chaos.c:300-344 | the relay decision changes only tx and, when the relay starts, the timeout |
| ChaosProperties.FrameOutcomeCore | contiki/core/dev/chaos.c:249-354 | the end-of-frame branch keeps the state-independent invariant up to its chaos_end_rx |
| ChaosProperties.BadCrcDropped | contiki/core/dev/chaos.c:345-354 | a frame whose CRC bit is clear is dropped: WAITING, not counted, the local record unchanged |
| ChaosProperties.OverrunDropped | contiki/core/dev/chaos.c:331-344 | a frame too late for a synchronous relay (T_irq > 34) is merged but neither relayed nor counted, and the local record is unchanged |
| ChaosProperties.OnTimeRelayed | contiki/core/dev/chaos.c:262-330 | a good, on-time frame that the merge marks for relaying re-arms the timeout and is counted. The local flags become the merged ones |
| ChaosProperties.MergeReceivedFacts | contiki/core/dev/chaos.c:262-295 | the good-CRC step stops the timeout, merges the flags and notes T_irq; nothing else changes |
| ChaosProperties.RelayCounterStep | contiki/core/dev/chaos.c:785-788 | the relay counter of a relayed frame is the received counter plus one, mod 256 |
| ChaosProperties.TIrqWindow | contiki/core/dev/chaos.c:295-300 | when at least PROCESSING_CYCLES (40000) DCO ticks elapsed since the capture, T_irq <= 34 exactly when 40015 to 40032 ticks elapsed |
| ChaosProperties.SampleOnlyWhen | contiki/core/dev/chaos.c:640 | a slot sample is taken only with tx, estimation on, header CHAOS_HEADER, an earlier reception counted, and the frame's counter one above the last one sent. Estimation is then off for the round (also chaos.c:815) |
| ChaosProperties.EndRxSample | contiki/core/dev/chaos.c:787-816 | the sample condition as chaos_end_rx tests it, after its increments: rx_cnt above 1 and the relay field two above the counter last sent |
| ChaosProperties.SampleValue | contiki/core/dev/chaos.c:640-645 | the sample is half the sum of the four intervals, which span two slots mod 2^16 |
| ChaosProperties.NoSampleNoChange | contiki/core/dev/chaos.c:640 | without the sample condition the window and the slot length are left alone |
| ChaosProperties.BeginTxOutcome | contiki/core/dev/chaos.c:854-865 | TRANSMITTING. The counter sent is remembered, and the timeout's counter is that plus n_slots_timeout. The reference is computed exactly when it is due, with relay_cnt one below the frame's counter and an offset below CLOCK_PHI |
| ChaosProperties.ReferenceOnce | contiki/core/dev/chaos.c:862-865 | once computed, the reference time is not recomputed in the same round |
| ChaosProperties.EndTxOutcome | contiki/core/dev/chaos.c:889-907 | tx_cnt always increments, and the node turns OFF exactly when the stop condition holds, WAITING otherwise |
| ChaosProperties.InitiatorSingleTx | contiki/core/dev/chaos.c:895 | in sync mode the initiator with tx_max = 1 is not stopped at the end of its first transmission |
| ChaosProperties.StartTxArms | contiki/core/dev/chaos.c:98-117 | radio_start_tx arms the timeout exactly when a slot length is known, for 3 to 7 slots, with its wrapped stop time (also chaos.c:185-195) |
| ChaosProperties.StartTxOnTime | contiki/core/dev/chaos.c:98-117 | the remaining wrap-arounds plus the wrapped distance to the stop time are the planned duration (also chaos.c:374-378) |
| ChaosProperties.TimeoutOutcome | contiki/core/dev/chaos.c:374-412 | while wrap-arounds remain, the timeout only counts them down. In WAITING it rebuilds the packet from the local record, with the timeout's counter and a header saying whether this is the initiator's first transmission, queues it and enters RECEIVED. Otherwise it stops |
| ChaosProperties.TimeoutPacketLayout | contiki/core/dev/chaos.c:392-400 | the two-part copy leaves the whole local record in the data field and the timeout's counter in the relay field |
| ChaosProperties.BeginRxInv | contiki/core/dev/chaos.c:693-779 | chaos_begin_rx keeps the engine invariant |
| ChaosProperties.EstimateInv | contiki/core/dev/chaos.c:637-668 | estimate_slot_length keeps the invariant: the window never overflows |
| ChaosProperties.EndRxInv | contiki/core/dev/chaos.c:781-852 | chaos_end_rx keeps the invariant and never leaves the node RECEIVING |
| ChaosProperties.StartTxCore | contiki/core/dev/chaos.c:185-195 | radio_start_tx keeps the state-independent invariant |
| ChaosProperties.EndOfFrameInv | contiki/core/dev/chaos.c:249-354 | the end-of-frame branch keeps the invariant |
| ChaosProperties.BeginTxInv | contiki/core/dev/chaos.c:854-865 | chaos_begin_tx keeps the invariant |
| ChaosProperties.EndTxInv | contiki/core/dev/chaos.c:889-907 | chaos_end_tx keeps the invariant |
| ChaosProperties.TimeoutInv | contiki/core/dev/chaos.c:374-412 | the timeout branch keeps the invariant |
| ChaosProperties.InterruptInv | contiki/core/dev/chaos.c:245-427 | every interrupt keeps the invariant: buffer sizes, a window that cannot overflow, an offset below CLOCK_PHI, fewer than 7 wrap-arounds to wait, and RECEIVING only with the head read |
| ChaosProperties.StartStopInv | contiki/core/dev/chaos.c:515-599 | chaos_start and chaos_stop keep the invariant |
| ChaosProperties.RxCountOnlyOnRelay | contiki/core/dev/chaos.c:245-427 | rx_cnt changes only in the end-of-frame branch, and only when the received record has been adopted as the local one (also chaos.c:814) |
| ChaosProperties.RxCountEndOfFrame | contiki/core/dev/chaos.c:249-354 | when the end-of-frame branch changes rx_cnt, the local record is the packet's data field (also chaos.c:814) |
| ChaosProperties.InterruptMonotone | contiki/core/dev/chaos.c:245-427 | no interrupt turns slot estimation back on or forgets the computed reference; only chaos_start resets them (also chaos.c:531) |
| ChaosProperties.EndRxMonotone | contiki/core/dev/chaos.c:781-852 | chaos_end_rx never turns estimation on or clears the reference flag |
| ChaosProperties.EndOfFrameMonotone | contiki/core/dev/chaos.c:249-354 | the end-of-frame branch never turns estimation on or clears the reference flag |
| ChaosProperties.InterruptKeepsFlags | contiki/core/dev/chaos.c:245-427 | no interrupt clears a bit of the local flags: the record only gains nodes during a round (also chaos.c:819) |
| ChaosProperties.EndOfFrameKeepsFlags | contiki/core/dev/chaos.c:249-354 | the end-of-frame branch never clears a bit of the local flags (also chaos.c:819) |
| ChaosProperties.StartOutcome | contiki/core/dev/chaos.c:515-582 | chaos_start zeroes the round counters and clears completion and the reference flag. It turns estimation on and writes length, header and a zero relay counter. It enters RECEIVED (initiator, record copied and queued) or WAITING (receiver) |
| ChaosProperties.StopOutcome | contiki/core/dev/chaos.c:584-599 | chaos_stop turns the node OFF with the timeout stopped. rx_cnt, which it returns, and the record are kept |
| Chaos.ChaosEngine.constructor | contiki/core/dev/chaos.c:54-77 | the statics start zero-initialised with fresh buffers, which is the invariant's initial state |
| Chaos.ChaosEngine.StopTimeout | contiki/core/dev/chaos.c:120-124 | the new state is ChaosSpec.StopTimeout of the old: timeout disarmed, no wrap-arounds left |
| Chaos.ChaosEngine.ScheduleTimeout | contiki/core/dev/chaos.c:98-118 | the new state is ChaosSpec.ScheduleTimeout of the old (see ChaosSync.TimeoutOnTime) |
| Chaos.ChaosEngine.StartTx | contiki/core/dev/chaos.c:185-195 | the new state is ChaosSpec.StartTx of the old |
| Chaos.ChaosEngine.RadioOff | contiki/core/dev/chaos.c:144-158 | the new state is ChaosSpec.RadioOff of the old: the timeout stopped |
| Chaos.ChaosEngine.WriteTx | contiki/core/dev/chaos.c:197-199 | the new state is ChaosSpec.WriteTx of the old: the first PACKET_LEN - 1 packet bytes queued |
| Chaos.ChaosEngine.Abort | contiki/core/dev/chaos.c:167-171 | the new state is ChaosSpec.Abort of the old: ABORTED |
| Chaos.ChaosEngine.CopyToPacket | contiki/core/dev/chaos.c:395-402 | the packet afterwards is the old one with src written from index at (also chaos.c:549) |
| Chaos.ChaosEngine.RecordFromPacket | contiki/core/dev/chaos.c:819 | the local record afterwards is the packet's data field |
| Chaos.ChaosEngine.DataProcessing | contiki/core/dev/chaos.c:201-241 | the new state is ChaosSpec.DataProcessing of the old (see ChaosProperties.DataProcessingMerges) |
| Chaos.OrInto | contiki/core/dev/chaos.c:207-215 | the loop leaves p with n bytes at `at` replaced by their merge with d. It returns whether any pair differed and the running AND of the merged bytes |
| Chaos.ChaosEngine.BeginRx | contiki/core/dev/chaos.c:693-779 | the new state is ChaosSpec.BeginRx of the old (see ChaosProperties.BeginRxOutcome) |
| Chaos.ChaosEngine.CheckLength | contiki/core/dev/chaos.c:719-737 | the new state is ChaosSpec.CheckLength of the old |
| Chaos.ChaosEngine.CheckHeader | contiki/core/dev/chaos.c:739-760 | the new state is ChaosSpec.CheckHeader of the old |
| Chaos.ChaosEngine.ReadBody | contiki/core/dev/chaos.c:761-778 | the new state is ChaosSpec.ReadBody of the old, the loop storing one FIFO byte per turn |
| Chaos.ChaosEngine.EstimateSlotLength | contiki/core/dev/chaos.c:637-668 | the new state is ChaosSpec.EstimateSlotLength of the old (see ChaosProperties.SampleValue) |
| Chaos.ChaosEngine.EndRx | contiki/core/dev/chaos.c:781-852 | the new state is ChaosSpec.EndRx of the old (see ChaosProperties.EndRxRelays) |
| Chaos.ChaosEngine.StopOrQueue | contiki/core/dev/chaos.c:789-801 | the new state is ChaosSpec.StopOrQueue of the old |
| Chaos.ChaosEngine.AcceptReception | contiki/core/dev/chaos.c:802-824 | the new state is ChaosSpec.AcceptReception of the old |
| Chaos.ChaosEngine.CountRx | contiki/core/dev/chaos.c:802-814 | the new state notes the first reception time and counts the reception |
| Chaos.ChaosEngine.MaybeEstimate | contiki/core/dev/chaos.c:815-817 | the new state is ChaosSpec.MaybeEstimate of the old |
| Chaos.ChaosEngine.AdoptRecord | contiki/core/dev/chaos.c:818-819 | the new state is ChaosSpec.AdoptRecord of the old |
| Chaos.ChaosEngine.EndOfFrame | contiki/core/dev/chaos.c:249-354 | the new state is ChaosSpec.EndOfFrame of the old (see ChaosProperties.OnTimeRelayed, BadCrcDropped, OverrunDropped) |
| Chaos.ChaosEngine.FrameOutcome | contiki/core/dev/chaos.c:254-352 | the new state is ChaosSpec.FrameOutcome of the old |
| Chaos.ChaosEngine.ReadTail | contiki/core/dev/chaos.c:254-260 | the new state is ChaosSpec.ReadTail of the old |
| Chaos.ChaosEngine.MergeReceived | contiki/core/dev/chaos.c:262-295 | the new state is ChaosSpec.MergeReceived of the old |
| Chaos.ChaosEngine.RelayIfOnTime | contiki/core/dev/chaos.c:300-344 | the new state is ChaosSpec.RelayIfOnTime of the old |
| Chaos.ChaosEngine.ComputeSyncReferenceTime | contiki/core/dev/chaos.c:670-690 | the new state is ChaosSpec.ComputeSyncReferenceTime of the old (see ChaosSync.ReferenceTime) |
| Chaos.ChaosEngine.BeginTx | contiki/core/dev/chaos.c:854-865 | the new state is ChaosSpec.BeginTx of the old (see ChaosProperties.BeginTxOutcome) |
| Chaos.ChaosEngine.EndTx | contiki/core/dev/chaos.c:889-907 | the new state is ChaosSpec.EndTx of the old (see ChaosProperties.EndTxOutcome) |
| Chaos.ChaosEngine.TimeoutFired | contiki/core/dev/chaos.c:374-412 | the new state is ChaosSpec.TimeoutFired of the old (see ChaosProperties.TimeoutOutcome) |
| Chaos.ChaosEngine.TimeoutHeader | contiki/core/dev/chaos.c:383-391 | the new state is ChaosSpec.TimeoutHeader of the old |
| Chaos.ChaosEngine.QueueRecord | contiki/core/dev/chaos.c:392-406 | the new state is ChaosSpec.QueueRecord of the old |
| Chaos.ChaosEngine.Interrupt | contiki/core/dev/chaos.c:245-427 | keeps Valid(), and the new state is ChaosSpec.Interrupt of the old (see ChaosProperties.InterruptInv) |
| Chaos.ChaosEngine.Start | contiki/core/dev/chaos.c:515-582 | keeps Valid(). The engine now works on the caller's record array, and the new state is ChaosSpec.Start of the old (see ChaosProperties.StartOutcome) |
| Chaos.ChaosEngine.EnterRole | contiki/core/dev/chaos.c:543-555 | the new state is ChaosSpec.EnterRole of the old |
| Chaos.ChaosEngine.Stop | contiki/core/dev/chaos.c:584-599 | keeps Valid(), the new state is ChaosSpec.Stop of the old, and the result is the old rx_cnt |
| Chaos.ChaosEngine.SetTRefL | contiki/core/dev/chaos.c:625-627 | only t_ref_l changes, to t |
| Chaos.ChaosEngine.SetTRefLUpdated | contiki/core/dev/chaos.c:629-631 | only t_ref_l_updated changes, to the argument |
| Chaos.ChaosEngine.RxCount | contiki/core/dev/chaos.c:601-603 | returns rx_cnt |
| Chaos.ChaosEngine.RelayCount | contiki/core/dev/chaos.c:605-607 | returns relay_cnt |
| Chaos.ChaosEngine.SlotLength | contiki/core/dev/chaos.c:609-611 | returns T_slot_h |
| Chaos.ChaosEngine.IsTRefLUpdated | contiki/core/dev/chaos.c:613-615 | returns t_ref_l_updated |
| Chaos.ChaosEngine.FirstRxTime | contiki/core/dev/chaos.c:617-619 | returns t_first_rx_l |
| Chaos.ChaosEngine.TRefL | contiki/core/dev/chaos.c:621-623 | returns t_ref_l |
| Chaos.ChaosEngine.CurrentState | contiki/core/dev/chaos.c:633-635 | returns the state; CHAOS_IS_ON holds exactly when it is not OFF |
| ChaosScheduler.ArmAlarm | contiki/apps/chaos-test/chaos-test.c:315 | an alarm is armed through Rtimer.Rtimers.Set or SetLong. From the empty slot the scheduler's callback runs in, the timer becomes the pending one, due at AlarmTime(a), with the compare register set to it and the callback recorded. A long alarm waits LongOverflows overflows. A plain alarm always replaces the pending timer, while a long one leaves a pending timer alone (also chaos-test.c:332, 350, 394, 399, 405) |
| ChaosScheduler.ApplyReference | contiki/apps/chaos-test/chaos-test.c:327-328 | the forced reference of a step, applied through Chaos.ChaosEngine.SetTRefL and SetTRefLUpdated(true), makes the engine's (t_ref_l, t_ref_l_updated) equal to Applied(old reference, setRef). No forced reference leaves it unchanged, and nothing else in the engine changes (also chaos-test.c:376-377) |
| ChaosScheduler.SkewOfDrift | contiki/apps/chaos-test/chaos-test.c:232 | a reference that drifted by d from one period after the old one gives period_skew d |
| ChaosScheduler.EstimateSkew | contiki/apps/chaos-test/chaos-test.c:228-255 | nothing changes without an update. With one, the skew is recomputed, the reference becomes the old one, and the bootstrap counter advances while bootstrapping |
| ChaosScheduler.Guard | contiki/apps/chaos-test/chaos-test.c:355 | the guard CHAOS_GUARD_TIME * (1 + sync_missed) lies between one and 256 guard times (also chaos-test.c:406) |
| ChaosScheduler.ReceiverTally | contiki/apps/chaos-test/chaos-test.c:365-386 | the receiver's end-of-phase tally changes only skew_estimated and sync_missed |
| ChaosScheduler.Invoke | contiki/apps/chaos-test/chaos-test.c:297-415 | each invocation flips the protothread between phase start and end, and calls chaos_start at a start and chaos_stop at an end |
| ChaosScheduler.InvokeInv | contiki/apps/chaos-test/chaos-test.c:236-240 | every invocation keeps the invariant: the bootstrap counter stops at CHAOS_BOOTSTRAP_PERIODS and no miss is counted during the bootstrap (also chaos-test.c:365-386) |
| ChaosScheduler.InvokeKeepsBootstrapDone | contiki/apps/chaos-test/chaos-test.c:236 | once the bootstrap is over, no invocation changes the bootstrap counter (also chaos-test.c:365) |
| ChaosScheduler.RunInv | contiki/apps/chaos-test/chaos-test.c:297-415 | over any run of invocations the invariant holds throughout |
| ChaosScheduler.BootstrapNeverReentered | contiki/apps/chaos-test/chaos-test.c:236-240 | once over, the bootstrap is never entered again, whatever the rounds bring (also chaos-test.c:365-370) |
| ChaosScheduler.BootstrapMissResets | contiki/apps/chaos-test/chaos-test.c:365-370 | a bootstrapping receiver without an update restarts the count, forces no reference, does not poll, and retries CHAOS_INIT_PERIOD - CHAOS_INIT_DURATION later (also chaos-test.c:389-395) |
| ChaosScheduler.BootstrapCadence | contiki/apps/chaos-test/chaos-test.c:347-351 | an unsynchronised bootstrapping receiver starts a phase every CHAOS_INIT_PERIOD ticks (also chaos-test.c:389-395) |
| ChaosScheduler.SteadyMiss | contiki/apps/chaos-test/chaos-test.c:373-379 | past the bootstrap, a miss forces the reference one period plus the skew on, counts the miss and polls; the skew is kept when the reference did not move |
| ChaosScheduler.SteadySync | contiki/apps/chaos-test/chaos-test.c:380-383 | past the bootstrap, a synchronised round clears the miss count, forces nothing and records the reference (also chaos-test.c:228-234) |
| ChaosScheduler.SteadyWindow | contiki/apps/chaos-test/chaos-test.c:352-357 | past the bootstrap, a receiver listens from Guard(missed) before the predicted reference until CHAOS_DURATION after it (also chaos-test.c:402-408) |
| ChaosScheduler.SteadyWake | contiki/apps/chaos-test/chaos-test.c:352-357 | the wake-up alarm, and the phase end it leads to, around the reference predicted one period plus the skew on (also chaos-test.c:402-408) |
| ChaosScheduler.InitiatorMiss | contiki/apps/chaos-test/chaos-test.c:323-332 | past the bootstrap, an initiator without an update moves its reference one period on and wakes one period after that |
| ChaosScheduler.InitiatorTiming | contiki/apps/chaos-test/chaos-test.c:300-339 | the initiator never counts misses. Its phase ends CHAOS_DURATION after the reference. The next begins CHAOS_PERIOD after it |
| ChaosScheduler.Encode32 | contiki/apps/chaos-test/chaos-test.h:186 | the four little-endian bytes of a sequence number decode to it |
| ChaosScheduler.EncodeSeqNo | contiki/apps/chaos-test/chaos-test.h:186 | the first four bytes of the record are the encoding of the sequence number they hold |
| ChaosScheduler.OwnFlags | contiki/apps/chaos-test/chaos-test.c:267-282 | the own flags have MERGE_LEN bytes |
| ChaosScheduler.OwnFlagsNodes | contiki/apps/chaos-test/chaos-test.c:267-282 | the own flags name exactly the node itself when its bit fits, and no node otherwise |
| ChaosScheduler.OwnFlagsWellFormed | contiki/apps/chaos-test/chaos-test.c:267-282 | for an index below CHAOS_NODES the own flags are well formed |
| ChaosScheduler.DummyPayload | contiki/apps/chaos-test/chaos-test.c:284-295 | payload byte i is 0x11 * i truncated to 8 bits |
| ChaosScheduler.StartRecord | contiki/apps/chaos-test/chaos-test.c:303-307 | the record a phase starts with keeps DATA_LEN bytes (also chaos-test.c:344) |
| ChaosScheduler.StartRecordFields | contiki/apps/chaos-test/chaos-test.c:303-307 | the initiator advances the sequence number by one mod 2^32 and writes its flags and payload. A receiver keeps the sequence number and payload and writes only its flags (also chaos-test.c:344) |
| ChaosScheduler.Scheduler.constructor | contiki/apps/chaos-test/chaos-test.c:115-127 | all statics and the record start at zero, before any phase |
| ChaosScheduler.Scheduler.InitMappingTable | contiki/apps/chaos-test/chaos-test.c:432-443 | returns 1 exactly when the table holds the node id, with the index of its first match; 0 leaves node_index alone |
| ChaosScheduler.Scheduler.InitMappingDefault | contiki/apps/chaos-test/chaos-test.c:448-452 | returns 1 with node_index = node_id - 1 in 16 bits (0xFFFF for node id 0) |
| ChaosScheduler.Scheduler.SetArrayIndex | contiki/apps/chaos-test/chaos-test.c:267-282 | the record afterwards has the own flags in its flag bytes and is otherwise unchanged |
| ChaosScheduler.Scheduler.SetData | contiki/apps/chaos-test/chaos-test.c:284-295 | the record afterwards has the dummy payload and is otherwise unchanged |
| ChaosScheduler.Scheduler.IncrementSeqNo | contiki/apps/chaos-test/chaos-test.c:303 | the first four bytes afterwards encode the old sequence number plus one mod 2^32 |
| ChaosScheduler.Scheduler.EstimatePeriodSkew | contiki/apps/chaos-test/chaos-test.c:228-255 | the new statics are EstimateSkew of the old |
| ChaosScheduler.Scheduler.InitiatorBeginPhase | contiki/apps/chaos-test/chaos-test.c:302-317 | the new statics and step are InitiatorBegin of the old, and the record is StartRecord of the old |
| ChaosScheduler.Scheduler.ReceiverBeginPhase | contiki/apps/chaos-test/chaos-test.c:342-359 | the new statics and step are ReceiverBegin of the old, and only the own flags are rewritten |
| ChaosScheduler.Scheduler.InitiatorFinishPhase | contiki/apps/chaos-test/chaos-test.c:319-338 | the new statics and step are InitiatorFinish of the old |
| ChaosScheduler.Scheduler.ReceiverFinishPhase | contiki/apps/chaos-test/chaos-test.c:361-410 | the new statics and step are ReceiverFinish of the old |
| ChaosScheduler.Scheduler.Schedule | contiki/apps/chaos-test/chaos-test.c:297-415 | keeps Valid(); the new statics and step are Invoke of the old, and the record is rewritten only at a phase start |
| ChaosScheduler.Scheduler.Launch | contiki/apps/chaos-test/chaos-test.c:458-483 | with the default mapping: node_index is node_id - 1, the sequence number is cleared, and the first invocation is due RTIMER_SECOND after now |
| Rtimer.Timer.constructor | contiki/core/sys/rtimer.c:69-92 | a timer starts with all fields zero |
| Rtimer.Tick | contiki/core/sys/rtimer.c:129-150 | one rtimer_run_next fires exactly when the pending timer has no overflows left. Otherwise it keeps the timer with one fewer, and an empty slot stays empty |
| Rtimer.FiresOnCall | contiki/core/sys/rtimer.c:129-150 | a timer with k overflows to go fires on exactly the (k + 1)-th call |
| Rtimer.NeverAgain | contiki/core/sys/rtimer.c:133-135 | once the slot is empty, no call fires |
| Rtimer.LongOverflows | contiki/core/sys/rtimer.c:104-114 | no overflows below two seconds; otherwise the whole 2^16 spans of the time left after the reading. The count is never 0xffff |
| Rtimer.ExpireTicks | contiki/core/sys/rtimer.c:123-127 | the time to expire is the 16-bit distance to the compare value plus 2^16 per overflow to go |
| Rtimer.ExpiresOnTime | contiki/core/sys/rtimer.c:95-127 | right after rtimer_set_long, the time to expire is exactly what is left of the offset |
| Rtimer.Rtimers.constructor | contiki/core/sys/rtimer.c:59 | no timer is pending |
| Rtimer.Rtimers.Set | contiki/core/sys/rtimer.c:69-92 | the timer becomes the pending one with no overflows; the compare register is set only if no timer was pending |
| Rtimer.Rtimers.SetLong | contiki/core/sys/rtimer.c:95-121 | nothing changes while a timer is pending. Otherwise the timer is due reference plus offset with LongOverflows overflows, and the compare register is set |
| Rtimer.Rtimers.TimeToExpire | contiki/core/sys/rtimer.c:123-127 | returns the distance to the compare value plus 2^16 per overflow |
| Rtimer.Rtimers.RunNext | contiki/core/sys/rtimer.c:129-145 | the timer fires exactly as Tick says and is returned, with no overflows left, when it fires. Otherwise it stays pending with one overflow fewer and the compare value re-armed. The timer's callback, argument and time are never changed |
| Rtimer.Rtimers.AfterCallback | contiki/core/sys/rtimer.c:146-148 | a timer the callback left pending is armed again |
| Uart1Putchar.Escape | contiki/cpu/msp430/dev/uart1-putchar.c:58-69 | an escaped byte is one or two bytes and never the flag byte |
| Uart1Putchar.Snoc | contiki/cpu/msp430/dev/uart1-putchar.c:55-72 | one more byte is one more crc_byte and one more escaped byte |
| Uart1Putchar.CrcAppend | contiki/cpu/msp430/dev/uart1-putchar.c:94-128 | the CRC of a concatenation continues from the CRC of its first part |
| Uart1Putchar.StuffAppend | contiki/cpu/msp430/dev/uart1-putchar.c:58-69 | escaping distributes over concatenation |
| Uart1Putchar.StuffHasNoFlag | contiki/cpu/msp430/dev/uart1-putchar.c:58-69 | the flag byte never appears in escaped data |
| Uart1Putchar.UnstuffStuff | contiki/cpu/msp430/dev/uart1-putchar.c:58-69 | undoing the escaping gives back exactly the bytes that were escaped |
| Uart1Putchar.Zeros | contiki/cpu/msp430/dev/uart1-putchar.c:126-128 | the padding is n zero bytes |
| Uart1Putchar.CrcBytes | contiki/cpu/msp430/dev/uart1-putchar.c:132-133 | the two trailer bytes are the CRC, low byte first |
| Uart1Putchar.FrameDelimited | contiki/cpu/msp430/dev/uart1-putchar.c:93-137 | a frame starts and ends with the flag byte and holds none in between |
| Uart1Putchar.FrameDecodes | contiki/cpu/msp430/dev/uart1-putchar.c:93-137 | a receiver that strips the flags and undoes the escaping finds the header, the characters, zero padding to the buffer size, and a CRC that matches everything before it |
| Uart1Putchar.BodyCrc | contiki/cpu/msp430/dev/uart1-putchar.c:94-128 | the CRC of the body is the header's CRC continued over the characters and then the padding |
| Uart1Putchar.FrameParts | contiki/cpu/msp430/dev/uart1-putchar.c:93-137 | the five writes of a flush, put together, are the frame |
| Uart1Putchar.SerialPort.constructor | contiki/cpu/msp430/dev/uart1-putchar.c:40-41 | the buffer is empty and nothing has been written |
| Uart1Putchar.SerialPort.WriteB | contiki/cpu/msp430/dev/uart1-putchar.c:95 | uart1_writeb appends one byte to the line (also uart1-putchar.c:136) |
| Uart1Putchar.SerialPort.WritebCrc | contiki/cpu/msp430/dev/uart1-putchar.c:55-72 | the byte goes out escaped, and the result is crc_byte of the unescaped byte |
| Uart1Putchar.SerialPort.WriteNext | contiki/cpu/msp430/dev/uart1-putchar.c:55-72 | after the bytes h, one more writeb_crc extends both the escaped output and the running CRC by one byte |
| Uart1Putchar.SerialPort.WriteHeader | contiki/cpu/msp430/dev/uart1-putchar.c:94-118 | writes the flag byte and the escaped header, and returns the header's CRC from 0 |
| Uart1Putchar.SerialPort.WriteBuffered | contiki/cpu/msp430/dev/uart1-putchar.c:121-123 | writes the escaped buffered characters and continues the CRC over them |
| Uart1Putchar.SerialPort.WritePadding | contiki/cpu/msp430/dev/uart1-putchar.c:126-128 | writes escaped zeros up to the buffer size and continues the CRC over them |
| Uart1Putchar.SerialPort.WriteTrailer | contiki/cpu/msp430/dev/uart1-putchar.c:131-136 | writes the escaped CRC bytes, low first, then the flag byte |
| Uart1Putchar.SerialPort.Flush | contiki/cpu/msp430/dev/uart1-putchar.c:93-137 | the line grows by exactly Frame(buffered characters), and the buffer is emptied |
| Uart1Putchar.SerialPort.PutcharFramed | contiki/cpu/msp430/dev/uart1-putchar.c:74-140 | the character, truncated to a byte, is buffered if there is room. On a newline or a full buffer, exactly one frame of the buffered characters is written and the buffer emptied; otherwise nothing is written. Returns c |
| Uart1Putchar.SerialPort.PutcharPlain | contiki/cpu/msp430/dev/uart1-putchar.c:141-147 | the character goes out as it is, and c is returned |

## Left out

- The radio, SPI and GPIO: FIFO flushes and strobes, pins and LEDs. Energest
  accounting and the interrupt-enable registers that
  chaos_disable_other_interrupts / chaos_enable_other_interrupts save and
  restore (`chaos.c:456-512`) are also out. They change no state the
  protocol reads.
- The malloc/free of the packet buffer in chaos_start / chaos_stop. The
  engine holds one buffer for its lifetime.
- The instruction-level timing: the busy wait on compare register 4, the NOP
  sled and the COOJA delay loop. The clock readings after them are
  parameters. TIrqWindow states which readings relay.
- The random slot count of the timeout (`(RTIMER_NOW() + RTIMER_NOW_DCO()) % 5`)
  comes from the two clock readings passed in `TxClocks`. Nothing about its
  distribution is modelled.
- chaos_process, the busy-waiting protothread (`chaos.c:431-454`). It only
  spins while CHAOS_IS_ON; `CurrentState` gives what it reads.
- chaos_print_stats_process (`chaos-test.c:157-219`): printing, floating
  point and statistics counters. The scheduler's poll of it is the `poll`
  flag of a step.
- The debug counters (CHAOS_DEBUG), the LOG_FLAGS / LOG_TIRQ arrays and their
  print functions. They are written but never read by the protocol.
- The protothread itself is a resume point. The rtimer callback is named, not
  called: the scheduler's invocation is a separate method.
- `ChaosScheduler.Scheduler.Schedule`: the engine calls it asks for
  (chaos_start / chaos_stop) and the alarm are returned in the step rather
  than made. ApplyReference and ArmAlarm carry out a step's forced reference
  and alarm, but no member chains a whole round (invocation, engine call,
  alarm) into one method.
- uart1_writeb appends to `out`. Its own buffering and the UART hardware
  are not modelled. The CRC that writeb_crc computes over the two trailer
  bytes is discarded, as in the source.
- The RSSI byte, the correlation value and the TX power setting have no
  effect on the model.
- Build variants other than the configured one:
  - CHAOS_SYNC off (only the layout lemma NoSyncRelayOverlapsData covers it);
  - CHAOS_SYNC_WINDOW = 0;
  - a hardware (non-COOJA) clock capture;
  - a node count other than 3 in the engine. The flag lemmas of FlagMerge
    and ChaosTestConfig hold for any count.
- `ChaosSync.WaitCount`, `ChaosSync.PlanTimeout`: their preconditions require a
  slot length below 2^16 and a duration of at most 7 * 0xffff. These follow
  from the 16-bit T_slot_h, so no input the source can produce is excluded.
- `ChaosProperties.TIrqWindow`: stated only for readings at least
  PROCESSING_CYCLES after the capture, which the busy wait guarantees. For
  other readings near 7247..7264 mod 2^16 the 16-bit T_irq is also at most 34.

## Notes on the source

- The relay decision is a byte inequality between received and local flags
  (`chaos.c:212, 220`), not "the packet brings a new bit". It is also raised
  when the local copy lacks a bit the packet has.
  FlagMerge.DiffersIffMergeAdds states both directions.
- The relay counter is only reset by chaos_start (`chaos.c:558`): a
  transmission does not reset it.
- A complete node sets the header to CHAOS_HEADER + 1 only when it relays
  (`chaos.c:795-797`). Otherwise the received header stays in the packet.
- A slot sample is taken when the relay field, after the increment at
  `chaos.c:787`, is two above the counter last sent (`chaos.c:640`), i.e. the
  frame came right after the node's own transmission.
- CHAOS_PERIOD is 2^16 ticks. In `chaos-test.c:232` the cast
  `(rtimer_clock_t)CHAOS_PERIOD` is 0, so the skew is the plain 16-bit
  difference of the two references. SkewOfDrift shows this is the drift
  over one period.
- The comments in `chaos-test.h:157-165` give 59.474 ms and 69.474 ms for the
  bootstrap duration and period. With the configured CHAOS_DURATION of 1.5 s
  the macros come to 50692 and 51019 ticks; the model follows the macros.
- In `chaos-test.c:380-383` the branch taken when the reference *was*
  updated carries the comment "The reference time was not updated". The code
  resets sync_missed there, and the model follows the code.
