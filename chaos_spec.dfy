/**
 * The Chaos flood engine as a state machine on values. `Engine` holds every
 * file-scope variable of chaos.c (grouped by concern) together with the packet
 * buffer, the application record the engine is lent, and the bytes last
 * written to the radio's transmit FIFO. Each function below is one handler of
 * chaos.c applied to a state; clock captures, FIFO contents and clock readings
 * are parameters. The imperative class in module Chaos is proved to implement
 * these functions; the lemmas here state what the handlers guarantee.
 */
module ChaosSpec {
  import opened Bytes
  import opened ChaosTestConfig
  import opened ChaosHeader
  import opened FlagMerge
  import opened ChaosSync

  const PL: nat := PACKET_LEN
  /** Index of the first flag byte inside the packet (the record starts at the data field). */
  const PACKET_FLAGS: nat := 6
  /** Bytes of a reception that the start-of-frame handler reads itself: all but the last 8. */
  const RX_HEAD: nat := 103
  /** Reception timeout after the SFD, in DCO ticks. */
  const RX_TIMEOUT: nat := 16200
  /** Largest T_irq for which the node relays (the NOP sled has 18 entries of 2 cycles). */
  const T_IRQ_MAX: nat := 34

  lemma Sizes()
    ensures PACKET_FLAGS == DATA_FIELD + FLAGS_OFFSET && RX_HEAD == PACKET_LEN - 7
    ensures RX_TIMEOUT == (PACKET_LEN * 35 + 200) * 4
    ensures PACKET_FLAGS + MERGE_LEN <= DATA_FIELD + DATA_LEN == RELAY_CNT_FIELD
    ensures BYTES_TIMEOUT_FIELD == DATA_FIELD + BYTES_TIMEOUT < DATA_FIELD + DATA_LEN
    ensures RELAY_CNT_FIELD == PL - 2 && CRC_FIELD == PL
  {
  }

  /** Round bookkeeping: state, counters and flags of chaos.c. */
  datatype Control = Control(state: State, rxCnt: u8, txCnt: u8, tx: bool, complete: bool,
                             txCntComplete: u8, estimateLength: bool, bytesRead: u8)

  /** Clock captures (DCO ticks except tFirstRxL) and the relay counter last sent. */
  datatype Captures = Captures(tRxStart: u16, tRxStop: u16, tTxStart: u16, tTxStop: u16,
                               tRxTimeout: u16, tIrq: u16, tbccr1: u16, tFirstRxL: u16, txRelayCntLast: u8)

  /** The backoff timeout: plan, compare register 4 and its interrupt enable. */
  datatype Backoff = Backoff(tTimeoutStart: u16, tTimeoutStop: u16, tTimeoutH: u32, nTimeoutWait: u16,
                             nSlotsTimeout: u8, relayCntTimeout: u8, armed: bool, tbccr4: u16)

  datatype Engine = Engine(
    initiator: bool, txMax: u8,
    ctl: Control, cap: Captures, tmo: Backoff,
    win: Window, parts: SlotParts, ref: Reference, refUpdated: bool,
    packet: seq<u8>, data: seq<u8>, txFifo: seq<u8>)

  predicate Sized(e: Engine)
  {
    |e.packet| == PL + 1 && |e.data| == DATA_LEN
  }

  /** The part of the invariant that does not depend on the state. */
  predicate Core(e: Engine)
  {
    Sized(e) && WindowOk(e.win) && e.ref.tOffsetH < CLOCK_PHI && e.tmo.nTimeoutWait < MAX_SLOTS_TIMEOUT
  }

  /** The invariant every handler keeps. */
  predicate Inv(e: Engine)
  {
    Core(e) && (e.ctl.state == Receiving ==> e.ctl.bytesRead == RX_HEAD)
  }

  /** The zero-initialised statics before the first round, with a fresh packet buffer. */
  function Init(packet: seq<u8>, data: seq<u8>): (e: Engine)
    requires |packet| == PL + 1 && |data| == DATA_LEN
    ensures Inv(e) && e.ctl.state == Off && e.packet == packet && e.data == data
    ensures e.win.tSlot == 0 && !e.tmo.armed
  {
    Engine(false, 0,
      Control(Off, 0, 0, false, false, 0, false, 0),
      Captures(0, 0, 0, 0, 0, 0, 0, 0, 0),
      Backoff(0, 0, 0, 0, 0, 0, false, 0),
      Window(0, 0, 0), SlotParts(0, 0, 0, 0), Reference(0, 0, 0), false,
      packet, data, [])
  }

  function WithState(e: Engine, s: State): Engine
  {
    e.(ctl := e.ctl.(state := s))
  }

  function WithTx(e: Engine, tx: bool): Engine
  {
    e.(ctl := e.ctl.(tx := tx))
  }

  // ------------------------------------------------------------ packet views

  function ReceivedFlags(p: seq<u8>): (f: Flags)
    requires |p| == PL + 1
    ensures |f| == MERGE_LEN
  {
    p[PACKET_FLAGS..PACKET_FLAGS + MERGE_LEN]
  }

  function LocalFlags(d: seq<u8>): (f: Flags)
    requires |d| == DATA_LEN
    ensures |f| == MERGE_LEN
  {
    d[FLAGS_OFFSET..FLAGS_OFFSET + MERGE_LEN]
  }

  /** The packet with its flag bytes replaced. */
  function WithFlags(p: seq<u8>, f: Flags): (q: seq<u8>)
    requires |p| == PL + 1 && |f| == MERGE_LEN
    ensures |q| == |p| && ReceivedFlags(q) == f
    ensures forall i :: 0 <= i < |p| && !(PACKET_FLAGS <= i < PACKET_FLAGS + MERGE_LEN) ==> q[i] == p[i]
  {
    p[..PACKET_FLAGS] + f + p[PACKET_FLAGS + MERGE_LEN..]
  }

  /** The application record carried in the packet's data field. */
  function PacketData(p: seq<u8>): seq<u8>
    requires |p| == PL + 1
  {
    p[DATA_FIELD..DATA_FIELD + DATA_LEN]
  }

  // ------------------------------------------------------------ radio helpers

  function StopTimeout(e: Engine): Engine
  {
    e.(tmo := e.tmo.(armed := false, nTimeoutWait := 0))
  }

  /**
   * chaos_schedule_timeout: armed only once a slot length is known. The plan
   * starts at t_timeout_start; of `c` only the three readings taken here count.
   */
  function ScheduleTimeout(e: Engine, c: TxClocks): (e': Engine)
    ensures e' == e.(tmo := e'.tmo)
    ensures e.win.tSlot == 0 ==> e' == e
    ensures e.win.tSlot != 0 ==>
      e'.tmo.armed && MIN_SLOTS_TIMEOUT <= e'.tmo.nSlotsTimeout <= MAX_SLOTS_TIMEOUT &&
      e'.tmo.nTimeoutWait < MAX_SLOTS_TIMEOUT && e'.tmo.tTimeoutStart == e.tmo.tTimeoutStart
  {
    if e.win.tSlot != 0 then
      var p := PlanTimeout(e.win.tSlot, c.(dcoStart := e.tmo.tTimeoutStart));
      e.(tmo := e.tmo.(nSlotsTimeout := p.nSlots, tTimeoutH := p.duration, tTimeoutStop := p.tStop,
                       nTimeoutWait := p.nWait, tbccr4 := p.tStop, armed := true))
    else e
  }

  /** radio_start_tx: note the start time and arm the backoff timeout. */
  function StartTx(e: Engine, c: TxClocks): (e': Engine)
    ensures e' == e.(tmo := e'.tmo) && e'.tmo.tTimeoutStart == c.dcoStart
  {
    ScheduleTimeout(e.(tmo := e.tmo.(tTimeoutStart := c.dcoStart)), c)
  }

  /** radio_off also stops the timeout. */
  function RadioOff(e: Engine): Engine
  {
    StopTimeout(e)
  }

  /** radio_write_tx: the first PACKET_LEN - 1 bytes go to the transmit FIFO. */
  function WriteTx(e: Engine): Engine
    requires Sized(e)
  {
    e.(txFifo := e.packet[..PL - 1])
  }

  // ------------------------------------------------------------ handlers

  /** chaos_data_processing: OR the local flags into the received ones, raise tx on any difference. */
  function DataProcessing(e: Engine): (e': Engine)
    requires Sized(e)
    ensures Sized(e') && e' == e.(packet := e'.packet, ctl := e.ctl.(tx := e'.ctl.tx, complete := e'.ctl.complete))
  {
    var r := ReceivedFlags(e.packet);
    var l := LocalFlags(e.data);
    var m := Merge(r, l);
    e.(packet := WithFlags(e.packet, m),
       ctl := e.ctl.(tx := e.ctl.tx || Differs(r, l), complete := Complete(m, CHAOS_COMPLETE_FLAG)))
  }

  /** How many bytes of `fifo` chaos_begin_rx stores before it stops. */
  function Consumed(fifo: seq<u8>): (n: nat)
    ensures n <= |fifo| && n <= RX_HEAD
  {
    if |fifo| == 0 then 0
    else if fifo[0] != PL || |fifo| == 1 then 1
    else if fifo[1] < CHAOS_HEADER then 2
    else if |fifo| < RX_HEAD then |fifo| else RX_HEAD
  }

  /** The frame start passes the length and header checks and all head bytes arrive in time. */
  predicate Accepted(fifo: seq<u8>)
  {
    |fifo| >= RX_HEAD && fifo[0] == PL && fifo[1] >= CHAOS_HEADER
  }

  /** radio_abort_rx */
  function Abort(e: Engine): Engine
  {
    WithState(e, Aborted)
  }

  /** The SFD of a frame was captured: note the time and the timeout, clear tx. */
  function StartRx(e: Engine, capture: u16): Engine
  {
    e.(cap := e.cap.(tRxStart := capture, tRxTimeout := Wrap16(capture + RX_TIMEOUT)),
       ctl := e.ctl.(state := Receiving, tx := false))
  }

  /** One FIFO byte stored in the packet. */
  function StoreByte(e: Engine, i: nat, b: u8): (e': Engine)
    requires Sized(e) && i < PL + 1
    ensures Sized(e')
  {
    e.(packet := e.packet[i := b])
  }

  /** The final flood: once complete, tx is raised for the first N_TX_COMPLETE receptions. */
  function FinalFlood(e: Engine): Engine
  {
    e.(ctl := e.ctl.(bytesRead := 1, tx := e.ctl.tx || (e.ctl.complete && e.ctl.txCntComplete < N_TX_COMPLETE)))
  }

  /** The bytes after the header, up to RX_HEAD: stop early when the FIFO runs dry. */
  function ReadBody(e: Engine, fifo: seq<u8>): (e': Engine)
    requires Sized(e) && |fifo| >= 2
    ensures Sized(e')
  {
    var n := Consumed(fifo);
    var e1 := e.(packet := fifo[..n] + e.packet[n..], ctl := e.ctl.(bytesRead := n));
    if n < RX_HEAD then Abort(e1) else e1
  }

  function CheckHeader(e: Engine, fifo: seq<u8>): (e': Engine)
    requires Sized(e) && |fifo| >= 1
    ensures Sized(e')
  {
    if |fifo| == 1 then Abort(e)
    else if fifo[1] < CHAOS_HEADER then Abort(StoreByte(e, HEADER_FIELD, fifo[1]))
    else ReadBody(StoreByte(e, HEADER_FIELD, fifo[1]), fifo)
  }

  function CheckLength(e: Engine, fifo: seq<u8>): (e': Engine)
    requires Sized(e) && |fifo| >= 1
    ensures Sized(e')
  {
    if fifo[0] != PL then Abort(StoreByte(e, LEN_FIELD, fifo[0]))
    else CheckHeader(FinalFlood(StoreByte(e, LEN_FIELD, fifo[0])), fifo)
  }

  /**
   * chaos_begin_rx. `fifo` lists the bytes that reach the receive FIFO before
   * the reception timeout, in order; running out of them is the timeout.
   */
  function BeginRx(e: Engine, capture: u16, fifo: seq<u8>): (e': Engine)
    requires Sized(e)
    ensures Sized(e')
  {
    var e1 := StartRx(e, capture);
    if |fifo| == 0 then Abort(e1) else CheckLength(e1, fifo)
  }

  /** The relay counter of the reception is the one sent right after the node's own last transmission. */
  predicate SampleApplies(e: Engine)
    requires Sized(e)
  {
    e.ctl.rxCnt > 1 && e.packet[RELAY_CNT_FIELD] == e.cap.txRelayCntLast as int + 2
  }

  /** estimate_slot_length, with the capture of this reception's end. */
  function EstimateSlotLength(e: Engine, tRxStopNew: u16): (e': Engine)
    requires Sized(e)
    ensures e' == e.(parts := e'.parts, win := e'.win, ctl := e.ctl.(estimateLength := e'.ctl.estimateLength))
  {
    if SampleApplies(e) then
      var p := SlotIntervals(e.cap.tRxStop, e.cap.tTxStart, e.cap.tTxStop, e.cap.tRxStart, tRxStopNew);
      e.(parts := p, win := WindowAdd(e.win, SlotSample(p)), ctl := e.ctl.(estimateLength := false))
    else e
  }

  /** The relay counter field, incremented (sync mode). */
  function BumpRelay(e: Engine): (e': Engine)
    requires Sized(e)
    ensures Sized(e')
  {
    e.(packet := e.packet[RELAY_CNT_FIELD := Wrap8(e.packet[RELAY_CNT_FIELD] as int + 1)])
  }

  /** A complete node marks its relays with CHAOS_HEADER + 1. */
  function MarkComplete(e: Engine): (e': Engine)
    requires Sized(e)
    ensures Sized(e')
  {
    if e.ctl.complete then e.(packet := e.packet[HEADER_FIELD := CHAOS_HEADER + 1]) else e
  }

  /** After the increment: stop at tx_max, otherwise queue the relay. */
  function StopOrQueue(e: Engine): (e': Engine)
    requires Sized(e)
    ensures Sized(e')
  {
    if e.ctl.txCnt == e.txMax then WithState(RadioOff(e), Off)
    else WithState(WriteTx(MarkComplete(e)), Received)
  }

  /** The first successful reception of the round notes the low-frequency time. */
  function NoteFirstRx(e: Engine, lfNow: u16): Engine
  {
    if e.ctl.rxCnt == 0 then e.(cap := e.cap.(tFirstRxL := lfNow)) else e
  }

  function CountRx(e: Engine): Engine
  {
    e.(ctl := e.ctl.(rxCnt := Wrap8(e.ctl.rxCnt as int + 1)))
  }

  /** A sample is only considered while estimating and for a frame with header CHAOS_HEADER. */
  function MaybeEstimate(e: Engine, tRxStopNew: u16): (e': Engine)
    requires Sized(e)
    ensures e' == e.(parts := e'.parts, win := e'.win, ctl := e.ctl.(estimateLength := e'.ctl.estimateLength))
  {
    if e.ctl.estimateLength && e.packet[HEADER_FIELD] == CHAOS_HEADER then EstimateSlotLength(e, tRxStopNew) else e
  }

  /** The merged record replaces the local one (the struct copy). */
  function AdoptRecord(e: Engine, tRxStopNew: u16): (e': Engine)
    requires Sized(e)
    ensures Sized(e')
  {
    e.(cap := e.cap.(tRxStop := tRxStopNew), data := PacketData(e.packet))
  }

  function CountComplete(e: Engine): Engine
  {
    if e.ctl.complete then e.(ctl := e.ctl.(txCntComplete := Wrap8(e.ctl.txCntComplete as int + 1))) else e
  }

  /** The bookkeeping of chaos_end_rx for a relayed frame: count it, maybe sample the slot, adopt the record. */
  function AcceptReception(e: Engine, lfNow: u16, tRxStopNew: u16): (e': Engine)
    requires Sized(e)
    ensures Sized(e')
  {
    CountComplete(AdoptRecord(MaybeEstimate(CountRx(NoteFirstRx(e, lfNow)), tRxStopNew), tRxStopNew))
  }

  /** chaos_end_rx; `lfNow` is RTIMER_NOW() at the call. */
  function EndRx(e: Engine, lfNow: u16): (e': Engine)
    requires Sized(e)
    ensures Sized(e')
  {
    if e.ctl.tx then AcceptReception(StopOrQueue(BumpRelay(e)), lfNow, e.cap.tbccr1)
    else WithState(e, Waiting)
  }

  /**
   * T_irq: twice the cycles beyond PROCESSING_CYCLES + 15 since the SFD
   * capture, as a 16-bit value. On the msp430 the clock difference is an
   * unsigned 16-bit value and 40015 is a 32-bit long, so the rest is computed
   * in 32 bits and truncated to rtimer_clock_t.
   */
  function TIrq(dcoNow: u16, tbccr1: u16): u16
  {
    Wrap16(2 * (Wrap16(dcoNow - tbccr1) - (PROCESSING_CYCLES + 15)))
  }

  /** The CRC-ok test on the last footer byte. */
  predicate CrcOk(b: u8)
  {
    And8(b, FOOTER1_CRC_OK) != 0
  }

  /** The packet once the 8 trailing bytes are read from the FIFO. */
  function ReadTail(e: Engine, capture: u16, tail: seq<u8>): (e': Engine)
    requires Sized(e) && |tail| == PL + 1 - RX_HEAD
    ensures Sized(e')
  {
    e.(cap := e.cap.(tbccr1 := capture), packet := e.packet[..RX_HEAD] + tail,
       ctl := e.ctl.(bytesRead := PL + 1))
  }

  /**
   * A frame with a good CRC: stop the timeout, merge, busy-wait on compare
   * register 4 until PROCESSING_CYCLES after the SFD, and record T_irq.
   */
  function MergeReceived(e: Engine, dcoNow: u16): (e': Engine)
    requires Sized(e)
    ensures Sized(e')
  {
    var e2 := DataProcessing(StopTimeout(e));
    e2.(cap := e2.cap.(tIrq := TIrq(dcoNow, e.cap.tbccr1)),
        tmo := e2.tmo.(tbccr4 := Wrap16(e.cap.tbccr1 + PROCESSING_CYCLES)))
  }

  /** On time (T_irq <= 34) the relay starts if tx; too late, tx is cleared. */
  function RelayIfOnTime(e: Engine, c: TxClocks): (e': Engine)
    requires Sized(e)
    ensures Sized(e')
  {
    if e.cap.tIrq <= T_IRQ_MAX then (if e.ctl.tx then StartTx(e, c) else e)
    else WithTx(e, false)
  }

  /**
   * What the end-of-frame branch does before its chaos_end_rx (which each of
   * its three branches ends with): read the remaining bytes, check the CRC,
   * merge, check the interrupt delay, relay if required; a bad CRC clears tx.
   */
  function FrameOutcome(e: Engine, capture: u16, tail: seq<u8>, dcoNow: u16, c: TxClocks): (e': Engine)
    requires Sized(e) && |tail| == PL + 1 - RX_HEAD
    ensures Sized(e')
  {
    var e1 := ReadTail(e, capture, tail);
    if CrcOk(e1.packet[CRC_FIELD]) then RelayIfOnTime(MergeReceived(e1, dcoNow), c)
    else WithTx(e1, false)
  }

  /** The end-of-frame branch of timerb1_interrupt (state RECEIVING, SFD low). */
  function EndOfFrame(e: Engine, capture: u16, tail: seq<u8>, dcoNow: u16, c: TxClocks, lfNow: u16): (e': Engine)
    requires Sized(e) && |tail| == PL + 1 - RX_HEAD
    ensures Sized(e')
  {
    EndRx(FrameOutcome(e, capture, tail, dcoNow, c), lfNow)
  }

  /** compute_sync_reference_time; (capH, capL) is the pair of clock readings taken at the call. */
  function ComputeSyncReferenceTime(e: Engine, capH: u16, capL: u16): Engine
    requires Sized(e)
  {
    e.(ref := ReferenceTime(e.packet[RELAY_CNT_FIELD], e.win.tSlot, e.cap.tRxStart, capH, capL),
       refUpdated := true)
  }

  /** The reference time is computed at the first transmission after a reception, once a slot length is known. */
  predicate ReferenceDue(e: Engine)
  {
    e.win.tSlot != 0 && !e.refUpdated && e.ctl.rxCnt != 0
  }

  /** The SFD of the node's own transmission: note time and relay counter, plan the timeout's counter. */
  function NoteTxStart(e: Engine, capture: u16): (e': Engine)
    requires Sized(e)
    ensures Sized(e')
  {
    var relay := e.packet[RELAY_CNT_FIELD];
    e.(cap := e.cap.(tTxStart := capture, txRelayCntLast := relay),
       tmo := e.tmo.(relayCntTimeout := Wrap8(relay as int + e.tmo.nSlotsTimeout)),
       ctl := e.ctl.(state := Transmitting))
  }

  function MaybeReference(e: Engine, capH: u16, capL: u16): Engine
    requires Sized(e)
  {
    if ReferenceDue(e) then ComputeSyncReferenceTime(e, capH, capL) else e
  }

  /** chaos_begin_tx. */
  function BeginTx(e: Engine, capture: u16, capH: u16, capL: u16): (e': Engine)
    requires Sized(e)
    ensures Sized(e')
  {
    MaybeReference(NoteTxStart(e, capture), capH, capL)
  }

  /** The stop condition of chaos_end_tx in sync mode; `txCnt` is the already incremented count. */
  predicate EndTxStops(e: Engine, txCnt: u8)
  {
    (txCnt == e.txMax && e.txMax - RoleValue(if e.initiator then Initiator else Receiver) > 0) ||
    (e.ctl.complete && e.ctl.txCntComplete >= N_TX_COMPLETE)
  }

  function CountTx(e: Engine, capture: u16): Engine
  {
    e.(cap := e.cap.(tTxStop := capture), ctl := e.ctl.(txCnt := Wrap8(e.ctl.txCnt as int + 1)))
  }

  /** chaos_end_tx. */
  function EndTx(e: Engine, capture: u16): Engine
  {
    var e1 := CountTx(e, capture);
    if EndTxStops(e1, e1.ctl.txCnt) then WithState(RadioOff(e1), Off)
    else WithState(e1, Waiting)
  }

  /** The packet the timeout branch builds: the timeout's relay counter, then the record copied in two parts. */
  function TimeoutPacket(p: seq<u8>, relay: u8, data: seq<u8>): (q: seq<u8>)
    requires |p| == PL + 1 && |data| == DATA_LEN
    ensures |q| == PL + 1
  {
    var p1 := p[RELAY_CNT_FIELD := relay];
    var p2 := CopyInto(p1, DATA_FIELD, data[..BYTES_TIMEOUT]);
    CopyInto(p2, BYTES_TIMEOUT_FIELD, data[BYTES_TIMEOUT..])
  }

  /** Only the initiator's own first transmission uses CHAOS_HEADER; a retransmission stops estimation. */
  function TimeoutHeader(e: Engine): (e': Engine)
    requires Sized(e)
    ensures Sized(e')
  {
    if e.initiator && e.ctl.rxCnt == 0 then e.(packet := e.packet[LEN_FIELD := PL][HEADER_FIELD := CHAOS_HEADER])
    else e.(ctl := e.ctl.(estimateLength := false), packet := e.packet[LEN_FIELD := PL][HEADER_FIELD := CHAOS_HEADER + 1])
  }

  /** The local record with the timeout's relay counter goes to the FIFO in two writes, split at BYTES_TIMEOUT_FIELD. */
  function QueueRecord(e: Engine): (e': Engine)
    requires Sized(e)
    ensures Sized(e')
  {
    var p := TimeoutPacket(e.packet, e.tmo.relayCntTimeout, e.data);
    e.(packet := p, txFifo := p[..BYTES_TIMEOUT_FIELD] + p[BYTES_TIMEOUT_FIELD..PL - 1])
  }

  /** The retransmission the backoff timeout triggers in WAITING. */
  function TimeoutRetransmit(e: Engine, c: TxClocks): (e': Engine)
    requires Sized(e)
    ensures Sized(e')
  {
    WithState(QueueRecord(TimeoutHeader(StartTx(e, c))), Received)
  }

  /** The backoff-timeout branch of timerb1_interrupt. */
  function TimeoutFired(e: Engine, c: TxClocks): (e': Engine)
    requires Sized(e)
    ensures Sized(e')
  {
    if e.tmo.nTimeoutWait > 0 then e.(tmo := e.tmo.(nTimeoutWait := e.tmo.nTimeoutWait - 1))
    else if e.ctl.state == Waiting then TimeoutRetransmit(e, c)
    else StopTimeout(e)
  }

  // ------------------------------------------------------------ dispatch

  /** The branch of timerb1_interrupt taken. */
  datatype Event = EndOfFrameEv | BeginRxEv | BeginTxEv | EndTxEv | ResumeEv | TimeoutEv | ResyncEv | IgnoreEv

  /** The SFD pin level and whether TBIV names compare register 4 select the branch. */
  function Dispatch(s: State, sfd: bool, ccr4: bool): Event
  {
    if s == Receiving && !sfd then EndOfFrameEv
    else if s == Waiting && sfd then BeginRxEv
    else if s == Received && sfd then BeginTxEv
    else if s == Transmitting && !sfd then EndTxEv
    else if s == Aborted then ResumeEv
    else if ccr4 then TimeoutEv
    else if s != Off then ResyncEv
    else IgnoreEv
  }

  /** Everything the handlers read from the hardware during one interrupt. */
  datatype Readings = Readings(capture: u16, fifo: seq<u8>, tail: seq<u8>, dcoNow: u16,
                               clocks: TxClocks, lfNow: u16, capH: u16, capL: u16)

  /** The hardware always delivers the 8 trailing bytes of a frame being received. */
  predicate ReadingsFit(e: Engine, sfd: bool, hw: Readings)
  {
    e.ctl.state == Receiving && !sfd ==> |hw.tail| == PL + 1 - RX_HEAD
  }

  /** timerb1_interrupt. */
  function Interrupt(e: Engine, sfd: bool, ccr4: bool, hw: Readings): (e': Engine)
    requires Sized(e) && ReadingsFit(e, sfd, hw)
    ensures Sized(e')
  {
    match Dispatch(e.ctl.state, sfd, ccr4)
    case EndOfFrameEv => EndOfFrame(e, hw.capture, hw.tail, hw.dcoNow, hw.clocks, hw.lfNow)
    case BeginRxEv => BeginRx(e, hw.capture, hw.fifo)
    case BeginTxEv => BeginTx(e, hw.capture, hw.capH, hw.capL)
    case EndTxEv => EndTx(e, hw.capture)
    case ResumeEv => WithState(e, Waiting)
    case TimeoutEv => TimeoutFired(e, hw.clocks)
    case ResyncEv => WithState(StopTimeout(e), Waiting)
    case IgnoreEv => e
  }

  // ------------------------------------------------------------ main interface

  /** chaos_start: the arguments and the reset round counters. */
  function Lend(e: Engine, data: seq<u8>, initiator: bool, txMax: u8): Engine
  {
    e.(data := data, initiator := initiator, txMax := txMax,
       ctl := e.ctl.(txCnt := 0, rxCnt := 0, complete := false, txCntComplete := 0, estimateLength := true))
  }

  /** The initiator copies its record into the packet and has it to send; a receiver waits. */
  function EnterRole(e: Engine): (e': Engine)
    requires Sized(e)
    ensures Sized(e')
  {
    var e1 := e.(packet := e.packet[LEN_FIELD := PL][HEADER_FIELD := CHAOS_HEADER]);
    if e.initiator then WithState(e1.(packet := CopyInto(e1.packet, DATA_FIELD, e1.data)), Received)
    else WithState(e1, Waiting)
  }

  /** chaos_start: lend the record, reset the round counters, prepare the packet. */
  function Start(e: Engine, data: seq<u8>, initiator: bool, txMax: u8, c: TxClocks): (e': Engine)
    requires Sized(e) && |data| == DATA_LEN
    ensures Sized(e')
  {
    var e1 := EnterRole(Lend(e, data, initiator, txMax));
    var e2 := e1.(packet := e1.packet[RELAY_CNT_FIELD := 0], refUpdated := false);
    if initiator then StartTx(WriteTx(e2), c) else e2
  }

  /** chaos_stop: the radio goes off; the caller gets rx_cnt. */
  function Stop(e: Engine): Engine
  {
    WithState(RadioOff(e), Off)
  }
}
