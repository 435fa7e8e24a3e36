/**
 * The Chaos engine of chaos.c as an object: the file-scope variables are the
 * fields, the packet buffer and the application record are arrays, and the
 * bytes last written to the radio's transmit FIFO are a sequence. Every
 * method is proved to change the state exactly as the corresponding function
 * of ChaosSpec does, through the ghost view Model(), and to keep Valid(),
 * which includes the invariant ChaosSpec.Inv.
 */
module Chaos {
  import opened Bytes
  import opened ChaosTestConfig
  import opened ChaosHeader
  import opened FlagMerge
  import opened ChaosSync
  import opened ChaosSpec
  import opened ChaosProperties

  class ChaosEngine {
    // the arguments of chaos_start
    var initiator: bool
    var txMax: u8
    // the file-scope variables, grouped as in ChaosSpec: round bookkeeping,
    // clock captures, backoff timeout, slot-length window and intervals,
    // reference time and whether it was computed this round
    var ctl: Control
    var cap: Captures
    var tmo: Backoff
    var win: Window
    var parts: SlotParts
    var ref: Reference
    var refUpdated: bool
    // the packet buffer, the lent application record, the transmit FIFO's contents
    var packet: array<u8>
    var data: array<u8>
    var txFifo: seq<u8>

    /** The state as a value of ChaosSpec. */
    ghost function Model(): Engine
      reads this, packet, data
    {
      Engine(initiator, txMax, ctl, cap, tmo, win, parts, ref, refUpdated, packet[..], data[..], txFifo)
    }

    /** Two distinct buffers of the configured sizes. */
    ghost predicate Buffers()
      reads this
    {
      packet != data && packet.Length == PL + 1 && data.Length == DATA_LEN
    }

    /** The buffers and the engine invariant. */
    ghost predicate Valid()
      reads this, packet, data
    {
      Buffers() && Inv(Model())
    }

    /** The zero-initialised statics, with a packet buffer and an empty record. */
    constructor ()
      ensures Valid() && fresh(packet) && fresh(data)
      ensures Model() == Init(packet[..], data[..])
    {
      initiator, txMax := false, 0;
      ctl := Control(Off, 0, 0, false, false, 0, false, 0);
      cap := Captures(0, 0, 0, 0, 0, 0, 0, 0, 0);
      tmo := Backoff(0, 0, 0, 0, 0, 0, false, 0);
      win, parts, ref, refUpdated := Window(0, 0, 0), SlotParts(0, 0, 0, 0), Reference(0, 0, 0), false;
      packet := new u8[PL + 1];
      data := new u8[DATA_LEN];
      txFifo := [];
    }

    // ---------------------------------------------------------- radio helpers

    /** chaos_stop_timeout */
    method StopTimeout()
      modifies this
      ensures Model() == ChaosSpec.StopTimeout(old(Model()))
      ensures packet == old(packet) && data == old(data)
    {
      tmo := tmo.(armed := false, nTimeoutWait := 0);
    }

    /** chaos_schedule_timeout; `c` supplies the clock readings it takes. */
    method ScheduleTimeout(c: TxClocks)
      modifies this
      ensures Model() == ChaosSpec.ScheduleTimeout(old(Model()), c)
      ensures packet == old(packet) && data == old(data)
    {
      if win.tSlot != 0 {
        var p := PlanTimeout(win.tSlot, c.(dcoStart := tmo.tTimeoutStart));
        tmo := tmo.(nSlotsTimeout := p.nSlots, tTimeoutH := p.duration, tTimeoutStop := p.tStop,
                    nTimeoutWait := p.nWait, tbccr4 := p.tStop, armed := true);
      }
    }

    /** radio_start_tx: the transmission starts at c.dcoStart and the timeout is armed. */
    method StartTx(c: TxClocks)
      modifies this
      ensures Model() == ChaosSpec.StartTx(old(Model()), c)
      ensures packet == old(packet) && data == old(data)
    {
      tmo := tmo.(tTimeoutStart := c.dcoStart);
      ScheduleTimeout(c);
    }

    /** radio_off */
    method RadioOff()
      modifies this
      ensures Model() == ChaosSpec.RadioOff(old(Model()))
      ensures packet == old(packet) && data == old(data)
    {
      StopTimeout();
    }

    /** radio_write_tx */
    method WriteTx()
      requires Buffers()
      modifies this
      ensures Model() == ChaosSpec.WriteTx(old(Model()))
      ensures packet == old(packet) && data == old(data)
    {
      txFifo := packet[..PL - 1];
    }

    /** radio_abort_rx */
    method Abort()
      modifies this
      ensures Model() == ChaosSpec.Abort(old(Model()))
      ensures packet == old(packet) && data == old(data)
    {
      ctl := ctl.(state := Aborted);
    }

    /** Bytes stored into the packet from index `at` on: a memcpy or a FIFO read. */
    method CopyToPacket(at: nat, src: seq<u8>)
      requires at + |src| <= packet.Length
      modifies packet
      ensures packet[..] == CopyInto(old(packet[..]), at, src)
    {
      for i := 0 to |src|
        invariant packet[..] == CopyInto(old(packet[..]), at, src[..i])
      {
        packet[at + i] := src[i];
      }
    }

    /** The struct copy of the packet's record over the lent one. */
    method RecordFromPacket()
      requires Buffers()
      modifies data
      ensures data[..] == PacketData(packet[..])
    {
      for i := 0 to DATA_LEN
        invariant data[..i] == packet[DATA_FIELD..DATA_FIELD + i]
      {
        data[i] := packet[DATA_FIELD + i];
      }
    }

    // ---------------------------------------------------------- handlers

    /**
     * chaos_data_processing: the loop over all flag bytes but the last (with
     * the configured three nodes it has no iteration), then the last byte.
     */
    method DataProcessing()
      requires Buffers()
      modifies this, packet
      ensures Model() == ChaosSpec.DataProcessing(old(Model()))
      ensures packet == old(packet) && data == old(data)
    {
      ghost var m := Merge(ReceivedFlags(packet[..]), LocalFlags(data[..]));
      var differs, completeTemp := OrInto(packet, PACKET_FLAGS, data, FLAGS_OFFSET, MERGE_LEN - 1);
      var last := PACKET_FLAGS + MERGE_LEN - 1;
      var localFlag := data[FLAGS_OFFSET + MERGE_LEN - 1];
      var tx := ctl.tx || differs || packet[last] != localFlag;
      packet[last] := Or8(packet[last], localFlag);
      ctl := ctl.(tx := tx, complete := completeTemp == 0xFF && packet[last] == CHAOS_COMPLETE_FLAG);
      assert packet[..] == WithFlags(old(packet[..]), m);
    }

    /** chaos_begin_rx; running out of `fifo` stands for the reception timeout. */
    method BeginRx(capture: u16, fifo: seq<u8>)
      requires Buffers()
      modifies this, packet
      ensures Model() == ChaosSpec.BeginRx(old(Model()), capture, fifo)
      ensures packet == old(packet) && data == old(data)
    {
      cap := cap.(tRxStart := capture, tRxTimeout := Wrap16(capture + RX_TIMEOUT));
      ctl := ctl.(state := Receiving, tx := false);
      if |fifo| == 0 {
        Abort();
      } else {
        CheckLength(fifo);
      }
    }

    /** The length byte: a wrong length aborts; otherwise the final flood may force tx. */
    method CheckLength(fifo: seq<u8>)
      requires Buffers() && |fifo| >= 1
      modifies this, packet
      ensures Model() == ChaosSpec.CheckLength(old(Model()), fifo)
      ensures packet == old(packet) && data == old(data)
    {
      packet[LEN_FIELD] := fifo[0];
      if packet[LEN_FIELD] as int != PL {
        Abort();
        return;
      }
      ctl := ctl.(bytesRead := 1);
      if ctl.complete && ctl.txCntComplete as int < N_TX_COMPLETE {
        ctl := ctl.(tx := true);
      }
      CheckHeader(fifo);
    }

    /** The header byte: anything below CHAOS_HEADER aborts. */
    method CheckHeader(fifo: seq<u8>)
      requires Buffers() && |fifo| >= 1 && fifo[0] as int == PL && packet[LEN_FIELD] == fifo[0]
      modifies this, packet
      ensures Model() == ChaosSpec.CheckHeader(old(Model()), fifo)
      ensures packet == old(packet) && data == old(data)
    {
      if |fifo| == 1 {
        Abort();
        return;
      }
      packet[HEADER_FIELD] := fifo[1];
      if packet[HEADER_FIELD] < CHAOS_HEADER {
        Abort();
        return;
      }
      ctl := ctl.(bytesRead := 2);
      ReadBody(fifo);
    }

    /** The loop of chaos_begin_rx over the bytes after the header, all but the last 8. */
    method ReadBody(fifo: seq<u8>)
      requires Buffers() && |fifo| >= 2
      requires packet[LEN_FIELD] == fifo[0] && fifo[0] as int == PL && packet[HEADER_FIELD] == fifo[1] >= CHAOS_HEADER
      modifies this, packet
      ensures Model() == ChaosSpec.ReadBody(old(Model()), fifo)
      ensures packet == old(packet) && data == old(data)
    {
      ghost var p0 := packet[..];
      var n: u8 := 2;
      while n as int <= PL - 8
        modifies packet
        invariant 2 <= n as int <= RX_HEAD && n as int <= |fifo|
        invariant forall j :: 0 <= j < packet.Length ==> packet[j] == if j < n as int then fifo[j] else p0[j]
      {
        if n as int >= |fifo| {
          break;
        }
        packet[n] := fifo[n];
        n := n + 1;
      }
      assert packet[..] == fifo[..n] + p0[n..];
      assert n as int == Consumed(fifo);
      ctl := ctl.(bytesRead := n);
      if n as int <= PL - 8 {
        Abort();
      }
    }

    /** estimate_slot_length, with the capture of this reception's end. */
    method EstimateSlotLength(tRxStopNew: u16)
      requires Buffers()
      modifies this
      ensures Model() == ChaosSpec.EstimateSlotLength(old(Model()), tRxStopNew)
      ensures packet == old(packet) && data == old(data)
    {
      if ctl.rxCnt > 1 && packet[RELAY_CNT_FIELD] as int == cap.txRelayCntLast as int + 2 {
        parts := SlotIntervals(cap.tRxStop, cap.tTxStart, cap.tTxStop, cap.tRxStart, tRxStopNew);
        win := WindowAdd(win, SlotSample(parts));
        ctl := ctl.(estimateLength := false);
      }
    }

    /** chaos_end_rx; `lfNow` is RTIMER_NOW() at the call. */
    method EndRx(lfNow: u16)
      requires Buffers()
      modifies this, packet, data
      ensures Model() == ChaosSpec.EndRx(old(Model()), lfNow)
      ensures packet == old(packet) && data == old(data)
    {
      ghost var e0 := Model();
      var tRxStopTmp := cap.tbccr1;
      if ctl.tx {
        packet[RELAY_CNT_FIELD] := Wrap8(packet[RELAY_CNT_FIELD] as int + 1);
        ghost var e1 := Model();
        assert e1 == BumpRelay(e0);
        StopOrQueue();
        ghost var e2 := Model();
        AcceptReception(lfNow, tRxStopTmp);
        assert Model() == ChaosSpec.AcceptReception(e2, lfNow, e0.cap.tbccr1);
      } else {
        ctl := ctl.(state := Waiting);
      }
    }

    /** With tx_max transmissions done the radio goes off; otherwise the relay is queued. */
    method StopOrQueue()
      requires Buffers()
      modifies this, packet
      ensures Model() == ChaosSpec.StopOrQueue(old(Model()))
      ensures packet == old(packet) && data == old(data)
    {
      if ctl.txCnt == txMax {
        RadioOff();
        ctl := ctl.(state := Off);
      } else {
        if ctl.complete {
          packet[HEADER_FIELD] := CHAOS_HEADER + 1;
        }
        WriteTx();
        ctl := ctl.(state := Received);
      }
    }

    /** The bookkeeping of chaos_end_rx for a relayed frame. */
    method AcceptReception(lfNow: u16, tRxStopTmp: u16)
      requires Buffers()
      modifies this, data
      ensures Model() == ChaosSpec.AcceptReception(old(Model()), lfNow, tRxStopTmp)
      ensures packet == old(packet) && data == old(data)
    {
      CountRx(lfNow);
      MaybeEstimate(tRxStopTmp);
      AdoptRecord(tRxStopTmp);
      if ctl.complete {
        ctl := ctl.(txCntComplete := Wrap8(ctl.txCntComplete as int + 1));
      }
    }

    /** The first reception of the round notes RTIMER_NOW(); rx_cnt counts it. */
    method CountRx(lfNow: u16)
      modifies this
      ensures Model() == ChaosSpec.CountRx(NoteFirstRx(old(Model()), lfNow))
      ensures packet == old(packet) && data == old(data)
    {
      if ctl.rxCnt == 0 {
        cap := cap.(tFirstRxL := lfNow);
      }
      ctl := ctl.(rxCnt := Wrap8(ctl.rxCnt as int + 1));
    }

    /** The slot length is sampled only while estimating and for a frame with header CHAOS_HEADER. */
    method MaybeEstimate(tRxStopTmp: u16)
      requires Buffers()
      modifies this
      ensures Model() == ChaosSpec.MaybeEstimate(old(Model()), tRxStopTmp)
      ensures packet == old(packet) && data == old(data)
    {
      if ctl.estimateLength && packet[HEADER_FIELD] == CHAOS_HEADER {
        EstimateSlotLength(tRxStopTmp);
      }
    }

    /** t_rx_stop is updated and the packet's record replaces the lent one. */
    method AdoptRecord(tRxStopTmp: u16)
      requires Buffers()
      modifies this, data
      ensures Model() == ChaosSpec.AdoptRecord(old(Model()), tRxStopTmp)
      ensures packet == old(packet) && data == old(data)
    {
      cap := cap.(tRxStop := tRxStopTmp);
      RecordFromPacket();
    }

    /** The end-of-frame branch of timerb1_interrupt (state RECEIVING, SFD low). */
    method EndOfFrame(capture: u16, tail: seq<u8>, dcoNow: u16, c: TxClocks, lfNow: u16)
      requires Buffers() && |tail| == PL + 1 - RX_HEAD && ctl.bytesRead as int == RX_HEAD
      modifies this, packet, data
      ensures Model() == ChaosSpec.EndOfFrame(old(Model()), capture, tail, dcoNow, c, lfNow)
      ensures packet == old(packet) && data == old(data)
    {
      FrameOutcome(capture, tail, dcoNow, c);
      EndRx(lfNow);
    }

    /** Everything the end-of-frame branch does before its chaos_end_rx. */
    method FrameOutcome(capture: u16, tail: seq<u8>, dcoNow: u16, c: TxClocks)
      requires Buffers() && |tail| == PL + 1 - RX_HEAD && ctl.bytesRead as int == RX_HEAD
      modifies this, packet
      ensures Model() == ChaosSpec.FrameOutcome(old(Model()), capture, tail, dcoNow, c)
      ensures packet == old(packet) && data == old(data)
    {
      ReadTail(capture, tail);
      if And8(packet[CRC_FIELD], FOOTER1_CRC_OK) != 0 {
        MergeReceived(dcoNow);
        RelayIfOnTime(c);
      } else {
        ctl := ctl.(tx := false);
      }
    }

    /** The trailing bytes are read from the FIFO, from bytes_read to the end of the buffer. */
    method ReadTail(capture: u16, tail: seq<u8>)
      requires Buffers() && |tail| == PL + 1 - RX_HEAD && ctl.bytesRead as int == RX_HEAD
      modifies this, packet
      ensures Model() == ChaosSpec.ReadTail(old(Model()), capture, tail)
      ensures packet == old(packet) && data == old(data)
    {
      cap := cap.(tbccr1 := capture);
      CopyToPacket(ctl.bytesRead as nat, tail);
      ctl := ctl.(bytesRead := (PL + 1) as u8);
      assert packet[..] == old(packet[..])[..RX_HEAD] + tail;
    }

    /** A good CRC: stop the timeout, merge, wait for compare register 4, measure T_irq. */
    method MergeReceived(dcoNow: u16)
      requires Buffers()
      modifies this, packet
      ensures Model() == ChaosSpec.MergeReceived(old(Model()), dcoNow)
      ensures packet == old(packet) && data == old(data)
    {
      StopTimeout();
      DataProcessing();
      tmo := tmo.(tbccr4 := Wrap16(cap.tbccr1 + PROCESSING_CYCLES));
      cap := cap.(tIrq := TIrq(dcoNow, cap.tbccr1));
    }

    /** Relay only within the NOP sled's range; too late, tx is cleared. */
    method RelayIfOnTime(c: TxClocks)
      requires Buffers()
      modifies this
      ensures Model() == ChaosSpec.RelayIfOnTime(old(Model()), c)
      ensures packet == old(packet) && data == old(data)
    {
      if cap.tIrq as int <= T_IRQ_MAX {
        if ctl.tx {
          StartTx(c);
        }
      } else {
        ctl := ctl.(tx := false);
      }
    }

    /** compute_sync_reference_time; capH and capL are the clock readings taken at the call. */
    method ComputeSyncReferenceTime(capH: u16, capL: u16)
      requires Buffers()
      modifies this
      ensures Model() == ChaosSpec.ComputeSyncReferenceTime(old(Model()), capH, capL)
      ensures packet == old(packet) && data == old(data)
    {
      ref := ReferenceTime(packet[RELAY_CNT_FIELD], win.tSlot, cap.tRxStart, capH, capL);
      refUpdated := true;
    }

    /** chaos_begin_tx */
    method BeginTx(capture: u16, capH: u16, capL: u16)
      requires Buffers()
      modifies this
      ensures Model() == ChaosSpec.BeginTx(old(Model()), capture, capH, capL)
      ensures packet == old(packet) && data == old(data)
    {
      cap := cap.(tTxStart := capture);
      ctl := ctl.(state := Transmitting);
      cap := cap.(txRelayCntLast := packet[RELAY_CNT_FIELD]);
      tmo := tmo.(relayCntTimeout := Wrap8(packet[RELAY_CNT_FIELD] as int + tmo.nSlotsTimeout as int));
      ghost var e1 := Model();
      assert e1 == NoteTxStart(old(Model()), capture);
      if win.tSlot != 0 && !refUpdated && ctl.rxCnt != 0 {
        ComputeSyncReferenceTime(capH, capL);
      }
    }

    /** chaos_end_tx */
    method EndTx(capture: u16)
      modifies this
      ensures Model() == ChaosSpec.EndTx(old(Model()), capture)
      ensures packet == old(packet) && data == old(data)
    {
      cap := cap.(tTxStop := capture);
      ctl := ctl.(txCnt := Wrap8(ctl.txCnt as int + 1));
      ghost var e1 := Model();
      assert e1 == CountTx(old(Model()), capture);
      if ctl.txCnt == txMax && txMax as int - (if initiator then 1 else 0) > 0 {
        RadioOff();
        ctl := ctl.(state := Off);
      } else if ctl.complete && ctl.txCntComplete as int >= N_TX_COMPLETE {
        RadioOff();
        ctl := ctl.(state := Off);
      } else {
        ctl := ctl.(state := Waiting);
      }
    }

    /** The backoff-timeout branch of timerb1_interrupt. */
    method TimeoutFired(c: TxClocks)
      requires Buffers()
      modifies this, packet
      ensures Model() == ChaosSpec.TimeoutFired(old(Model()), c)
      ensures packet == old(packet) && data == old(data)
    {
      if tmo.nTimeoutWait > 0 {
        tmo := tmo.(nTimeoutWait := tmo.nTimeoutWait - 1);
      } else if ctl.state == Waiting {
        StartTx(c);
        TimeoutHeader();
        QueueRecord();
        ctl := ctl.(state := Received);
      } else {
        StopTimeout();
      }
    }

    /** Length and header of a retransmission; only the initiator's own first one uses CHAOS_HEADER. */
    method TimeoutHeader()
      requires Buffers()
      modifies this, packet
      ensures Model() == ChaosSpec.TimeoutHeader(old(Model()))
      ensures packet == old(packet) && data == old(data)
    {
      if initiator && ctl.rxCnt == 0 {
        packet[LEN_FIELD] := PL as u8;
        packet[HEADER_FIELD] := CHAOS_HEADER;
      } else {
        ctl := ctl.(estimateLength := false);
        packet[LEN_FIELD] := PL as u8;
        packet[HEADER_FIELD] := CHAOS_HEADER + 1;
      }
    }

    /** The timeout's relay counter, then the record copied and written to the FIFO in two parts. */
    method QueueRecord()
      requires Buffers()
      modifies this, packet
      ensures Model() == ChaosSpec.QueueRecord(old(Model()))
      ensures packet == old(packet) && data == old(data)
    {
      packet[RELAY_CNT_FIELD] := tmo.relayCntTimeout;
      CopyToPacket(DATA_FIELD, data[..BYTES_TIMEOUT]);
      txFifo := packet[..BYTES_TIMEOUT_FIELD];
      CopyToPacket(BYTES_TIMEOUT_FIELD, data[BYTES_TIMEOUT..]);
      txFifo := txFifo + packet[BYTES_TIMEOUT_FIELD..PL - 1];
      assert packet[..] == TimeoutPacket(old(packet[..]), old(tmo.relayCntTimeout), data[..]);
    }

    // ---------------------------------------------------------- interrupt

    /**
     * timerb1_interrupt: `sfd` is the SFD pin, `ccr4` whether TBIV names
     * compare register 4, and `hw` what the handlers read from the hardware.
     */
    method Interrupt(sfd: bool, ccr4: bool, hw: Readings)
      requires Valid() && ReadingsFit(Model(), sfd, hw)
      modifies this, packet, data
      ensures Valid() && packet == old(packet) && data == old(data)
      ensures Model() == ChaosSpec.Interrupt(old(Model()), sfd, ccr4, hw)
    {
      ghost var e := Model();
      InterruptDispatch(e, sfd, ccr4, hw);
      InterruptInv(e, sfd, ccr4, hw);
      if ctl.state == Receiving && !sfd {
        EndOfFrame(hw.capture, hw.tail, hw.dcoNow, hw.clocks, hw.lfNow);
      } else if ctl.state == Waiting && sfd {
        BeginRx(hw.capture, hw.fifo);
      } else if ctl.state == Received && sfd {
        BeginTx(hw.capture, hw.capH, hw.capL);
      } else if ctl.state == Transmitting && !sfd {
        EndTx(hw.capture);
      } else if ctl.state == Aborted {
        ctl := ctl.(state := Waiting);
      } else if ccr4 {
        TimeoutFired(hw.clocks);
      } else if ctl.state != Off {
        StopTimeout();
        ctl := ctl.(state := Waiting);
      }
    }

    // ---------------------------------------------------------- main interface

    /**
     * chaos_start: the engine is lent `data_`, resets its round counters and
     * prepares the packet; the initiator transmits at once.
     */
    method Start(data_: array<u8>, initiator_: bool, txMax_: u8, c: TxClocks)
      requires Valid() && data_ != packet && data_.Length == DATA_LEN
      modifies this, packet
      ensures Valid() && data == data_ && packet == old(packet)
      ensures Model() == ChaosSpec.Start(old(Model()), data_[..], initiator_, txMax_, c)
    {
      StartStopInv(old(Model()), data_[..], initiator_, txMax_, c);
      data := data_;
      initiator := initiator_;
      txMax := txMax_;
      ctl := ctl.(txCnt := 0, rxCnt := 0, complete := false, txCntComplete := 0, estimateLength := true);
      ghost var e1 := Model();
      assert e1 == Lend(old(Model()), data_[..], initiator_, txMax_);
      EnterRole();
      packet[RELAY_CNT_FIELD] := 0;
      refUpdated := false;
      if initiator {
        WriteTx();
        StartTx(c);
      }
    }

    /** Length and header are set; the initiator copies its record in and has it to send. */
    method EnterRole()
      requires Buffers()
      modifies this, packet
      ensures Model() == ChaosSpec.EnterRole(old(Model()))
      ensures packet == old(packet) && data == old(data)
    {
      packet[LEN_FIELD] := PL as u8;
      packet[HEADER_FIELD] := CHAOS_HEADER;
      if initiator {
        CopyToPacket(DATA_FIELD, data[..]);
        ctl := ctl.(state := Received);
      } else {
        ctl := ctl.(state := Waiting);
      }
    }

    /** chaos_stop: the radio goes off and the caller gets the number of receptions. */
    method Stop() returns (received: u8)
      requires Valid()
      modifies this
      ensures Valid() && packet == old(packet) && data == old(data)
      ensures Model() == ChaosSpec.Stop(old(Model())) && received == old(ctl.rxCnt)
    {
      StartStopInv(old(Model()), data[..], initiator, txMax, TxClocks(0, 0, 0, 0));
      RadioOff();
      ctl := ctl.(state := Off);
      received := ctl.rxCnt;
    }

    /** set_t_ref_l */
    method SetTRefL(t: u16)
      requires Valid()
      modifies this
      ensures Valid() && packet == old(packet) && data == old(data)
      ensures Model() == old(Model()).(ref := old(ref).(tRefL := t))
    {
      ref := ref.(tRefL := t);
    }

    /** set_t_ref_l_updated */
    method SetTRefLUpdated(updated: bool)
      requires Valid()
      modifies this
      ensures Valid() && packet == old(packet) && data == old(data)
      ensures Model() == old(Model()).(refUpdated := updated)
    {
      refUpdated := updated;
    }

    // The getters of chaos.c read one static each.

    function RxCount(): (r: u8)
      reads this, packet, data
      ensures r == Model().ctl.rxCnt
    {
      ctl.rxCnt
    }

    function RelayCount(): (r: u8)
      reads this, packet, data
      ensures r == Model().ref.relayCnt
    {
      ref.relayCnt
    }

    function SlotLength(): (t: u16)
      reads this, packet, data
      ensures t == Model().win.tSlot
    {
      win.tSlot
    }

    function IsTRefLUpdated(): (b: bool)
      reads this, packet, data
      ensures b == Model().refUpdated
    {
      refUpdated
    }

    function FirstRxTime(): (t: u16)
      reads this, packet, data
      ensures t == Model().cap.tFirstRxL
    {
      cap.tFirstRxL
    }

    function TRefL(): (t: u16)
      reads this, packet, data
      ensures t == Model().ref.tRefL
    {
      ref.tRefL
    }

    function CurrentState(): (s: State)
      reads this, packet, data
      ensures s == Model().ctl.state && (IsOn(s) <==> s != Off)
    {
      ctl.state
    }
  }

  /**
   * The merge loop of chaos_data_processing over n flag bytes: each byte of
   * p at `at` is OR-ed with the byte of d at `from`; the loop reports whether
   * any pair differed and the running `&` of the merged bytes.
   */
  method OrInto(p: array<u8>, at: nat, d: array<u8>, from: nat, n: nat) returns (differs: bool, acc: u8)
    requires p != d && at + n <= p.Length && from + n <= d.Length
    modifies p
    ensures p[..] == CopyInto(old(p[..]), at, Merge(old(p[at..at + n]), d[from..from + n]))
    ensures differs == Differs(old(p[at..at + n]), d[from..from + n])
    ensures acc == AndPrefix(Merge(old(p[at..at + n]), d[from..from + n]), n)
  {
    ghost var q := p[..];
    ghost var r := p[at..at + n];
    ghost var l := d[from..from + n];
    differs, acc := false, 0xFF;
    for i := 0 to n
      invariant p[..] == CopyInto(q, at, Merge(r, l)[..i])
      invariant differs == Differs(r[..i], l[..i])
      invariant acc == AndPrefix(Merge(r, l), i)
    {
      differs, acc := OrByte(p, at, d, from, n, i, q, r, l, differs, acc);
    }
    TakeAll(Merge(r, l));
    TakeAll(r);
    TakeAll(l);
  }

  /** One turn of the merge loop of OrInto, the i-th byte. */
  method OrByte(p: array<u8>, at: nat, d: array<u8>, from: nat, n: nat, i: nat,
                ghost q: seq<u8>, ghost r: Flags, ghost l: Flags, differs0: bool, acc0: u8)
    returns (differs: bool, acc: u8)
    requires p != d && at + n <= p.Length == |q| && from + n <= d.Length && i < n
    requires r == q[at..at + n] && l == d[from..from + n]
    requires p[..] == CopyInto(q, at, Merge(r, l)[..i])
    requires differs0 == Differs(r[..i], l[..i]) && acc0 == AndPrefix(Merge(r, l), i)
    modifies p
    ensures p[..] == CopyInto(q, at, Merge(r, l)[..i + 1])
    ensures differs == Differs(r[..i + 1], l[..i + 1]) && acc == AndPrefix(Merge(r, l), i + 1)
  {
    assert p[at + i] == r[i] && d[from + i] == l[i];
    DiffersSnoc(r, l, i);
    CopyIntoStep(q, at, Merge(r, l), i);
    differs := differs0 || p[at + i] != d[from + i];
    p[at + i] := Or8(p[at + i], d[from + i]);
    acc := And8(acc0, p[at + i]);
  }
}
