/**
 * What the handlers of the Chaos engine guarantee, stated over the value-level
 * model in ChaosSpec: the flag merge, the reception and transmission
 * outcomes, the slot-length and reference-time estimation, the backoff
 * timeout, and the invariant every interrupt keeps.
 */
module ChaosProperties {
  import opened Bytes
  import opened ChaosTestConfig
  import opened ChaosHeader
  import opened FlagMerge
  import opened ChaosSync
  import opened ChaosSpec

  // ------------------------------------------------------------ flag merge

  /**
   * chaos_data_processing ORs every local flag byte into the packet, raises tx
   * exactly when some byte differed (and never clears it), recomputes the
   * completion from the merged flags, and touches nothing else: not the local
   * record, not the rest of the packet.
   */
  lemma DataProcessingMerges(e: Engine)
    requires Sized(e)
    ensures var e' := DataProcessing(e);
      var r := ReceivedFlags(e.packet);
      var l := LocalFlags(e.data);
      Sized(e') &&
      (forall i :: 0 <= i < MERGE_LEN ==> ReceivedFlags(e'.packet)[i] == Or8(r[i], l[i])) &&
      (e'.ctl.tx <==> e.ctl.tx || exists i :: 0 <= i < MERGE_LEN && r[i] != l[i]) &&
      (e'.ctl.complete <==> Complete(ReceivedFlags(e'.packet), CHAOS_COMPLETE_FLAG)) &&
      e'.data == e.data && e'.ctl.state == e.ctl.state && e'.ctl.rxCnt == e.ctl.rxCnt &&
      (forall i :: 0 <= i < PL + 1 && !(PACKET_FLAGS <= i < PACKET_FLAGS + MERGE_LEN) ==> e'.packet[i] == e.packet[i])
  {
  }

  /** After the merge the packet holds every bit of the local flags and of the received ones. */
  lemma {:induction false} DataProcessingIsUnion(e: Engine, i: nat, k: nat)
    requires Sized(e) && i < MERGE_LEN
    ensures var m := ReceivedFlags(DataProcessing(e).packet);
      Bit(m[i], k) <==> Bit(ReceivedFlags(e.packet)[i], k) || Bit(LocalFlags(e.data)[i], k)
  {
    var m := ReceivedFlags(DataProcessing(e).packet);
    assert m == Merge(ReceivedFlags(e.packet), LocalFlags(e.data));
  }

  /** The relay decision holds exactly when the merge changes the packet's flags or would change the local ones. */
  lemma {:induction false} DataProcessingRelaysOnChange(e: Engine)
    requires Sized(e) && !e.ctl.tx
    ensures var m := ReceivedFlags(DataProcessing(e).packet);
      DataProcessing(e).ctl.tx <==> m != ReceivedFlags(e.packet) || m != LocalFlags(e.data)
  {
    DiffersIffMergeAdds(ReceivedFlags(e.packet), LocalFlags(e.data));
  }

  /** Merging the same local record in a second time changes neither the packet nor the completion. */
  lemma {:induction false} DataProcessingIdempotent(e: Engine)
    requires Sized(e)
    ensures var e1 := DataProcessing(e);
      var e2 := DataProcessing(e1);
      e2.packet == e1.packet && e2.ctl.complete == e1.ctl.complete && e2.data == e1.data
  {
    var r := ReceivedFlags(e.packet);
    var l := LocalFlags(e.data);
    var e1 := DataProcessing(e);
    MergeIdempotent(r, l);
    assert ReceivedFlags(e1.packet) == Merge(r, l);
    var e2 := DataProcessing(e1);
    assert ReceivedFlags(e2.packet) == ReceivedFlags(e1.packet);
    assert e2.packet == e1.packet;
  }

  /** With up to 8 nodes, completion after the merge means every node's bit is set. */
  lemma {:induction false} DataProcessingCompleteMeansAllNodes(e: Engine)
    requires Sized(e)
    requires WellFormed(ReceivedFlags(e.packet), CHAOS_NODES) && WellFormed(LocalFlags(e.data), CHAOS_NODES)
    ensures var m := ReceivedFlags(DataProcessing(e).packet);
      DataProcessing(e).ctl.complete <==> forall j: nat :: j < CHAOS_NODES ==> HasNode(m, j)
  {
    var r := ReceivedFlags(e.packet);
    var l := LocalFlags(e.data);
    ConfiguredSizes();
    MergeWellFormed(r, l, CHAOS_NODES);
    assert ReceivedFlags(DataProcessing(e).packet) == Merge(r, l);
    CompleteIffAllNodes(Merge(r, l), CHAOS_NODES);
  }

  // ------------------------------------------------------------ reception

  /**
   * chaos_begin_rx: the state is RECEIVING exactly when the length and header
   * checks pass and all head bytes arrive, ABORTED otherwise; tx is cleared,
   * and forced to 1 in the final flood once the length byte is right; the
   * head bytes land in the packet; the record and counters are untouched.
   */
  lemma BeginRxOutcome(e: Engine, capture: u16, fifo: seq<u8>)
    requires Sized(e)
    ensures var e' := BeginRx(e, capture, fifo);
      Sized(e') &&
      (e'.ctl.state == Receiving <==> Accepted(fifo)) &&
      (e'.ctl.state != Receiving ==> e'.ctl.state == Aborted) &&
      (e'.ctl.tx <==> |fifo| >= 1 && fifo[0] == PL && e.ctl.complete && e.ctl.txCntComplete < N_TX_COMPLETE) &&
      e'.cap.tRxStart == capture && e'.cap.tRxTimeout == Wrap16(capture + RX_TIMEOUT) &&
      (Accepted(fifo) ==> e'.ctl.bytesRead == RX_HEAD && e'.packet == fifo[..RX_HEAD] + e.packet[RX_HEAD..]) &&
      e'.data == e.data && e'.ctl.rxCnt == e.ctl.rxCnt && e'.ctl.complete == e.ctl.complete &&
      e'.win == e.win && e'.tmo == e.tmo
  {
    var e1 := StartRx(e, capture);
    if |fifo| >= 1 {
      var e2 := StoreByte(e1, LEN_FIELD, fifo[0]);
      if fifo[0] == PL {
        var e3 := FinalFlood(e2);
        if |fifo| >= 2 {
          var e4 := StoreByte(e3, HEADER_FIELD, fifo[1]);
          if fifo[1] >= CHAOS_HEADER {
            assert BeginRx(e, capture, fifo) == ReadBody(e4, fifo);
            if Accepted(fifo) {
              assert e4.packet[..2] == fifo[..2];
              assert fifo[..RX_HEAD] + e4.packet[RX_HEAD..] == fifo[..RX_HEAD] + e.packet[RX_HEAD..];
            }
          }
        }
      }
    }
  }

  /** chaos_begin_rx touches only the packet, the state, tx, bytes_read and the two reception captures. */
  lemma BeginRxFrame(e: Engine, capture: u16, fifo: seq<u8>)
    requires Sized(e)
    ensures var e' := BeginRx(e, capture, fifo);
      e' == e.(packet := e'.packet, ctl := e'.ctl, cap := e'.cap) &&
      e'.ctl == e.ctl.(state := e'.ctl.state, tx := e'.ctl.tx, bytesRead := e'.ctl.bytesRead) &&
      e'.cap == e.cap.(tRxStart := capture, tRxTimeout := Wrap16(capture + RX_TIMEOUT))
  {
    var e1 := StartRx(e, capture);
    if |fifo| >= 1 {
      var e2 := StoreByte(e1, LEN_FIELD, fifo[0]);
      if fifo[0] == PL {
        var e3 := FinalFlood(e2);
        if |fifo| >= 2 && fifo[1] >= CHAOS_HEADER {
          assert BeginRx(e, capture, fifo) == ReadBody(StoreByte(e3, HEADER_FIELD, fifo[1]), fifo);
        }
      }
    }
  }

  /** The dispatcher: which handler each branch of timerb1_interrupt runs. */
  lemma InterruptDispatch(e: Engine, sfd: bool, ccr4: bool, hw: Readings)
    requires Sized(e) && ReadingsFit(e, sfd, hw)
    ensures var ev := Dispatch(e.ctl.state, sfd, ccr4);
      var e' := Interrupt(e, sfd, ccr4, hw);
      (ev == EndOfFrameEv ==> e' == EndOfFrame(e, hw.capture, hw.tail, hw.dcoNow, hw.clocks, hw.lfNow)) &&
      (ev == BeginRxEv ==> e' == BeginRx(e, hw.capture, hw.fifo)) &&
      (ev == BeginTxEv ==> e' == BeginTx(e, hw.capture, hw.capH, hw.capL)) &&
      (ev == EndTxEv ==> e' == EndTx(e, hw.capture)) &&
      (ev == ResumeEv ==> e' == WithState(e, Waiting)) &&
      (ev == TimeoutEv ==> e' == TimeoutFired(e, hw.clocks)) &&
      (ev == ResyncEv ==> e' == WithState(StopTimeout(e), Waiting)) &&
      (ev == IgnoreEv ==> e' == e)
  {
  }

  /** ABORTED is left for WAITING on the next interrupt, whatever it is. */
  lemma AbortedResumes(e: Engine, sfd: bool, ccr4: bool, hw: Readings)
    requires Sized(e) && e.ctl.state == Aborted
    ensures Interrupt(e, sfd, ccr4, hw) == WithState(e, Waiting)
  {
  }

  /** An interrupt no handler matches, in any state but OFF, stops the timeout and returns to WAITING. */
  lemma UnmatchedReturnsToWaiting(e: Engine, sfd: bool, hw: Readings)
    requires Sized(e) && e.ctl.state != Off
    requires Dispatch(e.ctl.state, sfd, false) == ResyncEv
    ensures var e' := Interrupt(e, sfd, false, hw);
      e'.ctl.state == Waiting && !e'.tmo.armed && e'.tmo.nTimeoutWait == 0 &&
      e'.ctl == e.ctl.(state := Waiting) && e'.packet == e.packet && e'.data == e.data
  {
  }

  /** The branches of the dispatcher, by state and SFD level. */
  lemma DispatchCases(s: State, sfd: bool, ccr4: bool)
    ensures Dispatch(s, sfd, ccr4) == EndOfFrameEv <==> s == Receiving && !sfd
    ensures Dispatch(s, sfd, ccr4) == BeginRxEv <==> s == Waiting && sfd
    ensures Dispatch(s, sfd, ccr4) == BeginTxEv <==> s == Received && sfd
    ensures Dispatch(s, sfd, ccr4) == EndTxEv <==> s == Transmitting && !sfd
    ensures Dispatch(s, sfd, ccr4) == IgnoreEv <==> s == Off && !ccr4
    ensures s == Off ==> Dispatch(s, sfd, ccr4) in {TimeoutEv, IgnoreEv}
  {
  }

  /** chaos_end_rx without tx: back to WAITING, nothing else changes. */
  lemma EndRxWithoutTx(e: Engine, lfNow: u16)
    requires Sized(e) && !e.ctl.tx
    ensures EndRx(e, lfNow) == WithState(e, Waiting)
  {
  }

  /**
   * chaos_end_rx with tx: the relay counter rises by exactly one, rx_cnt
   * increments, the state is OFF if tx_cnt reached tx_max and RECEIVED
   * otherwise (with the relayed packet queued and header CHAOS_HEADER + 1
   * once complete), and the local record becomes the packet's data field.
   */
  lemma EndRxRelays(e: Engine, lfNow: u16)
    requires Sized(e) && e.ctl.tx
    ensures var e' := EndRx(e, lfNow);
      Sized(e') &&
      e'.packet[RELAY_CNT_FIELD] == Wrap8(e.packet[RELAY_CNT_FIELD] as int + 1) &&
      e'.ctl.rxCnt == Wrap8(e.ctl.rxCnt as int + 1) &&
      (e.ctl.txCnt == e.txMax ==> e'.ctl.state == Off && !e'.tmo.armed) &&
      (e.ctl.txCnt != e.txMax ==> e'.ctl.state == Received && e'.txFifo == e'.packet[..PL - 1]) &&
      (e.ctl.txCnt != e.txMax && e.ctl.complete ==> e'.packet[HEADER_FIELD] == CHAOS_HEADER + 1) &&
      (e.ctl.txCnt == e.txMax || !e.ctl.complete ==> e'.packet[HEADER_FIELD] == e.packet[HEADER_FIELD]) &&
      e'.data == PacketData(e'.packet) && PacketData(e'.packet) == PacketData(e.packet) &&
      e'.ctl.txCntComplete == (if e.ctl.complete then Wrap8(e.ctl.txCntComplete as int + 1) else e.ctl.txCntComplete) &&
      e'.cap.tRxStop == e.cap.tbccr1 &&
      (e.ctl.rxCnt == 0 ==> e'.cap.tFirstRxL == lfNow) && (e.ctl.rxCnt != 0 ==> e'.cap.tFirstRxL == e.cap.tFirstRxL)
  {
    var e1 := BumpRelay(e);
    var e2 := StopOrQueue(e1);
    StopOrQueueFacts(e1);
    AcceptReceptionFacts(e2, lfNow, e.cap.tbccr1);
    DataUntouched(e.packet, RELAY_CNT_FIELD, Wrap8(e.packet[RELAY_CNT_FIELD] as int + 1));
    DataUntouched(e1.packet, HEADER_FIELD, CHAOS_HEADER + 1);
  }

  /** The flag bytes of the packet are those of its data field. */
  lemma FlagsOfData(p: seq<u8>)
    requires |p| == PL + 1
    ensures LocalFlags(PacketData(p)) == ReceivedFlags(p)
  {
    forall j | 0 <= j < MERGE_LEN
      ensures LocalFlags(PacketData(p))[j] == ReceivedFlags(p)[j]
    {
      assert LocalFlags(PacketData(p))[j] == PacketData(p)[FLAGS_OFFSET + j] == p[DATA_FIELD + FLAGS_OFFSET + j];
    }
  }

  /** The header and the relay counter lie outside the data field. */
  lemma DataUntouched(p: seq<u8>, i: nat, v: u8)
    requires |p| == PL + 1 && i < PL + 1 && (i < DATA_FIELD || i >= DATA_FIELD + DATA_LEN)
    ensures PacketData(p[i := v]) == PacketData(p)
  {
    var q := p[i := v];
    forall j | 0 <= j < DATA_LEN
      ensures PacketData(q)[j] == PacketData(p)[j]
    {
      assert PacketData(q)[j] == q[DATA_FIELD + j];
    }
  }

  /** The stop-or-queue step: OFF with the timeout stopped, or RECEIVED with the relay queued. */
  lemma StopOrQueueFacts(e: Engine)
    requires Sized(e)
    ensures var e' := StopOrQueue(e);
      (e.ctl.txCnt == e.txMax ==> e'.ctl.state == Off && !e'.tmo.armed && e'.packet == e.packet) &&
      (e.ctl.txCnt != e.txMax ==>
         e'.ctl.state == Received && e'.txFifo == e'.packet[..PL - 1] &&
         e'.packet == (if e.ctl.complete then e.packet[HEADER_FIELD := CHAOS_HEADER + 1] else e.packet) &&
         e'.tmo == e.tmo) &&
      e'.ctl == e.ctl.(state := e'.ctl.state) && e'.data == e.data && e'.cap == e.cap && e'.win == e.win &&
      e'.ref == e.ref && e'.refUpdated == e.refUpdated && e'.initiator == e.initiator && e'.txMax == e.txMax
  {
  }

  /** The bookkeeping step of a relayed frame: one more reception, the record adopted, the packet untouched. */
  lemma AcceptReceptionFacts(e: Engine, lfNow: u16, t: u16)
    requires Sized(e)
    ensures var e' := AcceptReception(e, lfNow, t);
      e'.packet == e.packet && e'.data == PacketData(e.packet) && e'.txFifo == e.txFifo && e'.tmo == e.tmo &&
      e'.ctl.state == e.ctl.state && e'.ctl.tx == e.ctl.tx && e'.ctl.complete == e.ctl.complete &&
      e'.ctl.txCnt == e.ctl.txCnt && e'.ctl.rxCnt == Wrap8(e.ctl.rxCnt as int + 1) && e'.ctl.bytesRead == e.ctl.bytesRead &&
      e'.ctl.txCntComplete == (if e.ctl.complete then Wrap8(e.ctl.txCntComplete as int + 1) else e.ctl.txCntComplete) &&
      (e'.ctl.estimateLength ==> e.ctl.estimateLength) &&
      e'.ref == e.ref && e'.refUpdated == e.refUpdated && e'.initiator == e.initiator && e'.txMax == e.txMax &&
      e'.cap == e.cap.(tRxStop := t, tFirstRxL := if e.ctl.rxCnt == 0 then lfNow else e.cap.tFirstRxL) &&
      (e'.win != e.win ==>
        e.ctl.estimateLength && !e'.ctl.estimateLength && e.packet[HEADER_FIELD] == CHAOS_HEADER &&
        Wrap8(e.ctl.rxCnt as int + 1) > 1 && e.packet[RELAY_CNT_FIELD] == e.cap.txRelayCntLast as int + 2) &&
      (WindowOk(e.win) ==> WindowOk(e'.win))
  {
    var e4 := CountRx(NoteFirstRx(e, lfNow));
    assert e4.ctl == e.ctl.(rxCnt := Wrap8(e.ctl.rxCnt as int + 1));
    MaybeEstimateFacts(e4, t);
  }

  /** A slot sample needs estimation on, header CHAOS_HEADER and the sample condition; it ends estimation. */
  lemma MaybeEstimateFacts(e: Engine, t: u16)
    requires Sized(e)
    ensures var e' := MaybeEstimate(e, t);
      (e'.win != e.win ==>
        e.ctl.estimateLength && !e'.ctl.estimateLength && e.packet[HEADER_FIELD] == CHAOS_HEADER && SampleApplies(e)) &&
      (e'.ctl.estimateLength ==> e.ctl.estimateLength) &&
      (WindowOk(e.win) ==> WindowOk(e'.win))
  {
    var e' := MaybeEstimate(e, t);
    if e.ctl.estimateLength && e.packet[HEADER_FIELD] == CHAOS_HEADER && SampleApplies(e) {
      var p := SlotIntervals(e.cap.tRxStop, e.cap.tTxStart, e.cap.tTxStop, e.cap.tRxStart, t);
      var s := SlotSample(p);
      assert e'.win == WindowAdd(e.win, s) && !e'.ctl.estimateLength;
      if WindowOk(e.win) { WindowAddOk(e.win, s); }
    } else {
      assert e'.win == e.win && e'.ctl.estimateLength == e.ctl.estimateLength;
    }
  }

  /** The 8 trailing bytes complete the packet; the CRC byte is the last of them. */
  lemma ReadTailLayout(e: Engine, capture: u16, tail: seq<u8>)
    requires Sized(e) && |tail| == PL + 1 - RX_HEAD
    ensures var e' := ReadTail(e, capture, tail);
      e'.packet[CRC_FIELD] == tail[7] && e'.packet[RELAY_CNT_FIELD] == tail[5] &&
      e'.packet[..RX_HEAD] == e.packet[..RX_HEAD] && e'.cap.tbccr1 == capture
  {
  }

  /**
   * What the end-of-frame branch hands to chaos_end_rx. The relay counter is
   * the frame's, estimation and the reference are untouched, and tx survives
   * only for a good CRC on time, with the relay started. A bad CRC leaves the
   * record and timeout alone; a late frame is merged with the timeout stopped.
   */
  lemma FrameOutcomeFacts(e: Engine, capture: u16, tail: seq<u8>, dcoNow: u16, c: TxClocks)
    requires Sized(e) && |tail| == PL + 1 - RX_HEAD
    ensures var e3 := FrameOutcome(e, capture, tail, dcoNow, c);
      var m := Merge(ReceivedFlags(ReadTail(e, capture, tail).packet), LocalFlags(e.data));
      e3.packet[RELAY_CNT_FIELD] == tail[5] && e3.cap.tbccr1 == capture &&
      e3.ctl.estimateLength == e.ctl.estimateLength && e3.ctl.rxCnt == e.ctl.rxCnt && e3.ctl.txCnt == e.ctl.txCnt &&
      e3.ref == e.ref && e3.refUpdated == e.refUpdated && e3.win == e.win && e3.data == e.data &&
      (!CrcOk(tail[7]) ==> !e3.ctl.tx && e3.ctl.complete == e.ctl.complete && e3.tmo == e.tmo) &&
      (CrcOk(tail[7]) ==> ReceivedFlags(e3.packet) == m && PacketData(e3.packet)[FLAGS_OFFSET..FLAGS_OFFSET + MERGE_LEN] == m &&
                          e3.cap.tIrq == TIrq(dcoNow, capture)) &&
      (CrcOk(tail[7]) && TIrq(dcoNow, capture) > T_IRQ_MAX ==> !e3.ctl.tx && !e3.tmo.armed) &&
      (e3.ctl.tx ==> CrcOk(tail[7]) && TIrq(dcoNow, capture) <= T_IRQ_MAX && e3.tmo.tTimeoutStart == c.dcoStart)
  {
    var e1 := ReadTail(e, capture, tail);
    ReadTailLayout(e, capture, tail);
    if CrcOk(e1.packet[CRC_FIELD]) {
      var e2 := MergeReceived(e1, dcoNow);
      MergeReceivedFacts(e1, dcoNow);
      RelayIfOnTimeFacts(e2, c);
      assert FrameOutcome(e, capture, tail, dcoNow, c) == RelayIfOnTime(e2, c);
    } else {
      assert FrameOutcome(e, capture, tail, dcoNow, c) == WithTx(e1, false);
    }
  }

  /** The relay decision changes only tx and, when the relay starts, the timeout. */
  lemma RelayIfOnTimeFacts(e: Engine, c: TxClocks)
    requires Sized(e)
    ensures var e' := RelayIfOnTime(e, c);
      e'.packet == e.packet && e'.data == e.data && e'.ctl == e.ctl.(tx := e'.ctl.tx) && e'.cap == e.cap &&
      e'.win == e.win && e'.ref == e.ref && e'.refUpdated == e.refUpdated &&
      (Core(e) ==> Core(e')) &&
      (e.cap.tIrq <= T_IRQ_MAX ==> e'.ctl.tx == e.ctl.tx) &&
      (e.cap.tIrq > T_IRQ_MAX ==> !e'.ctl.tx && e'.tmo == e.tmo) &&
      (!e.ctl.tx ==> e'.tmo == e.tmo) &&
      (e'.ctl.tx ==> e'.tmo.tTimeoutStart == c.dcoStart)
  {
    if e.cap.tIrq <= T_IRQ_MAX && e.ctl.tx && Core(e) {
      StartTxCore(e, c);
    }
  }

  /** The end-of-frame branch keeps the state-independent invariant up to its chaos_end_rx. */
  lemma FrameOutcomeCore(e: Engine, capture: u16, tail: seq<u8>, dcoNow: u16, c: TxClocks)
    requires Core(e) && |tail| == PL + 1 - RX_HEAD
    ensures Core(FrameOutcome(e, capture, tail, dcoNow, c))
  {
    var e1 := ReadTail(e, capture, tail);
    assert Core(e1);
    if CrcOk(e1.packet[CRC_FIELD]) {
      var e2 := MergeReceived(e1, dcoNow);
      MergeReceivedFacts(e1, dcoNow);
      assert Core(e2);
      RelayIfOnTimeFacts(e2, c);
    }
  }

  /** A frame whose CRC bit is clear is dropped: WAITING, no count, the record unchanged. */
  lemma BadCrcDropped(e: Engine, capture: u16, tail: seq<u8>, dcoNow: u16, c: TxClocks, lfNow: u16)
    requires Sized(e) && |tail| == PL + 1 - RX_HEAD && !CrcOk(tail[7])
    ensures var e' := EndOfFrame(e, capture, tail, dcoNow, c, lfNow);
      e'.ctl.state == Waiting && !e'.ctl.tx && e'.ctl.rxCnt == e.ctl.rxCnt && e'.data == e.data &&
      e'.ctl.complete == e.ctl.complete && e'.tmo == e.tmo
  {
    FrameOutcomeFacts(e, capture, tail, dcoNow, c);
    EndRxWithoutTx(FrameOutcome(e, capture, tail, dcoNow, c), lfNow);
  }

  /**
   * A frame received too late for a synchronous relay (T_irq above 34) is
   * merged but neither relayed nor counted, and the merged flags are not
   * copied back into the local record.
   */
  lemma OverrunDropped(e: Engine, capture: u16, tail: seq<u8>, dcoNow: u16, c: TxClocks, lfNow: u16)
    requires Sized(e) && |tail| == PL + 1 - RX_HEAD && CrcOk(tail[7]) && TIrq(dcoNow, capture) > T_IRQ_MAX
    ensures var e' := EndOfFrame(e, capture, tail, dcoNow, c, lfNow);
      e'.ctl.state == Waiting && !e'.ctl.tx && e'.ctl.rxCnt == e.ctl.rxCnt && e'.data == e.data &&
      !e'.tmo.armed && e'.cap.tIrq == TIrq(dcoNow, capture)
  {
    FrameOutcomeFacts(e, capture, tail, dcoNow, c);
    EndRxWithoutTx(FrameOutcome(e, capture, tail, dcoNow, c), lfNow);
  }

  /**
   * A frame with a good CRC, on time, that the merge marks for relaying: the
   * timeout is re-armed by the relay's start, the local record becomes the
   * merged one, and chaos_end_rx counts it.
   */
  lemma OnTimeRelayed(e: Engine, capture: u16, tail: seq<u8>, dcoNow: u16, c: TxClocks, lfNow: u16)
    requires Sized(e) && |tail| == PL + 1 - RX_HEAD && CrcOk(tail[7]) && TIrq(dcoNow, capture) <= T_IRQ_MAX
    requires MergeReceived(ReadTail(e, capture, tail), dcoNow).ctl.tx
    ensures var e' := EndOfFrame(e, capture, tail, dcoNow, c, lfNow);
      var m := Merge(ReceivedFlags(ReadTail(e, capture, tail).packet), LocalFlags(e.data));
      e'.ctl.rxCnt == Wrap8(e.ctl.rxCnt as int + 1) && LocalFlags(e'.data) == m &&
      (e'.ctl.state == Off || e'.ctl.state == Received) &&
      e'.tmo.tTimeoutStart == c.dcoStart
  {
    var e1 := ReadTail(e, capture, tail);
    ReadTailLayout(e, capture, tail);
    MergeReceivedFacts(e1, dcoNow);
    var e3 := FrameOutcome(e, capture, tail, dcoNow, c);
    FrameOutcomeFacts(e, capture, tail, dcoNow, c);
    assert e3 == StartTx(MergeReceived(e1, dcoNow), c);
    var e' := EndRx(e3, lfNow);
    assert EndOfFrame(e, capture, tail, dcoNow, c, lfNow) == e';
    EndRxRelays(e3, lfNow);
    FlagsOfData(e3.packet);
    assert LocalFlags(e'.data) == ReceivedFlags(e3.packet);
  }

  /** The good-CRC step: the timeout stopped, the flags merged, T_irq noted; the rest untouched. */
  lemma MergeReceivedFacts(e: Engine, dcoNow: u16)
    requires Sized(e)
    ensures var e' := MergeReceived(e, dcoNow);
      var r := ReceivedFlags(e.packet);
      var l := LocalFlags(e.data);
      ReceivedFlags(e'.packet) == Merge(r, l) && e'.data == e.data &&
      PacketData(e'.packet)[FLAGS_OFFSET..FLAGS_OFFSET + MERGE_LEN] == Merge(r, l) &&
      e'.packet[RELAY_CNT_FIELD] == e.packet[RELAY_CNT_FIELD] && e'.packet[HEADER_FIELD] == e.packet[HEADER_FIELD] &&
      e'.ctl == e.ctl.(tx := e.ctl.tx || Differs(r, l), complete := Complete(Merge(r, l), CHAOS_COMPLETE_FLAG)) &&
      e'.cap == e.cap.(tIrq := TIrq(dcoNow, e.cap.tbccr1)) && !e'.tmo.armed &&
      e'.win == e.win && e'.ref == e.ref && e'.refUpdated == e.refUpdated
  {
  }

  /** The relay counter of a relayed frame rises by exactly one: the frame's counter plus one. */
  lemma RelayCounterStep(e: Engine, capture: u16, tail: seq<u8>, dcoNow: u16, c: TxClocks, lfNow: u16)
    requires Sized(e) && |tail| == PL + 1 - RX_HEAD
    ensures var e' := EndOfFrame(e, capture, tail, dcoNow, c, lfNow);
      e'.ctl.state == Received ==> e'.packet[RELAY_CNT_FIELD] == Wrap8(tail[5] as int + 1)
  {
    var e3 := FrameOutcome(e, capture, tail, dcoNow, c);
    FrameOutcomeFacts(e, capture, tail, dcoNow, c);
    if e3.ctl.tx { EndRxRelays(e3, lfNow); } else { EndRxWithoutTx(e3, lfNow); }
  }

  /**
   * T_irq as an unsigned 16-bit value: when at least the busy-wait's
   * PROCESSING_CYCLES elapsed, it is at most 34 exactly when 40015 to 40032
   * DCO ticks elapsed, so that the NOP sled can absorb the difference.
   */
  lemma TIrqWindow(dcoNow: u16, tbccr1: u16)
    requires PROCESSING_CYCLES <= Wrap16(dcoNow - tbccr1)
    ensures TIrq(dcoNow, tbccr1) <= T_IRQ_MAX <==> PROCESSING_CYCLES + 15 <= Wrap16(dcoNow - tbccr1) <= PROCESSING_CYCLES + 32
  {
    var d := Wrap16(dcoNow - tbccr1) - (PROCESSING_CYCLES + 15);
    if d >= 0 {
      assert 2 * d < 0x1_0000;
      assert TIrq(dcoNow, tbccr1) == 2 * d;
    } else {
      assert -30 <= 2 * d < 0;
      assert TIrq(dcoNow, tbccr1) == 0x1_0000 + 2 * d;
    }
  }

  // ------------------------------------------------------------ slot length

  /**
   * A slot sample is taken at the end of a reception only if tx was set, the
   * node still estimates this round, the header is CHAOS_HEADER, the node has
   * received before, and the frame's relay counter is one above the counter
   * the node last sent; afterwards no further sample is taken this round.
   */
  lemma SampleOnlyWhen(e: Engine, lfNow: u16)
    requires Sized(e)
    ensures var e' := EndRx(e, lfNow);
      e'.win != e.win ==>
        e.ctl.tx && e.ctl.estimateLength && !e'.ctl.estimateLength &&
        e'.packet[HEADER_FIELD] == CHAOS_HEADER && e.ctl.rxCnt >= 1 &&
        e.packet[RELAY_CNT_FIELD] as int + 1 == e.cap.txRelayCntLast as int + 2
  {
    if e.ctl.tx {
      EndRxSample(e, lfNow);
      var r := e.packet[RELAY_CNT_FIELD];
      if EndRx(e, lfNow).win != e.win {
        Wrap8Succ(r);
        Wrap8Succ(e.ctl.rxCnt);
        assert Wrap8(r as int + 1) == e.cap.txRelayCntLast as int + 2;
        assert r != 255;
      }
    } else {
      assert EndRx(e, lfNow).win == e.win;
    }
  }

  /** The sample condition of a relayed frame, as chaos_end_rx sees it after its increments. */
  lemma EndRxSample(e: Engine, lfNow: u16)
    requires Sized(e) && e.ctl.tx
    ensures var e' := EndRx(e, lfNow);
      e'.win != e.win ==>
        e.ctl.estimateLength && !e'.ctl.estimateLength && e'.packet[HEADER_FIELD] == CHAOS_HEADER &&
        Wrap8(e.ctl.rxCnt as int + 1) > 1 &&
        Wrap8(e.packet[RELAY_CNT_FIELD] as int + 1) == e.cap.txRelayCntLast as int + 2
  {
    var e1 := BumpRelay(e);
    var e2 := StopOrQueue(e1);
    StopOrQueueFacts(e1);
    AcceptReceptionFacts(e2, lfNow, e.cap.tbccr1);
    assert e2.packet[RELAY_CNT_FIELD] == e1.packet[RELAY_CNT_FIELD];
  }

  /** The sample is half the sum of the four intervals of one slot, which telescopes to two slots. */
  lemma SampleValue(e: Engine, tNew: u16)
    requires Sized(e) && SampleApplies(e)
    ensures var e' := EstimateSlotLength(e, tNew);
      var p := e'.parts;
      !e'.ctl.estimateLength &&
      Wrap16(p.wRt + p.tx + p.wTr + p.rx) == Wrap16(tNew - e.cap.tRxStop) &&
      e'.win == WindowAdd(e.win, SlotSample(p))
  {
    SlotIntervalsTelescope(e.cap.tRxStop, e.cap.tTxStart, e.cap.tTxStop, e.cap.tRxStart, tNew);
  }

  /** Without a sample the window is left alone. */
  lemma NoSampleNoChange(e: Engine, tNew: u16)
    requires Sized(e) && !SampleApplies(e)
    ensures EstimateSlotLength(e, tNew) == e
  {
  }

  // ------------------------------------------------------------ transmission

  /**
   * chaos_begin_tx: TRANSMITTING, the relay counter sent is remembered, the
   * timeout's relay counter is that plus n_slots_timeout, and the reference
   * time is computed exactly when it is due, with relay_cnt one below the
   * frame's counter and an offset below CLOCK_PHI.
   */
  lemma BeginTxOutcome(e: Engine, capture: u16, capH: u16, capL: u16)
    requires Sized(e)
    ensures var e' := BeginTx(e, capture, capH, capL);
      var relay := e.packet[RELAY_CNT_FIELD];
      e'.ctl.state == Transmitting && e'.cap.tTxStart == capture && e'.cap.txRelayCntLast == relay &&
      e'.tmo.relayCntTimeout == Wrap8(relay as int + e.tmo.nSlotsTimeout) &&
      e'.refUpdated == (e.refUpdated || ReferenceDue(e)) &&
      (ReferenceDue(e) ==> e'.ref == ReferenceTime(relay, e.win.tSlot, e.cap.tRxStart, capH, capL) &&
                           e'.ref.relayCnt == Wrap8(relay as int - 1) && e'.ref.tOffsetH < CLOCK_PHI) &&
      (!ReferenceDue(e) ==> e'.ref == e.ref) &&
      e'.packet == e.packet && e'.data == e.data
  {
  }

  /** Once computed, the reference time is not recomputed during the round. */
  lemma ReferenceOnce(e: Engine, capture: u16, capH: u16, capL: u16, capture2: u16, capH2: u16, capL2: u16)
    requires Sized(e)
    ensures var e1 := BeginTx(e, capture, capH, capL);
      BeginTx(e1, capture2, capH2, capL2).ref == e1.ref
  {
  }

  /**
   * chaos_end_tx: tx_cnt always increments, and the node turns OFF exactly
   * when the stop condition holds, WAITING otherwise.
   */
  lemma EndTxOutcome(e: Engine, capture: u16)
    ensures var e' := EndTx(e, capture);
      var n := Wrap8(e.ctl.txCnt as int + 1);
      e'.ctl.txCnt == n && e'.cap.tTxStop == capture &&
      (e'.ctl.state == Off <==> (n == e.txMax && e.txMax as int - (if e.initiator then 1 else 0) > 0) ||
                                (e.ctl.complete && e.ctl.txCntComplete >= N_TX_COMPLETE)) &&
      (e'.ctl.state != Off ==> e'.ctl.state == Waiting) &&
      (e'.ctl.state == Off ==> !e'.tmo.armed) &&
      e'.ctl.rxCnt == e.ctl.rxCnt && e'.packet == e.packet && e'.data == e.data
  {
  }

  /** The initiator with tx_max = 1 does not stop at its first transmission's end for that reason. */
  lemma InitiatorSingleTx(e: Engine, capture: u16)
    requires e.initiator && e.txMax == 1 && e.ctl.txCnt == 0 && !e.ctl.complete
    ensures EndTx(e, capture).ctl.state == Waiting
  {
  }

  // ------------------------------------------------------------ backoff

  /**
   * radio_start_tx arms the timeout exactly when a slot length is known, for
   * a random 3 to 7 slots, as a 32-bit duration with its wrapped stop time.
   */
  lemma StartTxArms(e: Engine, c: TxClocks)
    ensures var e' := StartTx(e, c);
      e'.tmo.tTimeoutStart == c.dcoStart &&
      (e.win.tSlot != 0 ==>
        e'.tmo.armed && MIN_SLOTS_TIMEOUT <= e'.tmo.nSlotsTimeout <= MAX_SLOTS_TIMEOUT &&
        e'.tmo.tTimeoutH == e'.tmo.nSlotsTimeout * e.win.tSlot &&
        e'.tmo.tbccr4 == e'.tmo.tTimeoutStop == Wrap16(c.dcoStart + e'.tmo.tTimeoutH) &&
        (e'.tmo.tTimeoutH < 0x1_0000 ==> e'.tmo.nTimeoutWait == 0) &&
        e'.tmo.nTimeoutWait < MAX_SLOTS_TIMEOUT) &&
      (e.win.tSlot == 0 ==> e'.tmo == e.tmo.(tTimeoutStart := c.dcoStart)) &&
      e'.ctl == e.ctl && e'.packet == e.packet
  {
  }

  /** The timeout fires after the remaining overflows plus the wrapped distance: the planned duration in all. */
  lemma {:induction false} StartTxOnTime(e: Engine, c: TxClocks)
    requires e.win.tSlot != 0
    ensures var t := StartTx(e, c).tmo;
      var elapsed := Wrap16(c.dcoLater - c.dcoStart);
      (t.tTimeoutH >= 0x1_0000 ==> t.nTimeoutWait * 0x1_0000 + Wrap16(t.tTimeoutStop - c.dcoLater) == t.tTimeoutH - elapsed) &&
      (t.tTimeoutH < 0x1_0000 ==> Wrap16(t.tTimeoutStop - c.dcoStart) == t.tTimeoutH)
  {
    var p := PlanTimeout(e.win.tSlot, c);
    var t := StartTx(e, c).tmo;
    assert t.tTimeoutH == p.duration && t.tTimeoutStop == p.tStop && t.nTimeoutWait == p.nWait;
    TimeoutOnTime(e.win.tSlot, c);
  }

  /**
   * The backoff branch: while overflows remain it only counts them down; in
   * WAITING it rebuilds the packet from the local record with the timeout's
   * relay counter and a header that says whether this is the initiator's
   * first transmission, queues it, and enters RECEIVED; otherwise it stops.
   */
  lemma TimeoutOutcome(e: Engine, c: TxClocks)
    requires Sized(e)
    ensures var e' := TimeoutFired(e, c);
      Sized(e') &&
      (e.tmo.nTimeoutWait > 0 ==> e' == e.(tmo := e.tmo.(nTimeoutWait := e.tmo.nTimeoutWait - 1))) &&
      (e.tmo.nTimeoutWait == 0 && e.ctl.state == Waiting ==>
        var first := e.initiator && e.ctl.rxCnt == 0;
        e'.ctl.state == Received && e'.packet[LEN_FIELD] == PL &&
        e'.packet[HEADER_FIELD] == (if first then CHAOS_HEADER else CHAOS_HEADER + 1) &&
        e'.packet[RELAY_CNT_FIELD] == e.tmo.relayCntTimeout &&
        PacketData(e'.packet) == e.data && e'.txFifo == e'.packet[..PL - 1] &&
        e'.ctl.estimateLength == (first && e.ctl.estimateLength) &&
        e'.tmo.tTimeoutStart == c.dcoStart && e'.data == e.data && e'.ctl.rxCnt == e.ctl.rxCnt) &&
      (e.tmo.nTimeoutWait == 0 && e.ctl.state != Waiting ==> e' == StopTimeout(e))
  {
    if e.tmo.nTimeoutWait == 0 && e.ctl.state == Waiting {
      var e1 := TimeoutHeader(StartTx(e, c));
      TimeoutPacketLayout(e1.packet, e.tmo.relayCntTimeout, e.data);
      var e' := TimeoutFired(e, c);
      assert e'.packet[..BYTES_TIMEOUT_FIELD] + e'.packet[BYTES_TIMEOUT_FIELD..PL - 1] == e'.packet[..PL - 1];
    }
  }

  /** The two-part copy of the timeout branch leaves the whole record in the data field. */
  lemma TimeoutPacketLayout(p: seq<u8>, relay: u8, data: seq<u8>)
    requires |p| == PL + 1 && |data| == DATA_LEN
    ensures var q := TimeoutPacket(p, relay, data);
      q[LEN_FIELD] == p[LEN_FIELD] && q[HEADER_FIELD] == p[HEADER_FIELD] && q[RELAY_CNT_FIELD] == relay &&
      PacketData(q) == data && q[RSSI_FIELD..] == p[RSSI_FIELD..]
  {
    var q := TimeoutPacket(p, relay, data);
    assert PacketData(q) == q[DATA_FIELD..BYTES_TIMEOUT_FIELD] + q[BYTES_TIMEOUT_FIELD..DATA_FIELD + DATA_LEN];
    assert data == data[..BYTES_TIMEOUT] + data[BYTES_TIMEOUT..];
  }

  // ------------------------------------------------------------ invariant

  lemma BeginRxInv(e: Engine, capture: u16, fifo: seq<u8>)
    requires Inv(e)
    ensures Inv(BeginRx(e, capture, fifo))
  {
    BeginRxOutcome(e, capture, fifo);
  }

  lemma EstimateInv(e: Engine, tNew: u16)
    requires Core(e)
    ensures Core(EstimateSlotLength(e, tNew))
  {
    if SampleApplies(e) {
      var p := SlotIntervals(e.cap.tRxStop, e.cap.tTxStart, e.cap.tTxStop, e.cap.tRxStart, tNew);
      WindowAddOk(e.win, SlotSample(p));
    }
  }

  /** chaos_end_rx keeps the invariant and never leaves the node RECEIVING. */
  lemma EndRxInv(e: Engine, lfNow: u16)
    requires Core(e)
    ensures Inv(EndRx(e, lfNow)) && EndRx(e, lfNow).ctl.state != Receiving
  {
    if e.ctl.tx {
      var e2 := StopOrQueue(BumpRelay(e));
      StopOrQueueFacts(BumpRelay(e));
      AcceptReceptionFacts(e2, lfNow, e.cap.tbccr1);
    }
  }

  lemma StartTxCore(e: Engine, c: TxClocks)
    requires Core(e)
    ensures Core(StartTx(e, c)) && StartTx(e, c).ctl == e.ctl
  {
  }

  lemma EndOfFrameInv(e: Engine, capture: u16, tail: seq<u8>, dcoNow: u16, c: TxClocks, lfNow: u16)
    requires Core(e) && |tail| == PL + 1 - RX_HEAD
    ensures Inv(EndOfFrame(e, capture, tail, dcoNow, c, lfNow))
  {
    FrameOutcomeCore(e, capture, tail, dcoNow, c);
    EndRxInv(FrameOutcome(e, capture, tail, dcoNow, c), lfNow);
  }

  lemma BeginTxInv(e: Engine, capture: u16, capH: u16, capL: u16)
    requires Inv(e)
    ensures Inv(BeginTx(e, capture, capH, capL))
  {
  }

  lemma EndTxInv(e: Engine, capture: u16)
    requires Inv(e)
    ensures Inv(EndTx(e, capture))
  {
  }

  lemma TimeoutInv(e: Engine, c: TxClocks)
    requires Inv(e)
    ensures Inv(TimeoutFired(e, c))
  {
    if e.tmo.nTimeoutWait == 0 && e.ctl.state == Waiting {
      StartTxCore(e, c);
    }
  }

  /** Every interrupt keeps the invariant: sizes, a non-overflowing window, offsets below CLOCK_PHI, RECEIVING only with the head read. */
  lemma {:induction false} InterruptInv(e: Engine, sfd: bool, ccr4: bool, hw: Readings)
    requires Inv(e) && ReadingsFit(e, sfd, hw)
    ensures Inv(Interrupt(e, sfd, ccr4, hw))
  {
    InterruptDispatch(e, sfd, ccr4, hw);
    match Dispatch(e.ctl.state, sfd, ccr4)
    case EndOfFrameEv => EndOfFrameInv(e, hw.capture, hw.tail, hw.dcoNow, hw.clocks, hw.lfNow);
    case BeginRxEv => BeginRxInv(e, hw.capture, hw.fifo);
    case BeginTxEv => BeginTxInv(e, hw.capture, hw.capH, hw.capL);
    case EndTxEv => EndTxInv(e, hw.capture);
    case ResumeEv =>
    case TimeoutEv => TimeoutInv(e, hw.clocks);
    case ResyncEv =>
    case IgnoreEv =>
  }

  /** chaos_start and chaos_stop keep the invariant too. */
  lemma StartStopInv(e: Engine, data: seq<u8>, initiator: bool, txMax: u8, c: TxClocks)
    requires Inv(e) && |data| == DATA_LEN
    ensures Inv(Start(e, data, initiator, txMax, c)) && Inv(Stop(e))
  {
  }

  // ------------------------------------------------------------ round-long facts

  /** rx_cnt changes only at the end of a frame that is relayed. */
  lemma {:induction false} RxCountOnlyOnRelay(e: Engine, sfd: bool, ccr4: bool, hw: Readings)
    requires Inv(e) && ReadingsFit(e, sfd, hw)
    ensures var e' := Interrupt(e, sfd, ccr4, hw);
      e'.ctl.rxCnt != e.ctl.rxCnt ==>
        Dispatch(e.ctl.state, sfd, ccr4) == EndOfFrameEv && e'.data == PacketData(e'.packet)
  {
    InterruptDispatch(e, sfd, ccr4, hw);
    match Dispatch(e.ctl.state, sfd, ccr4)
    case EndOfFrameEv => RxCountEndOfFrame(e, hw.capture, hw.tail, hw.dcoNow, hw.clocks, hw.lfNow);
    case BeginRxEv => BeginRxOutcome(e, hw.capture, hw.fifo);
    case BeginTxEv =>
    case EndTxEv =>
    case ResumeEv =>
    case TimeoutEv => TimeoutOutcome(e, hw.clocks);
    case ResyncEv =>
    case IgnoreEv =>
  }

  lemma RxCountEndOfFrame(e: Engine, capture: u16, tail: seq<u8>, dcoNow: u16, c: TxClocks, lfNow: u16)
    requires Sized(e) && |tail| == PL + 1 - RX_HEAD
    ensures var e' := EndOfFrame(e, capture, tail, dcoNow, c, lfNow);
      e'.ctl.rxCnt != e.ctl.rxCnt ==> e'.data == PacketData(e'.packet)
  {
    var e3 := FrameOutcome(e, capture, tail, dcoNow, c);
    if e3.ctl.tx { EndRxRelays(e3, lfNow); } else { EndRxWithoutTx(e3, lfNow); }
  }

  /**
   * No interrupt turns slot estimation back on or forgets that the reference
   * time was computed: only chaos_start resets them, so both happen at most
   * once per round.
   */
  lemma {:induction false} InterruptMonotone(e: Engine, sfd: bool, ccr4: bool, hw: Readings)
    requires Inv(e) && ReadingsFit(e, sfd, hw)
    ensures var e' := Interrupt(e, sfd, ccr4, hw);
      (e'.ctl.estimateLength ==> e.ctl.estimateLength) && (e.refUpdated ==> e'.refUpdated && e'.ref == e.ref)
  {
    InterruptDispatch(e, sfd, ccr4, hw);
    match Dispatch(e.ctl.state, sfd, ccr4)
    case EndOfFrameEv => EndOfFrameMonotone(e, hw.capture, hw.tail, hw.dcoNow, hw.clocks, hw.lfNow);
    case BeginRxEv => BeginRxFrame(e, hw.capture, hw.fifo);
    case BeginTxEv => BeginTxOutcome(e, hw.capture, hw.capH, hw.capL);
    case EndTxEv => EndTxOutcome(e, hw.capture);
    case ResumeEv =>
    case TimeoutEv => TimeoutOutcome(e, hw.clocks);
    case ResyncEv =>
    case IgnoreEv =>
  }

  lemma EndRxMonotone(e: Engine, lfNow: u16)
    requires Sized(e)
    ensures var e' := EndRx(e, lfNow);
      (e'.ctl.estimateLength ==> e.ctl.estimateLength) && e'.refUpdated == e.refUpdated && e'.ref == e.ref
  {
    if e.ctl.tx {
      StopOrQueueFacts(BumpRelay(e));
      AcceptReceptionFacts(StopOrQueue(BumpRelay(e)), lfNow, e.cap.tbccr1);
    }
  }

  lemma EndOfFrameMonotone(e: Engine, capture: u16, tail: seq<u8>, dcoNow: u16, c: TxClocks, lfNow: u16)
    requires Sized(e) && |tail| == PL + 1 - RX_HEAD
    ensures var e' := EndOfFrame(e, capture, tail, dcoNow, c, lfNow);
      (e'.ctl.estimateLength ==> e.ctl.estimateLength) && e'.refUpdated == e.refUpdated && e'.ref == e.ref
  {
    FrameOutcomeFacts(e, capture, tail, dcoNow, c);
    EndRxMonotone(FrameOutcome(e, capture, tail, dcoNow, c), lfNow);
  }

  /** No interrupt clears a bit of the local flags: the record only ever gains nodes during a round. */
  lemma {:induction false} InterruptKeepsFlags(e: Engine, sfd: bool, ccr4: bool, hw: Readings, i: nat, k: nat)
    requires Inv(e) && ReadingsFit(e, sfd, hw) && i < MERGE_LEN
    requires Bit(LocalFlags(e.data)[i], k)
    ensures Bit(LocalFlags(Interrupt(e, sfd, ccr4, hw).data)[i], k)
  {
    InterruptDispatch(e, sfd, ccr4, hw);
    match Dispatch(e.ctl.state, sfd, ccr4)
    case EndOfFrameEv => EndOfFrameKeepsFlags(e, hw.capture, hw.tail, hw.dcoNow, hw.clocks, hw.lfNow, i, k);
    case BeginRxEv => BeginRxOutcome(e, hw.capture, hw.fifo);
    case BeginTxEv =>
    case EndTxEv =>
    case ResumeEv =>
    case TimeoutEv => TimeoutOutcome(e, hw.clocks);
    case ResyncEv =>
    case IgnoreEv =>
  }

  lemma EndOfFrameKeepsFlags(e: Engine, capture: u16, tail: seq<u8>, dcoNow: u16, c: TxClocks, lfNow: u16, i: nat, k: nat)
    requires Sized(e) && |tail| == PL + 1 - RX_HEAD && i < MERGE_LEN
    requires Bit(LocalFlags(e.data)[i], k)
    ensures Bit(LocalFlags(EndOfFrame(e, capture, tail, dcoNow, c, lfNow).data)[i], k)
  {
    var e3 := FrameOutcome(e, capture, tail, dcoNow, c);
    FrameOutcomeFacts(e, capture, tail, dcoNow, c);
    if e3.ctl.tx {
      EndRxRelays(e3, lfNow);
      FlagsOfData(e3.packet);
    } else {
      EndRxWithoutTx(e3, lfNow);
    }
  }

  // ------------------------------------------------------------ main interface

  /**
   * chaos_start zeroes the round counters, clears completion and the reference
   * flag, turns estimation on, writes length, header and a zero relay counter,
   * and enters RECEIVED (initiator, record in the packet and queued) or
   * WAITING (receiver).
   */
  lemma StartOutcome(e: Engine, data: seq<u8>, initiator: bool, txMax: u8, c: TxClocks)
    requires Sized(e) && |data| == DATA_LEN
    ensures var e' := Start(e, data, initiator, txMax, c);
      e'.ctl.txCnt == 0 && e'.ctl.rxCnt == 0 && e'.ctl.txCntComplete == 0 && !e'.ctl.complete &&
      e'.ctl.estimateLength && !e'.refUpdated && e'.data == data && e'.txMax == txMax && e'.initiator == initiator &&
      e'.packet[LEN_FIELD] == PL && e'.packet[HEADER_FIELD] == CHAOS_HEADER && e'.packet[RELAY_CNT_FIELD] == 0 &&
      (initiator ==> e'.ctl.state == Received && PacketData(e'.packet) == data && e'.txFifo == e'.packet[..PL - 1]) &&
      (!initiator ==> e'.ctl.state == Waiting && PacketData(e'.packet) == PacketData(e.packet))
  {
    Sizes();
  }

  /** chaos_stop turns the node OFF with the timeout stopped and keeps rx_cnt for the caller. */
  lemma StopOutcome(e: Engine)
    ensures var e' := Stop(e);
      e'.ctl.state == Off && !IsOn(e'.ctl.state) && !e'.tmo.armed && e'.ctl.rxCnt == e.ctl.rxCnt && e'.data == e.data
  {
  }
}
