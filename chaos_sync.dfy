/**
 * The integer arithmetic behind Chaos synchronisation, on values: the slot
 * length sample taken from one transmit/receive cycle, the moving window that
 * averages the samples, the reference time derived from the relay counter,
 * and the plan of the backoff timeout. All clocks are 16-bit and wrap; the
 * C types are kept (rtimer_clock_t = u16, unsigned long = u32).
 */
module ChaosSync {
  import opened Bytes
  import opened ChaosHeader

  // ------------------------------------------------------------ slot sample

  /** The four intervals of one slot pair, each a 16-bit clock difference. */
  datatype SlotParts = SlotParts(wRt: u16, tx: u16, wTr: u16, rx: u16)

  function SlotIntervals(tRxStop: u16, tTxStart: u16, tTxStop: u16, tRxStart: u16, tRxStopNew: u16): (p: SlotParts)
    ensures Wrap16(tRxStop + p.wRt) == tTxStart
    ensures Wrap16(tTxStart + p.tx) == tTxStop
    ensures Wrap16(tTxStop + p.wTr) == tRxStart
    ensures Wrap16(tRxStart + p.rx) == tRxStopNew
  {
    DiffAddBack(tRxStop, tTxStart);
    DiffAddBack(tTxStart, tTxStop);
    DiffAddBack(tTxStop, tRxStart);
    DiffAddBack(tRxStart, tRxStopNew);
    SlotParts(Wrap16(tTxStart - tRxStop), Wrap16(tTxStop - tTxStart),
              Wrap16(tRxStart - tTxStop), Wrap16(tRxStopNew - tRxStart))
  }

  /** Largest possible sample: four maximal 16-bit intervals, halved. */
  const SAMPLE_MAX: nat := (4 * 0xFFFF) / 2

  /** (T_tx + T_w_tr + T_rx + T_w_rt) / 2, computed in 32 bits. */
  /** Adding the 16-bit difference b - a to a gives b. */
  lemma DiffAddBack(a: u16, b: u16)
    ensures Wrap16(a + Wrap16(b - a)) == b
  {
    if b >= a {
      assert Wrap16(b - a) == b - a;
    } else {
      assert Wrap16(b - a) == b - a + 0x1_0000;
    }
  }

  function SlotSample(p: SlotParts): (s: u32)
    ensures s <= SAMPLE_MAX
    ensures 2 * s <= p.tx + p.wTr + p.rx + p.wRt <= 2 * s + 1
  {
    (p.tx + p.wTr + p.rx + p.wRt) / 2
  }

  /**
   * The four intervals telescope: together they span, modulo 2^16, exactly
   * the time from the previous reception's end to this reception's end, i.e.
   * two slots; the sample is therefore one slot.
   */
  lemma {:induction false} SlotIntervalsTelescope(tRxStop: u16, tTxStart: u16, tTxStop: u16, tRxStart: u16, tRxStopNew: u16)
    ensures var p := SlotIntervals(tRxStop, tTxStart, tTxStop, tRxStart, tRxStopNew);
      Wrap16(p.wRt + p.tx + p.wTr + p.rx) == Wrap16(tRxStopNew - tRxStop)
  {
    var p := SlotIntervals(tRxStop, tTxStart, tTxStop, tRxStart, tRxStopNew);
    var a, b, c, d := tTxStart - tRxStop, tTxStop - tTxStart, tRxStart - tTxStop, tRxStopNew - tRxStart;
    assert p.wRt == Wrap16(a) && p.tx == Wrap16(b) && p.wTr == Wrap16(c) && p.rx == Wrap16(d);
    assert a + b + c + d == tRxStopNew - tRxStop;
    ModSum(a, b, c, d);
  }

  lemma ModSum(a: int, b: int, c: int, d: int)
    ensures Wrap16(Wrap16(a) + Wrap16(b) + Wrap16(c) + Wrap16(d)) == Wrap16(a + b + c + d)
  {
    var M := 0x1_0000;
    var qa, qb, qc, qd := a / M, b / M, c / M, d / M;
    assert a == qa * M + Wrap16(a);
    assert b == qb * M + Wrap16(b);
    assert c == qc * M + Wrap16(c);
    assert d == qd * M + Wrap16(d);
    var s := Wrap16(a) + Wrap16(b) + Wrap16(c) + Wrap16(d);
    assert a + b + c + d == s + (qa + qb + qc + qd) * M;
    ModShift(s, qa + qb + qc + qd);
  }

  lemma ModShift(s: int, q: int)
    ensures Wrap16(s + q * 0x1_0000) == Wrap16(s)
  {
    var M := 0x1_0000;
    var t := s / M;
    assert s == t * M + Wrap16(s);
    assert s + q * M == (t + q) * M + Wrap16(s);
  }

  // ---------------------------------------------------------- slot window

  /** The moving-window state: running sum, number of samples, current estimate. */
  datatype Window = Window(sum: u32, count: u8, tSlot: u16)

  /** The window does not overflow its 32-bit sum: every sample is at most SAMPLE_MAX. */
  predicate WindowOk(w: Window)
  {
    w.count < CHAOS_SYNC_WINDOW && w.sum <= w.count * SAMPLE_MAX
  }

  /**
   * Add one sample: the sum grows, and at the 32nd sample the estimate
   * becomes the average and sum and count are halved; the very first sample
   * seeds the estimate.
   */
  function WindowAdd(w: Window, sample: u32): (w': Window)
    ensures w'.count == Wrap8(w.count + 1) / (if Wrap8(w.count + 1) == CHAOS_SYNC_WINDOW then 2 else 1)
    ensures Wrap8(w.count + 1) == CHAOS_SYNC_WINDOW ==>
      w'.tSlot == Wrap16(Wrap32(w.sum + sample) / CHAOS_SYNC_WINDOW) && w'.sum == Wrap32(w.sum + sample) / 2
    ensures Wrap8(w.count + 1) == 1 ==> w'.tSlot == Wrap16(sample)
    ensures Wrap8(w.count + 1) != CHAOS_SYNC_WINDOW ==> w'.sum == Wrap32(w.sum + sample)
    ensures 1 < Wrap8(w.count + 1) < CHAOS_SYNC_WINDOW ==> w'.tSlot == w.tSlot
  {
    var sum := Wrap32(w.sum + sample);
    var count := Wrap8(w.count + 1);
    if count == CHAOS_SYNC_WINDOW then
      Window(sum / 2, count / 2, Wrap16(sum / CHAOS_SYNC_WINDOW))
    else if count == 1 then
      Window(sum, count, Wrap16(sample))
    else
      Window(sum, count, w.tSlot)
  }

  /** The window count stays below 32 and the 32-bit sum never wraps. */
  lemma WindowAddOk(w: Window, sample: u32)
    requires WindowOk(w) && sample <= SAMPLE_MAX
    ensures WindowOk(WindowAdd(w, sample))
    ensures w.sum + sample < 0x1_0000_0000
  {
    var c := w.count + 1;
    var sum := w.sum + sample;
    assert sum <= c * SAMPLE_MAX;
    assert Wrap8(c) == c && Wrap32(sum) == sum;
    if c == CHAOS_SYNC_WINDOW {
      assert sum / 2 <= 16 * SAMPLE_MAX;
    }
  }

  /**
   * A steady slot length is found: if every sample so far was s, the sum is
   * count * s, and after the next sample s the estimate is s whenever it is
   * updated (first sample, or the averaging at 32).
   */
  lemma {:induction false} WindowConverges(w: Window, s: u32)
    requires WindowOk(w) && s <= SAMPLE_MAX && s < 0x1_0000 && w.sum == w.count * s
    ensures var w' := WindowAdd(w, s);
      w'.sum == w'.count * s &&
      (w.count + 1 == CHAOS_SYNC_WINDOW || w.count == 0 ==> w'.tSlot == s)
  {
    WindowAddOk(w, s);
    var c: nat := w.count;
    assert Wrap8(c + 1) == c + 1;
    assert Wrap32(w.sum + s) == w.sum + s;
    if c + 1 == CHAOS_SYNC_WINDOW {
      assert w.sum + s == 32 * s;
    } else {
      assert w.sum + s == c * s + s == (c + 1) * s;
    }
  }

  // ------------------------------------------------------- reference time

  /** The result of compute_sync_reference_time. */
  datatype Reference = Reference(tRefL: u16, tOffsetH: u16, relayCnt: u8)

  /** DCO ticks from the reference time (start of the initiator's first transmission) to the capture. */
  function RefToCapH(relayField: u8, tSlot: u16, tRxStart: u16, capH: u16): u32
  {
    Wrap32(Wrap32((relayField - 1) * tSlot) + Wrap16(capH - tRxStart))
  }

  /**
   * The low-frequency reference and high-frequency offset for a delay of h
   * DCO ticks before the low-frequency capture capL: the delay rounded up to
   * whole low-frequency ticks (one more than h / CLOCK_PHI) is subtracted.
   */
  function RefFromDelay(h: u32, capL: u16): (r: (u16, u16))
    ensures r.1 < CLOCK_PHI
    ensures Wrap16(r.0 + 1 + h / CLOCK_PHI) == capL
    ensures h + r.1 + 1 == CLOCK_PHI * (h / CLOCK_PHI + 1)
  {
    WrapAddBack(capL, 1 + h / CLOCK_PHI);
    (Wrap16(capL - Wrap16(1 + h / CLOCK_PHI)), (CLOCK_PHI - 1) - h % CLOCK_PHI)
  }

  /**
   * A packet with relay counter c was sent c - 1 slots after the reference
   * time; the reference is the captured low-frequency tick minus that delay,
   * rounded up by one low-frequency tick, plus a high-frequency offset.
   */
  function ReferenceTime(relayField: u8, tSlot: u16, tRxStart: u16, capH: u16, capL: u16): (r: Reference)
    ensures r.tOffsetH < CLOCK_PHI
    ensures r.relayCnt == Wrap8(relayField - 1)
    ensures var h := RefToCapH(relayField, tSlot, tRxStart, capH);
      Wrap16(r.tRefL + 1 + h / CLOCK_PHI) == capL &&
      h + r.tOffsetH + 1 == CLOCK_PHI * (h / CLOCK_PHI + 1)
  {
    var t := RefFromDelay(RefToCapH(relayField, tSlot, tRxStart, capH), capL);
    Reference(t.0, t.1, Wrap8(relayField - 1))
  }

  /** Subtracting a value modulo 2^16 and adding it back gives the original clock. */
  lemma WrapAddBack(c: u16, x: int)
    ensures Wrap16(Wrap16(c - Wrap16(x)) + x) == c
  {
    var M := 0x1_0000;
    var a := c - Wrap16(x);
    assert x == (x / M) * M + Wrap16(x);
    assert Wrap16(a) + x == (a - (a / M) * M) + x;
    assert (a - (a / M) * M) + x == c + (x / M - a / M) * M;
    ModShift(c, x / M - a / M);
  }

  /** With a relay counter of zero (time of the reference itself), the delay wraps around 2^32. */
  lemma RelayZeroWraps(tSlot: u16)
    requires tSlot > 0
    ensures Wrap32((0 - 1) * tSlot) == 0x1_0000_0000 - tSlot
  {
  }

  // -------------------------------------------------------- backoff timeout

  /** The clock readings radio_start_tx and chaos_schedule_timeout take, in order. */
  datatype TxClocks = TxClocks(dcoStart: u16, lfNow: u16, dcoNow: u16, dcoLater: u16)

  /** The armed timeout: slots to wait, total duration, compare value and extra wrap-arounds. */
  datatype TimeoutPlan = TimeoutPlan(nSlots: u8, duration: u32, tStop: u16, nWait: u16)

  /**
   * The extra wrap-arounds to wait for a duration of 2^16 or more, with the
   * guard that maps 0xffff to 0.
   */
  function WaitCount(duration: u32, elapsed: u16): (n: u16)
    requires duration >= 0x1_0000 && duration <= MAX_SLOTS_TIMEOUT * 0xFFFF
    ensures n == (duration - elapsed) / 0x1_0000 && n <= MAX_SLOTS_TIMEOUT - 1
  {
    var n := Wrap16(Wrap32(duration - elapsed) / 0x1_0000);
    if n == 0xFFFF then 0 else n
  }

  /** chaos_schedule_timeout on a non-zero slot length. */
  function PlanTimeout(tSlot: u16, c: TxClocks): (p: TimeoutPlan)
    requires tSlot > 0
    ensures MIN_SLOTS_TIMEOUT <= p.nSlots <= MAX_SLOTS_TIMEOUT
    ensures p.duration == p.nSlots * tSlot
    ensures Wrap16(c.dcoStart + p.duration) == p.tStop
    ensures p.duration < 0x1_0000 ==> p.nWait == 0
    ensures p.duration >= 0x1_0000 ==> p.nWait == (p.duration - Wrap16(c.dcoLater - c.dcoStart)) / 0x1_0000
    ensures p.nWait <= MAX_SLOTS_TIMEOUT - 1
  {
    var nSlots: u8 := MIN_SLOTS_TIMEOUT + Wrap16(c.lfNow + c.dcoNow) % (MAX_SLOTS_TIMEOUT - MIN_SLOTS_TIMEOUT + 1);
    MulBound(nSlots, tSlot);
    var duration: u32 := nSlots * tSlot;
    var tStop := Wrap16(c.dcoStart + duration);
    if duration / 0x1_0000 != 0 then
      TimeoutPlan(nSlots, duration, tStop, WaitCount(duration, Wrap16(c.dcoLater - c.dcoStart)))
    else
      TimeoutPlan(nSlots, duration, tStop, 0)
  }

  /**
   * The timeout expires on time: counting nWait full wrap-arounds of the
   * 16-bit timer plus the distance from the reading to the compare value gives
   * exactly the duration still to go. The 0xffff guard never applies.
   */
  lemma {:induction false} TimeoutOnTime(tSlot: u16, c: TxClocks)
    requires tSlot > 0
    ensures var p := PlanTimeout(tSlot, c);
      var elapsed := Wrap16(c.dcoLater - c.dcoStart);
      (p.duration >= 0x1_0000 ==>
        p.nWait * 0x1_0000 + Wrap16(p.tStop - c.dcoLater) == p.duration - elapsed) &&
      (p.duration < 0x1_0000 ==> Wrap16(p.tStop - c.dcoStart) == p.duration)
  {
    var p := PlanTimeout(tSlot, c);
    var elapsed := Wrap16(c.dcoLater - c.dcoStart);
    if p.duration >= 0x1_0000 {
      var rest := p.duration - elapsed;
      assert Wrap16(p.tStop - c.dcoLater) == Wrap16(rest) by {
        ShiftedDifference(c.dcoStart, p.duration, c.dcoLater);
      }
    } else {
      WrapAddBack2(c.dcoStart, p.duration);
    }
  }

  lemma MulBound(n: nat, t: u16)
    requires n <= MAX_SLOTS_TIMEOUT
    ensures n * t <= MAX_SLOTS_TIMEOUT * 0xFFFF
  {
  }

  lemma ShiftedDifference(s: u16, d: int, l: u16)
    ensures Wrap16(Wrap16(s + d) - l) == Wrap16(d - Wrap16(l - s))
  {
    var M := 0x1_0000;
    var a := s + d;
    var b := l - s;
    assert a == (a / M) * M + Wrap16(a);
    assert b == (b / M) * M + Wrap16(b);
    assert Wrap16(a) - l == (d - Wrap16(b)) + (-(b / M) - a / M) * M;
    ModShift(d - Wrap16(b), -(b / M) - a / M);
  }

  lemma WrapAddBack2(s: u16, d: u16)
    ensures Wrap16(Wrap16(s + d) - s) == d
  {
    var M := 0x1_0000;
    var a := s + d;
    assert a == (a / M) * M + Wrap16(a);
    ModShift(d, -(a / M));
  }
}
