/**
 * The chaos-test round scheduler (chaos-test.c). The protothread becomes an
 * explicit continuation: each invocation by the rtimer either starts a Chaos
 * phase or ends it, per role. What the engine computed during the phase (its
 * reference time and whether it was updated) is an input; the calls back into
 * the engine (chaos_start/chaos_stop, set_t_ref_l) and the rtimer_set /
 * rtimer_set_long that schedules the next invocation are returned as a Step.
 * The record passed to the engine, chaos_data, is a byte array laid out as on
 * the msp430: a little-endian 32-bit sequence number, the flags, the payload.
 */
module ChaosScheduler {
  import opened Bytes
  import opened ChaosTestConfig
  import opened FlagMerge
  import opened Rtimer
  import Chaos

  /** The engine's t_ref_l and t_ref_l_updated, as read by the scheduler. */
  datatype Reference = Reference(tRef: u16, updated: bool)

  /** rtimer_set(t, time) or rtimer_set_long(t, ref, offset). */
  datatype Alarm = At(time: u16) | Long(ref: u16, offset: u32)

  /** The compare time the rtimer stores for an alarm (rtimer_set_long adds the offset in 16 bits). */
  function AlarmTime(a: Alarm): (t: u16)
    ensures a.At? ==> t == a.time
    ensures a.Long? ==> t == Wrap16(a.ref + a.offset)
  {
    match a
    case At(t) => t
    case Long(r, o) => Wrap16(r + o)
  }

  /**
   * The rtimer_set or rtimer_set_long that an alarm stands for, on the
   * scheduler's timer `rt` with the callback `func` (chaos_scheduler) and its
   * argument; `now` is the RTIMER_NOW() that rtimer_set_long reads. The
   * scheduler runs as the callback of rtimer_run_next, which has emptied the
   * slot before calling it, so there the timer becomes the pending one, due
   * at AlarmTime(a).
   */
  method ArmAlarm(timers: Rtimers, rt: Timer, a: Alarm, func: nat, ptr: nat, now: u16)
    modifies timers, rt
    ensures old(timers.next) == null ==>
      timers.next == rt && rt.time == AlarmTime(a) && timers.compare == AlarmTime(a) &&
      rt.func == func && rt.ptr == ptr
    ensures old(timers.next) == null && a.Long? ==>
      rt.overflowsToGo == LongOverflows(a.offset, Wrap16(now - a.ref))
    ensures a.At? ==> timers.next == rt && rt.time == a.time && rt.overflowsToGo == 0
    ensures old(timers.next) != null && a.Long? ==>
      timers.next == old(timers.next) && timers.compare == old(timers.compare) && unchanged(rt)
  {
    match a
    case At(t) => timers.Set(rt, t, func, ptr);
    case Long(r, o) => timers.SetLong(rt, r, o, func, ptr, now);
  }

  /** Where the protothread continues at its next invocation. */
  datatype Resume = PhaseStart | PhaseEnd

  datatype EngineCall = ChaosStart(initiator: bool, txMax: u8) | ChaosStop

  /**
   * What one invocation does outside the scheduler: the engine call, the
   * reference time it forces (set_t_ref_l followed by set_t_ref_l_updated(1)),
   * the next alarm, and whether it polls the statistics process.
   */
  datatype Step = Step(call: EngineCall, setRef: Option<u16>, alarm: Alarm, poll: bool)

  /** The scheduling statics of chaos-test.c, the protothread position and the timer's time field. */
  datatype Sched = Sched(resume: Resume, timerTime: u16, tRefLOld: u16, skewEstimated: u8,
                         syncMissed: u8, tStart: u16, periodSkew: i16)

  datatype Outcome = Outcome(sched: Sched, step: Step)

  const Idle: Sched := Sched(PhaseStart, 0, 0, 0, 0, 0, 0)

  /**
   * The scheduler's invariant: the bootstrap counter stops at
   * CHAOS_BOOTSTRAP_PERIODS, and no phase is counted as missed before the
   * bootstrap is over.
   */
  predicate Inv(s: Sched)
  {
    s.skewEstimated <= CHAOS_BOOTSTRAP_PERIODS &&
    (IsBootstrapping(s.skewEstimated) ==> s.syncMissed == 0)
  }

  /** The reference after the scheduler's own set_t_ref_l, if any. */
  function Applied(ref: Reference, setRef: Option<u16>): (r: Reference)
    ensures setRef.None? ==> r == ref
    ensures setRef.Some? ==> r == Reference(setRef.value, true)
  {
    match setRef
    case None => ref
    case Some(t) => Reference(t, true)
  }

  /** The engine's reference as the scheduler reads it: CHAOS_REFERENCE_TIME and CHAOS_IS_SYNCED(). */
  ghost function EngineReference(engine: Chaos.ChaosEngine): Reference
    reads engine
  {
    Reference(engine.ref.tRefL, engine.refUpdated)
  }

  /**
   * The forced reference of a step, applied to the engine as chaos-test.c
   * does: set_t_ref_l followed by set_t_ref_l_updated(1). The engine's
   * reference becomes Applied(its old reference, setRef), and nothing else in
   * the engine changes.
   */
  method ApplyReference(engine: Chaos.ChaosEngine, setRef: Option<u16>)
    requires engine.Valid()
    modifies engine
    ensures engine.Valid() && engine.packet == old(engine.packet) && engine.data == old(engine.data)
    ensures EngineReference(engine) == Applied(old(EngineReference(engine)), setRef)
    ensures engine.Model() ==
      old(engine.Model()).(ref := old(engine.ref).(tRefL := engine.ref.tRefL), refUpdated := engine.refUpdated)
  {
    if setRef.Some? {
      engine.SetTRefL(setRef.value);
      engine.SetTRefLUpdated(true);
    }
  }

  // ------------------------------------------------------------ skew estimation

  /**
   * The skew over a period: the new reference minus the old one plus
   * CHAOS_PERIOD; the period is cast to rtimer_clock_t first, and the 16-bit
   * unsigned difference is stored into an `int`.
   */
  function PeriodSkew(tRef: u16, tRefOld: u16): i16
  {
    AsInt16(Wrap16(tRef - Wrap16(tRefOld + Wrap16(CHAOS_PERIOD))))
  }

  /** A reference that drifted by d from one period after the old one gives skew d. */
  lemma SkewOfDrift(tRefOld: u16, d: i16)
    ensures PeriodSkew(Wrap16(tRefOld + CHAOS_PERIOD + d), tRefOld) == d
  {
    var M := 0x1_0000;
    assert Wrap16(CHAOS_PERIOD) == 0;
    var x := tRefOld + CHAOS_PERIOD + d;
    Wrap16Shift(x, -(tRefOld as int));
    assert x - tRefOld == d + M;
    ModShiftDown(d + M, 1);
    assert Wrap16(Wrap16(x) - tRefOld) == Wrap16(d);
    if d < 0 {
      assert Wrap16(d) == d + M;
    }
  }

  /**
   * estimate_period_skew: only when the reference time was updated, the skew
   * is recomputed, the new reference becomes the old one, and the bootstrap
   * counter advances while bootstrapping.
   */
  function EstimateSkew(s: Sched, ref: Reference): (r: Sched)
    ensures !ref.updated ==> r == s
    ensures ref.updated ==> r.tRefLOld == ref.tRef && r.periodSkew == PeriodSkew(ref.tRef, s.tRefLOld)
    ensures r.skewEstimated == if ref.updated && IsBootstrapping(s.skewEstimated) then s.skewEstimated + 1
                               else s.skewEstimated
    ensures r.(tRefLOld := s.tRefLOld, periodSkew := s.periodSkew, skewEstimated := s.skewEstimated) == s
  {
    if ref.updated then
      var s1 := s.(periodSkew := PeriodSkew(ref.tRef, s.tRefLOld), tRefLOld := ref.tRef);
      if IsBootstrapping(s1.skewEstimated) then s1.(skewEstimated := s1.skewEstimated + 1) else s1
    else s
  }

  // ------------------------------------------------------------ the two roles

  /** Initiator, start of a phase: the phase ends CHAOS_DURATION after the reference time. */
  function InitiatorBegin(s: Sched, tRef: u16): (o: Outcome)
  {
    var alarm := At(Wrap16(tRef + CHAOS_DURATION));
    Outcome(s.(tStart := s.timerTime, resume := PhaseEnd, timerTime := AlarmTime(alarm)),
            Step(ChaosStart(true, N_TX), None, alarm, false))
  }

  /**
   * Initiator, end of a phase: after the bootstrap, a round without an update
   * moves the reference time on by one period; the next phase begins one
   * period after the reference time.
   */
  function InitiatorFinish(s: Sched, ref: Reference): (o: Outcome)
  {
    var setRef := if !IsBootstrapping(s.skewEstimated) && !ref.updated
                  then Some(Wrap16(ref.tRef + CHAOS_PERIOD)) else None;
    var ref1 := Applied(ref, setRef);
    var alarm := Long(ref1.tRef, CHAOS_PERIOD);
    var s1 := EstimateSkew(s, ref1);
    Outcome(s1.(resume := PhaseStart, timerTime := AlarmTime(alarm)), Step(ChaosStop, setRef, alarm, true))
  }

  /** The extra listening time before the expected reference: one guard time per missed phase, plus one. */
  function Guard(syncMissed: u8): (g: nat)
    ensures CHAOS_GUARD_TIME <= g <= 256 * CHAOS_GUARD_TIME
  {
    CHAOS_GUARD_TIME * (1 + syncMissed)
  }

  /** Receiver, start of a phase: the length of the phase depends on the bootstrap. */
  function ReceiverBegin(s: Sched): (o: Outcome)
  {
    var end := if IsBootstrapping(s.skewEstimated) then Wrap16(s.timerTime + CHAOS_INIT_DURATION)
               else Wrap16(s.timerTime + Guard(s.syncMissed) + CHAOS_DURATION);
    Outcome(s.(resume := PhaseEnd, timerTime := end), Step(ChaosStart(false, N_TX), None, At(end), false))
  }

  /** The receiver's next wake-up, from the statics after the skew estimation. */
  function NextStart(s: Sched, tRef: u16): Alarm
  {
    if IsBootstrapping(s.skewEstimated) then
      if s.skewEstimated == 0 then At(Wrap16(s.timerTime + CHAOS_INIT_PERIOD - CHAOS_INIT_DURATION))
      else Long(tRef, Wrap32(CHAOS_PERIOD - CHAOS_INIT_GUARD_TIME))
    else Long(tRef, Wrap32(CHAOS_PERIOD + s.periodSkew - Guard(s.syncMissed)))
  }

  /**
   * The receiver's counts after a phase: while bootstrapping, a round without
   * an update restarts the skew estimation; after it, the miss count grows
   * by one or is cleared.
   */
  function ReceiverTally(s: Sched, ref: Reference): (s': Sched)
    ensures s' == s.(skewEstimated := s'.skewEstimated, syncMissed := s'.syncMissed)
  {
    if IsBootstrapping(s.skewEstimated) then (if ref.updated then s else s.(skewEstimated := 0))
    else if ref.updated then s.(syncMissed := 0)
    else s.(syncMissed := Wrap8(s.syncMissed + 1))
  }

  /**
   * Receiver, end of a phase. While bootstrapping, a round without an update
   * restarts the count; after it, a miss predicts the reference from the skew
   * and counts the miss, a synchronized round clears the count.
   */
  function ReceiverFinish(s: Sched, ref: Reference): (o: Outcome)
  {
    var boot := IsBootstrapping(s.skewEstimated);
    var s1 := ReceiverTally(s, ref);
    var setRef := if !boot && !ref.updated then Some(Wrap16(ref.tRef + CHAOS_PERIOD + s.periodSkew)) else None;
    var ref1 := Applied(ref, setRef);
    var s2 := EstimateSkew(s1, ref1);
    var alarm := NextStart(s2, ref1.tRef);
    Outcome(s2.(resume := PhaseStart, timerTime := AlarmTime(alarm)), Step(ChaosStop, setRef, alarm, !boot))
  }

  /** One invocation of chaos_scheduler. */
  function Invoke(initiator: bool, s: Sched, ref: Reference): (o: Outcome)
    ensures o.sched.resume != s.resume
    ensures o.step.call == if s.resume == PhaseStart then ChaosStart(initiator, N_TX) else ChaosStop
  {
    match s.resume
    case PhaseStart => if initiator then InitiatorBegin(s, ref.tRef) else ReceiverBegin(s)
    case PhaseEnd => if initiator then InitiatorFinish(s, ref) else ReceiverFinish(s, ref)
  }

  /** A run of invocations, each given what the engine holds at that moment. */
  function Run(initiator: bool, s: Sched, refs: seq<Reference>): Sched
    decreases |refs|
  {
    if refs == [] then s else Run(initiator, Invoke(initiator, s, refs[0]).sched, refs[1..])
  }

  // ------------------------------------------------------------ properties

  /** Every invocation keeps the invariant. */
  lemma InvokeInv(initiator: bool, s: Sched, ref: Reference)
    requires Inv(s)
    ensures Inv(Invoke(initiator, s, ref).sched)
  {
    if s.resume == PhaseEnd && !initiator {
      var boot := IsBootstrapping(s.skewEstimated);
      if !boot {
        assert !IsBootstrapping(ReceiverFinish(s, ref).sched.skewEstimated);
      }
    }
  }

  /** Once the bootstrap is over, no invocation changes the bootstrap counter. */
  lemma InvokeKeepsBootstrapDone(initiator: bool, s: Sched, ref: Reference)
    requires !IsBootstrapping(s.skewEstimated)
    ensures Invoke(initiator, s, ref).sched.skewEstimated == s.skewEstimated
  {
  }

  /** Over any run, the invariant holds throughout. */
  lemma {:induction false} RunInv(initiator: bool, s: Sched, refs: seq<Reference>)
    requires Inv(s)
    ensures Inv(Run(initiator, s, refs))
    decreases |refs|
  {
    if refs != [] {
      InvokeInv(initiator, s, refs[0]);
      RunInv(initiator, Invoke(initiator, s, refs[0]).sched, refs[1..]);
    }
  }

  /** Once the bootstrap is over it is never entered again, whatever the rounds bring. */
  lemma {:induction false} BootstrapNeverReentered(initiator: bool, s: Sched, refs: seq<Reference>)
    requires !IsBootstrapping(s.skewEstimated)
    ensures Run(initiator, s, refs).skewEstimated == s.skewEstimated
    decreases |refs|
  {
    if refs != [] {
      InvokeKeepsBootstrapDone(initiator, s, refs[0]);
      BootstrapNeverReentered(initiator, Invoke(initiator, s, refs[0]).sched, refs[1..]);
    }
  }

  /** A bootstrapping receiver whose phase brought no update starts counting again, and retries soon. */
  lemma BootstrapMissResets(s: Sched, ref: Reference)
    requires IsBootstrapping(s.skewEstimated) && !ref.updated
    ensures ReceiverFinish(s, ref).sched.skewEstimated == 0
    ensures ReceiverFinish(s, ref).step.setRef == None && !ReceiverFinish(s, ref).step.poll
    ensures ReceiverFinish(s, ref).step.alarm == At(Wrap16(s.timerTime + CHAOS_INIT_PERIOD - CHAOS_INIT_DURATION))
  {
  }

  /**
   * An unsynchronized bootstrapping receiver starts a phase every
   * CHAOS_INIT_PERIOD ticks: the phase lasts CHAOS_INIT_DURATION and the pause
   * makes up the rest.
   */
  lemma BootstrapCadence(s: Sched, ref: Reference)
    requires IsBootstrapping(s.skewEstimated) && !ref.updated
    ensures ReceiverFinish(ReceiverBegin(s).sched, ref).sched.timerTime == Wrap16(s.timerTime + CHAOS_INIT_PERIOD)
  {
    Wrap16Shift(s.timerTime + CHAOS_INIT_DURATION, CHAOS_INIT_PERIOD - CHAOS_INIT_DURATION);
  }

  /**
   * A receiver past the bootstrap that missed the reference predicts it one
   * period plus the skew later, forces it as updated and counts the miss; if
   * its old reference was the one it last estimated from, the skew is kept.
   */
  lemma SteadyMiss(s: Sched, ref: Reference)
    requires !IsBootstrapping(s.skewEstimated) && !ref.updated
    ensures ReceiverFinish(s, ref).step.setRef == Some(Wrap16(ref.tRef + CHAOS_PERIOD + s.periodSkew))
    ensures ReceiverFinish(s, ref).sched.syncMissed == Wrap8(s.syncMissed + 1)
    ensures ReceiverFinish(s, ref).step.poll
    ensures ref.tRef == s.tRefLOld ==> ReceiverFinish(s, ref).sched.periodSkew == s.periodSkew
  {
    if ref.tRef == s.tRefLOld {
      SkewOfDrift(s.tRefLOld, s.periodSkew);
    }
  }

  /** A synchronized receiver past the bootstrap clears the miss count and leaves the reference alone. */
  lemma SteadySync(s: Sched, ref: Reference)
    requires !IsBootstrapping(s.skewEstimated) && ref.updated
    ensures ReceiverFinish(s, ref).sched.syncMissed == 0
    ensures ReceiverFinish(s, ref).step.setRef == None
    ensures ReceiverFinish(s, ref).sched.tRefLOld == ref.tRef
  {
  }

  /**
   * After the bootstrap, a receiver listens from Guard(missed) ticks before
   * the reference time it predicts for the next phase (one period plus the
   * skew after the current one) until CHAOS_DURATION after it, which is when
   * the initiator ends its phase.
   */
  lemma SteadyWindow(s: Sched, ref: Reference)
    requires !IsBootstrapping(s.skewEstimated)
    ensures var o := ReceiverFinish(s, ref);
            var predicted := Applied(ref, o.step.setRef).tRef + CHAOS_PERIOD + o.sched.periodSkew;
            o.sched.timerTime == Wrap16(predicted - Guard(o.sched.syncMissed)) &&
            ReceiverBegin(o.sched).sched.timerTime == Wrap16(predicted + CHAOS_DURATION)
  {
    var o := ReceiverFinish(s, ref);
    var s2 := o.sched;
    var tRef := Applied(ref, o.step.setRef).tRef;
    assert !IsBootstrapping(s2.skewEstimated) && s2.timerTime == AlarmTime(NextStart(s2, tRef));
    SteadyWake(s2, tRef);
  }

  /** In steady state, the wake-up and the phase end it leads to, around the predicted reference. */
  lemma SteadyWake(s: Sched, tRef: u16)
    requires !IsBootstrapping(s.skewEstimated)
    ensures var predicted := tRef + CHAOS_PERIOD + s.periodSkew;
            var t := AlarmTime(NextStart(s, tRef));
            t == Wrap16(predicted - Guard(s.syncMissed)) &&
            ReceiverBegin(s.(timerTime := t)).sched.timerTime == Wrap16(predicted + CHAOS_DURATION)
  {
    var g := Guard(s.syncMissed);
    var off := CHAOS_PERIOD + s.periodSkew - g;
    assert 0 <= off < 0x1_0000_0000;
    assert Wrap32(off) == off;
    assert NextStart(s, tRef) == Long(tRef, off);
    var t := Wrap16(tRef + off);
    assert ReceiverBegin(s.(timerTime := t)).sched.timerTime == Wrap16(t + g + CHAOS_DURATION);
    Wrap16Shift(tRef + off, g + CHAOS_DURATION);
  }

  /**
   * The initiator past the bootstrap that was not updated moves its reference
   * on by one period and wakes one period after that; it never counts misses.
   */
  lemma InitiatorMiss(s: Sched, ref: Reference)
    requires !IsBootstrapping(s.skewEstimated) && !ref.updated
    ensures InitiatorFinish(s, ref).step.setRef == Some(Wrap16(ref.tRef + CHAOS_PERIOD))
    ensures InitiatorFinish(s, ref).step.alarm == Long(Wrap16(ref.tRef + CHAOS_PERIOD), CHAOS_PERIOD)
  {
  }

  /** The initiator's miss count never moves, and its phase ends CHAOS_DURATION after the reference. */
  lemma InitiatorTiming(s: Sched, ref: Reference)
    ensures Invoke(true, s, ref).sched.syncMissed == s.syncMissed
    ensures s.resume == PhaseStart ==> Invoke(true, s, ref).step.alarm == At(Wrap16(ref.tRef + CHAOS_DURATION))
    ensures s.resume == PhaseEnd ==>
      AlarmTime(Invoke(true, s, ref).step.alarm) == Wrap16(Applied(ref, Invoke(true, s, ref).step.setRef).tRef + CHAOS_PERIOD)
  {
  }

  // ------------------------------------------------------------ the record

  /** The sequence number at the head of the record, little-endian. */
  function SeqNo(d: seq<u8>): u32
    requires |d| >= 4
  {
    d[0] as int + 0x100 * (d[1] as int + 0x100 * (d[2] as int + 0x100 * d[3] as int))
  }

  /** The four bytes of a sequence number, least significant first. */
  function Encode32(v: u32): (b: seq<u8>)
    ensures |b| == 4 && SeqNo(b) == v
  {
    var q1 := v / 0x100;
    var q2 := q1 / 0x100;
    var q3 := q2 / 0x100;
    assert v == v % 0x100 + 0x100 * q1 && q1 == q1 % 0x100 + 0x100 * q2 && q2 == q2 % 0x100 + 0x100 * q3;
    [v % 0x100, q1 % 0x100, q2 % 0x100, q3]
  }

  /** The four bytes are determined by the number they encode. */
  lemma EncodeSeqNo(d: seq<u8>)
    requires |d| >= 4
    ensures Encode32(SeqNo(d)) == d[..4]
  {
    var q2 := d[2] as int + 0x100 * d[3] as int;
    var q1 := d[1] as int + 0x100 * q2;
    var v := d[0] as int + 0x100 * q1;
    assert v / 0x100 == q1 && v % 0x100 == d[0];
    assert q1 / 0x100 == q2 && q1 % 0x100 == d[1];
    assert q2 / 0x100 == d[3] && q2 % 0x100 == d[2];
  }

  /** The node's own flags: all zero but its own bit, or all zero when that bit does not fit. */
  function OwnFlags(index: u16, m: nat): (f: seq<u8>)
    ensures |f| == m
  {
    var zero := seq(m, _ => 0);
    if index / 8 >= m then zero
    else
      assert Pow2(index % 8) < 0x100 by {
        Pow2Mono(index % 8, 7);
        assert Pow2(8) == 256;
      }
      zero[index / 8 := Pow2(index % 8)]
  }

  /** The own flags name exactly one node, the node itself, when its bit fits. */
  lemma OwnFlagsNodes(index: u16, m: nat, j: nat)
    requires j / 8 < m
    ensures HasNode(OwnFlags(index, m), j) <==> index / 8 < m && j == index
  {
    var f := OwnFlags(index, m);
    if index / 8 < m && j / 8 == index / 8 {
      Pow2Bit(index % 8, j % 8);
    } else {
      ZeroHasNoBits(j % 8);
    }
  }

  /** For an index below the number of nodes, the own flags are well formed. */
  lemma OwnFlagsWellFormed(index: u16)
    requires index < CHAOS_NODES
    ensures WellFormed(OwnFlags(index, MERGE_LEN), CHAOS_NODES)
  {
    ConfiguredSizes();
    Pow2Mono(index, 2);
    assert Pow2(3) == 8;
  }

  /** The dummy payload: byte i is 0x11 i, truncated to 8 bits. */
  function DummyPayload(): (p: seq<u8>)
    ensures |p| == PAYLOAD_LEN
    ensures forall i :: 0 <= i < PAYLOAD_LEN ==> p[i] == Wrap8(0x11 * i)
  {
    seq(PAYLOAD_LEN, i => Wrap8(0x11 * i))
  }

  /**
   * The record a phase starts with: the initiator increments the sequence
   * number and writes its flags and the payload; a receiver rewrites only its
   * flags and keeps what it last received.
   */
  function StartRecord(initiator: bool, d: seq<u8>, index: u16): (r: seq<u8>)
    requires |d| == DATA_LEN
    ensures |r| == DATA_LEN
  {
    if initiator then
      var d1 := CopyInto(d, SEQ_NO_OFFSET, Encode32(Wrap32(SeqNo(d) + 1)));
      var d2 := CopyInto(d1, FLAGS_OFFSET, OwnFlags(index, MERGE_LEN));
      CopyInto(d2, PAYLOAD_OFFSET, DummyPayload())
    else CopyInto(d, FLAGS_OFFSET, OwnFlags(index, MERGE_LEN))
  }

  /** Each initiator round advances the sequence number by one (mod 2^32); the record carries the own flags. */
  lemma StartRecordFields(initiator: bool, d: seq<u8>, index: u16)
    requires |d| == DATA_LEN
    ensures initiator ==> SeqNo(StartRecord(initiator, d, index)) == Wrap32(SeqNo(d) + 1)
    ensures !initiator ==> SeqNo(StartRecord(initiator, d, index)) == SeqNo(d)
    ensures StartRecord(initiator, d, index)[FLAGS_OFFSET..FLAGS_OFFSET + MERGE_LEN] == OwnFlags(index, MERGE_LEN)
    ensures initiator ==> StartRecord(initiator, d, index)[PAYLOAD_OFFSET..PAYLOAD_OFFSET + PAYLOAD_LEN] == DummyPayload()
    ensures !initiator ==> StartRecord(initiator, d, index)[PAYLOAD_OFFSET..] == d[PAYLOAD_OFFSET..]
  {
    ConfiguredSizes();
    var r := StartRecord(initiator, d, index);
    if initiator {
      var e := Encode32(Wrap32(SeqNo(d) + 1));
      var d1 := CopyInto(d, SEQ_NO_OFFSET, e);
      var d2 := CopyInto(d1, FLAGS_OFFSET, OwnFlags(index, MERGE_LEN));
      assert r[..4] == e;
      assert r[FLAGS_OFFSET..FLAGS_OFFSET + MERGE_LEN] == d2[FLAGS_OFFSET..FLAGS_OFFSET + MERGE_LEN];
    } else {
      assert r[..4] == d[..4];
      assert r[PAYLOAD_OFFSET..] == d[PAYLOAD_OFFSET..];
    }
  }

  /** The mapping table, when used: the first node id that matches gives the node index. */
  predicate FirstMatch(mapping: seq<u16>, nodeId: u16, i: nat)
  {
    i < CHAOS_NODES <= |mapping| && mapping[i] == nodeId && forall j :: 0 <= j < i ==> mapping[j] != nodeId
  }

  // ------------------------------------------------------------ the statics

  /** The statics of chaos-test.c and the chaos_data record. */
  class Scheduler {
    /** node_id, and the record handed to the engine. */
    const nodeId: u16
    const data: array<u8>

    var nodeIndex: u16
    /** The protothread position and the time field of the scheduler's rtimer. */
    var resume: Resume
    var timerTime: u16
    var tRefLOld: u16
    var skewEstimated: u8
    var syncMissed: u8
    var tStart: u16
    var periodSkew: i16

    function Model(): Sched
      reads this
    {
      Sched(resume, timerTime, tRefLOld, skewEstimated, syncMissed, tStart, periodSkew)
    }

    predicate Valid()
      reads this
    {
      data.Length == DATA_LEN && Inv(Model())
    }

    predicate IsInitiator()
    {
      nodeId == INITIATOR_NODE_ID
    }

    /** All statics start at zero. */
    constructor (nodeId: u16)
      ensures Valid() && this.nodeId == nodeId && Model() == Idle && nodeIndex == 0
      ensures fresh(data) && data[..] == seq(DATA_LEN, _ => 0)
    {
      this.nodeId := nodeId;
      data := new u8[DATA_LEN](_ => 0);
      nodeIndex := 0;
      resume, timerTime, tRefLOld, skewEstimated := PhaseStart, 0, 0, 0;
      syncMissed, tStart, periodSkew := 0, 0, 0;
    }

    /** init_mapping with a mapping table: the index of the first entry holding the node id. */
    method InitMappingTable(mapping: seq<u16>, nodeID: u16) returns (found: u8)
      requires |mapping| >= CHAOS_NODES
      modifies this
      ensures found == 0 || found == 1
      ensures found == 1 <==> exists i :: 0 <= i < CHAOS_NODES && mapping[i] == nodeID
      ensures found == 1 ==> FirstMatch(mapping, nodeID, nodeIndex)
      ensures found == 0 ==> nodeIndex == old(nodeIndex)
      ensures Model() == old(Model())
    {
      var i := 0;
      while i < CHAOS_NODES
        invariant 0 <= i <= CHAOS_NODES
        invariant forall j :: 0 <= j < i ==> mapping[j] != nodeID
        invariant Model() == old(Model()) && nodeIndex == old(nodeIndex)
      {
        if nodeID == mapping[i] {
          nodeIndex := i;
          return 1;
        }
        i := i + 1;
      }
      return 0;
    }

    /** init_mapping without a table: node ids count from 1, indices from 0 (16-bit unsigned). */
    method InitMappingDefault(nodeID: u16) returns (found: u8)
      modifies this
      ensures found == 1
      ensures nodeID >= 1 ==> nodeIndex == nodeID - 1
      ensures nodeID == 0 ==> nodeIndex == 0xFFFF
      ensures Model() == old(Model())
    {
      nodeIndex := Wrap16(nodeID - 1);
      return 1;
    }

    /** setArrayIndex: clear the flags, then set the node's own bit if it fits. */
    method SetArrayIndex()
      requires data.Length == DATA_LEN
      modifies data
      ensures data[..] == CopyInto(old(data[..]), FLAGS_OFFSET, OwnFlags(nodeIndex, MERGE_LEN))
    {
      ConfiguredSizes();
      var i := 0;
      while i < MERGE_LEN
        invariant 0 <= i <= MERGE_LEN
        invariant data[..] == CopyInto(old(data[..]), FLAGS_OFFSET, seq(i, _ => 0))
      {
        data[FLAGS_OFFSET + i] := 0;
        i := i + 1;
      }
      var arrayIndex := nodeIndex / 8;
      if arrayIndex >= MERGE_LEN {
        return;
      }
      var arrayOffset := nodeIndex % 8;
      Pow2Mono(arrayOffset, 7);
      assert Pow2(8) == 256;
      data[FLAGS_OFFSET + arrayIndex] := Pow2(arrayOffset);
    }

    /** setData: the dummy payload. */
    method SetData()
      requires data.Length == DATA_LEN
      modifies data
      ensures data[..] == CopyInto(old(data[..]), PAYLOAD_OFFSET, DummyPayload())
    {
      ConfiguredSizes();
      var i := 0;
      while i < PAYLOAD_LEN
        invariant 0 <= i <= PAYLOAD_LEN
        invariant data[..] == CopyInto(old(data[..]), PAYLOAD_OFFSET, DummyPayload()[..i])
      {
        data[PAYLOAD_OFFSET + i] := Wrap8(0x11 * i);
        i := i + 1;
      }
    }

    /** chaos_data.seq_no++, on the record's first four bytes. */
    method IncrementSeqNo()
      requires data.Length == DATA_LEN
      modifies data
      ensures data[..] == CopyInto(old(data[..]), SEQ_NO_OFFSET, Encode32(Wrap32(SeqNo(old(data[..])) + 1)))
    {
      ConfiguredSizes();
      var b := Encode32(Wrap32(SeqNo(data[..]) + 1));
      data[0], data[1], data[2], data[3] := b[0], b[1], b[2], b[3];
    }

    /** estimate_period_skew. */
    method EstimatePeriodSkew(ref: Reference)
      modifies this
      ensures Model() == EstimateSkew(old(Model()), ref) && nodeIndex == old(nodeIndex)
    {
      if ref.updated {
        periodSkew := PeriodSkew(ref.tRef, tRefLOld);
        tRefLOld := ref.tRef;
        if IsBootstrapping(skewEstimated) {
          skewEstimated := skewEstimated + 1;
        }
      }
    }

    /** The initiator's phase start: a new record, then the phase end CHAOS_DURATION after the reference. */
    method InitiatorBeginPhase(tRef: u16) returns (step: Step)
      requires data.Length == DATA_LEN
      modifies this, data
      ensures Model() == InitiatorBegin(old(Model()), tRef).sched
      ensures step == InitiatorBegin(old(Model()), tRef).step
      ensures data[..] == StartRecord(true, old(data[..]), nodeIndex) && nodeIndex == old(nodeIndex)
    {
      IncrementSeqNo();
      SetArrayIndex();
      SetData();
      // chaos_start(&chaos_data, CHAOS_INITIATOR, N_TX)
      tStart := timerTime;
      var end := Wrap16(tRef + CHAOS_DURATION);
      timerTime := end;
      resume := PhaseEnd;
      step := Step(ChaosStart(true, N_TX), None, At(end), false);
    }

    /** A receiver's phase start: only the own flags change; the phase length depends on the bootstrap. */
    method ReceiverBeginPhase() returns (step: Step)
      requires data.Length == DATA_LEN
      modifies this, data
      ensures Model() == ReceiverBegin(old(Model())).sched
      ensures step == ReceiverBegin(old(Model())).step
      ensures data[..] == StartRecord(false, old(data[..]), nodeIndex) && nodeIndex == old(nodeIndex)
    {
      SetArrayIndex();
      // chaos_start(&chaos_data, CHAOS_RECEIVER, N_TX)
      var end;
      if IsBootstrapping(skewEstimated) {
        end := Wrap16(timerTime + CHAOS_INIT_DURATION);
      } else {
        end := Wrap16(timerTime + CHAOS_GUARD_TIME * (1 + syncMissed) + CHAOS_DURATION);
      }
      timerTime := end;
      resume := PhaseEnd;
      step := Step(ChaosStart(false, N_TX), None, At(end), false);
    }

    /** The initiator's phase end. */
    method InitiatorFinishPhase(ref: Reference) returns (step: Step)
      modifies this
      ensures Model() == InitiatorFinish(old(Model()), ref).sched
      ensures step == InitiatorFinish(old(Model()), ref).step
      ensures nodeIndex == old(nodeIndex)
    {
      // chaos_stop()
      var setRef := None;
      if !IsBootstrapping(skewEstimated) && !ref.updated {
        setRef := Some(Wrap16(ref.tRef + CHAOS_PERIOD));
      }
      var ref1 := Applied(ref, setRef);
      var alarm := Long(ref1.tRef, CHAOS_PERIOD);
      timerTime := AlarmTime(alarm);
      EstimatePeriodSkew(ref1);
      resume := PhaseStart;
      step := Step(ChaosStop, setRef, alarm, true);
    }

    /** A receiver's phase end. */
    method ReceiverFinishPhase(ref: Reference) returns (step: Step)
      modifies this
      ensures Model() == ReceiverFinish(old(Model()), ref).sched
      ensures step == ReceiverFinish(old(Model()), ref).step
      ensures nodeIndex == old(nodeIndex)
    {
      // chaos_stop()
      ghost var s0 := Model();
      var setRef := None;
      var poll := false;
      if IsBootstrapping(skewEstimated) {
        if !ref.updated {
          skewEstimated := 0;
        }
      } else {
        if !ref.updated {
          setRef := Some(Wrap16(ref.tRef + CHAOS_PERIOD + periodSkew));
          syncMissed := Wrap8(syncMissed + 1);
        } else {
          syncMissed := 0;
        }
        poll := true;
      }
      assert Model() == ReceiverTally(s0, ref);
      var ref1 := Applied(ref, setRef);
      EstimatePeriodSkew(ref1);
      ghost var s2 := Model();
      var alarm;
      if IsBootstrapping(skewEstimated) {
        if skewEstimated == 0 {
          alarm := At(Wrap16(timerTime + CHAOS_INIT_PERIOD - CHAOS_INIT_DURATION));
        } else {
          alarm := Long(ref1.tRef, Wrap32(CHAOS_PERIOD - CHAOS_INIT_GUARD_TIME));
        }
      } else {
        alarm := Long(ref1.tRef, Wrap32(CHAOS_PERIOD + periodSkew - CHAOS_GUARD_TIME * (1 + syncMissed)));
      }
      assert alarm == NextStart(s2, ref1.tRef);
      timerTime := AlarmTime(alarm);
      resume := PhaseStart;
      step := Step(ChaosStop, setRef, alarm, poll);
    }

    /**
     * chaos_scheduler: one invocation, given the engine's reference time and
     * update flag at that moment.
     */
    method Schedule(ref: Reference) returns (step: Step)
      requires Valid()
      modifies this, data
      ensures Valid()
      ensures Model() == Invoke(IsInitiator(), old(Model()), ref).sched
      ensures step == Invoke(IsInitiator(), old(Model()), ref).step
      ensures data[..] == if old(resume) == PhaseStart then StartRecord(IsInitiator(), old(data[..]), nodeIndex)
                          else old(data[..])
      ensures nodeIndex == old(nodeIndex)
    {
      InvokeInv(IsInitiator(), Model(), ref);
      if resume == PhaseStart {
        if IsInitiator() {
          step := InitiatorBeginPhase(ref.tRef);
        } else {
          step := ReceiverBeginPhase();
        }
      } else {
        if IsInitiator() {
          step := InitiatorFinishPhase(ref);
        } else {
          step := ReceiverFinishPhase(ref);
        }
      }
    }

    /**
     * The chaos_test process with the default mapping: the mapping always
     * succeeds, the sequence number is cleared and the first invocation is
     * due one second after `now`.
     */
    method Launch(now: u16) returns (alarm: Option<Alarm>)
      requires data.Length == DATA_LEN
      modifies this, data
      ensures nodeIndex == Wrap16(nodeId - 1)
      ensures SeqNo(data[..]) == 0 && data[4..] == old(data[4..])
      ensures alarm == Some(At(Wrap16(now + RTIMER_SECOND)))
      ensures Model() == old(Model()).(timerTime := Wrap16(now + RTIMER_SECOND))
    {
      var ok := InitMappingDefault(nodeId);
      alarm := None;
      if ok == 1 {
        data[0], data[1], data[2], data[3] := 0, 0, 0, 0;
        timerTime := Wrap16(now + RTIMER_SECOND);
        alarm := Some(At(timerTime));
      }
    }
  }
}
