/**
 * Configuration of the chaos-test application: the sizing of the flags array
 * from the number of nodes, the record layout, and the timing constants in
 * rtimer ticks (RTIMER_SECOND = 32768 on the Tmote Sky, Cooja build).
 */
module ChaosTestConfig {
  import opened Bytes

  const RTIMER_SECOND: nat := 32768

  const INITIATOR_NODE_ID: nat := 1
  /** Maximum number of transmissions of a round. */
  const N_TX: u8 := 255
  /** Transmissions still made once the flags are complete. */
  const N_TX_COMPLETE: nat := 5
  const CHAOS_NODES: nat := 3
  const PAYLOAD_LEN: nat := 100

  /** Bytes needed for one flag bit per node: ceil(n / 8). */
  function MergeLen(n: nat): (m: nat)
    ensures n >= 1 ==> 8 * (m - 1) < n <= 8 * m
    ensures n == 0 ==> m == 0
  {
    n / 8 + (if n % 8 != 0 then 1 else 0)
  }

  /** The last flag byte of a complete round: the low ((n - 1) mod 8) + 1 bits set. */
  function CompleteFlag(n: nat): (f: u8)
    requires n >= 1
  {
    assert Pow2(((n - 1) % 8) + 1) <= 256 by { Pow2Mono(((n - 1) % 8) + 1, 8); }
    Pow2(((n - 1) % 8) + 1) - 1
  }

  lemma {:induction false} Pow2Mono(i: nat, j: nat)
    requires i <= j
    ensures Pow2(i) <= Pow2(j)
  {
    if i < j { Pow2Mono(i, j - 1); }
  }

  /** The number of bits set in the complete flag: ((n - 1) mod 8) + 1, between 1 and 8. */
  function FlagBits(n: nat): (k: nat)
    requires n >= 1
    ensures 1 <= k <= 8
  {
    ((n - 1) % 8) + 1
  }

  /** The complete flag has exactly FlagBits(n) bits, all at the bottom. */
  lemma CompleteFlagBits(n: nat)
    requires n >= 1
    ensures Popcount(CompleteFlag(n)) == FlagBits(n)
    ensures forall j: nat :: Bit(CompleteFlag(n), j) <==> j < FlagBits(n)
  {
    var k := FlagBits(n);
    LowMaskPopcount(k);
    forall j: nat ensures Bit(CompleteFlag(n), j) <==> j < k {
      LowMaskBit(k, j);
    }
  }

  /** The full bytes before the last one, plus the complete flag's bits, count every node once. */
  lemma CompleteFlagCounts(n: nat)
    requires n >= 1
    ensures 8 * (MergeLen(n) - 1) + FlagBits(n) == n
    ensures n % 8 == 0 ==> FlagBits(n) == 8
  {
    var q := n / 8;
    if n % 8 == 0 {
      assert n - 1 == 8 * (q - 1) + 7;
    } else {
      assert n - 1 == 8 * q + (n % 8 - 1);
    }
  }

  /** For a multiple of 8 nodes, the last flag byte is full too. */
  lemma CompleteFlagFull(n: nat)
    requires n >= 1 && n % 8 == 0
    ensures CompleteFlag(n) == 0xFF
  {
    CompleteFlagCounts(n);
    assert Pow2(8) == 256;
  }

  /** MergeLen(CHAOS_NODES) and CompleteFlag(CHAOS_NODES), evaluated (see ConfiguredSizes). */
  const MERGE_LEN: nat := 1
  const CHAOS_COMPLETE_FLAG: u8 := 0x07

  /**
   * sizeof(chaos_data_struct): a 4-byte sequence number, the flags, the payload,
   * rounded up to the 2-byte alignment of `unsigned long` on msp430.
   */
  function DataLen(mergeLen: nat, payloadLen: nat): (d: nat)
    ensures d >= 4 + mergeLen + payloadLen
    ensures d <= 4 + mergeLen + payloadLen + 1 && d % 2 == 0
  {
    var raw := 4 + mergeLen + payloadLen;
    raw + raw % 2
  }

  /** DataLen(MERGE_LEN, PAYLOAD_LEN), evaluated (see ConfiguredSizes). */
  const DATA_LEN: nat := 106
  /** Offsets inside the record. */
  const SEQ_NO_OFFSET: nat := 0
  const FLAGS_OFFSET: nat := 4
  const PAYLOAD_OFFSET: nat := FLAGS_OFFSET + MERGE_LEN

  lemma ConfiguredSizes()
    ensures MERGE_LEN == MergeLen(CHAOS_NODES) && CHAOS_COMPLETE_FLAG == CompleteFlag(CHAOS_NODES)
    ensures DATA_LEN == DataLen(MERGE_LEN, PAYLOAD_LEN)
    ensures PAYLOAD_OFFSET + PAYLOAD_LEN <= DATA_LEN
  {
    assert Pow2(3) == 8;
  }

  // Timing, in rtimer ticks. CHAOS_PERIOD and CHAOS_DURATION are uint32_t expressions.
  const CHAOS_PERIOD: nat := RTIMER_SECOND * 2
  const CHAOS_DURATION: nat := RTIMER_SECOND * 3 / 2
  /** The Cooja guard time (3 ms). */
  const CHAOS_GUARD_TIME: nat := RTIMER_SECOND / 333
  const CHAOS_BOOTSTRAP_PERIODS: nat := 3
  const CHAOS_INIT_GUARD_TIME: nat := RTIMER_SECOND / 20
  const CHAOS_INIT_DURATION: nat := CHAOS_DURATION - CHAOS_GUARD_TIME + CHAOS_INIT_GUARD_TIME
  const CHAOS_INIT_PERIOD: nat := CHAOS_INIT_DURATION + RTIMER_SECOND / 100

  lemma TimingConstants()
    ensures CHAOS_INIT_PERIOD - CHAOS_INIT_DURATION == RTIMER_SECOND / 100
    ensures CHAOS_INIT_DURATION + CHAOS_GUARD_TIME == CHAOS_DURATION + CHAOS_INIT_GUARD_TIME
    ensures CHAOS_PERIOD == 65536 && CHAOS_DURATION == 49152 && CHAOS_GUARD_TIME == 98
    ensures CHAOS_INIT_GUARD_TIME == 1638 && CHAOS_INIT_DURATION == 50692 && CHAOS_INIT_PERIOD == 51019
    // a phase plus its guard times fits in a period, so rounds do not overlap
    ensures CHAOS_DURATION + CHAOS_GUARD_TIME < CHAOS_PERIOD
    ensures CHAOS_INIT_DURATION < CHAOS_INIT_PERIOD < CHAOS_PERIOD
  {
  }

  /** A node is bootstrapping until it has estimated its skew in three consecutive rounds. */
  predicate IsBootstrapping(skewEstimated: nat)
  {
    skewEstimated < CHAOS_BOOTSTRAP_PERIODS
  }
}
