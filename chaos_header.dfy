/**
 * The Chaos packet layout, header values, footer masks and the engine state
 * enumeration. A packet buffer has PACKET_LEN + 1 bytes: the radio length
 * byte, the header, the application record, the relay counter (sync mode
 * only) and the two footer bytes the radio appends on reception (RSSI, then
 * CRC-ok bit and correlation value).
 */
module ChaosHeader {
  import opened Bytes
  import opened ChaosTestConfig

  const CHAOS_HEADER: u8 := 0xfe
  const CHAOS_HEADER_LEN: nat := 1
  const CHAOS_RELAY_CNT_LEN: nat := 1
  const FOOTER_LEN: nat := 2
  const FOOTER1_CRC_OK: u8 := 0x80
  const FOOTER1_CORRELATION: u8 := 0x7f

  /** A received packet may only be relayed once its byte count reaches this offset. */
  const BYTES_TIMEOUT: nat := 32
  const CHAOS_SYNC_WINDOW: nat := 32
  const MIN_SLOTS_TIMEOUT: nat := 3
  const MAX_SLOTS_TIMEOUT: nat := 7
  const PROCESSING_CYCLES: nat := 40000
  /** DCO cycles per rtimer tick under Cooja: 4194304 / RTIMER_SECOND (see ClockPhi). */
  const CLOCK_PHI: nat := 128

  lemma ClockPhi()
    ensures CLOCK_PHI == 4194304 / RTIMER_SECOND
  {
  }

  datatype SyncMode = Sync | NoSync

  /** PACKET_LEN: the radio frame length, as written in the length byte. */
  function PacketLen(mode: SyncMode, dataLen: nat): (pl: nat)
    ensures mode == Sync ==> pl == dataLen + 4
    ensures mode == NoSync ==> pl == dataLen + 3
  {
    match mode
    case Sync => dataLen + FOOTER_LEN + CHAOS_RELAY_CNT_LEN + CHAOS_HEADER_LEN
    case NoSync => dataLen + FOOTER_LEN + CHAOS_HEADER_LEN
  }

  /** PacketLen(Sync, DATA_LEN), evaluated (see ConfiguredLayout). */
  const PACKET_LEN: nat := 110

  // Field indices into the packet buffer.
  const LEN_FIELD: nat := 0
  const HEADER_FIELD: nat := 1
  const DATA_FIELD: nat := 2
  const BYTES_TIMEOUT_FIELD: nat := 2 + BYTES_TIMEOUT
  function RelayCntField(pl: nat): nat requires pl >= FOOTER_LEN { pl - FOOTER_LEN }
  function RssiField(pl: nat): nat requires pl >= 1 { pl - 1 }
  function CrcField(pl: nat): nat { pl }

  const RELAY_CNT_FIELD: nat := 108
  const RSSI_FIELD: nat := 109
  const CRC_FIELD: nat := 110

  /**
   * In sync mode, for any record length, the fields tile the buffer of
   * pl + 1 bytes: length, header, data 2 .. dataLen + 1, relay counter, RSSI
   * and CRC are pairwise disjoint, in this order, and end at the last byte.
   */
  lemma {:induction false} SyncLayout(dataLen: nat)
    requires dataLen >= 1
    ensures var pl := PacketLen(Sync, dataLen);
      LEN_FIELD < HEADER_FIELD < DATA_FIELD &&
      DATA_FIELD + dataLen == RelayCntField(pl) &&
      RelayCntField(pl) < RssiField(pl) < CrcField(pl) &&
      CrcField(pl) + 1 == pl + 1
    // the data field ends exactly where the relay counter begins
    ensures 2 + dataLen == PacketLen(Sync, dataLen) - FOOTER_LEN
  {
  }

  /** In no-sync mode the relay-counter slot overlaps the last data byte. */
  lemma NoSyncRelayOverlapsData(dataLen: nat)
    requires dataLen >= 1
    ensures var pl := PacketLen(NoSync, dataLen);
      DATA_FIELD <= RelayCntField(pl) < DATA_FIELD + dataLen
  {
  }

  /**
   * The configured layout: the 32-byte split of the timeout write covers the
   * same PACKET_LEN - 1 bytes (length byte .. relay counter) as one
   * radio_write_tx, and the split point lies inside the data field.
   */
  lemma ConfiguredLayout()
    ensures PACKET_LEN == PacketLen(Sync, DATA_LEN)
    ensures RELAY_CNT_FIELD == RelayCntField(PACKET_LEN) && RSSI_FIELD == RssiField(PACKET_LEN) && CRC_FIELD == CrcField(PACKET_LEN)
    ensures DATA_FIELD < BYTES_TIMEOUT_FIELD < DATA_FIELD + DATA_LEN
    ensures BYTES_TIMEOUT_FIELD + (PACKET_LEN - 1 - BYTES_TIMEOUT_FIELD) == PACKET_LEN - 1
    ensures RELAY_CNT_FIELD == PACKET_LEN - 2 && RELAY_CNT_FIELD < PACKET_LEN - 1
  {
    ConfiguredSizes();
  }

  /** The two header values a receiver accepts (`header >= CHAOS_HEADER`). */
  predicate AcceptedHeader(h: u8)
  {
    h >= CHAOS_HEADER
  }

  lemma AcceptedHeaders(h: u8)
    ensures AcceptedHeader(h) <==> h == CHAOS_HEADER || h == CHAOS_HEADER + 1
  {
  }

  /** FOOTER1_CRC_OK and FOOTER1_CORRELATION split the footer byte: every bit is in exactly one. */
  lemma FooterMasksPartition(b: u8)
    ensures forall k: nat :: Bit(b, k) <==> Bit(And(b, FOOTER1_CRC_OK), k) || Bit(And(b, FOOTER1_CORRELATION), k)
    ensures forall k: nat :: !(Bit(And(b, FOOTER1_CRC_OK), k) && Bit(And(b, FOOTER1_CORRELATION), k))
  {
    assert Pow2(7) == 0x80;
    forall k: nat ensures (Bit(b, k) <==> Bit(And(b, 0x80), k) || Bit(And(b, 0x7f), k))
      && !(Bit(And(b, 0x80), k) && Bit(And(b, 0x7f), k))
    {
      AndBit(b, 0x80, k);
      AndBit(b, 0x7f, k);
      Pow2Bit(7, k);
      LowMaskBit(7, k);
      if k >= 8 { NoHighBits(b, 8, k); assert Pow2(8) == 256; }
    }
  }

  /** The engine states (enum chaos_state). */
  datatype State = Off | Waiting | Receiving | Received | Transmitting | Transmitted | Aborted

  /** CHAOS_IS_ON */
  predicate IsOn(s: State)
  {
    s != Off
  }

  datatype Role = Initiator | Receiver

  /** The C encoding of the role (CHAOS_INITIATOR = 1, CHAOS_RECEIVER = 0). */
  function RoleValue(r: Role): (v: nat)
    ensures v <= 1 && (v == 1 <==> r == Initiator)
  {
    if r == Initiator then 1 else 0
  }
}
