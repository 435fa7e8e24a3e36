/**
 * putchar over the msp430 UART1 (uart1-putchar.c). With TinyOS serial frames
 * on, characters are buffered up to a newline or a full buffer, then sent as
 * one TEP 113 frame: a flag byte, the header and the padded payload, the
 * CRC-16 (generator 0x1021) of those bytes, a flag byte; bytes between the
 * flags are escaped as in section 4.2 of RFC 1662. Without frames, each
 * character goes out as it is. The UART itself is the sequence of bytes
 * written to it so far.
 */
module Uart1Putchar {
  import opened Bytes
  import opened Crc16

  const UART1_PUTCHAR_BUF_SIZE: nat := 100
  const SYNCH_BYTE: byte := 0x7e
  const ESCAPE_BYTE: byte := 0x7d
  const PROT_NOACK: byte := 0x45
  const MSG_ID: byte := 0x41
  const NEWLINE: byte := 0x0a
  /** The payload length field: the buffer size, which fits in a byte. */
  const PAYLOAD_LEN: byte := 100

  // ------------------------------------------------------------ CRC-16

  /** The CRC of a byte sequence, one crc_byte per byte in order. */
  function Crc(crc: bv16, s: seq<byte>): bv16
    decreases |s|
  {
    if s == [] then crc else CrcByte(Crc(crc, s[..|s| - 1]), s[|s| - 1])
  }

  /** One more byte: one more step of the CRC and one more escaped byte. */
  lemma Snoc(s: seq<byte>, x: byte, crc: bv16)
    ensures Crc(crc, s + [x]) == CrcByte(Crc(crc, s), x)
    ensures Stuff(s + [x]) == Stuff(s) + Escape(x)
  {
    assert (s + [x])[..|s|] == s;
  }

  /** The CRC of a concatenation continues from the CRC of its first part. */
  lemma {:induction false} CrcAppend(crc: bv16, a: seq<byte>, b: seq<byte>)
    ensures Crc(crc, a + b) == Crc(Crc(crc, a), b)
    decreases |b|
  {
    if b != [] {
      assert (a + b)[..|a + b| - 1] == a + b[..|b| - 1];
      CrcAppend(crc, a, b[..|b| - 1]);
    } else {
      assert a + b == a;
    }
  }

  // ------------------------------------------------------------ byte stuffing

  /** The escaping of writeb_crc: 7d becomes 7d 5d, 7e becomes 7d 5e, any other byte stays. */
  function Escape(c: byte): (e: seq<byte>)
    ensures 1 <= |e| <= 2
    ensures SYNCH_BYTE !in e
  {
    if c == ESCAPE_BYTE then [ESCAPE_BYTE, 0x5d]
    else if c == SYNCH_BYTE then [ESCAPE_BYTE, 0x5e]
    else [c]
  }

  /** The escaped form of a byte sequence. */
  function Stuff(s: seq<byte>): seq<byte>
    decreases |s|
  {
    if s == [] then [] else Stuff(s[..|s| - 1]) + Escape(s[|s| - 1])
  }

  /** Undo the escaping: an escape byte is dropped and the byte after it has bit 5 flipped. */
  function Unstuff(t: seq<byte>): seq<byte>
    decreases |t|
  {
    if t == [] then []
    else if t[0] == ESCAPE_BYTE && |t| >= 2 then [t[1] ^ 0x20] + Unstuff(t[2..])
    else [t[0]] + Unstuff(t[1..])
  }

  lemma AppendAssoc(a: seq<byte>, b: seq<byte>, c: seq<byte>)
    ensures a + b + c == a + (b + c)
  {
  }

  lemma {:induction false} StuffAppend(a: seq<byte>, b: seq<byte>)
    ensures Stuff(a + b) == Stuff(a) + Stuff(b)
    decreases |b|
  {
    if b == [] {
      assert a + b == a;
    } else {
      var b', x := b[..|b| - 1], b[|b| - 1];
      assert (a + b)[..|a + b| - 1] == a + b' && (a + b)[|a + b| - 1] == x;
      StuffAppend(a, b');
      AppendAssoc(Stuff(a), Stuff(b'), Escape(x));
    }
  }

  /** The flag byte never appears in escaped data. */
  lemma {:induction false} StuffHasNoFlag(s: seq<byte>)
    ensures SYNCH_BYTE !in Stuff(s)
    decreases |s|
  {
    if s != [] {
      StuffHasNoFlag(s[..|s| - 1]);
    }
  }

  lemma UnstuffEscape(c: byte, t: seq<byte>)
    ensures Unstuff(Escape(c) + t) == [c] + Unstuff(t)
  {
    var u := Escape(c) + t;
    if c == ESCAPE_BYTE || c == SYNCH_BYTE {
      assert u[2..] == t;
    } else {
      assert u[1..] == t;
    }
  }

  /** A single byte is escaped on its own. */
  lemma StuffOne(x: byte)
    ensures Stuff([x]) == Escape(x)
  {
    assert [x][..0] == [];
  }

  /** Escaping [x] + s escapes x first. */
  lemma StuffCons(s: seq<byte>)
    requires s != []
    ensures Stuff(s) == Escape(s[0]) + Stuff(s[1..])
  {
    var x, r := s[0], s[1..];
    assert s == [x] + r;
    StuffAppend([x], r);
    StuffOne(x);
  }

  lemma StuffConsAppend(s: seq<byte>, t: seq<byte>)
    requires s != []
    ensures Stuff(s) + t == Escape(s[0]) + (Stuff(s[1..]) + t)
  {
    StuffCons(s);
    AppendAssoc(Escape(s[0]), Stuff(s[1..]), t);
  }

  lemma ConsAppend(s: seq<byte>, t: seq<byte>)
    requires s != []
    ensures s + t == [s[0]] + (s[1..] + t)
  {
    assert s == [s[0]] + s[1..];
  }

  /** The step of UnstuffStuffPrefix: undoing the escape of the first byte. */
  lemma UnstuffStuffStep(s: seq<byte>, t: seq<byte>)
    requires s != []
    requires Unstuff(Stuff(s[1..]) + t) == s[1..] + Unstuff(t)
    ensures Unstuff(Stuff(s) + t) == s + Unstuff(t)
  {
    StuffConsAppend(s, t);
    UnstuffEscape(s[0], Stuff(s[1..]) + t);
    ConsAppend(s, Unstuff(t));
  }

  lemma {:induction false} UnstuffStuffPrefix(s: seq<byte>, t: seq<byte>)
    ensures Unstuff(Stuff(s) + t) == s + Unstuff(t)
    decreases |s|
  {
    if s == [] {
      assert Stuff(s) + t == t;
    } else {
      UnstuffStuffPrefix(s[1..], t);
      UnstuffStuffStep(s, t);
    }
  }

  /** Escaping can be undone: the receiver gets back exactly the bytes that were escaped. */
  lemma UnstuffStuff(s: seq<byte>)
    ensures Unstuff(Stuff(s)) == s
  {
    UnstuffStuffPrefix(s, []);
    assert Stuff(s) + [] == Stuff(s);
  }

  // ------------------------------------------------------------ the frame

  /**
   * The header after the opening flag: protocol, sequence number,
   * destination (2 bytes), source (2 bytes), payload length, group and
   * message id.
   */
  const HEADER: seq<byte> := [PROT_NOACK, 0x00, 0xFF, 0xFF, 0x00, 0x00, PAYLOAD_LEN, 0x00, MSG_ID]

  /** The header, byte by byte in the order writeb_crc sends it. */
  lemma HeaderBuilt()
    ensures HEADER == [] + [PROT_NOACK] + [0x00] + [0xFF] + [0xFF] + [0x00] + [0x00] + [PAYLOAD_LEN] + [0x00] + [MSG_ID]
  {
  }

  function Zeros(n: nat): (z: seq<byte>)
    ensures |z| == n && forall i :: 0 <= i < n ==> z[i] == 0
  {
    seq(n, _ => 0)
  }

  /** What the CRC covers: the header and the buffered characters padded to the buffer size. */
  function Body(p: seq<byte>): seq<byte>
    requires |p| <= UART1_PUTCHAR_BUF_SIZE
  {
    HEADER + p + Zeros(UART1_PUTCHAR_BUF_SIZE - |p|)
  }

  /** The CRC, low byte first. */
  function CrcBytes(crc: bv16): (b: seq<byte>)
    ensures |b| == 2 && (b[0] as bv16) | ((b[1] as bv16) << 8) == crc
  {
    [(crc & 0xff) as byte, ((crc >> 8) & 0xff) as byte]
  }

  /** The frame putchar writes for the characters p. */
  function Frame(p: seq<byte>): seq<byte>
    requires |p| <= UART1_PUTCHAR_BUF_SIZE
  {
    [SYNCH_BYTE] + Stuff(Body(p) + CrcBytes(Crc(0, Body(p)))) + [SYNCH_BYTE]
  }

  /** A frame is delimited by flag bytes and holds none in between. */
  lemma FrameDelimited(p: seq<byte>)
    requires |p| <= UART1_PUTCHAR_BUF_SIZE
    ensures var f := Frame(p);
            |f| >= 2 && f[0] == SYNCH_BYTE && f[|f| - 1] == SYNCH_BYTE &&
            forall i :: 0 < i < |f| - 1 ==> f[i] != SYNCH_BYTE
  {
    var inner := Stuff(Body(p) + CrcBytes(Crc(0, Body(p))));
    StuffHasNoFlag(Body(p) + CrcBytes(Crc(0, Body(p))));
    var f := Frame(p);
    forall i | 0 < i < |f| - 1 ensures f[i] != SYNCH_BYTE {
      assert f[i] == inner[i - 1];
    }
  }

  /**
   * A receiver that strips the flags and undoes the escaping finds the
   * header, the characters, zero padding to the buffer size, and a CRC that
   * matches everything before it.
   */
  lemma FrameDecodes(p: seq<byte>)
    requires |p| <= UART1_PUTCHAR_BUF_SIZE
    ensures var f := Frame(p);
            var u := Unstuff(f[1..|f| - 1]);
            var n := |HEADER| + UART1_PUTCHAR_BUF_SIZE;
            |u| == n + 2 && u[..|HEADER|] == HEADER &&
            u[|HEADER|..|HEADER| + |p|] == p &&
            (forall i :: |HEADER| + |p| <= i < n ==> u[i] == 0) &&
            Crc(0, u[..n]) == (u[n] as bv16) | ((u[n + 1] as bv16) << 8)
  {
    var f := Frame(p);
    var m := Body(p) + CrcBytes(Crc(0, Body(p)));
    assert f[1..|f| - 1] == Stuff(m);
    UnstuffStuff(m);
    assert m[..|HEADER| + UART1_PUTCHAR_BUF_SIZE] == Body(p);
  }

  /** Two escaped bytes, one after the other. */
  lemma StuffPair(b: seq<byte>)
    requires |b| == 2
    ensures Stuff(b) == Escape(b[0]) + Escape(b[1])
  {
    var b1 := b[..1];
    assert |b1| == 1 && b1[0] == b[0] && b1[..0] == [];
    assert Stuff(b1) == Escape(b[0]);
  }

  /** The CRC of the body, computed in three runs: header, characters, padding. */
  lemma BodyCrc(p: seq<byte>)
    requires |p| <= UART1_PUTCHAR_BUF_SIZE
    ensures Crc(0, Body(p)) == Crc(Crc(Crc(0, HEADER), p), Zeros(UART1_PUTCHAR_BUF_SIZE - |p|))
  {
    CrcAppend(0, HEADER, p);
    CrcAppend(0, HEADER + p, Zeros(UART1_PUTCHAR_BUF_SIZE - |p|));
  }

  /** Escaping four runs of bytes, one after the other. */
  lemma StuffRuns(h: seq<byte>, p: seq<byte>, z: seq<byte>, c: seq<byte>)
    ensures Stuff(h + p + z + c) == Stuff(h) + Stuff(p) + Stuff(z) + Stuff(c)
  {
    StuffAppend(h, p);
    StuffAppend(h + p, z);
    StuffAppend(h + p + z, c);
  }

  lemma FrameAssoc(o: seq<byte>, f: byte, a: seq<byte>, b: seq<byte>, c: seq<byte>, d: seq<byte>)
    ensures o + [f] + a + b + c + d + [f] == o + ([f] + (a + b + c + d) + [f])
  {
  }

  /** The five writes of a flush, put together, are the frame. */
  lemma FrameParts(o: seq<byte>, p: seq<byte>)
    requires |p| <= UART1_PUTCHAR_BUF_SIZE
    ensures var z := Zeros(UART1_PUTCHAR_BUF_SIZE - |p|);
            o + [SYNCH_BYTE] + Stuff(HEADER) + Stuff(p) + Stuff(z) +
              Stuff(CrcBytes(Crc(Crc(Crc(0, HEADER), p), z))) + [SYNCH_BYTE] == o + Frame(p)
  {
    var z := Zeros(UART1_PUTCHAR_BUF_SIZE - |p|);
    var c := CrcBytes(Crc(0, Body(p)));
    BodyCrc(p);
    StuffRuns(HEADER, p, z, c);
    FrameAssoc(o, SYNCH_BYTE, Stuff(HEADER), Stuff(p), Stuff(z), Stuff(c));
  }

  // ------------------------------------------------------------ the UART side

  /** The line buffer and the UART output. */
  class SerialPort {
    const serialBuf: array<byte>
    var serialBufIndex: nat
    /** Every byte given to uart1_writeb so far. */
    var out: seq<byte>

    predicate Valid()
      reads this
    {
      serialBuf.Length == UART1_PUTCHAR_BUF_SIZE && serialBufIndex < UART1_PUTCHAR_BUF_SIZE
    }

    /** The characters buffered and not yet sent. */
    function Pending(): seq<byte>
      reads this, serialBuf
      requires serialBufIndex <= serialBuf.Length
    {
      serialBuf[..serialBufIndex]
    }

    constructor ()
      ensures Valid() && Pending() == [] && out == []
    {
      serialBuf := new byte[UART1_PUTCHAR_BUF_SIZE];
      serialBufIndex := 0;
      out := [];
    }

    /** uart1_writeb: the byte goes out on the line. */
    method WriteB(b: byte)
      modifies this
      ensures out == old(out) + [b] && serialBufIndex == old(serialBufIndex)
    {
      out := out + [b];
    }

    /** writeb_crc: write the byte escaped, and fold it (unescaped) into the CRC. */
    method WritebCrc(c: byte, crc: bv16) returns (r: bv16)
      modifies this
      ensures out == old(out) + Escape(c) && r == CrcByte(crc, c)
      ensures serialBufIndex == old(serialBufIndex)
    {
      if c == ESCAPE_BYTE {
        WriteB(ESCAPE_BYTE);
        WriteB(0x5d);
      } else if c == SYNCH_BYTE {
        WriteB(ESCAPE_BYTE);
        WriteB(0x5e);
      } else {
        WriteB(c);
      }
      r := CrcByte(crc, c);
    }

    /**
     * writeb_crc after the bytes h, written since `out` was o, with the CRC
     * started at base: one more byte written and counted.
     */
    method WriteNext(ghost o: seq<byte>, ghost base: bv16, ghost h: seq<byte>, c: byte, crc0: bv16) returns (crc: bv16)
      requires out == o + Stuff(h) && crc0 == Crc(base, h)
      modifies this
      ensures serialBufIndex == old(serialBufIndex)
      ensures out == o + Stuff(h + [c]) && crc == Crc(base, h + [c])
    {
      Snoc(h, c, base);
      AppendAssoc(o, Stuff(h), Escape(c));
      crc := WritebCrc(c, crc0);
    }

    /** The start of a frame: the flag byte and the nine header bytes, the CRC restarted at 0. */
    method WriteHeader() returns (crc: bv16)
      modifies this
      ensures serialBufIndex == old(serialBufIndex)
      ensures out == old(out) + [SYNCH_BYTE] + Stuff(HEADER) && crc == Crc(0, HEADER)
    {
      crc := 0;
      WriteB(SYNCH_BYTE);
      ghost var o := out;
      ghost var h: seq<byte> := [];
      assert out == o + Stuff(h);
      crc := WriteNext(o, 0, h, PROT_NOACK, crc);
      h := h + [PROT_NOACK];
      crc := WriteNext(o, 0, h, 0x00, crc);
      h := h + [0x00];
      crc := WriteNext(o, 0, h, 0xFF, crc);
      h := h + [0xFF];
      crc := WriteNext(o, 0, h, 0xFF, crc);
      h := h + [0xFF];
      crc := WriteNext(o, 0, h, 0x00, crc);
      h := h + [0x00];
      crc := WriteNext(o, 0, h, 0x00, crc);
      h := h + [0x00];
      crc := WriteNext(o, 0, h, PAYLOAD_LEN, crc);
      h := h + [PAYLOAD_LEN];
      crc := WriteNext(o, 0, h, 0x00, crc);
      h := h + [0x00];
      crc := WriteNext(o, 0, h, MSG_ID, crc);
      h := h + [MSG_ID];
      HeaderBuilt();
    }

    /** The buffered characters. */
    method WriteBuffered(crc0: bv16) returns (crc: bv16)
      requires serialBufIndex <= serialBuf.Length
      modifies this
      ensures serialBufIndex == old(serialBufIndex)
      ensures out == old(out) + Stuff(Pending()) && crc == Crc(crc0, Pending())
    {
      ghost var o := out;
      crc := crc0;
      var i := 0;
      while i < serialBufIndex
        invariant 0 <= i <= serialBufIndex && serialBufIndex == old(serialBufIndex)
        invariant out == o + Stuff(serialBuf[..i]) && crc == Crc(crc0, serialBuf[..i])
      {
        assert serialBuf[..i + 1] == serialBuf[..i] + [serialBuf[i]];
        crc := WriteNext(o, crc0, serialBuf[..i], serialBuf[i], crc);
        i := i + 1;
      }
    }

    /** Zeros from the buffer index up to the buffer size. */
    method WritePadding(crc0: bv16) returns (crc: bv16)
      requires serialBufIndex <= UART1_PUTCHAR_BUF_SIZE
      modifies this
      ensures serialBufIndex == old(serialBufIndex)
      ensures out == old(out) + Stuff(Zeros(UART1_PUTCHAR_BUF_SIZE - serialBufIndex))
      ensures crc == Crc(crc0, Zeros(UART1_PUTCHAR_BUF_SIZE - serialBufIndex))
    {
      ghost var o := out;
      crc := crc0;
      var i := serialBufIndex;
      assert Zeros(0) == [];
      while i < UART1_PUTCHAR_BUF_SIZE
        invariant serialBufIndex <= i <= UART1_PUTCHAR_BUF_SIZE && serialBufIndex == old(serialBufIndex)
        invariant out == o + Stuff(Zeros(i - serialBufIndex)) && crc == Crc(crc0, Zeros(i - serialBufIndex))
      {
        assert Zeros(i + 1 - serialBufIndex) == Zeros(i - serialBufIndex) + [0x00];
        crc := WriteNext(o, crc0, Zeros(i - serialBufIndex), 0x00, crc);
        i := i + 1;
      }
    }

    /** The CRC, low byte then high byte (their own CRC is not used), and the closing flag. */
    method WriteTrailer(crc: bv16)
      modifies this
      ensures out == old(out) + Stuff(CrcBytes(crc)) + [SYNCH_BYTE]
      ensures serialBufIndex == old(serialBufIndex)
    {
      var b := CrcBytes(crc);
      ghost var o := out;
      var _ := WritebCrc(b[0], 0);
      var _ := WritebCrc(b[1], 0);
      StuffPair(b);
      WriteB(SYNCH_BYTE);
    }

    /**
     * The flush of putchar: the buffered characters go out as one frame and
     * the buffer is emptied.
     */
    method Flush()
      requires serialBufIndex <= serialBuf.Length == UART1_PUTCHAR_BUF_SIZE
      modifies this
      ensures serialBufIndex == 0
      ensures out == old(out) + Frame(old(Pending()))
    {
      ghost var p := Pending();
      var crc := WriteHeader();
      crc := WriteBuffered(crc);
      crc := WritePadding(crc);
      WriteTrailer(crc);
      FrameParts(old(out), p);
      serialBufIndex := 0;
    }

    /**
     * putchar with TinyOS frames: buffer the character; on a newline or a
     * full buffer, send the buffered characters as one frame and empty the
     * buffer. Returns its argument.
     */
    method PutcharFramed(c: i16) returns (r: i16)
      requires Valid()
      modifies this, serialBuf
      ensures Valid() && r == c
      ensures var ch := Wrap8(c) as byte;
              var p := old(Pending()) + [ch];
              if |p| < UART1_PUTCHAR_BUF_SIZE && ch != NEWLINE then Pending() == p && out == old(out)
              else Pending() == [] && out == old(out) + Frame(p)
    {
      var ch := Wrap8(c) as byte;
      ghost var p := Pending() + [ch];
      if serialBufIndex < UART1_PUTCHAR_BUF_SIZE {
        serialBuf[serialBufIndex] := ch;
        serialBufIndex := serialBufIndex + 1;
      }
      assert Pending() == p;
      if serialBufIndex == UART1_PUTCHAR_BUF_SIZE || ch == NEWLINE {
        Flush();
      }
      r := c;
    }

    /** putchar without frames: the character goes out as it is. */
    method PutcharPlain(c: i16) returns (r: i16)
      modifies this
      ensures out == old(out) + [Wrap8(c) as byte] && r == c
      ensures serialBufIndex == old(serialBufIndex)
    {
      WriteB(Wrap8(c) as byte);
      r := c;
    }
  }
}
