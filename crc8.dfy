/** The integrity check of the sensor's 3-byte responses: a CRC-8 with
    polynomial x^8 + x^5 + x^4 + 1 (0x31), initial value 0, processed MSB
    first, no final XOR, over the two data bytes, compared with the third. */
module Crc8 {

  /** The generator polynomial without its x^8 term. */
  const Polynomial: bv8 := 0x31

  /** One shift of the bit-serial register. The source shifts a promoted int
      and stores it back into a uint8_t; bv8 makes that truncation explicit. */
  function Step(crc: bv8): bv8 {
    if crc & 0x80 != 0 then (crc << 1) ^ Polynomial else crc << 1
  }

  /** n shifts of the register. */
  function Steps(crc: bv8, n: nat): bv8 {
    if n == 0 then crc else Step(Steps(crc, n - 1))
  }

  /** Feeds one byte into the register: XOR it in, then shift eight times. */
  function CrcByte(crc: bv8, b: bv8): bv8 {
    Steps(crc ^ b, 8)
  }

  /** The CRC of the first n bytes of msg, starting from 0. */
  function CrcOf(msg: seq<bv8>, n: nat): bv8
    requires n <= |msg|
  {
    if n == 0 then 0 else CrcByte(CrcOf(msg, n - 1), msg[n - 1])
  }

  /** The CRC of the two data bytes of a response. */
  function Crc(msb: bv8, lsb: bv8): bv8 {
    CrcByte(CrcByte(0, msb), lsb)
  }

  /** A response frame passes the check: its third byte is the CRC of the
      first two. */
  predicate FrameValid(frame: seq<bv8>)
    requires |frame| == 3
  {
    Crc(frame[0], frame[1]) == frame[2]
  }

  /** checkCRC8: the bit-serial computation, nested loops over the two data
      bytes and their eight bits; the third byte is only compared. */
  method CheckCrc8(data: seq<bv8>) returns (ok: bool)
    requires |data| == 3
    ensures ok == FrameValid(data)
  {
    var crc: bv8 := 0;
    for i := 0 to 2
      invariant crc == CrcOf(data, i)
    {
      crc := crc ^ data[i];
      ghost var fed := crc;
      var b := 7;
      while b >= 0
        invariant -1 <= b <= 7
        invariant crc == Steps(fed, 7 - b)
        decreases b + 1
      {
        if crc & 0x80 != 0 {
          crc := (crc << 1) ^ 0x31;
        } else {
          crc := crc << 1;
        }
        b := b - 1;
      }
    }
    assert CrcOf(data, 1) == CrcByte(0, data[0]);
    ok := crc == data[2];
  }

  /** Builds the frame the sensor sends for two data bytes: it passes the
      check, and no other third byte does. */
  function AppendCrc(msb: bv8, lsb: bv8): (frame: seq<bv8>)
    ensures |frame| == 3 && frame[0] == msb && frame[1] == lsb
    ensures FrameValid(frame)
    ensures forall c: bv8 :: FrameValid([msb, lsb, c]) <==> c == frame[2]
  {
    [msb, lsb, Crc(msb, lsb)]
  }

  /** One shift is linear over exclusive or. */
  lemma StepXor(x: bv8, y: bv8)
    ensures Step(x ^ y) == Step(x) ^ Step(y)
  {
    var hx, hy := x & 0x80 != 0, y & 0x80 != 0;
    assert (x ^ y) << 1 == (x << 1) ^ (y << 1);
    assert ((x ^ y) & 0x80 != 0) == (hx != hy);
  }

  /** One shift maps only 0 to 0 (it is a bijection of bytes). */
  lemma StepNonZero(x: bv8)
    requires x != 0
    ensures Step(x) != 0
  {
  }

  lemma {:induction false} StepsXor(x: bv8, y: bv8, n: nat)
    ensures Steps(x ^ y, n) == Steps(x, n) ^ Steps(y, n)
  {
    if n > 0 {
      StepsXor(x, y, n - 1);
      StepXor(Steps(x, n - 1), Steps(y, n - 1));
    }
  }

  lemma {:induction false} StepsNonZero(x: bv8, n: nat)
    requires x != 0
    ensures Steps(x, n) != 0
  {
    if n > 0 {
      StepsNonZero(x, n - 1);
      StepNonZero(Steps(x, n - 1));
    }
  }

  /** Feeding a byte is linear in the register and the byte together. */
  lemma CrcByteXor(c: bv8, b: bv8, d: bv8, e: bv8)
    ensures CrcByte(c ^ d, b ^ e) == CrcByte(c, b) ^ CrcByte(d, e)
  {
    assert (c ^ d) ^ (b ^ e) == (c ^ b) ^ (d ^ e);
    StepsXor(c ^ b, d ^ e, 8);
  }

  /** The CRC has no initial value and no final XOR, so it is linear: the CRC
      of a corrupted pair of bytes is the CRC of the pair XOR the CRC of the
      error pattern. */
  lemma CrcXor(a0: bv8, a1: bv8, e0: bv8, e1: bv8)
    ensures Crc(a0 ^ e0, a1 ^ e1) == Crc(a0, a1) ^ Crc(e0, e1)
  {
    CrcByteXor(0, a0, 0, e0);
    CrcByteXor(CrcByte(0, a0), a1, CrcByte(0, e0), e1);
  }

  /** Any nonzero error pattern confined to one data byte has a nonzero CRC. */
  lemma OneByteErrorCrc(e: bv8)
    requires e != 0
    ensures Crc(e, 0) != 0 && Crc(0, e) != 0
  {
    StepsNonZero(e, 8);
    StepsNonZero(Steps(e, 8), 8);
    StepsXor(0, 0, 8);
    assert CrcByte(0, 0) == 0;
  }

  /** Corrupting exactly one of the two data bytes changes their CRC. */
  lemma DataErrorChangesCrc(d0: bv8, d1: bv8, e0: bv8, e1: bv8)
    requires (e0 == 0) != (e1 == 0)
    ensures Crc(d0 ^ e0, d1 ^ e1) != Crc(d0, d1)
  {
    CrcXor(d0, d1, e0, e1);
    if e0 == 0 {
      OneByteErrorCrc(e1);
    } else {
      OneByteErrorCrc(e0);
    }
  }

  /** Corrupting exactly one byte of a valid frame, data or CRC byte, with
      any nonzero error pattern (in particular any single flipped bit) makes
      the frame fail the check. */
  lemma OneByteErrorDetected(msb: bv8, lsb: bv8, crc: bv8, e0: bv8, e1: bv8, e2: bv8)
    requires FrameValid([msb, lsb, crc])
    requires || (e0 != 0 && e1 == 0 && e2 == 0)
             || (e0 == 0 && e1 != 0 && e2 == 0)
             || (e0 == 0 && e1 == 0 && e2 != 0)
    ensures !FrameValid([msb ^ e0, lsb ^ e1, crc ^ e2])
  {
    if e2 == 0 {
      DataErrorChangesCrc(msb, lsb, e0, e1);
      assert crc ^ e2 == crc;
    } else {
      assert msb ^ e0 == msb && lsb ^ e1 == lsb;
      assert crc ^ e2 != crc;
    }
  }

  /** The worked example of the sensor's datasheet: the data bytes 0x68 0x3A
      carry the checksum 0x7C. */
  lemma DatasheetExample()
    ensures FrameValid([0x68, 0x3A, 0x7C])
  {
    assert CrcByte(0, 0x68) == 0x02 by {
      assert Steps(0x68, 1) == 0xD0;
      assert Steps(0x68, 2) == 0x91;
      assert Steps(0x68, 3) == 0x13;
      assert Steps(0x68, 4) == 0x26;
      assert Steps(0x68, 5) == 0x4C;
      assert Steps(0x68, 6) == 0x98;
      assert Steps(0x68, 7) == 0x01;
    }
    assert CrcByte(0x02, 0x3A) == 0x7C by {
      assert Steps(0x38, 1) == 0x70;
      assert Steps(0x38, 2) == 0xE0;
      assert Steps(0x38, 3) == 0xF1;
      assert Steps(0x38, 4) == 0xD3;
      assert Steps(0x38, 5) == 0x97;
      assert Steps(0x38, 6) == 0x1F;
      assert Steps(0x38, 7) == 0x3E;
    }
  }
}
