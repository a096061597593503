/**
 * The serial-to-CAN adapter codec (CAN::RawInterface).
 *
 * The adapter is reached through a serial port. The port is modelled by two
 * byte sequences: `rx`, the bytes received and not yet consumed, and `tx`,
 * every byte written so far. A packet is written as a 14-byte frame
 * (identifier, extended flag, remote-request flag, payload) but read back as a
 * 12-byte frame (identifier, payload) without the two flag bytes.
 */
module CANInterface {
  import opened Wrappers
  import opened Types

  /** The eight data bytes of a CAN 2.0 frame. */
  type Payload = s: seq<byte> | |s| == 8 witness [0, 0, 0, 0, 0, 0, 0, 0]

  const ZeroPayload: Payload := [0, 0, 0, 0, 0, 0, 0, 0]

  /** An extended CAN 2.0 packet: a 29-bit identifier in a 32-bit container and 8 bytes. */
  datatype ExtendedCanDataPacket = ExtendedCanDataPacket(id: bv32, data: Payload)

  const WriteFrameLength: nat := 14
  const ReadFrameLength: nat := 12

  // ---------------------------------------------------------------------------
  // Serial baud rates

  /** Ordinal of the first and one past the last SerialBaudrate enumerator. */
  const BaudStart: nat := 0
  const BaudEnd: nat := 5

  /**
   * The bit rate of a SerialBaudrate enumerator. The source's switch has no
   * return for any other value; that case is `None` here.
   */
  function SerialBaudToBaud(s: nat): (r: Option<nat>)
    ensures r.Some? <==> BaudStart <= s < BaudEnd
    ensures r.Some? ==> r.value % 9600 == 0
  {
    if s == 0 then Some(9600)
    else if s == 1 then Some(19200)
    else if s == 2 then Some(38400)
    else if s == 3 then Some(57600)
    else if s == 4 then Some(115200)
    else None
  }

  /** The enumeration order is the speed order, so distinct enumerators give distinct rates. */
  lemma BaudRatesIncrease(s: nat, t: nat)
    requires s < t < BaudEnd
    ensures SerialBaudToBaud(s).value < SerialBaudToBaud(t).value
  {
  }

  // ---------------------------------------------------------------------------
  // Frame layouts

  /** Accumulates bytes most-significant first, as the read loop does (`id <<= 8; id += b`). */
  function BigEndian(bs: seq<byte>): bv32
  {
    if |bs| == 0 then 0 else (BigEndian(bs[..|bs| - 1]) << 8) + bs[|bs| - 1] as bv32
  }

  function FlagByte(b: bool): byte
  {
    if b then 1 else 0
  }

  /** The 14 bytes `write` streams out for a packet. */
  function EncodeFrame(p: ExtendedCanDataPacket, extBit: bool, rtrBit: bool): seq<byte>
  {
    IdBytes(p.id) + [FlagByte(extBit), FlagByte(rtrBit)] + p.data
  }

  /** The packet `read` rebuilds from the first 12 received bytes. */
  function DecodeFrame(bs: seq<byte>): ExtendedCanDataPacket
    requires |bs| >= ReadFrameLength
  {
    ExtendedCanDataPacket(BigEndian(bs[..4]), bs[4..12])
  }

  lemma ByteCast(x: bv32)
    requires x < 256
    ensures (x as byte) as bv32 == x
  {
  }

  lemma BigEndianSnoc(bs: seq<byte>, x: byte)
    ensures BigEndian(bs + [x]) == (BigEndian(bs) << 8) + x as bv32
  {
    assert (bs + [x])[..|bs|] == bs;
  }

  lemma {:induction false} BigEndianOfFour(a: byte, b: byte, c: byte, d: byte)
    ensures BigEndian([a, b, c, d]) == ((((((a as bv32) << 8) + b as bv32) << 8) + c as bv32) << 8) + d as bv32
  {
    BigEndianSnoc([], a);
    assert [] + [a] == [a];
    BigEndianSnoc([a], b);
    assert [a] + [b] == [a, b];
    BigEndianSnoc([a, b], c);
    assert [a, b] + [c] == [a, b, c];
    BigEndianSnoc([a, b, c], d);
    assert [a, b, c] + [d] == [a, b, c, d];
  }

  lemma ShiftBytesBack(id: bv32)
    ensures ((((((id >> 24) << 8) + ((id >> 16) & 0xFF)) << 8) + ((id >> 8) & 0xFF)) << 8) + (id & 0xFF) == id
  {
  }

  /**
   * The identifier split into four bytes, most significant first: accumulating
   * them as the read loop does gives the identifier back.
   */
  function IdBytes(id: bv32): (r: seq<byte>)
    ensures |r| == 4
    ensures BigEndian(r) == id
  {
    ByteCast(id >> 24);
    ByteCast((id >> 16) & 0xFF);
    ByteCast((id >> 8) & 0xFF);
    ByteCast(id & 0xFF);
    var r := [(id >> 24) as byte, ((id >> 16) & 0xFF) as byte, ((id >> 8) & 0xFF) as byte, (id & 0xFF) as byte];
    BigEndianOfFour(r[0], r[1], r[2], r[3]);
    ShiftBytesBack(id);
    r
  }

  /** Layout of the write frame: identifier bytes, the two flags, then the payload. */
  lemma EncodeFrameLayout(p: ExtendedCanDataPacket, extBit: bool, rtrBit: bool)
    ensures var f := EncodeFrame(p, extBit, rtrBit);
      && |f| == WriteFrameLength
      && f[..4] == IdBytes(p.id)
      && f[4] == FlagByte(extBit) && f[5] == FlagByte(rtrBit)
      && f[6..] == p.data
  {
  }

  /**
   * Decoding the identifier and payload bytes of a write frame with the read
   * layout gives back the packet: the read layout simply lacks the two flag bytes.
   */
  lemma {:induction false} WriteThenReadLayoutRoundTrip(p: ExtendedCanDataPacket, extBit: bool, rtrBit: bool)
    ensures var f := EncodeFrame(p, extBit, rtrBit);
      DecodeFrame(f[..4] + f[6..14]) == p
  {
    var f := EncodeFrame(p, extBit, rtrBit);
    var g := f[..4] + f[6..14];
    assert g[..4] == IdBytes(p.id);
    assert f[6..14] == p.data;
    assert g[4..12] == p.data;
  }

  /**
   * The layouts are not symmetric: reading a write frame back verbatim puts the
   * two flag bytes where the read layout expects the first two payload bytes.
   */
  lemma {:induction false} WriteFrameReadVerbatimIsShifted(p: ExtendedCanDataPacket, extBit: bool, rtrBit: bool)
    ensures var q := DecodeFrame(EncodeFrame(p, extBit, rtrBit));
      && q.id == p.id
      && q.data[0] == FlagByte(extBit) && q.data[1] == FlagByte(rtrBit)
      && q.data[2..] == p.data[..6]
  {
    var f := EncodeFrame(p, extBit, rtrBit);
    assert f[..4] == IdBytes(p.id);
  }

  // ---------------------------------------------------------------------------
  // The adapter

  class RawInterface {
    /** Bytes received on the serial port and not yet consumed. */
    var rx: seq<byte>
    /** Every byte written to the serial port, oldest first. */
    var tx: seq<byte>

    constructor (pending: seq<byte>)
      ensures rx == pending && tx == []
    {
      rx := pending;
      tx := [];
    }

    /** Drains the receive queue one byte at a time. */
    method FlushBuffer()
      modifies this`rx
      ensures rx == []
    {
      while |rx| > 0
        decreases |rx|
      {
        rx := rx[1..];
      }
    }

    /** Streams out the 14-byte frame of a packet; by default extended and not remote-request. */
    method Write(p: ExtendedCanDataPacket, extBit: bool := true, rtrBit: bool := false)
      modifies this`tx
      ensures tx == old(tx) + EncodeFrame(p, extBit, rtrBit)
    {
      var dta := FrameBuffer(p, extBit, rtrBit);
      for i := 0 to 14
        modifies this`tx
        invariant tx == old(tx) + dta[..i]
      {
        tx := tx + [dta[i]];
      }
      assert dta[..14] == dta[..];
    }

    /** The buffer `write` fills before streaming it: header bytes, flags, then the payload. */
    static method FrameBuffer(p: ExtendedCanDataPacket, extBit: bool, rtrBit: bool) returns (dta: array<byte>)
      ensures fresh(dta)
      ensures dta[..] == EncodeFrame(p, extBit, rtrBit)
    {
      dta := new byte[14](_ => 0);
      var id := p.id;
      dta[0] := (id >> 24) as byte;
      dta[1] := ((id >> 16) & 0xFF) as byte;
      dta[2] := ((id >> 8) & 0xFF) as byte;
      dta[3] := (id & 0xFF) as byte;
      assert dta[..4] == IdBytes(id);
      dta[4] := if extBit == true then 1 else 0;
      dta[5] := if rtrBit == true then 1 else 0;
      assert dta[..6] == IdBytes(id) + [FlagByte(extBit), FlagByte(rtrBit)] by {
        assert dta[..6] == dta[..4] + [dta[4], dta[5]];
      }
      CopyPayload(dta, p.data);
      assert dta[..] == dta[..6] + dta[6..];
    }

    /** The payload loop of `write`: bytes 6..13 of the buffer take the data bytes. */
    static method CopyPayload(dta: array<byte>, data: Payload)
      requires dta.Length == WriteFrameLength
      modifies dta
      ensures dta[..6] == old(dta[..6]) && dta[6..] == data
    {
      for i := 0 to 8
        invariant dta[..6] == old(dta[..6])
        invariant forall k :: 6 <= k < 6 + i ==> dta[k] == data[k - 6]
      {
        dta[6 + i] := data[i];
      }
    }

    /** Enough bytes for one read frame are buffered (the frame itself is not checked). */
    function HasPacket(): (r: bool)
      reads this
      ensures r <==> |rx| >= ReadFrameLength
    {
      |rx| >= 12
    }

    /**
     * Reads one packet if 12 bytes are buffered. Otherwise nothing is consumed
     * and the caller's packet `p` is returned unchanged.
     */
    method Read(p: ExtendedCanDataPacket) returns (ok: bool, q: ExtendedCanDataPacket)
      modifies this`rx
      ensures ok == old(HasPacket())
      ensures ok ==> rx == old(rx)[ReadFrameLength..] && q == DecodeFrame(old(rx))
      ensures !ok ==> rx == old(rx) && q == p
    {
      if HasPacket() {
        var buf := new byte[12](_ => 0);
        for i := 0 to 12
          invariant rx == old(rx)[i..]
          invariant buf[..i] == old(rx)[..i]
        {
          buf[i] := rx[0];
          rx := rx[1..];
        }
        var id: bv32 := 0;
        for i := 0 to 4
          invariant id == BigEndian(buf[..i])
        {
          assert buf[..i + 1][..i] == buf[..i];
          id := id << 8;
          id := id + buf[i] as bv32;
        }
        assert buf[..4] == old(rx)[..4];
        q := ExtendedCanDataPacket(id, buf[4..12]);
        ok := true;
      } else {
        ok := false;
        q := p;
      }
    }
  }
}
