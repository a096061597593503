/**
 * The ACEINNA MTLT inclinometer on the J1939 bus (Inclinometer::ACEINNAInclinometer):
 * a fixed three-command configuration, and the decode of SSI2 (slope sensor
 * information 2) telemetry into a (pitch, roll) pair in radians.
 */
module ACEINNA {
  import opened Types
  import opened CANInterface
  import opened J1939

  /** Bus address of the sensor. */
  const AceinnaAddress: byte := 0x80
  /** Bus address this controller sends from. */
  const SourceAddress: byte := 0x11

  // The PGN enumeration; the command PGNs follow PgnOdr consecutively.
  const PgnEnabledPeriodicDataTypes: bv32 := 61366
  const PgnSsi2Data: bv32 := 61481
  const PgnOdr: bv32 := 65365
  const PgnPeriodicDataTypes: bv32 := PgnOdr + 1
  const PgnLowPass: bv32 := PgnOdr + 2
  const PgnOrientation: bv32 := PgnOdr + 3

  /**
   * Only PGN_ENABLED_PERIODIC_DATA_TYPES lies in the peer-to-peer range, so the
   * identifier of every command this controller sends goes out unchanged.
   */
  lemma PgnAddressing()
    ensures PgnPeriodicDataTypes == 65366 && PgnLowPass == 65367 && PgnOrientation == 65368
    ensures IsPeerToPeer(PgnEnabledPeriodicDataTypes)
    ensures !IsPeerToPeer(PgnSsi2Data) && !IsPeerToPeer(PgnOdr) && !IsPeerToPeer(PgnPeriodicDataTypes)
    ensures !IsPeerToPeer(PgnLowPass) && !IsPeerToPeer(PgnOrientation)
  {
  }

  // ---------------------------------------------------------------------------
  // Configuration

  /** The three commands `begin` sends, in order: 10 Hz output rate, SSI2 only, 2 Hz low pass. */
  function BeginCommands(): seq<J1939Message>
  {
    [ CommandMessage1(SourceAddress, AceinnaAddress, PgnOdr, 10),
      CommandMessage1(SourceAddress, AceinnaAddress, PgnPeriodicDataTypes, 1),
      CommandMessage1(SourceAddress, AceinnaAddress, PgnLowPass, 2) ]
  }

  /** The bytes J1939Interface::write puts on the serial port for a command to the sensor. */
  function CommandFrame(m: J1939Message): seq<byte>
  {
    EncodeFrame(ExtendedCanDataPacket(SentId(m, AceinnaAddress), m.data), true, false)
  }

  /**
   * The configuration commands go out with priority 6 from 0x11, their own
   * PGN as identifier (0x18FF5511 for the output-rate command), and the
   * destination 0x80 followed by the setting in the payload.
   */
  lemma BeginCommandContents()
    ensures var c := BeginCommands();
      && c[0].canID.canID == 0x18FF_5511 && c[0].data == [0x80, 10, 0, 0, 0, 0, 0, 0]
      && c[1].canID.canID == 0x18FF_5611 && c[1].data == [0x80, 1, 0, 0, 0, 0, 0, 0]
      && c[2].canID.canID == 0x18FF_5711 && c[2].data == [0x80, 2, 0, 0, 0, 0, 0, 0]
  {
  }

  /** No command is readdressed: each frame carries the identifier the message was built with. */
  lemma {:induction false} BeginFramesUnaddressed(k: nat)
    requires k < 3
    ensures SentId(BeginCommands()[k], AceinnaAddress) == BeginCommands()[k].canID.canID
  {
    PgnAddressing();
  }

  // ---------------------------------------------------------------------------
  // SSI2 decode

  /** A 24-bit code from three little-endian bytes: `hi << 16 | mid << 8 | lo`. */
  function Code24(lo: byte, mid: byte, hi: byte): bv32
  {
    ((hi as bv32) << 16) | ((mid as bv32) << 8) | (lo as bv32)
  }

  lemma Code24Bits(lo: bv32, mid: bv32, hi: bv32)
    requires lo < 256 && mid < 256 && hi < 256
    ensures var c := (hi << 16) | (mid << 8) | lo;
      && c < 0x100_0000
      && c & 0xFF == lo && (c >> 8) & 0xFF == mid && c >> 16 == hi
  {
  }

  /** The code is below 2^24 and each byte can be read back from it. */
  lemma {:induction false} Code24Fields(lo: byte, mid: byte, hi: byte)
    ensures Code24(lo, mid, hi) < 0x100_0000
    ensures Code24(lo, mid, hi) & 0xFF == lo as bv32
    ensures (Code24(lo, mid, hi) >> 8) & 0xFF == mid as bv32
    ensures Code24(lo, mid, hi) >> 16 == hi as bv32
  {
    Code24Bits(lo as bv32, mid as bv32, hi as bv32);
  }

  /** The value of a code is the little-endian value of its three bytes. */
  lemma {:induction false} Code24Value(lo: byte, mid: byte, hi: byte)
    ensures Code24(lo, mid, hi) as int == (hi as int) * 65536 + (mid as int) * 256 + lo as int
  {
    var c := Code24(lo, mid, hi);
    assert c == ((hi as bv32) << 16) | ((mid as bv32) << 8) | (lo as bv32);
    OrOfShiftedBytes(lo, mid, hi);
  }

  lemma OrOfShiftedBytes(lo: byte, mid: byte, hi: byte)
    ensures (((hi as bv32) << 16) | ((mid as bv32) << 8) | (lo as bv32)) as int
      == (hi as int) * 65536 + (mid as int) * 256 + lo as int
  {
  }

  /** The three payload bytes of a code, least significant first (as the sensor sends them). */
  function CodeBytes(code: bv32): seq<byte>
  {
    [(code & 0xFF) as byte, ((code >> 8) & 0xFF) as byte, ((code >> 16) & 0xFF) as byte]
  }

  lemma SplitJoin(code: bv32)
    requires code < 0x100_0000
    ensures ((((code >> 16) & 0xFF) << 16) | (((code >> 8) & 0xFF) << 8) | (code & 0xFF)) == code
  {
  }

  /** Decoding the bytes of a 24-bit code gives the code back. */
  lemma {:induction false} Code24OfCodeBytes(code: bv32)
    requires code < 0x100_0000
    ensures var b := CodeBytes(code); Code24(b[0], b[1], b[2]) == code
  {
    ByteCast(code & 0xFF);
    ByteCast((code >> 8) & 0xFF);
    ByteCast((code >> 16) & 0xFF);
    SplitJoin(code);
  }

  /** The linear code-to-degree map: code / 32768 - 250 (applied to the code's value). */
  function Degrees(code: int): real
  {
    code as real * (1.0 / 32768.0) - 250.0
  }

  /** The code the sensor uses for 0 degrees. */
  lemma DegreesZero()
    ensures Degrees(8192000) == 0.0
  {
  }

  /** 24-bit codes cover the range [-250, 262) degrees, in steps of 1/32768 degree. */
  lemma DegreesRange(code: int)
    requires 0 <= code < 0x100_0000
    ensures -250.0 <= Degrees(code) < 262.0
  {
  }

  /** The map is strictly increasing, so distinct codes give distinct angles. */
  lemma DegreesMonotone(c1: int, c2: int)
    requires c1 < c2
    ensures Degrees(c1) < Degrees(c2)
  {
  }

  function Radians(deg: real): real
  {
    deg * Pi / 180.0
  }

  /** The result of `getData` when there is no SSI2 telemetry. */
  const Sentinel: Vector2 := Vector2(-100.0, 100.0)

  /** What `getData` makes of a received message: (pitch, roll) in radians, or the sentinel. */
  function Interpret(m: J1939Message): (v: Vector2)
    ensures m.canID.pgn != PgnSsi2Data ==> v == Sentinel
  {
    if m.canID.pgn == PgnSsi2Data then
      Vector2(Radians(Degrees(Code24(m.data[0], m.data[1], m.data[2]) as int)),
              Radians(Degrees(Code24(m.data[3], m.data[4], m.data[5]) as int)))
    else
      Sentinel
  }

  lemma RadiansMonotone(a: real, b: real)
    ensures a <= b ==> Radians(a) <= Radians(b)
    ensures a < b ==> Radians(a) < Radians(b)
  {
  }

  lemma {:induction false} AngleRange(lo: byte, mid: byte, hi: byte)
    ensures Radians(-250.0) <= Radians(Degrees(Code24(lo, mid, hi) as int)) < Radians(262.0)
  {
    var d := Degrees(Code24(lo, mid, hi) as int);
    Code24Value(lo, mid, hi);
    DegreesRange(Code24(lo, mid, hi) as int);
    RadiansMonotone(-250.0, d);
    RadiansMonotone(d, 262.0);
  }

  /** SSI2 angles lie in [-250, 262) degrees, converted to radians. */
  lemma {:induction false} InterpretRange(m: J1939Message)
    requires m.canID.pgn == PgnSsi2Data
    ensures Radians(-250.0) <= Interpret(m).x < Radians(262.0)
    ensures Radians(-250.0) <= Interpret(m).y < Radians(262.0)
  {
    AngleRange(m.data[0], m.data[1], m.data[2]);
    AngleRange(m.data[3], m.data[4], m.data[5]);
  }

  /**
   * An SSI2 message whose payload starts with the pitch code and then the roll
   * code, each least significant byte first, is read as (pitch, roll).
   */
  lemma {:induction false} InterpretSsi2(id: J1939ID, pitch: bv32, roll: bv32, rest: seq<byte>)
    requires id.pgn == PgnSsi2Data && pitch < 0x100_0000 && roll < 0x100_0000 && |rest| == 2
    ensures var m := J1939Message(id, CodeBytes(pitch) + CodeBytes(roll) + rest);
      Interpret(m) == Vector2(Radians(Degrees(pitch as int)), Radians(Degrees(roll as int)))
  {
    var d := CodeBytes(pitch) + CodeBytes(roll) + rest;
    Code24OfCodeBytes(pitch);
    Code24OfCodeBytes(roll);
    assert d[0..3] == CodeBytes(pitch) && d[3..6] == CodeBytes(roll);
  }

  // ---------------------------------------------------------------------------
  // The sensor object

  class ACEINNAInclinometer {
    /** The J1939 interface to the CAN adapter. */
    const can: J1939Interface

    constructor (can: J1939Interface)
      ensures this.can == can
    {
      this.can := can;
    }

    /**
     * Configures the sensor: the three commands, then a flush of whatever was
     * received meanwhile. It always reports success.
     */
    method Begin() returns (ok: bool)
      modifies can.raw
      ensures ok
      ensures var c := BeginCommands();
        can.raw.tx == old(can.raw.tx) + CommandFrame(c[0]) + CommandFrame(c[1]) + CommandFrame(c[2])
      ensures can.raw.rx == []
    {
      var commands := BeginCommands();
      can.Write(commands[0], AceinnaAddress);
      can.Write(commands[1], AceinnaAddress);
      can.Write(commands[2], AceinnaAddress);
      can.raw.FlushBuffer();
      return true;
    }

    /** A raw packet's worth of bytes is buffered. */
    function HasData(): (r: bool)
      reads can.raw
      ensures r <==> |can.raw.rx| >= ReadFrameLength
    {
      can.raw.HasPacket()
    }

    /**
     * Reads one message and flushes the rest of the input, whatever its PGN;
     * with no data, nothing is consumed and the sentinel is returned.
     */
    method GetData() returns (v: Vector2)
      modifies can.raw`rx
      ensures old(HasData()) ==> can.raw.rx == [] && v == Interpret(FromPacket(DecodeFrame(old(can.raw.rx))))
      ensures !old(HasData()) ==> can.raw.rx == old(can.raw.rx) && v == Sentinel
    {
      if HasData() {
        // A packet is buffered, so the read never falls back to its uninitialised identifier.
        var m := can.Read(0);
        can.raw.FlushBuffer();
        if m.canID.pgn == PgnSsi2Data {
          var data := m.data;
          var pitch := Code24(data[0], data[1], data[2]);
          var roll := Code24(data[3], data[4], data[5]);
          var pitchAdjusted := Degrees(pitch as int);
          var rollAdjusted := Degrees(roll as int);
          return Vector2(Radians(pitchAdjusted), Radians(rollAdjusted));
        }
      }
      return Sentinel;
    }
  }
}
