/**
 * The ADXL355 three-axis accelerometer on SPI (class ADXL355): the command
 * byte of each SPI transaction, the configuration sequence of `begin`, the
 * 24-bit decode of a 9-byte data burst with its sign conversion, and the
 * range-dependent scale of `getSample`.
 *
 * The SPI bus is modelled by `spi`, the bytes shifted out in each chip-select
 * window, oldest first; the bytes the device shifts back are parameters.
 */
module ADXL355 {
  import opened Types

  // Registers
  const RegStatus: byte := 0x04
  const RegXData3: byte := 0x08
  const RegAccelerometerDataBegin: byte := RegXData3
  const RegFilter: byte := 0x28
  const RegRange: byte := 0x2C
  const RegPowerControl: byte := 0x2D
  const RegReset: byte := 0x2F

  // Internal constants
  const MeasureMode: byte := 0x06
  const SpiWriteBit: byte := 0x00
  const SpiReadBit: byte := 0x01

  // Public constants
  const Range2G: byte := 0x01
  const Range4G: byte := 0x02
  const Range8G: byte := 0x03
  const FilterOff: byte := 0x00

  /** The value register 0 (the analog devices ID) must read back. */
  const DeviceId: byte := 0xAD

  // ---------------------------------------------------------------------------
  // SPI command byte

  /** The first byte of a transaction: the register address shifted left, then the read/write bit. */
  function SpiCommand(address: byte, rwBit: byte): byte
  {
    (address << 1) | rwBit
  }

  /** For 7-bit addresses the command byte holds the address in bits 7..1 and the read/write bit in bit 0. */
  lemma SpiCommandFields(address: byte, rwBit: byte)
    requires address < 0x80 && rwBit <= 1
    ensures SpiCommand(address, rwBit) >> 1 == address
    ensures SpiCommand(address, rwBit) & 1 == rwBit
  {
  }

  /** A read and a write of the same register are never confused. */
  lemma ReadAndWriteDiffer(address: byte)
    ensures SpiCommand(address, SpiReadBit) != SpiCommand(address, SpiWriteBit)
    ensures SpiCommand(address, SpiReadBit) & 1 == 1 && SpiCommand(address, SpiWriteBit) & 1 == 0
  {
  }

  /** `n` zero bytes: what is shifted out while the device answers. */
  function Zeros(n: nat): (r: seq<byte>)
    ensures |r| == n && forall i :: 0 <= i < n ==> r[i] == 0
  {
    if n == 0 then [] else Zeros(n - 1) + [0]
  }

  /** The transactions `begin` performs: reset, range, filter, measure mode, then a read of register 0. */
  function BeginTransactions(range: byte, filter: byte): seq<seq<byte>>
  {
    [ [SpiCommand(RegReset, SpiWriteBit), 0x00],
      [SpiCommand(RegRange, SpiWriteBit), range],
      [SpiCommand(RegFilter, SpiWriteBit), filter],
      [SpiCommand(RegPowerControl, SpiWriteBit), MeasureMode],
      [SpiCommand(0x00, SpiReadBit), 0x00] ]
  }

  /**
   * The register order of `begin`: four writes (reset, range, filter, power
   * control), the range and filter values passed through, then one read of
   * register 0.
   */
  lemma {:induction false} BeginRegisterOrder(range: byte, filter: byte)
    ensures var t := BeginTransactions(range, filter);
      && |t| == 5
      && (forall k :: 0 <= k < 5 ==> |t[k]| == 2)
      && [t[0][0] >> 1, t[1][0] >> 1, t[2][0] >> 1, t[3][0] >> 1, t[4][0] >> 1]
         == [RegReset, RegRange, RegFilter, RegPowerControl, 0x00]
      && (forall k :: 0 <= k < 4 ==> t[k][0] & 1 == SpiWriteBit)
      && t[4][0] & 1 == SpiReadBit
      && t[1][1] == range && t[2][1] == filter && t[3][1] == MeasureMode
  {
    SpiCommandFields(RegReset, SpiWriteBit);
    SpiCommandFields(RegRange, SpiWriteBit);
    SpiCommandFields(RegFilter, SpiWriteBit);
    SpiCommandFields(RegPowerControl, SpiWriteBit);
    SpiCommandFields(0x00, SpiReadBit);
  }

  /** The single transaction of a burst read: the command byte, then one zero per byte read. */
  function BurstTransaction(startAddress: byte, count: nat): seq<byte>
  {
    [SpiCommand(startAddress, SpiReadBit)] + Zeros(count)
  }

  /** One more register read appends one more 0x00. */
  lemma BurstTransactionSnoc(start: byte, n: nat)
    ensures BurstTransaction(start, n + 1) == BurstTransaction(start, n) + [0]
  {
  }

  // ---------------------------------------------------------------------------
  // Sample decode

  /** Bit 23: the sign bit of a 24-bit two's complement value. */
  const SignBit: int := 0x80_0000

  /** One axis from its three burst bytes, most significant first, masked to 24 bits. */
  function RawAxis(b0: byte, b1: byte, b2: byte): bv32
  {
    ((b2 as bv32) | ((b1 as bv32) << 8) | ((b0 as bv32) << 16)) & 0xFF_FFFF
  }

  lemma MaskedOrOfShiftedBytes(b0: byte, b1: byte, b2: byte)
    ensures (((b2 as bv32) | ((b1 as bv32) << 8) | ((b0 as bv32) << 16)) & 0xFF_FFFF) as int
      == (b0 as int) * 65536 + (b1 as int) * 256 + b2 as int
  {
  }

  /** The raw axis is the big-endian value of its three bytes, so it is below 2^24. */
  lemma {:induction false} RawAxisValue(b0: byte, b1: byte, b2: byte)
    ensures RawAxis(b0, b1, b2) as int == (b0 as int) * 65536 + (b1 as int) * 256 + b2 as int
    ensures 0 <= RawAxis(b0, b1, b2) as int < 2 * SignBit
  {
    assert RawAxis(b0, b1, b2) == ((b2 as bv32) | ((b1 as bv32) << 8) | ((b0 as bv32) << 16)) & 0xFF_FFFF;
    MaskedOrOfShiftedBytes(b0, b1, b2);
  }

  /** The 24-bit two's complement reading of a raw value, the device's own data format. */
  function TwosComplement24(raw: int): int
  {
    if raw >= SignBit then raw - 2 * SignBit else raw
  }

  /**
   * The sign conversion as written. It agrees with two's complement everywhere
   * except at 2^23, which the device means as -2^23 and the conversion keeps
   * as +2^23.
   */
  function SignConvert(raw: int): (r: int)
    ensures r == TwosComplement24(raw) <==> raw != SignBit
    ensures raw == SignBit ==> r == -TwosComplement24(raw)
  {
    if raw > SignBit then -((SignBit * 2) - raw) else raw
  }

  /** Every converted 24-bit value lies in [-(2^23 - 1), 2^23]. */
  lemma SignConvertRange(raw: int)
    requires 0 <= raw < 2 * SignBit
    ensures -(SignBit - 1) <= SignConvert(raw) <= SignBit
  {
  }

  /** The three raw axes of a 9-byte burst (x, y, z, three bytes each). */
  function RawAxes(burst: seq<byte>): seq<int>
    requires |burst| == 9
  {
    [ RawAxis(burst[0], burst[1], burst[2]) as int,
      RawAxis(burst[3], burst[4], burst[5]) as int,
      RawAxis(burst[6], burst[7], burst[8]) as int ]
  }

  /** Each of three axes sign-converted. */
  function SignConverted(axes: seq<int>): seq<int>
    requires |axes| == 3
  {
    [SignConvert(axes[0]), SignConvert(axes[1]), SignConvert(axes[2])]
  }

  /** The three axes `takeSample` leaves from a burst. */
  function SampleAxes(burst: seq<byte>): (r: seq<int>)
    requires |burst| == 9
    ensures |r| == 3
    ensures r[0] == SignConvert(RawAxis(burst[0], burst[1], burst[2]) as int)
    ensures r[1] == SignConvert(RawAxis(burst[3], burst[4], burst[5]) as int)
    ensures r[2] == SignConvert(RawAxis(burst[6], burst[7], burst[8]) as int)
  {
    SignConverted(RawAxes(burst))
  }

  /** Every axis of every sample lies in [-(2^23 - 1), 2^23]. */
  lemma {:induction false} SampleAxesRange(burst: seq<byte>)
    requires |burst| == 9
    ensures forall k :: 0 <= k < 3 ==> -(SignBit - 1) <= SampleAxes(burst)[k] <= SignBit
  {
    RawAxisValue(burst[0], burst[1], burst[2]);
    RawAxisValue(burst[3], burst[4], burst[5]);
    RawAxisValue(burst[6], burst[7], burst[8]);
    SignConvertRange(RawAxis(burst[0], burst[1], burst[2]) as int);
    SignConvertRange(RawAxis(burst[3], burst[4], burst[5]) as int);
    SignConvertRange(RawAxis(burst[6], burst[7], burst[8]) as int);
  }

  // ---------------------------------------------------------------------------
  // Scale

  function Pow2(n: nat): (r: nat)
    ensures r >= 1
  {
    if n == 0 then 1 else 2 * Pow2(n - 1)
  }

  /**
   * LSB per g for a range setting: `(2 << ((3 - range) + 5)) * 1000`. A range
   * above 8 would be a negative shift count.
   */
  function Scale(range: byte): int
    requires range <= 8
  {
    2 * Pow2(8 - range as int) * 1000
  }

  /** The three documented ranges give 256000, 128000 and 64000. */
  lemma ScaleOfRanges()
    ensures Scale(Range2G) == 256000 && Scale(Range4G) == 128000 && Scale(Range8G) == 64000
  {
    assert Pow2(5) == 32 && Pow2(6) == 64 && Pow2(7) == 128;
  }

  /** Each range step halves the scale. */
  lemma ScaleHalves(range: byte)
    requires 1 <= range <= 8
    ensures Scale(range - 1) == 2 * Scale(range)
  {
  }

  datatype Measurement = Measurement(x: real, y: real, z: real)

  /** A measurement: each axis divided by the scale. */
  function Measure(axes: seq<int>, range: byte): (m: Measurement)
    requires |axes| == 3 && range <= 8
  {
    var scale := Scale(range) as real;
    Measurement(axes[0] as real / scale, axes[1] as real / scale, axes[2] as real / scale)
  }

  /** Scaling back a measurement recovers the axes, so no two samples read alike. */
  lemma MeasureInverse(axes: seq<int>, range: byte)
    requires |axes| == 3 && range <= 8
    ensures var m := Measure(axes, range); var scale := Scale(range) as real;
      m.x * scale == axes[0] as real && m.y * scale == axes[1] as real && m.z * scale == axes[2] as real
  {
  }

  // ---------------------------------------------------------------------------
  // The device object

  class ADXL355 {
    /** The last sample, one `long` per axis. */
    const axes: array<int>
    /** The range setting stored by `begin`. */
    var range: byte
    /** Bytes shifted out on the bus, one sequence per chip-select window. */
    var spi: seq<seq<byte>>

    /** The source leaves `axes` and `range` indeterminate until `begin` and `takeSample`; here they start at 0. */
    constructor ()
      ensures axes.Length == 3 && fresh(axes) && axes[..] == [0, 0, 0]
      ensures range == 0 && spi == []
    {
      axes := new int[3](_ => 0);
      range := 0;
      spi := [];
    }

    method SpiWriteByte(address: byte, toWrite: byte)
      modifies this`spi
      ensures spi == old(spi) + [[SpiCommand(address, SpiWriteBit), toWrite]]
    {
      spi := spi + [[(address << 1) | SpiWriteBit, toWrite]];
    }

    /** `response` is the byte the device shifts back. */
    method SpiReadByte(address: byte, response: byte) returns (result: byte)
      modifies this`spi
      ensures spi == old(spi) + [[SpiCommand(address, SpiReadBit), 0x00]]
      ensures result == response
    {
      result := 0x00;
      spi := spi + [[(address << 1) | SpiReadBit, 0x00]];
      result := response;
    }

    /** Reads `bufferSize` consecutive registers; `incoming` is what the device shifts back. */
    method SpiMultibyteRead(buf: array<byte>, bufferSize: nat, startAddress: byte, incoming: seq<byte>)
      requires bufferSize <= buf.Length && |incoming| == bufferSize
      modifies this`spi, buf
      ensures spi == old(spi) + [BurstTransaction(startAddress, bufferSize)]
      ensures buf[..bufferSize] == incoming && buf[bufferSize..] == old(buf[bufferSize..])
    {
      var sent := ShiftIn(buf, bufferSize, startAddress, incoming);
      spi := spi + [sent];
    }

    /**
     * The transfer loop of a burst read: the read command, then one 0x00 per
     * register while the device's bytes are stored into `buf`.
     */
    static method ShiftIn(buf: array<byte>, bufferSize: nat, startAddress: byte, incoming: seq<byte>)
      returns (sent: seq<byte>)
      requires bufferSize <= buf.Length && |incoming| == bufferSize
      modifies buf
      ensures sent == BurstTransaction(startAddress, bufferSize)
      ensures buf[..bufferSize] == incoming && buf[bufferSize..] == old(buf[bufferSize..])
    {
      sent := [(startAddress << 1) | SpiReadBit];
      for i := 0 to bufferSize
        invariant sent == BurstTransaction(startAddress, i)
        invariant forall k :: 0 <= k < i ==> buf[k] == incoming[k]
        invariant forall k :: i <= k < buf.Length ==> buf[k] == old(buf[k])
      {
        BurstTransactionSnoc(startAddress, i);
        sent := sent + [0x00];
        buf[i] := incoming[i];
      }
      assert buf[..bufferSize] == incoming;
    }

    /**
     * Stores the range and configures the device, with the filter off unless
     * one is given; `idResponse` is what register 0 reads back. Succeeds iff
     * that is the device ID.
     */
    method Begin(range: byte, filter: byte := FilterOff, idResponse: byte) returns (ok: bool)
      modifies this`range, this`spi
      ensures this.range == range
      ensures spi == old(spi) + BeginTransactions(range, filter)
      ensures ok <==> idResponse == DeviceId
    {
      this.range := range;
      SpiWriteByte(RegReset, 0x00);
      SpiWriteByte(RegRange, range);
      SpiWriteByte(RegFilter, filter);
      SpiWriteByte(RegPowerControl, MeasureMode);
      var adbyte := SpiReadByte(0x00, idResponse);
      ok := adbyte == 0xAD;
    }

    /** Reads the 9 data registers from XDATA3 on; `burst` is what the device shifts back. */
    method TakeSample(burst: seq<byte>)
      requires |burst| == 9 && axes.Length == 3
      modifies this`spi, axes
      ensures spi == old(spi) + [BurstTransaction(RegAccelerometerDataBegin, 9)]
      ensures axes[..] == SampleAxes(burst)
    {
      var bytebuf := new byte[9](_ => 0);
      SpiMultibyteRead(bytebuf, 9, RegAccelerometerDataBegin, burst);
      assert bytebuf[..] == burst;
      // The copy into `unsigned long buf[9]` is the widening cast inside RawAxis.
      axes[0] := RawAxis(bytebuf[0], bytebuf[1], bytebuf[2]) as int;
      axes[1] := RawAxis(bytebuf[3], bytebuf[4], bytebuf[5]) as int;
      axes[2] := RawAxis(bytebuf[6], bytebuf[7], bytebuf[8]) as int;
      assert axes[..] == RawAxes(burst);
      ConvertSigns();
    }

    /** The sign-conversion loop of `takeSample`, over the three axes in place. */
    method ConvertSigns()
      requires axes.Length == 3
      modifies axes
      ensures axes[..] == SignConverted(old(axes[..]))
    {
      var mask: int := SignBit;
      for i := 0 to 3
        invariant forall k :: 0 <= k < i ==> axes[k] == SignConvert(old(axes[k]))
        invariant forall k :: i <= k < 3 ==> axes[k] == old(axes[k])
      {
        if axes[i] > mask {
          axes[i] := -((mask * 2) - axes[i]);
        }
      }
      assert axes[..] == SignConverted(old(axes[..])) by {
        assert axes[0] == SignConverted(old(axes[..]))[0];
        assert axes[1] == SignConverted(old(axes[..]))[1];
        assert axes[2] == SignConverted(old(axes[..]))[2];
      }
    }

    /** The last sample in g for the stored range. */
    method GetSample() returns (m: Measurement)
      requires axes.Length == 3 && range <= 8
      ensures m == Measure(axes[..], range)
    {
      var scale := Scale(range);
      m := Measurement(axes[0] as real / (1.0 * scale as real),
                       axes[1] as real / (1.0 * scale as real),
                       axes[2] as real / (1.0 * scale as real));
    }
  }
}
