# PoolPLC self-levelling platform controller, modelled in Dafny

PoolPLC runs on an Arduino-class board (16-bit `int`, 32-bit `long`) and keeps
a pool platform level. It does this by driving four corner rams. The model covers the following parts:

- **CAN adapter codec.** The serial-to-CAN adapter writes 14-byte frames and reads 12-byte frames (`CANInterface`).
- **SAE J1939 layer.** This covers identifier build and parse, command messages, and peer-to-peer readdressing (`J1939`).
- **ACEINNA inclinometer.** The model covers its three-command configuration and the decode of SSI2 telemetry to radians (`ACEINNA`).
- **ADXL355 accelerometer on SPI.** This covers the command bytes, the `begin` sequence, the 24-bit burst decode with its sign conversion, and the range scale (`ADXL355`).
- **Moving averages.** One exponentially weighted moving average, and three of them per accelerometer axis (`Smoothing`, `AccelerometerFiltering`).
- **Fault latch table.** The eight-entry table with its fatal and recoverable ranges and its unlatch events (`FaultHandling`).
- **Highest-corner algorithm.** Its band and deadband logic, and the opposite-corner lookup used when lowering (`HighestCorner`).
- **Motion controller and its state machine.** These are modelled twice. First, as functions on a value `Ctl` holding the whole controller state (`MotionModel`). Second, as classes whose methods are proved equal to those functions through `Abs()` (`Motion`).

Modelling choices:

- **Bytes and time.** Bytes are `bv8`. CAN identifiers and `millis()` time stamps are `bv32`, so every elapsed-time test is an unsigned 32-bit difference. The `unsigned int` corner index of `getCorner` is a 16-bit integer, and its sum wraps at 2^16.
- **Objects and their state.** Objects whose fields the source updates are classes. Their array fields (the fault table, the corners, the axes, the CAN frame buffer) are Dafny arrays.
- **External devices.** Each bus or device seen from outside is a field or a parameter:
  - the serial port is the received bytes `rx` and the written bytes `tx`;
  - the SPI bus is the list of byte sequences shifted out per chip-select window;
  - the bytes the devices send back are method parameters;
  - `millis()` is a step parameter `now`;
  - the output pins are a `Pins` value.

Main results proved:

- **Round trips:**
  - a CAN write frame read back with the read layout gives back the packet;
  - building a J1939 identifier places all 18 PGN bits, and parsing it gives back its fields, except the two data-page bits, which the parser drops;
  - a J1939 command written to the bus and read back keeps its priority, source and payload, and its PGN carries the destination when the message is peer-to-peer;
  - SSI2 bytes decode to the angles they encode.
- **Output safety:** every controller step keeps the enable line high exactly in MOVING, and keeps every corner output low outside MOVING.
- **Fault handling:**
  - a latched fault always drives the running states towards FAULTED;
  - FAULTED ignores every request except off;
  - unlatch events can clear only recoverable codes.
- **Moving average:** it converges geometrically towards a constant input.
- **Highest-corner algorithm:** it never raises two opposite corners.

## Model

| member | source | states |
|---|---|---|
| CANInterface.SerialBaudToBaud | CANInterface.cpp:8-22 | a rate exists exactly for the five enumerators and is a multiple of 9600; any other value has none (the switch has no return for it) |
| CANInterface.BaudRatesIncrease | CANInterface.cpp:8-22 | the enumerators are in increasing rate order, so distinct enumerators give distinct rates |
| CANInterface.IdBytes | CANInterface.cpp:107-111 | the identifier goes out as four bytes, and accumulating them as the read loop at lines 132-137 does gives the identifier back, for every identifier |
| CANInterface.BigEndian | CANInterface.cpp:132-137 | definition of the read loop's accumulation (`id <<= 8; id += b`); `IdBytes` states that it inverts the write split |
| CANInterface.EncodeFrame | CANInterface.cpp:105-118 | definition of the 14-byte write frame; `EncodeFrameLayout` and `RawInterface.Write` state its layout |
| CANInterface.DecodeFrame | CANInterface.cpp:125-145 | definition of the packet rebuilt from 12 read bytes; `WriteThenReadLayoutRoundTrip` and `WriteFrameReadVerbatimIsShifted` state how it relates to the write frame |
| CANInterface.EncodeFrameLayout | CANInterface.cpp:105-118 | the write frame is 14 bytes: identifier, extended flag, remote-request flag, payload |
| CANInterface.WriteThenReadLayoutRoundTrip | CANInterface.cpp:102-145 | the read layout applied to a write frame without its two flag bytes gives back the packet |
| CANInterface.WriteFrameReadVerbatimIsShifted | CANInterface.cpp:102-145 | reading a write frame back verbatim keeps the identifier but shifts the payload by the two flag bytes |
| CANInterface.RawInterface.constructor | CANInterface.cpp:3-6 | nothing written yet, the receive queue as given |
| CANInterface.RawInterface.FlushBuffer | CANInterface.cpp:96-100 | the receive queue is empty afterwards |
| CANInterface.RawInterface.Write | CANInterface.cpp:102-123 | exactly the 14 frame bytes are appended to the output, in order |
| CANInterface.RawInterface.FrameBuffer | CANInterface.cpp:105-114 | the buffer holds the frame layout of the packet |
| CANInterface.RawInterface.CopyPayload | CANInterface.cpp:116-118 | bytes 6 to 13 take the payload and the header is untouched |
| CANInterface.RawInterface.HasPacket | CANInterface.cpp:147-150 | true iff at least 12 bytes are buffered |
| CANInterface.RawInterface.Read | CANInterface.cpp:125-145 | with 12 bytes buffered it consumes exactly 12 and decodes them; otherwise nothing is consumed and the caller's packet is returned |
| J1939.EmptyId | CANSAEJ1939.h:32-53 | the default identifier is exactly what parsing identifier 0 gives |
| J1939.BuildId | CANSAEJ1939.h:41-53 | the getters return the fields as given; for priorities below 8 and PGNs below 2^18 the identifier fits in 29 bits and parses back to its priority, its source and the low 16 PGN bits (`BuildPlacesPgn` places the other two) |
| J1939.BuildPlacesPgn | CANSAEJ1939.h:22-25 | for priorities below 8 and PGNs below 2^18 all 18 PGN bits, data-page bits included, sit in bits 25 to 8 of the built identifier |
| J1939.ParseId | CANSAEJ1939.h:51-53 | keeps the raw identifier; the PGN is below 2^16 and the priority below 8 |
| J1939.ParseBuildRoundTrip | CANSAEJ1939.h:41-53 | parse after build is the identity for priorities below 8 and PGNs below 2^16 |
| J1939.BuildOfParse | CANSAEJ1939.h:41-53 | build after parse keeps exactly the bits outside 24, 25 and 29 to 31 |
| J1939.CommandMessage1 | CANSAEJ1939.h:114-119 | the one-byte command is the two-byte command with a zero second data byte |
| J1939.CommandMessage2 | CANSAEJ1939.h:133-140 | the payload addresses the destination in its first byte, then the two data bytes and zeros; for 16-bit PGNs the message parsed from its own identifier and payload is the message itself, with priority 6, the source and the PGN |
| J1939.FromPacket | CANSAEJ1939.h:148-153 | keeps the payload and the raw identifier, and the parsed fields rebuild the identifier except for bits 24, 25 and 29 to 31 |
| J1939.IsPeerToPeer | CANSAEJ1939.cpp:3-9 | definition of the peer-to-peer test; `PeerToPeerIsPdu1` states its meaning and `ACEINNA.PgnAddressing` applies it to the sensor's PGNs |
| J1939.PeerToPeerIsPdu1 | CANSAEJ1939.cpp:3-9 | for 16-bit PGNs, peer-to-peer iff non-zero with a PDU format byte below 240 (section 5.2 of SAE J1939-21) |
| J1939.Readdress | CANSAEJ1939.cpp:22-25 | definition of the mask-and-or; `ReaddressDestination`, `ReaddressKeepsOtherBits` and the three `Parsed…OfReaddress` lemmas state its effect |
| J1939.SentId | CANSAEJ1939.cpp:18-28 | definition of the identifier `write` sends; `SentIdOther` and `CommandFrameRoundTrip` state its meaning |
| J1939.ReaddressDestination | CANSAEJ1939.cpp:22-25 | the readdressed identifier carries the destination in bits 15 to 8 |
| J1939.ReaddressKeepsOtherBits | CANSAEJ1939.cpp:22-25 | every other bit is kept |
| J1939.SentIdOther | CANSAEJ1939.cpp:18-28 | a message that is not peer-to-peer is sent with its identifier unchanged |
| J1939.ParsedPriorityOfReaddress | CANSAEJ1939.cpp:22-25 | readdressing keeps the parsed priority |
| J1939.ParsedSourceOfReaddress | CANSAEJ1939.cpp:22-25 | readdressing keeps the parsed source address |
| J1939.ParsedPgnOfReaddress | CANSAEJ1939.cpp:22-25 | the parsed PGN gets the destination in its low byte |
| J1939.CommandFrameRoundTrip | CANSAEJ1939.cpp:18-28 | a command written and read back keeps payload, priority and source; its PGN carries the destination iff peer-to-peer |
| J1939.J1939Interface.constructor | CANSAEJ1939.h:169-170 | wraps the given adapter |
| J1939.J1939Interface.Write | CANSAEJ1939.cpp:18-28 | appends exactly the frame of the (readdressed if peer-to-peer) identifier and the payload |
| J1939.J1939Interface.Read | CANSAEJ1939.cpp:11-16 | with a packet buffered, consumes it and parses it; otherwise a zero payload with the uninitialised identifier parsed |
| ACEINNA.PgnAddressing | ACEINNAInclinometer.h:48-58 | the command PGNs are consecutive and only PGN_ENABLED_PERIODIC_DATA_TYPES is peer-to-peer |
| ACEINNA.BeginCommands | ACEINNAInclinometer.cpp:10-18 | definition of the three configuration commands; `BeginCommandContents` and `BeginFramesUnaddressed` state their contents and addressing |
| ACEINNA.BeginCommandContents | ACEINNAInclinometer.cpp:10-18 | the identifiers and payloads of the three configuration commands, byte for byte |
| ACEINNA.BeginFramesUnaddressed | ACEINNAInclinometer.cpp:10-18 | none of the three commands is readdressed |
| ACEINNA.Code24 | ACEINNAInclinometer.cpp:45-50 | definition of the 24-bit code; `Code24Fields`, `Code24Value` and `Code24OfCodeBytes` state its meaning |
| ACEINNA.Code24Fields | ACEINNAInclinometer.cpp:45-50 | a 24-bit code holds each of its three bytes in place |
| ACEINNA.Code24Value | ACEINNAInclinometer.cpp:45-50 | the code is the little-endian value of its bytes |
| ACEINNA.Code24OfCodeBytes | ACEINNAInclinometer.cpp:45-50 | splitting a 24-bit code into bytes and joining them gives it back |
| ACEINNA.Degrees | ACEINNAInclinometer.cpp:52-53 | definition of the code-to-degree map; `DegreesZero`, `DegreesRange` and `DegreesMonotone` state its meaning |
| ACEINNA.DegreesZero | ACEINNAInclinometer.cpp:52-53 | code 8192000 is 0 degrees |
| ACEINNA.DegreesRange | ACEINNAInclinometer.cpp:52-53 | 24-bit codes cover [-250, 262) degrees |
| ACEINNA.DegreesMonotone | ACEINNAInclinometer.cpp:52-53 | the code-to-degree map is strictly increasing |
| ACEINNA.Radians | ACEINNAInclinometer.cpp:55-56 | definition of the degree-to-radian map; `RadiansMonotone` and `InterpretRange` state its meaning |
| ACEINNA.RadiansMonotone | ACEINNAInclinometer.cpp:55-56 | the degree-to-radian map is increasing |
| ACEINNA.Interpret | ACEINNAInclinometer.cpp:42-62 | a message that is not SSI2 gives the sentinel (-100, 100) |
| ACEINNA.InterpretRange | ACEINNAInclinometer.cpp:42-56 | SSI2 angles lie in [-250, 262) degrees, in radians |
| ACEINNA.InterpretSsi2 | ACEINNAInclinometer.cpp:42-56 | an SSI2 payload of pitch then roll codes decodes to exactly those angles |
| ACEINNA.ACEINNAInclinometer.constructor | ACEINNAInclinometer.h:34-37 | uses the given J1939 interface |
| ACEINNA.ACEINNAInclinometer.Begin | ACEINNAInclinometer.cpp:5-27 | after the adapter set-up (left out), sends the three commands in order, flushes the input, reports success |
| ACEINNA.ACEINNAInclinometer.HasData | ACEINNAInclinometer.cpp:28-32 | true iff a packet's worth of bytes is buffered |
| ACEINNA.ACEINNAInclinometer.GetData | ACEINNAInclinometer.cpp:33-63 | with data: reads one message, flushes the rest, returns its interpretation; without: consumes nothing, returns the sentinel |
| ADXL355.SpiCommand | ADXL355.cpp:8 | definition of the command byte; `SpiCommandFields` and `ReadAndWriteDiffer` state its meaning |
| ADXL355.SpiCommandFields | ADXL355.cpp:8 | the command byte holds the address in bits 7 to 1 and the read/write bit in bit 0 |
| ADXL355.ReadAndWriteDiffer | ADXL355.cpp:8-21 | a read and a write of one register have different command bytes |
| ADXL355.Zeros | ADXL355.cpp:35-37 | n bytes, all zero |
| ADXL355.BeginTransactions | ADXL355.cpp:49-53 | definition of the five `begin` transactions; `BeginRegisterOrder` states their order and values |
| ADXL355.BurstTransaction | ADXL355.cpp:34-37 | definition of a burst window; `BurstTransactionSnoc` and `ADXL355.ShiftIn` state its growth with the loop |
| ADXL355.BeginRegisterOrder | ADXL355.cpp:49-53 | reset, range, filter, power control are written in that order with their values, then register 0 is read |
| ADXL355.BurstTransactionSnoc | ADXL355.cpp:34-37 | each further register of a burst shifts one more zero out |
| ADXL355.RawAxis | ADXL355.cpp:64-70 | definition of one axis decode; `RawAxisValue` states its value |
| ADXL355.RawAxisValue | ADXL355.cpp:64-70 | an axis is the big-endian value of its three bytes, below 2^24 |
| ADXL355.SignConvert | ADXL355.cpp:71-78 | the conversion agrees with 24-bit two's complement exactly for the values other than 2^23, which comes out positive where two's complement reads -2^23 |
| ADXL355.SignConvertRange | ADXL355.cpp:71-78 | converted values lie in [-(2^23 - 1), 2^23] |
| ADXL355.SampleAxes | ADXL355.cpp:59-79 | axis k is the sign conversion of the big-endian decode of burst bytes 3k to 3k + 2 |
| ADXL355.SampleAxesRange | ADXL355.cpp:59-79 | every axis of every sample lies in [-(2^23 - 1), 2^23] |
| ADXL355.Scale | ADXL355.cpp:83 | definition of the LSB-per-g scale; `ScaleOfRanges` and `ScaleHalves` state its values |
| ADXL355.ScaleOfRanges | ADXL355.cpp:83 | the 2 g, 4 g and 8 g ranges scale by 256000, 128000 and 64000 |
| ADXL355.ScaleHalves | ADXL355.cpp:83 | each range step halves the scale |
| ADXL355.Measure | ADXL355.cpp:83-89 | definition of the scaled measurement; `MeasureInverse` states that it loses nothing |
| ADXL355.MeasureInverse | ADXL355.cpp:83-89 | multiplying a measurement by the scale gives back the axes |
| ADXL355.ADXL355.constructor | ADXL355.h:58-60 | nothing sent on the bus yet |
| ADXL355.ADXL355.SpiWriteByte | ADXL355.cpp:3-13 | one window: write command byte, then the value |
| ADXL355.ADXL355.SpiReadByte | ADXL355.cpp:15-27 | one window: read command byte, then 0x00; the result is the device's answer |
| ADXL355.ADXL355.SpiMultibyteRead | ADXL355.cpp:29-41 | one window of command and zeros; the buffer prefix receives the device's bytes, the rest is untouched |
| ADXL355.ADXL355.ShiftIn | ADXL355.cpp:34-37 | the transfer loop sends the burst transaction and stores each incoming byte |
| ADXL355.ADXL355.Begin | ADXL355.cpp:43-57 | stores the range, performs the five transactions with the filter defaulting to ADXL355_FILTER_OFF, succeeds iff register 0 reads 0xAD |
| ADXL355.ADXL355.TakeSample | ADXL355.cpp:59-79 | a 9-byte burst from XDATA3; the axes become the decoded, sign-converted sample |
| ADXL355.ADXL355.ConvertSigns | ADXL355.cpp:71-78 | each axis is sign-converted in place |
| ADXL355.ADXL355.GetSample | ADXL355.cpp:81-90 | each axis divided by the range's scale |
| Smoothing.Ewma | MovingAverage.h:8 | definition of one update; `EwmaStep`, `EwmaExtremes`, `EwmaFixedPoint`, `EwmaBetween` and `RepeatDistance` state its meaning |
| Smoothing.EwmaStep | MovingAverage.h:8 | an update moves the average by alpha times its distance to the point |
| Smoothing.EwmaExtremes | MovingAverage.h:8 | alpha 1 follows the input, alpha 0 ignores it |
| Smoothing.EwmaFixedPoint | MovingAverage.h:8 | an input equal to the average leaves it unchanged |
| Smoothing.EwmaBetween | MovingAverage.h:8 | for alpha in [0, 1] the new average lies between the old one and the point |
| Smoothing.RepeatDistance | MovingAverage.h:7-9 | after n equal points the remaining distance is (1 - alpha)^n of the first |
| Smoothing.MovingAverage.constructor | MovingAverage.h:6 | starts at the starting point with the given alpha |
| Smoothing.MovingAverage.AddPoint | MovingAverage.h:7-9 | the average takes one update with the point |
| Smoothing.MovingAverage.GetAverage | MovingAverage.h:10 | returns the current average |
| AccelerometerFiltering.AddToAll | AccelerometerFiltering.h:13-18 | each channel's average moves towards that channel of the measurement by alpha times its distance to it |
| AccelerometerFiltering.ChannelsIndependent | AccelerometerFiltering.h:13-18 | a channel's new average depends only on that channel of the input |
| AccelerometerFiltering.AddToAllFixedPoint | AccelerometerFiltering.h:13-18 | feeding the current averages back changes nothing |
| AccelerometerFiltering.AccelerometerFilterMovingAverage.constructor | AccelerometerFiltering.h:9-12 | three separate averages, all at the starting point with one alpha |
| AccelerometerFiltering.AccelerometerFilterMovingAverage.AddData | AccelerometerFiltering.h:13-18 | every axis average takes its axis's point |
| AccelerometerFiltering.AccelerometerFilterMovingAverage.GetAverage | AccelerometerFiltering.h:19-26 | the three current averages, changing nothing |
| FaultHandling.Latched | FaultHandling.cpp:49-57 | definition of "some code in the range is latched"; `LatchedSplit`, `FaultRangesPartition`, `CountZero` and `FirstLatched` state its meaning |
| FaultHandling.LatchedSplit | FaultHandling.cpp:49-57 | a range holds a fault iff one of its two halves does |
| FaultHandling.FaultRangesPartition | FaultHandling.h:21-23 | some fault iff a major or a minor fault |
| FaultHandling.Count | FaultHandling.cpp:59-68 | the count never exceeds the table size |
| FaultHandling.CountZero | FaultHandling.cpp:59-68 | the count is zero iff no code is latched |
| FaultHandling.FirstLatched | FaultHandling.cpp:70-78 | -1 iff nothing is latched from start on; otherwise the least latched code from start on |
| FaultHandling.AfterEvent | FaultHandling.cpp:37-45 | the table keeps its size |
| FaultHandling.AfterEventKeepsFatal | FaultHandling.cpp:37-45 | an event never changes fatal codes, the fatal sentinel, or anything past the recoverable range |
| FaultHandling.AfterEventRecoverable | FaultHandling.cpp:37-45 | a covered code stays latched iff it was latched and its mapping entry is clear |
| FaultHandling.AfterEventOnlyClears | FaultHandling.cpp:37-45 | events never latch anything, and a latched fatal fault survives them |
| FaultHandling.SetTwice | FaultHandling.cpp:23-30 | latching is idempotent |
| FaultHandling.Handler.constructor | FaultHandling.cpp:16-21 | every code is clear |
| FaultHandling.Handler.SetFaultCode | FaultHandling.cpp:23-30 | the code is latched; a newly latched code resets the minor state and stamps the time, an already latched one changes nothing |
| FaultHandling.Handler.UnlatchFaultCode | FaultHandling.cpp:32-35 | exactly that code is cleared |
| FaultHandling.Handler.OnFaultUnlatchEvent | FaultHandling.cpp:37-45 | the table becomes AfterEvent of the old table and the event's mapping row |
| FaultHandling.Handler.HasFaultCode | FaultHandling.cpp:47 | true iff that code is latched |
| FaultHandling.Handler.HasFaultOfType | FaultHandling.cpp:49-57 | true iff some code in the range is latched |
| FaultHandling.Handler.HasMinorFault | FaultHandling.h:21 | true iff a code between the two sentinels (inclusive) is latched |
| FaultHandling.Handler.HasMajorFault | FaultHandling.h:22 | true iff a fatal code is latched |
| FaultHandling.Handler.HasFault | FaultHandling.h:23 | true iff any code is latched |
| FaultHandling.Handler.NumFaults | FaultHandling.cpp:59-68 | the number of latched codes |
| FaultHandling.Handler.NextFault | FaultHandling.cpp:70-78 | the least latched code from start on, or -1 |
| HighestCorner.Decide | HighestCornerAlgorithm.cpp:6-42 | definition of the band table; `RollHigh`, `RollLow` and `RollLevel` state it case by case |
| HighestCorner.NextCorners | HighestCornerAlgorithm.cpp:4-48 | definition of one update; `DeadbandClears`, `DeadbandInsideBand` and `UpdateKeepsAdmissible` state its meaning |
| HighestCorner.RollHigh | HighestCornerAlgorithm.cpp:6-17 | roll above the band: corner 2, corner 1, or corners 1 and 2, by the pitch |
| HighestCorner.RollLow | HighestCornerAlgorithm.cpp:18-29 | roll below the band: corner 3, corner 0, or corners 0 and 3, by the pitch |
| HighestCorner.RollLevel | HighestCornerAlgorithm.cpp:30-42 | roll within the band: corners 2 and 3, corners 0 and 1, or no change, by the pitch |
| HighestCorner.DeadbandClears | HighestCornerAlgorithm.cpp:44-47 | both angles in the deadband clear every corner |
| HighestCorner.ZeroOutsideDeadband | HighestCornerAlgorithm.cpp:44-47 | an angle of exactly 0 is never in the deadband |
| HighestCorner.DeadbandInsideBand | HighestCornerAlgorithm.cpp:44-47 | with the deadband inside the band, the deadband fires only where the table keeps the corners |
| HighestCorner.AdmissibleAtMostTwo | HighestCornerAlgorithm.cpp:4-48 | with no diagonal pair at most two corners are high |
| HighestCorner.UpdateKeepsAdmissible | HighestCornerAlgorithm.cpp:4-48 | no update ever raises two opposite corners |
| HighestCorner.CornerIndex | HighestCornerAlgorithm.h:10-12 | the index is below 4 and is (corner + offset) mod 4 |
| HighestCorner.LowestModeIsOpposite | HighestCornerAlgorithm.h:10-12 | in lowest-corner mode, corner c reads the corner opposite c |
| HighestCorner.HighestCornerAlgo.constructor | HighestCornerAlgorithm.h:6-7 | no corner high, bounds as given |
| HighestCorner.HighestCornerAlgo.GetCorner | HighestCornerAlgorithm.h:10-12 | the corner at (corner + offset) mod 4 |
| HighestCorner.HighestCornerAlgo.ResetAll | HighestCornerAlgorithm.h:18-23 | every corner low |
| HighestCorner.HighestCornerAlgo.Update | HighestCornerAlgorithm.cpp:4-48 | the corners become NextCorners of the old corners, roll, pitch and bounds |
| MotionModel.Ordinal | MotionStateMachine.h:31-37 | each state's position in the enumeration, below 5 |
| MotionModel.StateNamesCoverStates | MotionStateMachine.h:26 | the name table has one name per state |
| MotionModel.Elapsed | MotionController.cpp:82 | definition of the unsigned 32-bit elapsed time; `ElapsedAcrossWrap` states its meaning |
| MotionModel.ElapsedAcrossWrap | MotionController.cpp:82 | elapsed time stays right across the wrap of the 32-bit counter |
| MotionModel.Initial | MotionController.cpp:9-13 | definition of the constructed state; `InitialIsSafe` states that its outputs are safe |
| MotionModel.Initialize | MotionController.cpp:15-28 | definition of `Initialize`; `InitializeDisplayTimer` states its display timing |
| MotionModel.RequestRaise | MotionController.cpp:30-34 | definition of the raise request; `RequestsOnlyRequest` and `RequestsKeepSafe` state its effect |
| MotionModel.RequestLower | MotionController.cpp:36-40 | definition of the lower request; `RequestsOnlyRequest` and `RequestsKeepSafe` state its effect |
| MotionModel.RequestOff | MotionController.cpp:42-46 | definition of the off request; `RequestsOnlyRequest` and `RequestsKeepSafe` state its effect |
| MotionModel.RequestsOnlyRequest | MotionController.cpp:30-46 | requests set only the requested state and the direction |
| MotionModel.StopMovement | MotionController.cpp:96-103 | definition of `StopMovement`; `TransitionEffects` and `MachineStepKeepsSafe` state its effect on the outputs |
| MotionModel.StartMovement | MotionController.cpp:90-94 | definition of `StartMovement`; `TransitionEffects` states its effect |
| MotionModel.MovementAlgorithmStep | MotionController.cpp:115-125 | definition of one movement step; `MovementOutputs` states which corners drive which outputs |
| MotionModel.MovementOutputs | MotionController.cpp:115-125 | raising drives the high corners, lowering the opposite ones |
| MotionModel.Stable | MotionController.cpp:159-162 | definition of the stability test; `SteadyingToMoving` states its use |
| MotionModel.Exit | MotionStateMachine.cpp:22-37 | definition of the exit handlers; `TransitionEffects` states their effect |
| MotionModel.Enter | MotionStateMachine.cpp:39-54 | definition of the enter handlers; `TransitionEffects` states their effect |
| MotionModel.StepHandler | MotionStateMachine.cpp:60-75 | definition of the step dispatch; `StepHandlerRequest`, `SteadyingToMoving` and `MovingRunsAlgorithm` state its meaning |
| MotionModel.MachineStep | MotionStateMachine.cpp:13-76 | definition of `MotionStateMachine::Step`; `NoneWaitsForRequest`, `FaultedIgnoresRequests`, `TransitionOrder`, `FaultRequestsFaulted`, `FaultStopsMovement`, `OffWhileFaulted` and `MachineStepKeepsSafe` state its meaning |
| MotionModel.Transition | MotionStateMachine.cpp:15-58 | definition of the transition part of a step; `TransitionOrder` and `TransitionEffects` state its meaning |
| MotionModel.NoneWaitsForRequest | MotionStateMachine.cpp:13-76 | STATE_NONE with nothing requested does nothing |
| MotionModel.FaultedIgnoresRequests | MotionStateMachine.cpp:15-20 | in FAULTED any request but NOT_RUNNING changes nothing |
| MotionModel.TransitionOrder | MotionStateMachine.cpp:15-58 | a transition runs exit, then enter, then switches state and stamps the time, then the new state's step |
| MotionModel.TransitionEffects | MotionStateMachine.cpp:22-54 | entering MOVING enables; leaving MOVING or entering NOT_RUNNING drives every output low; other transitions touch nothing |
| MotionModel.StepHandlerRequest | MotionStateMachine.cpp:60-75 | the running states' step handlers request FAULTED iff a fault is latched; FAULTED requests itself |
| MotionModel.FaultedStaysRequested | MotionStateMachine.cpp:13-76 | a pending FAULTED request takes the machine to FAULTED, which requests itself again |
| MotionModel.FaultRequestsFaulted | MotionStateMachine.cpp:13-76 | after a step, a running state requests FAULTED iff a fault is latched |
| MotionModel.SteadyingToMoving | MotionStateMachine.cpp:100-112 | MOVING is requested iff no fault and stable |
| MotionModel.MovingRunsAlgorithm | MotionStateMachine.cpp:124-133 | the algorithm runs iff no fault; a fault only requests FAULTED |
| MotionModel.FaultStopsMovement | MotionStateMachine.cpp:124-137 | a fault while MOVING leads within two steps to FAULTED with every output low |
| MotionModel.OffWhileFaulted | MotionStateMachine.cpp:15-90 | off while FAULTED gives one step in NOT_RUNNING with the outputs low, then FAULTED again if a fault is still latched |
| MotionModel.InitialIsSafe | MotionStateMachine.cpp:7-11 | the initial state has safe outputs |
| MotionModel.InitializeKeepsSafe | MotionController.cpp:15-28 | `Initialize` leaves the outputs safe iff the machine is not MOVING; called while MOVING it drops enable with the state still MOVING |
| MotionModel.MachineStepKeepsSafe | MotionStateMachine.cpp:13-76 | each machine step keeps enable high exactly in MOVING and every output low outside it |
| MotionModel.RequestsKeepSafe | MotionController.cpp:30-46 | requests keep the outputs safe |
| MotionModel.SensorIntake | MotionController.cpp:50-80 | definition of the sensor part of a step; `UnstableRefresh`, `NegativeRatesAreStable`, `DataSilencesWatchdog` and `PreludeKeepsOutputs` state its meaning |
| MotionModel.Watchdog | MotionController.cpp:82-84 | definition of the watchdog; `WatchdogFires` and `DataSilencesWatchdog` state its meaning |
| MotionModel.DataSilencesWatchdog | MotionController.cpp:50-84 | a step with data cannot trip the watchdog |
| MotionModel.WatchdogFires | MotionController.cpp:82-84 | without data, the unready fault is latched iff more than 500 ms have passed |
| MotionModel.UnstableRefresh | MotionController.cpp:61-70 | the unstable stamp is refreshed iff data arrived with a rate at or above 0.1 |
| MotionModel.NegativeRatesAreStable | MotionController.cpp:61-70 | negative rates never count as unstable |
| MotionModel.DispUpdate | MotionController.cpp:136-157 | definition of the display update; `DisplayGate` states its meaning |
| MotionModel.Snapshot | MotionController.cpp:139-153 | definition of the displayed state; `ShownFaultMeaning` states what its fault field shows |
| MotionModel.DisplayGate | MotionController.cpp:136-157 | the display is sent a snapshot and its timer restarts iff more than a second has passed |
| MotionModel.InitializeDisplayTimer | MotionController.cpp:25-26 | after Initialize the display is due one millisecond later |
| MotionModel.ShownFaultMeaning | MotionController.cpp:149-153 | the shown fault is ALL_OK iff nothing is latched, and fatal iff a fatal fault is latched |
| MotionModel.PreludeKeepsOutputs | MotionController.cpp:48-86 | intake, watchdog and display leave the state machine and the outputs alone |
| MotionModel.ControllerStep | MotionController.cpp:48-88 | definition of one controller step; `PreludeKeepsOutputs` and `ControllerStepKeepsSafe` state its meaning |
| MotionModel.ControllerStepKeepsSafe | MotionController.cpp:48-88 | every controller step keeps the outputs safe |
| Motion.MotionStateMachine.constructor | MotionStateMachine.cpp:7-11 | both states STATE_NONE |
| Motion.MotionStateMachine.RequestState | MotionStateMachine.h:45 | only the requested state changes |
| Motion.MotionStateMachine.GetState | MotionStateMachine.h:48 | the current state |
| Motion.MotionStateMachine.Step | MotionStateMachine.cpp:13-76 | the controller's state becomes MachineStep of the old state |
| Motion.MotionStateMachine.OnStateNotRunningEnter | MotionStateMachine.cpp:78-81 | stops the movement |
| Motion.MotionStateMachine.OnStateNotRunningStep | MotionStateMachine.cpp:82-90 | FAULTED iff a fault is latched, else NOT_RUNNING |
| Motion.MotionStateMachine.OnStateMovementRequestedStep | MotionStateMachine.cpp:100-112 | FAULTED on a fault, else MOVING iff stable |
| Motion.MotionStateMachine.OnStateMovingEnter | MotionStateMachine.cpp:119-122 | starts the movement |
| Motion.MotionStateMachine.OnStateMovingStep | MotionStateMachine.cpp:124-133 | on a fault FAULTED with nothing changed; otherwise one algorithm step and MOVING |
| Motion.MotionStateMachine.OnStateMovingExit | MotionStateMachine.cpp:134-137 | stops the movement |
| Motion.MotionStateMachine.OnStateFaultedStep | MotionStateMachine.cpp:144-148 | FAULTED |
| Motion.MotionController.constructor | MotionController.cpp:9-13 | the initial state with the handler's table, and the 0.05 to 0.1 degree band |
| Motion.MotionController.Initialize | MotionController.cpp:15-28 | outputs low, the sensor timer started, the display due; reports the display's readiness |
| Motion.MotionController.RequestRaise | MotionController.cpp:30-34 | requests MOVEMENT_REQUESTED, raising |
| Motion.MotionController.RequestLower | MotionController.cpp:36-40 | requests MOVEMENT_REQUESTED, lowering |
| Motion.MotionController.RequestOff | MotionController.cpp:42-46 | requests NOT_RUNNING, no direction |
| Motion.MotionController.Step | MotionController.cpp:48-88 | the state becomes ControllerStep of the old state and the input |
| Motion.MotionController.Intake | MotionController.cpp:50-80 | the sensor part of a step, as SensorIntake |
| Motion.MotionController.Watch | MotionController.cpp:82-84 | the watchdog part of a step, as Watchdog |
| Motion.MotionController.StartMovement | MotionController.cpp:90-94 | enable high, everything else unchanged |
| Motion.MotionController.StopMovement | MotionController.cpp:96-103 | every output low and the movement-end event applied |
| Motion.MotionController.SetCorners | MotionController.cpp:105-113 | the four corner outputs take the four values, the enable line unchanged |
| Motion.MotionController.MovementAlgorithmStep | MotionController.cpp:115-125 | one corner update from the last measures and the outputs driven from it |
| Motion.MotionController.DispUpdate | MotionController.cpp:136-157 | as the model's DispUpdate: a snapshot is sent iff more than a second has passed |
| Motion.MotionController.DisplayedState | MotionController.cpp:139-153 | the snapshot of the current state: state, rams, direction, enable, shown fault |
| Motion.MotionController.CheckStabilityStep | MotionController.cpp:159-162 | stable iff more than a second has passed since the last unstable reading |
| Motion.MotionController.GetState | MotionController.h:108 | the state machine's current state |
| Motion.MotionController.GetDirection | MotionController.h:115 | the current direction |

## Left out

- **Floating point.** `float` and `double` arithmetic is modelled over the reals, so rounding is not modelled. This covers the moving averages, the degree and radian conversions, the scale division and the corner bounds.
- **Serial adapter set-up.** `RawInterface::begin` and `resetBaudTo` are left out: they are sequences of AT commands with delays, sent to the adapter over the serial port.
- **Arduino I/O.** `delay`, `pinMode`, `Serial` prints and the display's rendering are left out. This includes the print-only handlers of the state machine: the NOT_RUNNING exit, the MOVEMENT_REQUESTED enter and exit, and the FAULTED enter and exit.
- **Other fault handler members.** `faultFlasherPeriodic` (LED blinking) and `printFaultReport` (prints only) are left out. The `instance()` singleton is replaced by a `Handler` passed to the controller.
- **Unlatch table and unready code.** The event-to-code table `k_faultUnlatchMapping` and the code INCLINOMETER_UNREADY are not part of this model. They are constructor parameters: one table row per event, and a code below ALL_OK.
- **Sensor inputs.** The inclinometer module and its models (InclinometerModel, AccelerometerModel, ADXL355Inclinometer) are not part of this model. Each step takes from its input what they deliver: whether there is data, the measures, and the averaged angular rates.
- **Display contents.** The pitch and roll the display is sent come from a second `getData()` call into the sensor module. They are not part of the modelled display state. `PopMessage` is left out, and so is the display controller, persistent storage and FRAM.
- **Declared but not used.** `RequestClearFaultState` is declared but has no definition, so it is not modelled. `GetLastMeasures` is a plain getter and is not modelled.
- **Unused J1939 and ADXL355 members.** `writeRaw` and `readRaw` only forward to the raw interface. `getStatus` has no definition in ADXL355.cpp, so it and `dataReady` are not modelled.
- **Uninitialised fields.** The source leaves some fields unset until first use. In the model they start at 0:
  - `lastTs`, `m_stateStartMillis`, and the controller's time stamps and measures;
  - the ADXL355 axes and range.

  The output pins start low.
- **ADXL355 internals.** The widening copy into `unsigned long buf[9]` is folded into the per-axis decode.
- **`millis()` reads.** The source reads `millis()` several times in one step. The model uses one time, `now`, per step.
- **Wall-clock time.** Only the relative order of time stamps is modelled, as 32-bit unsigned differences.
- ACEINNA.ACEINNAInclinometer.Begin: its contract speaks only of the three command frames. The source first calls `canInterface.begin(baud_115200, kbps_250)`, which writes the adapter's AT set-up commands ("+++", "AT+S=…", "AT+C=…", "AT+M=…", "AT+Q") to the serial port. That set-up is left out, as the serial adapter set-up line above says, so `tx` lacks those bytes before the frames.
- ADXL355.Scale: requires a range of at most 8. A larger range gives a negative shift count, which C++ leaves undefined.

Where the code and its own comments or design differ, the model follows the code:

- **J1939 read with no packet.** `J1939Interface::read` is documented as returning an empty identifier when nothing was read. In fact its raw packet identifier is left uninitialised. The model makes that indeterminate value a parameter.
- **Off while FAULTED.** Switching off while FAULTED takes the machine to NOT_RUNNING for one step, with the outputs low. If any fault is still latched, it then goes back to FAULTED.
- **Pending requests in FAULTED.** FAULTED keeps any request other than NOT_RUNNING pending, unanswered.
- **Entering FAULTED.** Entering FAULTED has no effect on the outputs. Outputs go low only because MOVING's exit handler stops the movement.
- **Ram outputs.** The ram outputs are the `getCorner` values themselves: the high corners when raising, the opposite corners when lowering.
- **J1939 peer-to-peer write.** The write puts the destination in bits 15 to 8 of the identifier, the PDU-specific byte. The source address is left untouched.
- **Unstable test.** The test compares signed rates, so a fast negative rate never counts as unstable.
- **ADXL355 sign conversion.** It is modelled as written. The value 2^23 stays positive, where the device's two's complement format means -2^23. The contract of `SignConvert` states the difference.
