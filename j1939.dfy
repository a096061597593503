/**
 * The SAE J1939 layer over the serial CAN adapter (CAN::J1939ID,
 * CAN::J1939Message and CAN::J1939Interface).
 *
 * A J1939 identifier packs, from the most significant end of the 29-bit CAN
 * 2.0B extended identifier, a 3-bit priority, an 18-bit parameter group number
 * (PGN) and an 8-bit source address. Peer-to-peer (PDU1) messages carry their
 * destination address in the PDU-specific byte, bits 15..8 of the identifier
 * (section 5.2 of SAE J1939-21).
 */
module J1939 {
  import opened Types
  import opened CANInterface

  /**
   * A parsed or built identifier with its fields. The getters getID,
   * getPriority, getSourceAddress and getPGN are the datatype's fields.
   */
  datatype J1939ID = J1939ID(canID: bv32, priority: byte, sourceAddress: byte, pgn: bv32)

  /** The default identifier, `J1939ID()`: the same as parsing identifier 0. */
  function EmptyId(): (r: J1939ID)
    ensures r == ParseId(0)
  {
    J1939ID(0, 0, 0, 0)
  }

  /**
   * Builds an identifier; the 32-bit sum wraps as `unsigned long` does. The
   * getters return the fields as given. From a priority below 8 and a PGN below
   * 2^18 the identifier fits in 29 bits with all 18 PGN bits in bits 25..8, and
   * parsing it gives back the priority and the source address but only the low
   * 16 bits of the PGN: the parser drops the data-page bits the builder places.
   */
  function BuildId(priority: byte, sourceAddress: byte, pgn: bv32): (r: J1939ID)
    ensures r.priority == priority && r.sourceAddress == sourceAddress && r.pgn == pgn
    ensures priority < 8 && pgn < 0x4_0000 ==>
      && r.canID < 0x2000_0000
      && ParseId(r.canID).priority == priority
      && ParseId(r.canID).sourceAddress == sourceAddress
      && ParseId(r.canID).pgn == pgn & 0xFFFF
  {
    var id := ((priority as bv32) << 26) + (pgn << 8) + sourceAddress as bv32;
    if priority < 8 && pgn < 0x4_0000 then
      PackedParse(priority, sourceAddress, pgn, id);
      J1939ID(id, priority, sourceAddress, pgn)
    else
      J1939ID(id, priority, sourceAddress, pgn)
  }

  /** Parses an identifier. Only 16 PGN bits are kept: bits 24 and 25 are not read. */
  function ParseId(id: bv32): (r: J1939ID)
    ensures r.canID == id
    ensures r.pgn < 0x1_0000 && r.priority < 8
  {
    J1939ID(id, ((id >> 26) & 0x7) as byte, (id & 0xFF) as byte, (id & 0xFF_FF00) >> 8)
  }

  lemma PackedFields(priority: bv32, source: bv32, pgn: bv32)
    requires priority < 8 && source < 256 && pgn < 0x4_0000
    ensures var id := (priority << 26) + (pgn << 8) + source;
      && id < 0x2000_0000
      && (id >> 26) & 0x7 == priority
      && id & 0xFF == source
      && (id & 0xFF_FF00) >> 8 == pgn & 0xFFFF
  {
  }

  /** The fields of a packed identifier as `ParseId` reads them. */
  lemma PackedParse(priority: byte, sourceAddress: byte, pgn: bv32, id: bv32)
    requires priority < 8 && pgn < 0x4_0000
    requires id == ((priority as bv32) << 26) + (pgn << 8) + sourceAddress as bv32
    ensures id < 0x2000_0000
    ensures ParseId(id).priority == priority && ParseId(id).sourceAddress == sourceAddress
    ensures ParseId(id).pgn == pgn & 0xFFFF
  {
    PackedFields(priority as bv32, sourceAddress as bv32, pgn);
    ByteCast(priority as bv32);
    ByteCast(sourceAddress as bv32);
    ByteCast((id >> 26) & 0x7);
    ByteCast(id & 0xFF);
  }

  lemma PackedPgn(priority: byte, sourceAddress: byte, pgn: bv32, id: bv32)
    requires priority < 8 && pgn < 0x4_0000
    requires id == ((priority as bv32) << 26) + (pgn << 8) + sourceAddress as bv32
    ensures (id >> 8) & 0x3_FFFF == pgn
  {
  }

  lemma BuiltId(priority: byte, sourceAddress: byte, pgn: bv32)
    ensures BuildId(priority, sourceAddress, pgn).canID == ((priority as bv32) << 26) + (pgn << 8) + sourceAddress as bv32
  {
  }

  /**
   * The builder places all 18 PGN bits, data-page bits included, in bits
   * 25..8 of the identifier, the field layout of a J1939 identifier.
   */
  lemma {:induction false} BuildPlacesPgn(priority: byte, sourceAddress: byte, pgn: bv32)
    requires priority < 8 && pgn < 0x4_0000
    ensures (BuildId(priority, sourceAddress, pgn).canID >> 8) & 0x3_FFFF == pgn
  {
    var id := ((priority as bv32) << 26) + (pgn << 8) + sourceAddress as bv32;
    BuiltId(priority, sourceAddress, pgn);
    PackedPgn(priority, sourceAddress, pgn, id);
  }

  /** The round trip is exact for priorities below 8 and PGNs below 2^16. */
  lemma {:induction false} ParseBuildRoundTrip(priority: byte, sourceAddress: byte, pgn: bv32)
    requires priority < 8 && pgn < 0x1_0000
    ensures ParseId(BuildId(priority, sourceAddress, pgn).canID) == BuildId(priority, sourceAddress, pgn)
  {
  }

  lemma RebuildBits(id: bv32)
    ensures (((id >> 26) & 0x7) << 26) + (((id & 0xFF_FF00) >> 8) << 8) + (id & 0xFF) == id & 0x1CFF_FFFF
  {
  }

  /**
   * Rebuilding a parsed identifier keeps exactly the priority, the low 16 PGN
   * bits and the source address: bits 24, 25 and 29..31 are cleared.
   */
  lemma {:induction false} BuildOfParse(id: bv32)
    ensures var q := ParseId(id);
      BuildId(q.priority, q.sourceAddress, q.pgn).canID == id & 0x1CFF_FFFF
  {
    ByteCast((id >> 26) & 0x7);
    ByteCast(id & 0xFF);
    RebuildBits(id);
  }

  // ---------------------------------------------------------------------------
  // Messages

  datatype J1939Message = J1939Message(canID: J1939ID, data: Payload)

  /** Priority of every command message built by the two command constructors. */
  const CommandPriority: byte := 6

  /** A command with one data byte: the two-byte command with a zero second data byte. */
  function CommandMessage1(source: byte, dest: byte, pgn: bv32, data1: byte): (m: J1939Message)
    ensures m == CommandMessage2(source, dest, pgn, data1, 0)
  {
    J1939Message(BuildId(6, source, pgn), [dest, data1, 0, 0, 0, 0, 0, 0])
  }

  /**
   * A command with two data bytes, addressed by its first payload byte. For a
   * 16-bit PGN the message read back from its own identifier and payload is
   * the message itself: priority 6, the source and the PGN all survive.
   */
  function CommandMessage2(source: byte, dest: byte, pgn: bv32, data1: byte, data2: byte): (m: J1939Message)
    ensures m.data[..3] == [dest, data1, data2] && m.data[3..] == ZeroPayload[3..]
    ensures pgn < 0x1_0000 ==>
      && FromPacket(ExtendedCanDataPacket(m.canID.canID, m.data)) == m
      && m.canID.priority == CommandPriority && m.canID.sourceAddress == source && m.canID.pgn == pgn
  {
    var m := J1939Message(BuildId(6, source, pgn), [dest, data1, data2, 0, 0, 0, 0, 0]);
    if pgn < 0x1_0000 then
      ParseBuildRoundTrip(CommandPriority, source, pgn);
      m
    else
      m
  }

  /**
   * A message parsed from a received packet. It keeps the payload and the raw
   * identifier, and its fields rebuild the identifier up to the bits the
   * parser drops (24, 25 and 29..31).
   */
  function FromPacket(p: ExtendedCanDataPacket): (m: J1939Message)
    ensures m.data == p.data && m.canID.canID == p.id
    ensures BuildId(m.canID.priority, m.canID.sourceAddress, m.canID.pgn).canID == p.id & 0x1CFF_FFFF
  {
    BuildOfParse(p.id);
    J1939Message(ParseId(p.id), p.data)
  }

  // ---------------------------------------------------------------------------
  // Peer-to-peer addressing

  /** Peer-to-peer PGNs are 1 through 0xEFFF. */
  function IsPeerToPeer(pgn: bv32): bool
  {
    pgn > 0 && pgn <= 0xEFFF
  }

  /** The PDU format byte of a PGN (its bits 15..8). */
  function PduFormat(pgn: bv32): bv32
  {
    (pgn >> 8) & 0xFF
  }

  /**
   * For data-page-0 PGNs the rule agrees with SAE J1939-21: a PDU format byte
   * below 240 marks a destination-specific (PDU1) message. PGN 0 is excluded.
   */
  lemma PeerToPeerIsPdu1(pgn: bv32)
    requires pgn < 0x1_0000
    ensures IsPeerToPeer(pgn) <==> pgn != 0 && PduFormat(pgn) < 0xF0
  {
  }

  /** Puts a destination address (below 256) in the PDU-specific byte, bits 15..8, of an identifier. */
  function Readdress(id: bv32, dest: bv32): bv32
  {
    (id & 0xFFFF_00FF) | (dest << 8)
  }

  /** The readdressed identifier carries the destination in bits 15..8 ... */
  lemma ReaddressDestination(id: bv32, dest: bv32)
    requires dest < 256
    ensures (Readdress(id, dest) >> 8) & 0xFF == dest
  {
  }

  /** ... and keeps every other bit. */
  lemma ReaddressKeepsOtherBits(id: bv32, dest: bv32)
    requires dest < 256
    ensures Readdress(id, dest) & 0xFFFF_00FF == id & 0xFFFF_00FF
  {
  }

  /** The identifier J1939Interface::write sends for a message and destination. */
  function SentId(m: J1939Message, dest: byte): bv32
  {
    if IsPeerToPeer(m.canID.pgn) then Readdress(m.canID.canID, dest as bv32) else m.canID.canID
  }

  /** Any other message is sent with its identifier unchanged. */
  lemma SentIdOther(m: J1939Message, dest: byte)
    requires !IsPeerToPeer(m.canID.pgn)
    ensures SentId(m, dest) == m.canID.canID
  {
  }

  /**
   * Parsing a readdressed identifier gives the priority and the source address
   * of the original, and the destination in the low byte of the PGN.
   */
  lemma ParsedPriorityOfReaddress(id: bv32, dest: bv32)
    requires dest < 256
    ensures ParseId(Readdress(id, dest)).priority == ParseId(id).priority
  {
  }

  lemma ParsedSourceOfReaddress(id: bv32, dest: bv32)
    requires dest < 256
    ensures ParseId(Readdress(id, dest)).sourceAddress == ParseId(id).sourceAddress
  {
  }

  lemma ParsedPgnOfReaddress(id: bv32, dest: bv32)
    requires dest < 256
    ensures ParseId(Readdress(id, dest)).pgn == (ParseId(id).pgn & 0xFF00) | dest
  {
  }

  /**
   * A two-byte command written to the bus and received with the read layout
   * keeps its priority, source address and payload. Its PGN comes back with
   * the destination in the low byte when it is peer-to-peer, and unchanged
   * otherwise.
   */
  lemma {:induction false} CommandFrameRoundTrip(source: byte, dest: byte, pgn: bv32, data1: byte, data2: byte)
    requires pgn < 0x1_0000
    ensures var m := CommandMessage2(source, dest, pgn, data1, data2);
      var f := EncodeFrame(ExtendedCanDataPacket(SentId(m, dest), m.data), true, false);
      var r := FromPacket(DecodeFrame(f[..4] + f[6..]));
      && r.data == m.data
      && r.canID.priority == CommandPriority
      && r.canID.sourceAddress == source
      && r.canID.pgn == if IsPeerToPeer(pgn) then (pgn & 0xFF00) | dest as bv32 else pgn
  {
    var m := CommandMessage2(source, dest, pgn, data1, data2);
    var p := ExtendedCanDataPacket(SentId(m, dest), m.data);
    var f := EncodeFrame(p, true, false);
    WriteThenReadLayoutRoundTrip(p, true, false);
    assert f[6..] == f[6..14];
    ParseBuildRoundTrip(CommandPriority, source, pgn);
    if IsPeerToPeer(pgn) {
      var d := dest as bv32;
      ParsedPriorityOfReaddress(m.canID.canID, d);
      ParsedSourceOfReaddress(m.canID.canID, d);
      ParsedPgnOfReaddress(m.canID.canID, d);
    }
  }

  // ---------------------------------------------------------------------------
  // The interface

  class J1939Interface {
    /** The raw adapter this interface extends. */
    const raw: RawInterface

    constructor (raw: RawInterface)
      ensures this.raw == raw
    {
      this.raw := raw;
    }

    /** Sends a message as one raw frame, readdressing peer-to-peer PGNs to `dest`. */
    method Write(p: J1939Message, dest: byte)
      modifies raw`tx
      ensures raw.tx == old(raw.tx) + EncodeFrame(ExtendedCanDataPacket(SentId(p, dest), p.data), true, false)
    {
      var id := p.canID.canID;
      if IsPeerToPeer(p.canID.pgn) == true {
        id := id & 0xFFFF_00FF;
        id := id | ((dest as bv32) << 8);
      }
      var rawpacket := ExtendedCanDataPacket(id, p.data);
      raw.Write(rawpacket);
    }

    /**
     * Reads one message. The raw packet it parses starts with a zero payload
     * and an uninitialised identifier, `indeterminateId`, which is what the
     * result carries when no packet was buffered.
     */
    method Read(indeterminateId: bv32) returns (m: J1939Message)
      modifies raw`rx
      ensures old(raw.HasPacket()) ==>
        raw.rx == old(raw.rx)[ReadFrameLength..] && m == FromPacket(DecodeFrame(old(raw.rx)))
      ensures !old(raw.HasPacket()) ==>
        raw.rx == old(raw.rx) && m.data == ZeroPayload && m.canID == ParseId(indeterminateId)
    {
      var rawpacket := ExtendedCanDataPacket(indeterminateId, ZeroPayload);
      var ok;
      ok, rawpacket := raw.Read(rawpacket);
      m := FromPacket(rawpacket);
    }
  }
}
