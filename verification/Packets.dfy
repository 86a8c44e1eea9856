/** Packet layout, packet map, and what happens to a packet between two drivers: encode, checksum, air, check, decode,
    look up (src/Packet, src/LoLaCrypto/LoLaCryptoEncoder.h, src/PacketDriver/LoLaPacketDriver.h). The cipher and the
    16 bit CRC are parameters. */
module Packets {
  import opened Common
  import opened Checksum

  const MACCRC_SIZE: nat := 2
  const HEADER_INDEX: nat := 2
  const ID_INDEX: nat := 3
  const PAYLOAD_INDEX: nat := 4
  const MIN_SIZE: nat := 4
  const MAX_SIZE: nat := 26
  const MAP_SIZE: nat := 20

  datatype Configuration = Basic | IsAck | HasAck

  datatype Definition = Definition(header: byte, payloadSize: nat, configuration: Configuration) {
    function TotalSize(): nat {
      MIN_SIZE + payloadSize
    }

    function ContentSize(): nat {
      TotalSize() - HEADER_INDEX
    }
  }

  const ACK_DEFINITION: Definition := Definition(0, 1, IsAck)

  /** The encoder of one end as far as packets are concerned. */
  datatype Codec = Codec(fullPower: bool, encrypt: seq<byte> -> seq<byte>, decrypt: seq<byte> -> seq<byte>, crc: seq<byte> -> bv16) {
    /** The cipher keeps lengths and decryption undoes encryption. */
    ghost predicate Sound() {
      && (forall m :: |encrypt(m)| == |m|)
      && (forall m :: |decrypt(m)| == |m|)
      && (forall m :: decrypt(encrypt(m)) == m)
    }

    function Encoded(content: seq<byte>): seq<byte> {
      if fullPower then encrypt(content) else content
    }

    function Decoded(content: seq<byte>): seq<byte> {
      if fullPower then decrypt(content) else content
    }
  }

  function LowByte(x: bv16): byte {
    (x & 0xFF) as byte
  }

  function HighByte(x: bv16): byte {
    (x >> 8) as byte
  }

  function Word(low: byte, high: byte): bv16 {
    (low as bv16) | ((high as bv16) << 8)
  }

  /** What SendPacket puts on the air: checksum of the encoded content, low byte first, then that content. */
  function OnAir(codec: Codec, content: seq<byte>): seq<byte> {
    var encoded := codec.Encoded(content);
    var crc := codec.crc(encoded);
    [LowByte(crc), HighByte(crc)] + encoded
  }

  datatype Verdict = BadSize | Rejected | Accepted(definition: Definition, content: seq<byte>)

  /** What ProcessIncoming makes of the bytes the radio has received. */
  function Judge(codec: Codec, mapping: seq<Option<Definition>>, raw: seq<byte>): Verdict
    requires |mapping| == MAP_SIZE && codec.Sound()
  {
    if |raw| < MIN_SIZE || |raw| > MAX_SIZE then BadSize
    else
      var content := raw[HEADER_INDEX..];
      if codec.crc(content) != Word(raw[0], raw[1]) then Rejected
      else
        var plain := codec.Decoded(content);
        var header := plain[0] as nat;
        if header >= MAP_SIZE || mapping[header].None? then Rejected
        else Accepted(mapping[header].value, plain)
  }

  predicate MapValid(mapping: seq<Option<Definition>>) {
    && |mapping| == MAP_SIZE
    && forall h :: 0 <= h < MAP_SIZE && mapping[h].Some? ==> mapping[h].value.header as nat == h
  }

  /** Between ends with the same encoder state and packet map, in clear or encrypted, every packet of a mapped
      definition and legal size arrives as what was sent: same definition, header, id and payload. */
  lemma PacketRoundTrip(codec: Codec, mapping: seq<Option<Definition>>, definition: Definition, content: seq<byte>)
    requires codec.Sound() && MapValid(mapping) && Some(definition) in mapping
    requires |content| == definition.ContentSize() && content[0] == definition.header && definition.TotalSize() <= MAX_SIZE
    ensures Judge(codec, mapping, OnAir(codec, content)) == Accepted(definition, content)
  {
  }

  /** Nothing else gets in: an accepted packet is, bit for bit, the on-air form of its content under the receiver's key
      and IV, and its header is mapped. */
  lemma AcceptedWasSendable(codec: Codec, mapping: seq<Option<Definition>>, raw: seq<byte>)
    requires codec.Sound() && MapValid(mapping) && Judge(codec, mapping, raw).Accepted?
    requires forall m :: codec.encrypt(codec.decrypt(m)) == m
    ensures var v := Judge(codec, mapping, raw);
            && OnAir(codec, v.content) == raw
            && Some(v.definition) in mapping && v.content[0] == v.definition.header
  {
  }

  /** The word that a checksum is compared with has its low byte first. */
  lemma LowByteFirst(low: byte, high: byte)
    ensures LowByte(Word(low, high)) == low && HighByte(Word(low, high)) == high
    ensures Word(low, high) == low as bv16 + 256 * (high as bv16)
  {
  }

  /** Which bytes are dropped for their size, and which of the others get through. */
  lemma JudgedExactly(codec: Codec, mapping: seq<Option<Definition>>, raw: seq<byte>)
    requires codec.Sound() && |mapping| == 20
    ensures Judge(codec, mapping, raw).BadSize? <==> |raw| < 4 || 26 < |raw|
    ensures Judge(codec, mapping, raw).Accepted? <==>
              && 4 <= |raw| <= 26
              && codec.crc(raw[2..]) == Word(raw[0], raw[1])
              && var header := (if codec.fullPower then codec.decrypt(raw[2..]) else raw[2..])[0] as nat;
              header < 20 && mapping[header].Some?
  {
  }

  /** But its length is not held against its definition: content of any length the radio can receive is accepted under
      the definition of its header, also where the definition promises more payload than came. */
  lemma LengthIsNotChecked(codec: Codec, mapping: seq<Option<Definition>>, definition: Definition, content: seq<byte>)
    requires codec.Sound() && MapValid(mapping) && Some(definition) in mapping
    requires MIN_SIZE <= HEADER_INDEX + |content| <= MAX_SIZE
    ensures Judge(codec, mapping, OnAir(codec, content)) == Accepted(definition, content) <==> content[0] == definition.header
  {
  }
}
