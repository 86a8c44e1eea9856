/** The running form of the packet path: raw buffers written in place, the map as an array, the encoder with its key and
    IV holders, and the driver's outgoing and incoming halves. */
module PacketBuffers {
  import opened Common
  import opened Checksum
  import opened Packets

  const KEY_SIZE: nat := 16
  const TOKEN_SIZE: nat := 4

  class Packet {
    const data: array<byte>
    var definition: Option<Definition>

    constructor (size: nat)
      requires MIN_SIZE <= size
      ensures fresh(data) && data.Length == size && definition == None
    {
      data := new byte[size];
      definition := None;
    }

    ghost predicate Valid()
      reads this
    {
      data.Length >= MIN_SIZE && (definition.Some? ==> definition.value.TotalSize() <= data.Length)
    }

    method SetId(id: byte)
      requires Valid()
      modifies data
      ensures data[..] == old(data[..])[ID_INDEX := id]
    {
      data[ID_INDEX] := id;
    }

    method GetMACCRC() returns (crc: bv16)
      requires Valid()
      ensures crc == Word(data[0], data[1])
    {
      crc := (data[0] as bv16) | ((data[1] as bv16) << 8);
    }

    method SetMACCRC(crc: bv16)
      requires Valid()
      modifies data
      ensures data[..] == [LowByte(crc), HighByte(crc)] + old(data[..])[HEADER_INDEX..]
    {
      data[0] := LowByte(crc);
      data[1] := HighByte(crc);
    }

    /** A null definition is stored but reported as a failure; the header byte then stays. */
    method SetDefinition(d: Option<Definition>) returns (ok: bool)
      requires Valid() && (d.Some? ==> d.value.TotalSize() <= data.Length)
      modifies this, data
      ensures Valid() && definition == d && ok == d.Some?
      ensures data[..] == if d.Some? then old(data[..])[HEADER_INDEX := d.value.header] else old(data[..])
    {
      if d.Some? {
        data[HEADER_INDEX] := d.value.header;
      }
      definition := d;
      ok := d.Some?;
    }
  }

  class PacketMap {
    const mapping: array<Option<Definition>>
    var mappingSize: nat

    ghost predicate Valid()
      reads this, mapping
    {
      MapValid(mapping[..])
    }

    constructor ()
      ensures Valid() && fresh(mapping)
      ensures mapping[0] == Some(ACK_DEFINITION) && mappingSize == 1
      ensures forall h :: 0 < h < MAP_SIZE ==> mapping[h] == None
    {
      mapping := new Option<Definition>[MAP_SIZE];
      mappingSize := 0;
      new;
      ClearMapping();
    }

    method ClearMapping()
      requires mapping.Length == MAP_SIZE
      modifies this, mapping
      ensures Valid() && mapping[0] == Some(ACK_DEFINITION) && mappingSize == 1
      ensures forall h :: 0 < h < MAP_SIZE ==> mapping[h] == None
    {
      for i := 0 to MAP_SIZE
        invariant forall h :: 0 <= h < i ==> mapping[h] == None
      {
        mapping[i] := None;
      }
      mappingSize := 0;
      var ok := AddMapping(ACK_DEFINITION);
    }

    /** A header has one definition: the first one added. */
    method AddMapping(d: Definition) returns (added: bool)
      requires Valid() && d.header as nat < MAP_SIZE
      modifies this, mapping
      ensures Valid()
      ensures added <==> old(mappingSize) < MAP_SIZE && old(mapping[d.header as nat]).None?
      ensures mapping[..] == if added then old(mapping[..])[d.header as nat := Some(d)] else old(mapping[..])
      ensures mappingSize == if added then old(mappingSize) + 1 else old(mappingSize)
    {
      if mappingSize >= MAP_SIZE || mapping[d.header as nat] != None {
        return false;
      }
      mapping[d.header as nat] := Some(d);
      mappingSize := mappingSize + 1;
      return true;
    }

    /** What is found under a header is a definition of that header. */
    method GetDefinition(header: byte) returns (d: Option<Definition>)
      requires Valid()
      ensures d.Some? ==> d.value.header == header && d in mapping[..]
      ensures d.None? ==> forall known :: Some(known) in mapping[..] ==> known.header != header
    {
      if header as nat >= MAP_SIZE {
        return None;
      }
      return mapping[header as nat];
    }
  }

  datatype Stage = AllClear | AllReady | FullPower

  /** The cipher keeps lengths and decryption undoes encryption. */
  ghost predicate SoundCipher(encrypt: (seq<byte>, seq<byte>, seq<byte>) -> seq<byte>, decrypt: (seq<byte>, seq<byte>, seq<byte>) -> seq<byte>) {
    && (forall k, iv, m :: |encrypt(k, iv, m)| == |m|)
    && (forall k, iv, m :: |decrypt(k, iv, m)| == |m|)
    && (forall k, iv, m :: decrypt(k, iv, encrypt(k, iv, m)) == m)
  }

  /** The block cipher and the CRC are the libraries': functions of key, IV and message. */
  class CryptoEncoder {
    var stage: Stage
    const keyHolder: array<byte>
    const ivHolder: array<byte>
    const tokenHolder: array<byte>
    const encrypt: (seq<byte>, seq<byte>, seq<byte>) -> seq<byte>
    const decrypt: (seq<byte>, seq<byte>, seq<byte>) -> seq<byte>
    const crc: seq<byte> -> bv16

    constructor (encrypt: (seq<byte>, seq<byte>, seq<byte>) -> seq<byte>, decrypt: (seq<byte>, seq<byte>, seq<byte>) -> seq<byte>,
                 crc: seq<byte> -> bv16)
      requires SoundCipher(encrypt, decrypt)
      ensures Valid() && stage == AllClear && fresh(keyHolder) && fresh(ivHolder) && fresh(tokenHolder)
    {
      this.encrypt, this.decrypt, this.crc := encrypt, decrypt, crc;
      stage := AllClear;
      keyHolder, ivHolder, tokenHolder := new byte[KEY_SIZE], new byte[KEY_SIZE], new byte[TOKEN_SIZE];
    }

    ghost predicate Valid()
      reads this
    {
      && keyHolder.Length == ivHolder.Length == KEY_SIZE && tokenHolder.Length == TOKEN_SIZE
      && keyHolder != ivHolder && keyHolder != tokenHolder && ivHolder != tokenHolder
      && SoundCipher(encrypt, decrypt)
    }

    ghost function View(): (codec: Codec)
      requires Valid()
      reads this, keyHolder, ivHolder
      ensures codec.Sound()
    {
      var k, iv, e, d := keyHolder[..], ivHolder[..], encrypt, decrypt;
      Codec(stage.FullPower?, m => e(k, iv, m), m => d(k, iv, m), crc)
    }

    method Clear()
      requires Valid()
      modifies this, keyHolder, ivHolder, tokenHolder
      ensures Valid() && stage == AllClear
      ensures forall i :: 0 <= i < KEY_SIZE ==> keyHolder[i] == ivHolder[i] == 0
      ensures forall i :: 0 <= i < TOKEN_SIZE ==> tokenHolder[i] == 0
    {
      stage := AllClear;
      for i := 0 to TOKEN_SIZE
        invariant stage == AllClear && forall j :: 0 <= j < i ==> tokenHolder[j] == 0
      {
        tokenHolder[i] := 0;
      }
      for i := 0 to KEY_SIZE
        invariant forall j :: 0 <= j < i ==> keyHolder[j] == ivHolder[j] == 0
        invariant stage == AllClear && forall j :: 0 <= j < TOKEN_SIZE ==> tokenHolder[j] == 0
      {
        keyHolder[i] := 0;
        ivHolder[i] := 0;
      }
    }

    method SetEnabled() returns (ok: bool)
      modifies this
      ensures ok <==> old(stage) != AllClear
      ensures stage == if ok then FullPower else AllClear
    {
      if stage == AllReady {
        stage := FullPower;
        return true;
      } else if stage == FullPower {
        return true;
      }
      return false;
    }

    /** Of the secret only the first sixteen bytes become the key; a short secret is refused. The cipher library may
        refuse the key or the IV: then the key is in place already, but the encoder is no further than it was. */
    method SetSecretKey(secretKey: array<byte>, keyLength: nat, keyTaken: bool, ivTaken: bool) returns (ok: bool)
      requires Valid() && keyLength <= secretKey.Length && secretKey != keyHolder
      modifies this, keyHolder
      ensures Valid() && (ok <==> keyLength >= 20 && keyTaken && ivTaken)
      ensures stage == if ok then AllReady else old(stage)
      ensures keyHolder[..] == if keyLength >= 20 then secretKey[..16] else old(keyHolder[..])
    {
      if keyLength < KEY_SIZE + TOKEN_SIZE {
        return false;
      }
      for i := 0 to KEY_SIZE
        invariant forall j :: 0 <= j < i ==> keyHolder[j] == secretKey[j]
        invariant secretKey[..] == old(secretKey[..]) && stage == old(stage)
      {
        keyHolder[i] := secretKey[i];
      }
      if !keyTaken {
        return false;
      }
      if !ivTaken {
        return false;
      }
      stage := AllReady;
      return true;
    }

    /** Writes the encoded form of the source's content into the target and returns its checksum. */
    method Encode(source: array<byte>, length: nat, target: array<byte>) returns (mac: bv16)
      requires Valid() && source != target && target != keyHolder && target != ivHolder
      requires HEADER_INDEX + length <= source.Length && HEADER_INDEX + length <= target.Length
      modifies target
      ensures target[HEADER_INDEX..HEADER_INDEX + length] == View().Encoded(source[HEADER_INDEX..HEADER_INDEX + length])
      ensures target[..HEADER_INDEX] == old(target[..HEADER_INDEX]) && target[HEADER_INDEX + length..] == old(target[HEADER_INDEX + length..])
      ensures mac == crc(target[HEADER_INDEX..HEADER_INDEX + length])
    {
      var content := source[HEADER_INDEX..HEADER_INDEX + length];
      var encoded := if stage == FullPower then encrypt(keyHolder[..], ivHolder[..], content) else content;
      assert encoded == View().Encoded(content);
      Write(target, encoded);
      assert target[HEADER_INDEX..HEADER_INDEX + length] == encoded;
      mac := crc(target[HEADER_INDEX..HEADER_INDEX + length]);
    }

    /** Decodes in place if the checksum is right. */
    method Decode(message: array<byte>, length: nat, mac: bv16) returns (ok: bool)
      requires Valid() && HEADER_INDEX + length <= message.Length && message != keyHolder && message != ivHolder
      modifies message
      ensures ok <==> mac == crc(old(message[HEADER_INDEX..HEADER_INDEX + length]))
      ensures ok ==> message[HEADER_INDEX..HEADER_INDEX + length] == View().Decoded(old(message[HEADER_INDEX..HEADER_INDEX + length]))
      ensures !ok ==> message[..] == old(message[..])
    {
      var content := message[HEADER_INDEX..HEADER_INDEX + length];
      if mac != crc(content) {
        return false;
      }
      if stage == FullPower {
        var plain := decrypt(keyHolder[..], ivHolder[..], content);
        assert plain == View().Decoded(content);
        Write(message, plain);
        assert message[HEADER_INDEX..HEADER_INDEX + length] == plain;
      }
      return true;
    }

    method Write(target: array<byte>, bytes: seq<byte>)
      requires HEADER_INDEX + |bytes| <= target.Length
      modifies target
      ensures target[..] == old(target[..HEADER_INDEX]) + bytes + old(target[HEADER_INDEX + |bytes|..])
    {
      for i := 0 to |bytes|
        invariant target[HEADER_INDEX..HEADER_INDEX + i] == bytes[..i]
        invariant target[..HEADER_INDEX] == old(target[..HEADER_INDEX])
        invariant target[HEADER_INDEX + i..] == old(target[HEADER_INDEX + i..])
      {
        target[HEADER_INDEX + i] := bytes[i];
      }
    }
  }

  /** The buffers of one driver. */
  class RadioPath {
    const encoder: CryptoEncoder
    const packetMap: PacketMap
    const outgoing: Packet
    const incoming: Packet
    const ackPacket: Packet

    ghost predicate Valid()
      reads this, encoder, packetMap, packetMap.mapping, incoming, outgoing, ackPacket
    {
      && encoder.Valid() && packetMap.Valid() && incoming.Valid() && outgoing.Valid() && ackPacket.Valid()
      && incoming.data.Length == outgoing.data.Length == ackPacket.data.Length == MAX_SIZE
      && incoming != ackPacket && incoming.data != outgoing.data && ackPacket.data !in {incoming.data, outgoing.data}
      && {encoder.keyHolder, encoder.ivHolder} !! {incoming.data, outgoing.data, ackPacket.data}
      && forall d :: Some(d) in packetMap.mapping[..] ==> d.TotalSize() <= MAX_SIZE
    }

    constructor (encoder: CryptoEncoder, packetMap: PacketMap)
      requires encoder.Valid() && packetMap.Valid() && forall d :: Some(d) in packetMap.mapping[..] ==> d.TotalSize() <= MAX_SIZE
      ensures Valid() && this.encoder == encoder && this.packetMap == packetMap
      ensures fresh(incoming) && fresh(outgoing) && fresh(ackPacket)
    {
      this.encoder, this.packetMap := encoder, packetMap;
      outgoing := new Packet(MAX_SIZE);
      incoming := new Packet(MAX_SIZE);
      ackPacket := new Packet(MAX_SIZE);
    }

    /** The ack names the header of the packet in the incoming buffer and carries its id. */
    method BuildAck()
      requires Valid()
      modifies ackPacket, ackPacket.data
      ensures Valid() && ackPacket.definition == Some(ACK_DEFINITION) == Some(Definition(0, 1, IsAck))
      ensures ackPacket.data[HEADER_INDEX..ACK_DEFINITION.TotalSize()]
           == [ACK_DEFINITION.header, incoming.data[ID_INDEX], incoming.data[HEADER_INDEX]]
    {
      var known := ackPacket.SetDefinition(Some(ACK_DEFINITION));
      ackPacket.data[PAYLOAD_INDEX] := incoming.data[HEADER_INDEX];
      ackPacket.SetId(incoming.data[ID_INDEX]);
    }

    /** SendPacket up to the call of Transmit. */
    method Prepare(p: Packet) returns (size: nat)
      requires Valid() && p.Valid() && p.definition.Some? && p.definition.value.TotalSize() <= MAX_SIZE
      requires p.data != outgoing.data
      modifies outgoing.data
      ensures size == p.definition.value.TotalSize()
      ensures outgoing.data[..size] == OnAir(encoder.View(), p.data[HEADER_INDEX..size])
    {
      size := p.definition.value.TotalSize();
      var mac := encoder.Encode(p.data, p.definition.value.ContentSize(), outgoing.data);
      ghost var encoded := outgoing.data[HEADER_INDEX..size];
      outgoing.SetMACCRC(mac);
      assert outgoing.data[HEADER_INDEX..size] == encoded;
      assert outgoing.data[..size] == outgoing.data[..HEADER_INDEX] + outgoing.data[HEADER_INDEX..size];
    }

    /** Gives the received packet its definition; the header byte written is the one that was there. */
    method Identify() returns (known: bool)
      requires Valid()
      modifies incoming, incoming.data
      ensures Valid()
      ensures incoming.data[..] == old(incoming.data[..])
      ensures var h := incoming.data[HEADER_INDEX] as nat;
              && (known <==> h < MAP_SIZE && packetMap.mapping[h].Some?)
              && (known ==> incoming.definition == packetMap.mapping[h])
    {
      var h := incoming.data[HEADER_INDEX];
      var d := packetMap.GetDefinition(h);
      assert h as nat < MAP_SIZE ==> packetMap.mapping[h as nat] in packetMap.mapping[..];
      known := incoming.SetDefinition(d);
    }

    /** What ProcessIncoming is to make of a packet of the given size, of which the buffer holds the bytes. */
    ghost function Verdict(size: nat): Packets.Verdict
      requires Valid()
      reads this, encoder, encoder.keyHolder, encoder.ivHolder, packetMap, packetMap.mapping, incoming, incoming.data, outgoing, ackPacket
    {
      if size > MAX_SIZE then BadSize else Packets.Judge(encoder.View(), packetMap.mapping[..], incoming.data[..size])
    }

    /** ProcessIncoming from the size test to the definition of the packet; the buffer is decoded in place. */
    method Judge(size: nat) returns (accepted: bool)
      requires Valid()
      modifies incoming, incoming.data
      ensures Valid()
      ensures var v := old(Verdict(size));
              && (accepted <==> v.Accepted?)
              && (accepted ==> MIN_SIZE <= size <= MAX_SIZE && incoming.data[HEADER_INDEX..size] == v.content
                               && incoming.definition == Some(v.definition))
    {
      if size < MIN_SIZE || size > MAX_SIZE {
        return false;
      }
      ghost var raw, codec := incoming.data[..size], encoder.View();
      assert raw[HEADER_INDEX..] == incoming.data[HEADER_INDEX..size];
      var mac := incoming.GetMACCRC();
      var ok := encoder.Decode(incoming.data, size - HEADER_INDEX, mac);
      if !ok {
        return false;
      }
      assert incoming.data[HEADER_INDEX..size] == codec.Decoded(raw[HEADER_INDEX..]);
      assert incoming.data[HEADER_INDEX] == incoming.data[HEADER_INDEX..size][0];
      accepted := Identify();
      assert incoming.data[HEADER_INDEX..size] == codec.Decoded(raw[HEADER_INDEX..]);
    }
  }
}
