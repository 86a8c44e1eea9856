/** The tracked surface as the object the services share: a byte array written in place, the dirty bits, and the hash
    cache (src/Services/SyncSurface/ITrackedSurface.h). */
module SurfaceObject {
  import opened Checksum
  import opened Surfaces

  class TrackedSurface {
    const blockCount: nat
    const data: array<byte>
    var tracker: set<nat>
    var lastCRC: byte
    var hashNeedsUpdate: bool
    var dataGood: bool

    ghost predicate Fits()
      reads this
    {
      0 < blockCount < MAX_BLOCKS && data.Length == BLOCK_SIZE * blockCount
    }

    ghost function View(): Surface
      reads this, data
    {
      Surface(blockCount, data[..], tracker, lastCRC, hashNeedsUpdate, dataGood, Crc8)
    }

    constructor (blockCount: nat)
      requires 0 < blockCount < MAX_BLOCKS
      ensures Fits() && fresh(data) && this.blockCount == blockCount
      ensures View().Valid() && View().data == Fresh(blockCount, Crc8).data && tracker == {} && !dataGood && hashNeedsUpdate
    {
      this.blockCount := blockCount;
      data := new byte[BLOCK_SIZE * blockCount];
      tracker, lastCRC, hashNeedsUpdate, dataGood := {}, 0, true, false;
      new;
      for i := 0 to BLOCK_SIZE * blockCount
        invariant forall k :: 0 <= k < i ==> data[k] == 0
        invariant tracker == {} && hashNeedsUpdate && !dataGood
      {
        data[i] := 0;
      }
    }

    method UpdateHash()
      modifies this
      ensures View() == old(View()).UpdateHash()
    {
      if hashNeedsUpdate {
        hashNeedsUpdate := false;
        lastCRC := Crc8(data[..]);
      }
    }

    method InvalidateHash()
      modifies this
      ensures View() == old(View()).InvalidateHash()
    {
      hashNeedsUpdate := true;
    }

    method SetAll()
      modifies this
      ensures View() == old(View()).SetAll()
    {
      tracker := Below(blockCount);
    }

    /** The first set bit from start on, wrapping round at the end. */
    method GetNextSetIndex(start: nat) returns (i: nat)
      requires start < blockCount && tracker != {} && forall b :: b in tracker ==> b < blockCount
      ensures i == NextSetIndex(tracker, start, blockCount)
    {
      i := FindFrom(start);
      if i == blockCount {
        ghost var d :| d in tracker;
        i := FindFrom(0);
      }
    }

    method FindFrom(start: nat) returns (i: nat)
      requires start <= blockCount
      ensures i == FirstFrom(tracker, start, blockCount)
    {
      i := start;
      while i < blockCount && i !in tracker
        invariant start <= i <= blockCount
        invariant FirstFrom(tracker, start, blockCount) == FirstFrom(tracker, i, blockCount)
      {
        i := i + 1;
      }
    }

    /** UpdateBlockData: the payload of a received packet into block i. */
    method ReadBlock(i: nat, payload: array<byte>)
      requires Fits() && i < blockCount && payload.Length >= BLOCK_SIZE && payload != data
      modifies data
      ensures data[..] == PutBlock(old(data[..]), i, payload[..BLOCK_SIZE])
    {
      var offset := i * BLOCK_SIZE;
      for k := 0 to BLOCK_SIZE
        invariant forall j :: 0 <= j < data.Length ==> data[j] == if offset <= j < offset + k then payload[j - offset] else old(data[j])
      {
        data[offset + k] := payload[k];
      }
    }

    /** PrepareBlockPacketPayload: block i into the payload of the packet to send. */
    method WriteBlock(i: nat, payload: array<byte>)
      requires Fits() && i < blockCount && payload.Length >= BLOCK_SIZE && payload != data
      modifies payload
      ensures payload[..BLOCK_SIZE] == View().Block(i) && payload[BLOCK_SIZE..] == old(payload[BLOCK_SIZE..])
    {
      var offset := i * BLOCK_SIZE;
      for k := 0 to BLOCK_SIZE
        invariant forall j :: 0 <= j < k ==> payload[j] == data[offset + j]
        invariant payload[BLOCK_SIZE..] == old(payload[BLOCK_SIZE..])
      {
        payload[k] := data[offset + k];
      }
    }

    method Get8(block: nat, offset: nat) returns (value: byte)
      requires Fits() && block < blockCount && offset < BLOCK_SIZE
      ensures value == View().Block(block)[offset]
    {
      value := data[block * BLOCK_SIZE + offset];
    }

    method Get16(block: nat, offset: nat) returns (value: bv16)
      requires Fits() && block < blockCount && offset < 2
      ensures value == Surfaces.Get16(View().Block(block), offset)
    {
      var i := block * BLOCK_SIZE + offset * 2;
      value := (data[i] as bv16) + ((data[i + 1] as bv16) << 8);
    }

    method Get32(block: nat) returns (value: bv32)
      requires Fits() && block < blockCount
      ensures value == Surfaces.Get32(View().Block(block))
    {
      var i := block * BLOCK_SIZE;
      value := (data[i] as bv32) + ((data[i + 1] as bv32) << 8) + ((data[i + 2] as bv32) << 16) + ((data[i + 3] as bv32) << 24);
    }

    /** What every Set does before the change notification: block i now holds b and is marked dirty. */
    ghost predicate Stored(before: Surface, i: nat, b: seq<byte>)
      requires BLOCK_SIZE * i + BLOCK_SIZE <= |before.data| && |b| == BLOCK_SIZE
      reads this, data
    {
      View() == before.(data := PutBlock(before.data, i, b), dirty := before.dirty + {i})
    }

    method Set8(value: byte, block: nat, offset: nat)
      requires Fits() && block < blockCount && offset < BLOCK_SIZE
      modifies this, data
      ensures Stored(old(View()), block, Put8(old(View()).Block(block), offset, value))
    {
      data[block * BLOCK_SIZE + offset] := value;
      tracker := tracker + {block};
      assert data[..] == PutBlock(old(data[..]), block, Put8(old(View()).Block(block), offset, value));
    }

    method Set16(value: bv16, block: nat, offset: nat)
      requires Fits() && block < blockCount && offset < 2
      modifies this, data
      ensures Stored(old(View()), block, Put16(old(View()).Block(block), offset, value))
    {
      var i := block * BLOCK_SIZE + offset * 2;
      data[i] := (value & 0x00FF) as byte;
      data[i + 1] := (value >> 8) as byte;
      tracker := tracker + {block};
      assert data[..] == PutBlock(old(data[..]), block, Put16(old(View()).Block(block), offset, value));
    }

    method Set32(value: bv32, block: nat)
      requires Fits() && block < blockCount
      modifies this, data
      ensures Stored(old(View()), block, Put32(value))
    {
      var i := block * BLOCK_SIZE;
      data[i] := (value & 0xFF) as byte;
      data[i + 1] := ((value >> 8) & 0xFF) as byte;
      data[i + 2] := ((value >> 16) & 0xFF) as byte;
      data[i + 3] := (value >> 24) as byte;
      tracker := tracker + {block};
      assert data[..] == PutBlock(old(data[..]), block, Put32(value));
    }
  }
}
