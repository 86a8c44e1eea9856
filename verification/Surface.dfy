/** The tracked surface: an array of 4-byte blocks with one dirty bit per block and a cached
    checksum (src/Services/SyncSurface/ITrackedSurface.h). */
module Surfaces {
  import opened Checksum

  const BLOCK_SIZE: nat := 4
  const MAX_BLOCKS: nat := 32

  /** {0, ..., n - 1} */
  function Below(n: nat): (r: set<nat>)
    ensures forall i: nat :: i in r <==> i < n
    ensures |r| == n
  {
    if n == 0 then {} else Below(n - 1) + {n - 1}
  }

  datatype Surface = Surface(
    blocks: nat,        // BlockCount
    data: seq<byte>,
    dirty: set<nat>,    // set bits of the tracker
    crc: byte,          // LastCRC
    stale: bool,        // HashNeedsUpdate
    good: bool,         // DataGood
    hash: seq<byte> -> byte)  // the CRC calculator; nothing below depends on which one it is
  {
    predicate Valid() {
      && 0 < blocks < MAX_BLOCKS
      && |data| == BLOCK_SIZE * blocks
      && (forall i :: i in dirty ==> i < blocks)
      && (!stale ==> crc == Crc())
    }

    function Crc(): byte {
      hash(data)
    }

    function UpdateHash(): Surface {
      if stale then this.(stale := false, crc := Crc()) else this
    }

    function InvalidateHash(): Surface {
      this.(stale := true)
    }

    function AllBlocks(): set<nat> {
      Below(blocks)
    }

    function SetAll(): Surface {
      this.(dirty := AllBlocks())
    }

    /** The four bytes of block i. */
    function Block(i: nat): (b: seq<byte>)
      requires BLOCK_SIZE * i + BLOCK_SIZE <= |data|
      ensures |b| == BLOCK_SIZE
    {
      data[BLOCK_SIZE * i..BLOCK_SIZE * i + BLOCK_SIZE]
    }

    /** Overwrites block i; the cached checksum is stale from here on. */
    function WithBlock(i: nat, b: seq<byte>): (s: Surface)
      requires Valid() && i < blocks && |b| == BLOCK_SIZE
      ensures s.Valid() && s.blocks == blocks && s.Block(i) == b
    {
      this.(data := PutBlock(data, i, b), stale := true)
    }
  }

  function PutBlock(data: seq<byte>, i: nat, b: seq<byte>): (d: seq<byte>)
    requires BLOCK_SIZE * i + BLOCK_SIZE <= |data| && |b| == BLOCK_SIZE
    ensures |d| == |data|
    ensures forall k :: 0 <= k < |data| ==>
              d[k] == if BLOCK_SIZE * i <= k < BLOCK_SIZE * i + BLOCK_SIZE then b[k - BLOCK_SIZE * i] else data[k]
  {
    data[..BLOCK_SIZE * i] + b + data[BLOCK_SIZE * i + BLOCK_SIZE..]
  }

  function Fresh(blocks: nat, hash: seq<byte> -> byte): Surface {
    Surface(blocks, seq(BLOCK_SIZE * blocks, _ => 0), {}, 0, true, false, hash)
  }

  /** A write to one block leaves the bytes of every other block alone. */
  lemma OtherBlocksUnchanged(s: Surface, i: nat, b: seq<byte>, j: nat)
    requires s.Valid() && i < s.blocks && |b| == BLOCK_SIZE && j < s.blocks && j != i
    ensures s.WithBlock(i, b).Block(j) == s.Block(j)
  {
  }

  /** First set bit at or after start, then wrapping round to 0: the tracker's GetNextSetIndex. */
  function FirstFrom(dirty: set<nat>, i: nat, blocks: nat): (r: nat)
    requires i <= blocks
    ensures i <= r <= blocks
    ensures r < blocks ==> r in dirty
    ensures forall k :: i <= k < r ==> k !in dirty
    decreases blocks - i
  {
    if i == blocks || i in dirty then i else FirstFrom(dirty, i + 1, blocks)
  }

  function NextSetIndex(dirty: set<nat>, start: nat, blocks: nat): (r: nat)
    requires start < blocks
    requires dirty != {} && forall i :: i in dirty ==> i < blocks
    ensures r in dirty
    ensures r >= start ==> forall k :: start <= k < r ==> k !in dirty
    ensures r < start ==> forall k :: k in dirty ==> r <= k < start
  {
    var i := FirstFrom(dirty, start, blocks);
    if i < blocks then i
    else
      var d :| d in dirty;
      FirstFrom(dirty, 0, blocks)
  }

  // ---------------------------------------------------------------------------------------------
  // Values inside a block, least significant byte first

  function Put8(b: seq<byte>, offset: nat, value: byte): (r: seq<byte>)
    requires |b| == BLOCK_SIZE && offset < BLOCK_SIZE
    ensures |r| == BLOCK_SIZE
  {
    b[offset := value]
  }

  function Low(v: bv16): byte { (v & 0xFF) as byte }
  function High(v: bv16): byte { (v >> 8) as byte }
  function Join16(low: byte, high: byte): bv16 { (low as bv16) + ((high as bv16) << 8) }

  function Put16(b: seq<byte>, offset: nat, value: bv16): (r: seq<byte>)
    requires |b| == BLOCK_SIZE && offset < 2
    ensures |r| == BLOCK_SIZE
  {
    b[2 * offset := Low(value)][2 * offset + 1 := High(value)]
  }

  function Get16(b: seq<byte>, offset: nat): bv16
    requires |b| == BLOCK_SIZE && offset < 2
  {
    Join16(b[2 * offset], b[2 * offset + 1])
  }

  function Join32(b0: byte, b1: byte, b2: byte, b3: byte): bv32 {
    (b0 as bv32) + ((b1 as bv32) << 8) + ((b2 as bv32) << 16) + ((b3 as bv32) << 24)
  }

  function Put32(v: bv32): (r: seq<byte>)
    ensures |r| == BLOCK_SIZE
  {
    [(v & 0xFF) as byte, ((v >> 8) & 0xFF) as byte, ((v >> 16) & 0xFF) as byte, (v >> 24) as byte]
  }

  function Get32(b: seq<byte>): bv32
    requires |b| == BLOCK_SIZE
  {
    Join32(b[0], b[1], b[2], b[3])
  }

  /** What is stored is what is read back, and the other half of the block keeps its value. */
  lemma Stored16IsRead(b: seq<byte>, offset: nat, v: bv16)
    requires |b| == BLOCK_SIZE && offset < 2
    ensures Get16(Put16(b, offset, v), offset) == v
    ensures Get16(Put16(b, offset, v), 1 - offset) == Get16(b, 1 - offset)
  {
  }

  lemma Stored8IsRead(b: seq<byte>, offset: nat, v: byte, other: nat)
    requires |b| == BLOCK_SIZE && offset < BLOCK_SIZE && other < BLOCK_SIZE
    ensures Put8(b, offset, v)[other] == if other == offset then v else b[other]
  {
  }

  lemma Stored32IsRead(v: bv32)
    ensures Get32(Put32(v)) == v
  {
  }
}
