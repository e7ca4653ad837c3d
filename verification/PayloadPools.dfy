/**
 The payload pools over an explicit heap of blocks: each operation as a function on pool values. A `Chunk` is what the
 allocator returns: an address that is not in use and arbitrary initial bytes.
 */
module PayloadPools {

  newtype Byte = x: int | 0 <= x < 256
  type Address = nat
  const NULL: Address := 0

  datatype Payload = Payload(data: Address, length: nat, maxSize: nat, pos: nat)
  const EMPTY := Payload(NULL, 0, 0, 0)

  datatype Chunk = Chunk(addr: Address, bytes: seq<Byte>)

  /** What a pool call ends with: a return value and the payload it filled, or an InconsistencyException. */
  datatype Result = Returns(ok: bool, payload: Payload) | Throws

  /** The memory and the counters of a pool: `refs` is the reference counter kept with each block. */
  datatype Block = Block(refs: nat, bytes: seq<Byte>)
  datatype Pool = Pool(blocks: map<Address, Block>, reserved: nat, released: nat)

  const WORD := 0x1_0000_0000

  predicate IsClean(p: Pool) {
    p.reserved == p.released
  }

  /** The allocator's promise for a request of `size` bytes. */
  predicate Fresh(p: Pool, ch: Chunk, size: nat) {
    ch.addr != NULL && ch.addr !in p.blocks && |ch.bytes| == size
  }

  /** memcpy of `src` over the beginning of `dst`. */
  function Overwrite(dst: seq<Byte>, src: seq<Byte>): seq<Byte>
    requires |src| <= |dst|
  {
    src + dst[|src|..]
  }

  // ----- FastPayloadPool: the counter lives in the block -----

  function FastReserve(p: Pool, size: nat, pl: Payload, ch: Chunk): (Pool, Result) {
    if size == 0 then (p, Returns(false, pl))
    else
      (Pool(p.blocks[ch.addr := Block(1, ch.bytes)], p.reserved + 1, p.released),
       Returns(true, pl.(data := ch.addr, maxSize := size)))
  }

  /** get_payload from a source of this pool: one more reference to its block. */
  function FastShare(p: Pool, src: Payload, pl: Payload): (Pool, Result)
    requires src.data in p.blocks
  {
    var b := p.blocks[src.data];
    (p.(blocks := p.blocks[src.data := b.(refs := (b.refs + 1) % WORD)]),
     Returns(true, pl.(data := src.data, length := src.length, maxSize := src.maxSize)))
  }

  /** get_payload from a source of another owner: a new block with a copy of its bytes. */
  function FastImport(p: Pool, src: seq<Byte>, size: nat, pl: Payload, ch: Chunk): (Pool, Result)
    requires |src| <= size && |ch.bytes| == size
  {
    var (p1, r) := FastReserve(p, size, pl, ch);
    if !r.ok then (p1, r)
    else
      (p1.(blocks := p1.blocks[ch.addr := Block(1, Overwrite(ch.bytes, src))]),
       Returns(true, r.payload.(length := |src|)))
  }

  function FastRelease(p: Pool, pl: Payload): (Pool, Result)
    requires pl.data in p.blocks
  {
    var b := p.blocks[pl.data];
    var refs := (b.refs - 1) % WORD;
    if refs != 0 then (p.(blocks := p.blocks[pl.data := b.(refs := refs)]), Returns(true, EMPTY))
    else
      var p1 := Pool(p.blocks - {pl.data}, p.reserved, p.released + 1);
      (p1, if p1.released > p1.reserved then Throws else Returns(true, EMPTY))
  }

  // ----- MapPayloadPool: the counters live in a map -----

  datatype MapPool = MapPool(
    memory: map<Address, seq<Byte>>, counters: map<Address, nat>, reserved: nat, released: nat)

  /** The blocks of a map pool, each with its counter. */
  function AsPool(m: MapPool): Pool
    requires m.memory.Keys == m.counters.Keys
  {
    Pool(map a | a in m.memory :: Block(m.counters[a], m.memory[a]), m.reserved, m.released)
  }

  function MapReserve(m: MapPool, size: nat, pl: Payload, ch: Chunk): (MapPool, Result) {
    if size == 0 then (m, Returns(false, pl))
    else
      (MapPool(m.memory[ch.addr := ch.bytes], m.counters[ch.addr := 1], m.reserved + 1, m.released),
       Returns(true, pl.(data := ch.addr, maxSize := size)))
  }

  function MapShare(m: MapPool, src: Payload, pl: Payload): (MapPool, Result) {
    if src.data !in m.counters then (m, Throws)
    else
      (m.(counters := m.counters[src.data := (m.counters[src.data] + 1) % WORD]),
       Returns(true, pl.(data := src.data, length := src.length, maxSize := src.maxSize)))
  }

  function MapImport(m: MapPool, src: seq<Byte>, size: nat, pl: Payload, ch: Chunk): (MapPool, Result)
    requires |src| <= size && |ch.bytes| == size
  {
    var (m1, r) := MapReserve(m, size, pl, ch);
    if !r.ok then (m1, r)
    else
      (m1.(memory := m1.memory[ch.addr := Overwrite(ch.bytes, src)]),
       Returns(true, r.payload.(length := |src|)))
  }

  function MapRelease(m: MapPool, pl: Payload): (MapPool, Result) {
    if pl.data !in m.counters then (m, Throws)
    else
      var refs := (m.counters[pl.data] - 1) % WORD;
      if refs != 0 then (m.(counters := m.counters[pl.data := refs]), Returns(true, EMPTY))
      else if m.released + 1 > m.reserved then
        // the exception leaves release_ before the entry is erased from the map
        (MapPool(m.memory - {pl.data}, m.counters[pl.data := 0], m.reserved, m.released + 1), Throws)
      else
        (MapPool(m.memory - {pl.data}, m.counters - {pl.data}, m.reserved, m.released + 1), Returns(true, EMPTY))
  }

  // ----- CopyPayloadPool: every payload has a block of its own -----

  datatype CopyPool = CopyPool(memory: map<Address, seq<Byte>>, reserved: nat, released: nat)

  /** A size of 0 reserves nothing and still returns true: the result of reserve_ is not looked at. */
  function CopyReserve(m: CopyPool, size: nat, pl: Payload, ch: Chunk): (CopyPool, Result) {
    if size == 0 then (m, Returns(true, pl.(maxSize := 0)))
    else
      (CopyPool(m.memory[ch.addr := ch.bytes], m.reserved + 1, m.released),
       Returns(true, pl.(data := ch.addr, maxSize := size)))
  }

  /** get_payload from any source, whoever owns it. */
  function CopyGet(m: CopyPool, src: seq<Byte>, size: nat, pl: Payload, ch: Chunk): (CopyPool, Result)
    requires |src| <= size && |ch.bytes| == size
  {
    var (m1, r) := CopyReserve(m, size, pl, ch);
    if size == 0 then (m1, Returns(true, r.payload.(length := |src|, maxSize := size)))
    else
      (m1.(memory := m1.memory[ch.addr := Overwrite(ch.bytes, src)]),
       Returns(true, r.payload.(length := |src|, maxSize := size)))
  }

  function CopyRelease(m: CopyPool, pl: Payload): (CopyPool, Result) {
    var m1 := CopyPool(m.memory - {pl.data}, m.reserved, m.released + 1);
    (m1, if m1.released > m1.reserved then Throws else Returns(true, EMPTY))
  }
}
