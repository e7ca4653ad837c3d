/**
 Sharing is unobservable: for every sequence of pool calls that respects ownership, the three pools give each live
 payload the value that a ledger of plain values gives it.
 */
module PayloadRuns {
  import opened PayloadPools

  type Slot = nat

  /** A live payload as its holder sees it. Slots with the same group were obtained from each other. */
  datatype Item = Item(group: nat, maxSize: nat, bytes: seq<Byte>)

  /** The reference: every live payload simply has a value. `next` is the next unused group. */
  datatype Ledger = Ledger(items: map<Slot, Item>, next: nat)

  datatype Op =
    | Reserve(s: Slot, size: nat)
    | Fill(s: Slot, bytes: seq<Byte>)
    | Share(src: Slot, s: Slot)
    | Import(s: Slot, size: nat, bytes: seq<Byte>)
    | Release(s: Slot)

  /** The live payloads obtained from each other. */
  ghost function Group(items: map<Slot, Item>, group: nat): set<Slot> {
    set t | t in items && items[t].group == group
  }

  ghost predicate Unshared(l: Ledger, s: Slot)
    requires s in l.items
  {
    forall t :: t in l.items && t != s ==> l.items[t].group != l.items[s].group
  }

  /**
   Ownership: targets are unused, sources are live, sizes are not 0, shared payloads are not written, and the
   references to one block fit its 32-bit counter.
   */
  ghost predicate Legal(l: Ledger, op: Op) {
    match op
    case Reserve(s, size) => s !in l.items && size > 0
    case Fill(s, bytes) => s in l.items && |bytes| <= l.items[s].maxSize && Unshared(l, s)
    case Share(src, s) =>
      src in l.items && s !in l.items && |Group(l.items, l.items[src].group)| + 1 < 0x1_0000_0000
    case Import(s, size, bytes) => s !in l.items && size > 0 && |bytes| <= size
    case Release(s) => s in l.items
  }

  ghost function Apply(l: Ledger, op: Op): Ledger
    requires Legal(l, op)
  {
    match op
    case Reserve(s, size) => Ledger(l.items[s := Item(l.next, size, [])], l.next + 1)
    case Fill(s, bytes) => l.(items := l.items[s := l.items[s].(bytes := bytes)])
    case Share(src, s) => l.(items := l.items[s := l.items[src]])
    case Import(s, size, bytes) => Ledger(l.items[s := Item(l.next, size, bytes)], l.next + 1)
    case Release(s) => l.(items := l.items - {s})
  }

  ghost predicate LedgerInv(l: Ledger) {
    forall s :: s in l.items ==> l.items[s].group < l.next && |l.items[s].bytes| <= l.items[s].maxSize != 0
  }

  // ----- reference-counted pools -----

  /** A pool with the payloads that the program holds; `failed` once a call threw or returned false. */
  datatype Client = Client(pool: Pool, slots: map<Slot, Payload>, failed: bool)

  /** The slots whose payload points to block `a`. */
  ghost function Holders(slots: map<Slot, Payload>, a: Address): set<Slot> {
    set s | s in slots && slots[s].data == a
  }

  /** A payload shows its holder the ledger's value. */
  ghost predicate Shows(p: Payload, blocks: map<Address, Block>, it: Item) {
    && p.data in blocks
    && p.maxSize == it.maxSize == |blocks[p.data].bytes|
    && p.length == |it.bytes| <= |blocks[p.data].bytes|
    && blocks[p.data].bytes[..p.length] == it.bytes
  }

  /** Payloads share a block exactly when they are in the same group. */
  ghost predicate SharedByGroup(items: map<Slot, Item>, slots: map<Slot, Payload>) {
    forall s, t :: s in slots && t in slots && s in items && t in items ==>
      (slots[s].data == slots[t].data <==> items[s].group == items[t].group)
  }

  ghost predicate Agrees(items: map<Slot, Item>, slots: map<Slot, Payload>, blocks: map<Address, Block>) {
    && slots.Keys == items.Keys
    && (forall s :: s in slots ==> Shows(slots[s], blocks, items[s]))
    && SharedByGroup(items, slots)
  }

  ghost predicate Counted(c: Client) {
    && (forall a :: a in c.pool.blocks ==>
          Holders(c.slots, a) != {} && c.pool.blocks[a].refs == |Holders(c.slots, a)| < WORD)
    && c.pool.reserved == c.pool.released + |c.pool.blocks|
    && NULL !in c.pool.blocks
  }

  ghost predicate Rel(l: Ledger, c: Client) {
    LedgerInv(l) && Agrees(l.items, c.slots, c.pool.blocks) && Counted(c) && !c.failed
  }

  ghost function Received(c: Client, s: Slot, out: (Pool, Result)): Client {
    if out.1.Throws? || !out.1.ok then Client(out.0, c.slots, true)
    else Client(out.0, c.slots[s := out.1.payload], c.failed)
  }

  /** One call on the fast pool; `ch` is the allocator's choice, used by calls that reserve. */
  ghost function Call(c: Client, op: Op, ch: Chunk): Client {
    match op
    case Reserve(s, size) => Received(c, s, FastReserve(c.pool, size, EMPTY, ch))
    case Fill(s, bytes) =>
      if s in c.slots && c.slots[s].data in c.pool.blocks
         && |bytes| <= |c.pool.blocks[c.slots[s].data].bytes| then
        var p := c.slots[s];
        var b := c.pool.blocks[p.data];
        c.(pool := c.pool.(blocks := c.pool.blocks[p.data := b.(bytes := Overwrite(b.bytes, bytes))]),
           slots := c.slots[s := p.(length := |bytes|)])
      else c.(failed := true)
    case Share(src, s) =>
      if src in c.slots && c.slots[src].data in c.pool.blocks
      then Received(c, s, FastShare(c.pool, c.slots[src], EMPTY)) else c.(failed := true)
    case Import(s, size, bytes) =>
      if |bytes| <= size && |ch.bytes| == size
      then Received(c, s, FastImport(c.pool, bytes, size, EMPTY, ch)) else c.(failed := true)
    case Release(s) =>
      if s in c.slots && c.slots[s].data in c.pool.blocks then
        var out := FastRelease(c.pool, c.slots[s]);
        Client(out.0, c.slots - {s}, c.failed || out.1.Throws? || !out.1.ok)
      else c.(failed := true)
  }

  ghost predicate FreshFor(c: Client, op: Op, ch: Chunk) {
    op.Reserve? || op.Import? ==> Fresh(c.pool, ch, op.size)
  }

  // the holders of a block

  lemma HoldersAdd(slots: map<Slot, Payload>, s: Slot, p: Payload, a: Address)
    requires s !in slots
    ensures Holders(slots[s := p], a) == if p.data == a then Holders(slots, a) + {s} else Holders(slots, a)
    ensures s !in Holders(slots, a)
  {
  }

  lemma HoldersRemove(slots: map<Slot, Payload>, s: Slot, a: Address)
    requires s in slots
    ensures Holders(slots - {s}, a) == Holders(slots, a) - {s}
    ensures s in Holders(slots, a) <==> slots[s].data == a
  {
  }

  lemma {:induction false} NewBlockCounted(c: Client, s: Slot, p: Payload, ch: Chunk, bytes: seq<Byte>)
    requires Counted(c) && s !in c.slots && ch.addr != NULL && ch.addr !in c.pool.blocks && p.data == ch.addr
    requires forall t :: t in c.slots ==> c.slots[t].data in c.pool.blocks
    ensures Counted(Client(Pool(c.pool.blocks[ch.addr := Block(1, bytes)], c.pool.reserved + 1, c.pool.released),
                           c.slots[s := p], c.failed))
  {
    var blocks := c.pool.blocks[ch.addr := Block(1, bytes)];
    NewBlockSize(c.pool.blocks, ch.addr, Block(1, bytes));
    forall a | a in blocks
      ensures RefsAt(c.slots[s := p], blocks, a)
    {
      assert a != ch.addr ==> RefsAt(c.slots, c.pool.blocks, a);
      NewBlockRefs(c.slots, c.pool.blocks, s, p, bytes, a);
    }
    hide Holders;
  }

  ghost predicate RefsAt(slots: map<Slot, Payload>, blocks: map<Address, Block>, a: Address)
    requires a in blocks
  {
    Holders(slots, a) != {} && blocks[a].refs == |Holders(slots, a)| < WORD
  }

  lemma {:induction false} NewBlockSize(blocks: map<Address, Block>, a: Address, b: Block)
    requires a !in blocks
    ensures |blocks[a := b]| == |blocks| + 1
  {
    assert blocks[a := b].Keys == blocks.Keys + {a};
  }

  lemma {:induction false} NewBlockRefs(
    slots: map<Slot, Payload>, blocks: map<Address, Block>, s: Slot, p: Payload, bytes: seq<Byte>, a: Address)
    requires s !in slots && p.data !in blocks && forall t :: t in slots ==> slots[t].data in blocks
    requires a == p.data || (a in blocks && RefsAt(slots, blocks, a))
    ensures RefsAt(slots[s := p], blocks[p.data := Block(1, bytes)], a)
  {
    hide Holders;
    HoldersNew(slots, s, p, a);
  }

  lemma {:induction false} HoldersNew(slots: map<Slot, Payload>, s: Slot, p: Payload, a: Address)
    requires s !in slots && forall t :: t in slots ==> slots[t].data != p.data
    ensures if a == p.data then Holders(slots[s := p], a) == {s} && |{s}| == 1
            else Holders(slots[s := p], a) == Holders(slots, a)
  {
  }

  lemma {:induction false} ShareCounted(c: Client, src: Slot, s: Slot, p: Payload)
    requires Counted(c) && src in c.slots && c.slots[src].data in c.pool.blocks && s !in c.slots
    requires p.data == c.slots[src].data && |Holders(c.slots, p.data)| + 1 < WORD
    ensures Counted(Client(FastShare(c.pool, c.slots[src], EMPTY).0, c.slots[s := p], c.failed))
  {
    var x := c.slots[src].data;
    var pool := FastShare(c.pool, c.slots[src], EMPTY).0;
    assert pool.blocks.Keys == c.pool.blocks.Keys;
    forall a | a in pool.blocks
      ensures Holders(c.slots[s := p], a) != {} && pool.blocks[a].refs == |Holders(c.slots[s := p], a)| < WORD
    {
      HoldersAdd(c.slots, s, p, a);
    }
  }

  lemma {:induction false} ReleaseCounted(c: Client, s: Slot)
    requires Counted(c) && s in c.slots && c.slots[s].data in c.pool.blocks
    ensures Counted(Client(FastRelease(c.pool, c.slots[s]).0, c.slots - {s}, c.failed))
    ensures FastRelease(c.pool, c.slots[s]).1 == Returns(true, EMPTY)
    ensures c.slots[s].data in FastRelease(c.pool, c.slots[s]).0.blocks <==> Holders(c.slots, c.slots[s].data) != {s}
  {
    var x := c.slots[s].data;
    var pool := FastRelease(c.pool, c.slots[s]).0;
    HoldersRemove(c.slots, s, x);
    if c.pool.blocks[x].refs == 1 {
      assert pool.blocks.Keys == c.pool.blocks.Keys - {x};
      assert |Holders(c.slots, x) - {s}| == 0;
    } else {
      assert pool.blocks.Keys == c.pool.blocks.Keys;
    }
    forall a | a in pool.blocks
      ensures Holders(c.slots - {s}, a) != {} && pool.blocks[a].refs == |Holders(c.slots - {s}, a)| < WORD
    {
      HoldersRemove(c.slots, s, a);
    }
  }

  // the payloads and the ledger

  lemma {:induction false} AgreesAdd(
    items: map<Slot, Item>, slots: map<Slot, Payload>, blocks: map<Address, Block>,
    s: Slot, it: Item, p: Payload, blocks': map<Address, Block>)
    requires Agrees(items, slots, blocks) && s !in items && Shows(p, blocks', it)
    requires forall t :: t in slots ==> (slots[t].data == p.data <==> items[t].group == it.group)
    requires forall a :: a in blocks ==> a in blocks' && blocks'[a].bytes == blocks[a].bytes
    ensures Agrees(items[s := it], slots[s := p], blocks')
  {
  }

  lemma {:induction false} AgreesRemove(
    items: map<Slot, Item>, slots: map<Slot, Payload>, blocks: map<Address, Block>,
    s: Slot, blocks': map<Address, Block>)
    requires Agrees(items, slots, blocks)
    requires forall t :: t in slots && t != s ==>
               slots[t].data in blocks && slots[t].data in blocks'
               && blocks'[slots[t].data].bytes == blocks[slots[t].data].bytes
    ensures Agrees(items - {s}, slots - {s}, blocks')
  {
  }

  lemma {:induction false} AgreesFill(
    items: map<Slot, Item>, slots: map<Slot, Payload>, blocks: map<Address, Block>, s: Slot, bytes: seq<Byte>)
    requires Agrees(items, slots, blocks) && s in items && |bytes| <= items[s].maxSize
    requires forall t :: t in items && t != s ==> items[t].group != items[s].group
    ensures s in slots && slots[s].data in blocks && |bytes| <= |blocks[slots[s].data].bytes|
    ensures var b := blocks[slots[s].data];
            Agrees(items[s := items[s].(bytes := bytes)], slots[s := slots[s].(length := |bytes|)],
                   blocks[slots[s].data := b.(bytes := Overwrite(b.bytes, bytes))])
  {
    assert Shows(slots[s], blocks, items[s]);
    forall t | t in slots && t != s ensures slots[t].data != slots[s].data {}
    hide SharedByGroup;
    var p := slots[s].(length := |bytes|);
    var b := blocks[p.data];
    var blocks' := blocks[p.data := b.(bytes := Overwrite(b.bytes, bytes))];
    forall t | t in slots && t != s ensures Shows(slots[t], blocks', items[t]) {
      assert Shows(slots[t], blocks, items[t]);
    }
    SameGroups(items, slots, s, items[s].(bytes := bytes), p);
  }

  lemma {:induction false} SameGroups(items: map<Slot, Item>, slots: map<Slot, Payload>, s: Slot, it: Item, p: Payload)
    requires SharedByGroup(items, slots) && s in items && s in slots
    requires it.group == items[s].group && p.data == slots[s].data
    ensures SharedByGroup(items[s := it], slots[s := p])
  {
  }

  lemma {:induction false} LedgerKept(l: Ledger, op: Op)
    requires LedgerInv(l) && Legal(l, op)
    ensures LedgerInv(Apply(l, op))
  {
  }

  // one call

  lemma {:induction false} ReserveCall(c: Client, s: Slot, size: nat, bytes: seq<Byte>, op: Op, ch: Chunk)
    requires size > 0 && |bytes| <= size && Fresh(c.pool, ch, size)
    requires op == Import(s, size, bytes) || (op == Reserve(s, size) && bytes == [])
    ensures Call(c, op, ch) ==
            Client(Pool(c.pool.blocks[ch.addr := Block(1, Overwrite(ch.bytes, bytes))],
                        c.pool.reserved + 1, c.pool.released),
                   c.slots[s := Payload(ch.addr, |bytes|, size, 0)], c.failed)
  {
    assert Overwrite(ch.bytes, []) == ch.bytes;
  }

  lemma Located(l: Ledger, c: Client)
    requires Agrees(l.items, c.slots, c.pool.blocks)
    ensures forall t :: t in c.slots ==> c.slots[t].data in c.pool.blocks
  {
    hide SharedByGroup;
    forall t | t in c.slots ensures c.slots[t].data in c.pool.blocks {
      assert Shows(c.slots[t], c.pool.blocks, l.items[t]);
    }
  }

  lemma {:induction false} ReserveKeeps(l: Ledger, c: Client, s: Slot, size: nat, bytes: seq<Byte>, op: Op, ch: Chunk)
    requires Rel(l, c) && Legal(l, op) && Fresh(c.pool, ch, size)
    requires op == Import(s, size, bytes) || (op == Reserve(s, size) && bytes == [])
    ensures Rel(Apply(l, op), Call(c, op, ch))
  {
    hide Counted, Agrees, Call;
    var p, it := Payload(ch.addr, |bytes|, size, 0), Item(l.next, size, bytes);
    var blocks := c.pool.blocks[ch.addr := Block(1, Overwrite(ch.bytes, bytes))];
    ReserveCall(c, s, size, bytes, op, ch);
    Located(l, c);
    LedgerKept(l, op);
    SameSlots(l, c);
    NewBlockCounted(c, s, p, ch, Overwrite(ch.bytes, bytes));
    AgreesAdd(l.items, c.slots, c.pool.blocks, s, it, p, blocks);
  }

  lemma SameSlots(l: Ledger, c: Client)
    requires Agrees(l.items, c.slots, c.pool.blocks)
    ensures c.slots.Keys == l.items.Keys && |c.slots| == |l.items|
  {
    assert |c.slots| == |c.slots.Keys| == |l.items.Keys| == |l.items|;
  }

  lemma {:induction false} ShareAgrees(l: Ledger, c: Client, src: Slot, s: Slot)
    requires Agrees(l.items, c.slots, c.pool.blocks) && src in l.items && s !in l.items
    ensures src in c.slots && c.slots[src].data in c.pool.blocks
    ensures Agrees(l.items[s := l.items[src]], c.slots[s := c.slots[src].(pos := 0)],
                   FastShare(c.pool, c.slots[src], EMPTY).0.blocks)
  {
    assert Shows(c.slots[src], c.pool.blocks, l.items[src]);
    AgreesAdd(l.items, c.slots, c.pool.blocks, s, l.items[src], c.slots[src].(pos := 0),
              FastShare(c.pool, c.slots[src], EMPTY).0.blocks);
  }

  /** The holders of a block are the payloads obtained from each other. */
  lemma {:induction false} GroupHolds(l: Ledger, c: Client, s: Slot)
    requires Agrees(l.items, c.slots, c.pool.blocks) && s in l.items
    ensures s in c.slots && Holders(c.slots, c.slots[s].data) == Group(l.items, l.items[s].group)
  {
    hide Shows;
  }

  lemma {:induction false} ShareKeeps(l: Ledger, c: Client, src: Slot, s: Slot, ch: Chunk)
    requires Rel(l, c) && Legal(l, Share(src, s))
    ensures Rel(Apply(l, Share(src, s)), Call(c, Share(src, s), ch))
  {
    hide Counted, Agrees;
    SameSlots(l, c);
    GroupHolds(l, c, src);
    ShareAgrees(l, c, src, s);
    ShareCounted(c, src, s, c.slots[src].(pos := 0));
    LedgerKept(l, Share(src, s));
  }

  lemma {:induction false} ReleaseAgrees(l: Ledger, c: Client, s: Slot)
    requires Agrees(l.items, c.slots, c.pool.blocks) && Counted(c) && s in l.items
    ensures s in c.slots && c.slots[s].data in c.pool.blocks
    ensures Agrees(l.items - {s}, c.slots - {s}, FastRelease(c.pool, c.slots[s]).0.blocks)
  {
    hide SharedByGroup;
    assert Shows(c.slots[s], c.pool.blocks, l.items[s]);
    ReleaseCounted(c, s);
    var x, blocks := c.slots[s].data, FastRelease(c.pool, c.slots[s]).0.blocks;
    forall t | t in c.slots && t != s
      ensures c.slots[t].data in c.pool.blocks && c.slots[t].data in blocks
      ensures blocks[c.slots[t].data].bytes == c.pool.blocks[c.slots[t].data].bytes
    {
      assert Shows(c.slots[t], c.pool.blocks, l.items[t]);
      if c.slots[t].data == x { assert t in Holders(c.slots, x); }
    }
    AgreesRemove(l.items, c.slots, c.pool.blocks, s, blocks);
  }

  lemma {:induction false} ReleaseKeeps(l: Ledger, c: Client, s: Slot, ch: Chunk)
    requires Rel(l, c) && Legal(l, Release(s))
    ensures Rel(Apply(l, Release(s)), Call(c, Release(s), ch))
  {
    hide Counted, LedgerInv, Agrees;
    ReleaseAgrees(l, c, s);
    ReleaseCounted(c, s);
    LedgerKept(l, Release(s));
    hide FastRelease;
  }

  lemma {:induction false} FillCounted(c: Client, s: Slot, bytes: seq<Byte>, ch: Chunk)
    requires Counted(c) && s in c.slots && c.slots[s].data in c.pool.blocks
    requires |bytes| <= |c.pool.blocks[c.slots[s].data].bytes|
    ensures Counted(Call(c, Fill(s, bytes), ch))
  {
    var c' := Call(c, Fill(s, bytes), ch);
    assert c'.pool.blocks.Keys == c.pool.blocks.Keys;
    forall a | a in c'.pool.blocks ensures Holders(c'.slots, a) == Holders(c.slots, a) {}
  }

  lemma {:induction false} FillKeeps(l: Ledger, c: Client, s: Slot, bytes: seq<Byte>, ch: Chunk)
    requires Rel(l, c) && Legal(l, Fill(s, bytes))
    ensures Rel(Apply(l, Fill(s, bytes)), Call(c, Fill(s, bytes), ch))
  {
    LedgerKept(l, Fill(s, bytes));
    AgreesFill(l.items, c.slots, c.pool.blocks, s, bytes);
    hide LedgerInv, Agrees;
    FillCounted(c, s, bytes, ch);
    hide Counted;
  }

  lemma CallKeeps(l: Ledger, c: Client, op: Op, ch: Chunk)
    requires Rel(l, c) && Legal(l, op) && FreshFor(c, op, ch)
    ensures Rel(Apply(l, op), Call(c, op, ch))
  {
    hide Rel, Call;
    match op
    case Reserve(s, size) => ReserveKeeps(l, c, s, size, [], op, ch);
    case Fill(s, bytes) => FillKeeps(l, c, s, bytes, ch);
    case Share(src, s) => ShareKeeps(l, c, src, s, ch);
    case Import(s, size, bytes) => ReserveKeeps(l, c, s, size, bytes, op, ch);
    case Release(s) => ReleaseKeeps(l, c, s, ch);
  }

  // ----- the copying pool -----

  datatype CopyClient = CopyClient(pool: CopyPool, slots: map<Slot, Payload>, failed: bool)

  ghost function CopyReceived(c: CopyClient, s: Slot, out: (CopyPool, Result)): CopyClient {
    if out.1.Throws? || !out.1.ok then CopyClient(out.0, c.slots, true)
    else CopyClient(out.0, c.slots[s := out.1.payload], c.failed)
  }

  /** The bytes a payload shows. */
  ghost function Visible(p: Payload, memory: map<Address, seq<Byte>>): seq<Byte> {
    if p.data in memory && p.length <= |memory[p.data]| then memory[p.data][..p.length] else []
  }

  ghost function CopyCall(c: CopyClient, op: Op, ch: Chunk): CopyClient {
    match op
    case Reserve(s, size) => CopyReceived(c, s, CopyReserve(c.pool, size, EMPTY, ch))
    case Fill(s, bytes) =>
      if s in c.slots && c.slots[s].data in c.pool.memory && |bytes| <= |c.pool.memory[c.slots[s].data]| then
        var p := c.slots[s];
        c.(pool := c.pool.(memory := c.pool.memory[p.data := Overwrite(c.pool.memory[p.data], bytes)]),
           slots := c.slots[s := p.(length := |bytes|)])
      else c.(failed := true)
    case Share(src, s) =>
      if src in c.slots && |Visible(c.slots[src], c.pool.memory)| <= c.slots[src].maxSize == |ch.bytes|
      then CopyReceived(c, s, CopyGet(c.pool, Visible(c.slots[src], c.pool.memory), c.slots[src].maxSize, EMPTY, ch))
      else c.(failed := true)
    case Import(s, size, bytes) =>
      if |bytes| <= size && |ch.bytes| == size
      then CopyReceived(c, s, CopyGet(c.pool, bytes, size, EMPTY, ch)) else c.(failed := true)
    case Release(s) =>
      if s in c.slots then
        var out := CopyRelease(c.pool, c.slots[s]);
        CopyClient(out.0, c.slots - {s}, c.failed || out.1.Throws? || !out.1.ok)
      else c.(failed := true)
  }

  ghost predicate CopyFreshFor(l: Ledger, c: CopyClient, op: Op, ch: Chunk) {
    && (op.Reserve? || op.Import? || op.Share? ==> ch.addr != NULL && ch.addr !in c.pool.memory)
    && (op.Reserve? || op.Import? ==> |ch.bytes| == op.size)
    && (op.Share? && op.src in l.items ==> |ch.bytes| == l.items[op.src].maxSize)
  }

  ghost predicate CopyShows(p: Payload, memory: map<Address, seq<Byte>>, it: Item) {
    && p.data in memory
    && p.maxSize == it.maxSize == |memory[p.data]|
    && p.length == |it.bytes| <= |memory[p.data]|
    && memory[p.data][..p.length] == it.bytes
  }

  ghost predicate CopyAgrees(items: map<Slot, Item>, slots: map<Slot, Payload>, memory: map<Address, seq<Byte>>) {
    && slots.Keys == items.Keys
    && (forall s :: s in slots ==> CopyShows(slots[s], memory, items[s]))
    && (forall s, t :: s in slots && t in slots && s != t ==> slots[s].data != slots[t].data)
  }

  ghost predicate CopyRel(l: Ledger, c: CopyClient) {
    && LedgerInv(l) && !c.failed
    && CopyAgrees(l.items, c.slots, c.pool.memory)
    && c.pool.reserved == c.pool.released + |c.slots|
  }

  lemma {:induction false} CopyAgreesAdd(
    items: map<Slot, Item>, slots: map<Slot, Payload>, memory: map<Address, seq<Byte>>, s: Slot, it: Item, ch: Chunk)
    requires CopyAgrees(items, slots, memory) && s !in items
    requires ch.addr !in memory && |it.bytes| <= |ch.bytes| == it.maxSize
    ensures CopyAgrees(items[s := it], slots[s := Payload(ch.addr, |it.bytes|, it.maxSize, 0)],
                       memory[ch.addr := Overwrite(ch.bytes, it.bytes)])
    ensures |slots[s := Payload(ch.addr, |it.bytes|, it.maxSize, 0)]| == |slots| + 1
  {
    hide CopyShows, Overwrite;
    var p, memory' := Payload(ch.addr, |it.bytes|, it.maxSize, 0), memory[ch.addr := Overwrite(ch.bytes, it.bytes)];
    assert slots[s := p].Keys == slots.Keys + {s};
    forall t | t in slots ensures slots[t].data != ch.addr && CopyShows(slots[t], memory', items[t]) {
      CopyShowsKept(slots[t], memory, items[t], ch.addr, Overwrite(ch.bytes, it.bytes));
    }
    CopyShowsNew(memory, it, ch);
  }

  lemma {:induction false} CopyShowsKept(
    p: Payload, memory: map<Address, seq<Byte>>, it: Item, a: Address, bytes: seq<Byte>)
    requires CopyShows(p, memory, it) && a !in memory
    ensures p.data != a && CopyShows(p, memory[a := bytes], it)
  {
  }

  lemma {:induction false} CopyShowsNew(memory: map<Address, seq<Byte>>, it: Item, ch: Chunk)
    requires |it.bytes| <= |ch.bytes| == it.maxSize
    ensures CopyShows(Payload(ch.addr, |it.bytes|, it.maxSize, 0), memory[ch.addr := Overwrite(ch.bytes, it.bytes)], it)
  {
  }

  lemma {:induction false} CopyAgreesRemove(
    items: map<Slot, Item>, slots: map<Slot, Payload>, memory: map<Address, seq<Byte>>, s: Slot)
    requires CopyAgrees(items, slots, memory) && s in slots
    ensures CopyAgrees(items - {s}, slots - {s}, memory - {slots[s].data})
    ensures |slots - {s}| == |slots| - 1
  {
    assert (slots - {s}).Keys == slots.Keys - {s};
    forall t | t in slots && t != s ensures CopyShows(slots[t], memory - {slots[s].data}, items[t]) {
      assert CopyShows(slots[t], memory, items[t]);
    }
  }

  lemma {:induction false} CopyAgreesFill(
    items: map<Slot, Item>, slots: map<Slot, Payload>, memory: map<Address, seq<Byte>>, s: Slot, bytes: seq<Byte>)
    requires CopyAgrees(items, slots, memory) && s in items && |bytes| <= items[s].maxSize
    ensures s in slots && slots[s].data in memory && |bytes| <= |memory[slots[s].data]|
    ensures CopyAgrees(items[s := items[s].(bytes := bytes)], slots[s := slots[s].(length := |bytes|)],
                       memory[slots[s].data := Overwrite(memory[slots[s].data], bytes)])
    ensures |slots[s := slots[s].(length := |bytes|)]| == |slots|
  {
    assert CopyShows(slots[s], memory, items[s]);
    var p := slots[s].(length := |bytes|);
    var memory' := memory[p.data := Overwrite(memory[p.data], bytes)];
    assert slots[s := p].Keys == slots.Keys;
    forall t | t in slots && t != s ensures CopyShows(slots[t], memory', items[t]) {
      assert CopyShows(slots[t], memory, items[t]);
    }
    assert CopyShows(p, memory', items[s].(bytes := bytes));
  }

  /** The item that a call which creates a payload adds to the ledger. */
  ghost function NewItem(l: Ledger, op: Op): Item
    requires Legal(l, op) && (op.Reserve? || op.Import? || op.Share?)
  {
    match op
    case Reserve(s, size) => Item(l.next, size, [])
    case Import(s, size, bytes) => Item(l.next, size, bytes)
    case Share(src, _) => l.items[src]
  }

  lemma {:induction false} CopyCallResult(l: Ledger, c: CopyClient, op: Op, ch: Chunk, it: Item)
    requires Legal(l, op) && (op.Reserve? || op.Import? || op.Share?) && it == NewItem(l, op)
    requires |it.bytes| <= |ch.bytes| == it.maxSize != 0
    requires op.Share? ==> op.src in c.slots && CopyShows(c.slots[op.src], c.pool.memory, it)
    ensures CopyCall(c, op, ch) ==
            CopyClient(CopyPool(c.pool.memory[ch.addr := Overwrite(ch.bytes, it.bytes)],
                                c.pool.reserved + 1, c.pool.released),
                       c.slots[op.s := Payload(ch.addr, |it.bytes|, it.maxSize, 0)], c.failed)
  {
    assert Overwrite(ch.bytes, []) == ch.bytes;
  }

  lemma CopySource(l: Ledger, c: CopyClient, s: Slot)
    requires CopyAgrees(l.items, c.slots, c.pool.memory) && s in l.items
    ensures s in c.slots && CopyShows(c.slots[s], c.pool.memory, l.items[s])
  {
  }

  lemma {:induction false} CopyCallKeeps(l: Ledger, c: CopyClient, op: Op, ch: Chunk)
    requires CopyRel(l, c) && Legal(l, op) && CopyFreshFor(l, c, op, ch)
    ensures CopyRel(Apply(l, op), CopyCall(c, op, ch))
  {
    hide CopyAgrees, CopyShows;
    LedgerKept(l, op);
    if op.Fill? {
      CopyAgreesFill(l.items, c.slots, c.pool.memory, op.s, op.bytes);
    } else if op.Release? {
      CopySource(l, c, op.s);
      CopyAgreesRemove(l.items, c.slots, c.pool.memory, op.s);
    } else {
      var it := NewItem(l, op);
      if op.Share? { CopySource(l, c, op.src); }
      CopyCallResult(l, c, op, ch, it);
      hide CopyCall, LedgerInv;
      CopyAgreesAdd(l.items, c.slots, c.pool.memory, op.s, it, ch);
    }
  }

  // ----- the map pool is the fast pool with its counters moved to a map -----

  datatype MapClient = MapClient(pool: MapPool, slots: map<Slot, Payload>, failed: bool)

  ghost predicate Tracks(m: MapPool) {
    m.memory.Keys == m.counters.Keys
  }

  ghost function AsClient(m: MapClient): Client
    requires Tracks(m.pool)
  {
    Client(AsPool(m.pool), m.slots, m.failed)
  }

  ghost function MapReceived(c: MapClient, s: Slot, out: (MapPool, Result)): MapClient {
    if out.1.Throws? || !out.1.ok then MapClient(out.0, c.slots, true)
    else MapClient(out.0, c.slots[s := out.1.payload], c.failed)
  }

  ghost function MapCall(c: MapClient, op: Op, ch: Chunk): MapClient {
    match op
    case Reserve(s, size) => MapReceived(c, s, MapReserve(c.pool, size, EMPTY, ch))
    case Fill(s, bytes) =>
      if s in c.slots && c.slots[s].data in c.pool.memory && |bytes| <= |c.pool.memory[c.slots[s].data]| then
        var p := c.slots[s];
        c.(pool := c.pool.(memory := c.pool.memory[p.data := Overwrite(c.pool.memory[p.data], bytes)]),
           slots := c.slots[s := p.(length := |bytes|)])
      else c.(failed := true)
    case Share(src, s) =>
      if src in c.slots then MapReceived(c, s, MapShare(c.pool, c.slots[src], EMPTY)) else c.(failed := true)
    case Import(s, size, bytes) =>
      if |bytes| <= size && |ch.bytes| == size
      then MapReceived(c, s, MapImport(c.pool, bytes, size, EMPTY, ch)) else c.(failed := true)
    case Release(s) =>
      if s in c.slots then
        var out := MapRelease(c.pool, c.slots[s]);
        MapClient(out.0, c.slots - {s}, c.failed || out.1.Throws? || !out.1.ok)
      else c.(failed := true)
  }

  /** The pools step alike, unless a release throws, which the fast pool's invariant excludes. */
  lemma {:induction false} MapCallIsCall(l: Ledger, c: MapClient, op: Op, ch: Chunk)
    requires Tracks(c.pool) && Rel(l, AsClient(c)) && Legal(l, op) && FreshFor(AsClient(c), op, ch)
    ensures Tracks(MapCall(c, op, ch).pool) && AsClient(MapCall(c, op, ch)) == Call(AsClient(c), op, ch)
  {
    var f := AsClient(c);
    assert f.pool.blocks.Keys == c.pool.memory.Keys;
    Located(l, f);
    SameSlots(l, f);
    if op.Release? { ReleaseCounted(f, op.s); }
    if op.Fill? { AgreesFill(l.items, f.slots, f.pool.blocks, op.s, op.bytes); }
    hide Rel, Agrees, Counted, LedgerInv, Call, MapCall;
    match op
    case Reserve(_, _) => MapReserveStep(c, op, ch);
    case Import(_, _, _) => MapReserveStep(c, op, ch);
    case Release(s) => MapReleaseStep(c, s, ch);
    case _ => MapUseStep(c, op, ch);
  }

  lemma AsPoolUpdate(m: MapPool, a: Address, bytes: seq<Byte>)
    requires Tracks(m)
    ensures var m' := MapPool(m.memory[a := bytes], m.counters[a := 1], m.reserved + 1, m.released);
            && Tracks(m')
            && AsPool(m') == Pool(AsPool(m).blocks[a := Block(1, bytes)], m.reserved + 1, m.released)
  {
  }

  lemma {:induction false} MapReserveStep(c: MapClient, op: Op, ch: Chunk)
    requires Tracks(c.pool) && (op.Reserve? || op.Import?)
    ensures Tracks(MapCall(c, op, ch).pool) && AsClient(MapCall(c, op, ch)) == Call(AsClient(c), op, ch)
  {
    hide AsPool;
    AsPoolUpdate(c.pool, ch.addr, ch.bytes);
    if op.Import? && |op.bytes| <= op.size && |ch.bytes| == op.size {
      AsPoolUpdate(c.pool, ch.addr, Overwrite(ch.bytes, op.bytes));
      assert c.pool.memory[ch.addr := ch.bytes][ch.addr := Overwrite(ch.bytes, op.bytes)]
          == c.pool.memory[ch.addr := Overwrite(ch.bytes, op.bytes)];
      assert AsPool(c.pool).blocks[ch.addr := Block(1, ch.bytes)][ch.addr := Block(1, Overwrite(ch.bytes, op.bytes))]
          == AsPool(c.pool).blocks[ch.addr := Block(1, Overwrite(ch.bytes, op.bytes))];
      AsPoolTotals(c.pool);
    } else {
      AsPoolTotals(c.pool);
    }
  }

  lemma AsPoolTotals(m: MapPool)
    requires Tracks(m)
    ensures AsPool(m).reserved == m.reserved && AsPool(m).released == m.released
  {
  }

  lemma {:induction false} MapUseStep(c: MapClient, op: Op, ch: Chunk)
    requires Tracks(c.pool) && (op.Fill? || op.Share?)
    requires forall t :: t in c.slots ==> c.slots[t].data in c.pool.memory
    ensures Tracks(MapCall(c, op, ch).pool) && AsClient(MapCall(c, op, ch)) == Call(AsClient(c), op, ch)
  {
    var m := MapCall(c, op, ch).pool;
    assert AsPool(m).blocks == Call(AsClient(c), op, ch).pool.blocks;
  }

  lemma {:induction false} MapReleaseStep(c: MapClient, s: Slot, ch: Chunk)
    requires Tracks(c.pool) && s in c.slots && c.slots[s].data in c.pool.memory
    requires FastRelease(AsPool(c.pool), c.slots[s]).1.Returns?
    ensures var op := Release(s);
            Tracks(MapCall(c, op, ch).pool) && AsClient(MapCall(c, op, ch)) == Call(AsClient(c), op, ch)
  {
    var m := MapCall(c, Release(s), ch).pool;
    assert AsPool(m).blocks == Call(AsClient(c), Release(s), ch).pool.blocks;
  }

  // ----- whole runs -----

  /** A call and the allocator's choice in each pool. */
  datatype Event = Event(op: Op, fast: Chunk, mapped: Chunk, copied: Chunk)

  ghost function LedgerAfter(evs: seq<Event>): Ledger {
    if evs == [] then Ledger(map[], 0)
    else
      var l, op := LedgerAfter(evs[..|evs| - 1]), evs[|evs| - 1].op;
      if Legal(l, op) then Apply(l, op) else l
  }

  ghost function FastAfter(evs: seq<Event>): Client {
    if evs == [] then Client(Pool(map[], 0, 0), map[], false)
    else Call(FastAfter(evs[..|evs| - 1]), evs[|evs| - 1].op, evs[|evs| - 1].fast)
  }

  ghost function MapAfter(evs: seq<Event>): MapClient {
    if evs == [] then MapClient(MapPool(map[], map[], 0, 0), map[], false)
    else MapCall(MapAfter(evs[..|evs| - 1]), evs[|evs| - 1].op, evs[|evs| - 1].mapped)
  }

  ghost function CopyAfter(evs: seq<Event>): CopyClient {
    if evs == [] then CopyClient(CopyPool(map[], 0, 0), map[], false)
    else CopyCall(CopyAfter(evs[..|evs| - 1]), evs[|evs| - 1].op, evs[|evs| - 1].copied)
  }

  /** Every call respects ownership and every allocation is fresh in its pool. */
  ghost predicate LegalRun(evs: seq<Event>) {
    evs == [] ||
    var front, e := evs[..|evs| - 1], evs[|evs| - 1];
    && LegalRun(front)
    && Legal(LedgerAfter(front), e.op)
    && FreshFor(FastAfter(front), e.op, e.fast)
    && (Tracks(MapAfter(front).pool) ==> FreshFor(AsClient(MapAfter(front)), e.op, e.mapped))
    && CopyFreshFor(LedgerAfter(front), CopyAfter(front), e.op, e.copied)
  }

  lemma {:induction false} RunRefines(evs: seq<Event>)
    requires LegalRun(evs)
    ensures Rel(LedgerAfter(evs), FastAfter(evs))
    ensures Tracks(MapAfter(evs).pool) && Rel(LedgerAfter(evs), AsClient(MapAfter(evs)))
    ensures CopyRel(LedgerAfter(evs), CopyAfter(evs))
  {
    if evs == [] {
      EmptyPools();
    } else {
      hide Rel, CopyRel, Call, MapCall, CopyCall, AsClient, Tracks, Apply, Legal, FreshFor, CopyFreshFor;
      var front, e := evs[..|evs| - 1], evs[|evs| - 1];
      RunRefines(front);
      CallKeeps(LedgerAfter(front), FastAfter(front), e.op, e.fast);
      MapCallIsCall(LedgerAfter(front), MapAfter(front), e.op, e.mapped);
      CallKeeps(LedgerAfter(front), AsClient(MapAfter(front)), e.op, e.mapped);
      CopyCallKeeps(LedgerAfter(front), CopyAfter(front), e.op, e.copied);
    }
  }

  lemma EmptyPools()
    ensures Rel(Ledger(map[], 0), Client(Pool(map[], 0, 0), map[], false))
    ensures Tracks(MapPool(map[], map[], 0, 0))
    ensures Rel(Ledger(map[], 0), AsClient(MapClient(MapPool(map[], map[], 0, 0), map[], false)))
    ensures CopyRel(Ledger(map[], 0), CopyClient(CopyPool(map[], 0, 0), map[], false))
  {
    assert AsPool(MapPool(map[], map[], 0, 0)) == Pool(map[], 0, 0);
  }

  /** What the holder of a payload sees. */
  datatype View = View(length: nat, maxSize: nat, bytes: seq<Byte>)

  ghost function BlockView(p: Payload, blocks: map<Address, Block>): View {
    View(p.length, p.maxSize,
         if p.data in blocks && p.length <= |blocks[p.data].bytes| then blocks[p.data].bytes[..p.length] else [])
  }

  ghost function CopyView(p: Payload, memory: map<Address, seq<Byte>>): View {
    View(p.length, p.maxSize, Visible(p, memory))
  }

  /**
   For every legal run no pool throws or fails, all three hold the same payloads with the same length, size and
   bytes, and they agree on is_clean: sharing is unobservable.
   */
  lemma SharingUnobservable(evs: seq<Event>)
    requires LegalRun(evs)
    ensures var f, m, c := FastAfter(evs), MapAfter(evs), CopyAfter(evs);
            && !f.failed && !m.failed && !c.failed
            && f.slots.Keys == m.slots.Keys == c.slots.Keys
            && (forall s :: s in f.slots ==>
                  && BlockView(f.slots[s], f.pool.blocks) == CopyView(c.slots[s], c.pool.memory)
                  && CopyView(m.slots[s], m.pool.memory) == CopyView(c.slots[s], c.pool.memory))
            && (IsClean(f.pool) <==> c.pool.reserved == c.pool.released)
            && (m.pool.reserved == m.pool.released <==> c.pool.reserved == c.pool.released)
  {
    hide LegalRun, LedgerAfter, FastAfter, MapAfter, CopyAfter, Rel, CopyRel, BlockView, CopyView;
    RunRefines(evs);
    var l, f, m, c := LedgerAfter(evs), FastAfter(evs), MapAfter(evs), CopyAfter(evs);
    CleanIffEmpty(l, f);
    CleanIffEmpty(l, AsClient(m));
    CopyCleanIffEmpty(l, c);
    forall s | s in l.items
      ensures BlockView(f.slots[s], f.pool.blocks) == CopyView(c.slots[s], c.pool.memory)
      ensures CopyView(m.slots[s], m.pool.memory) == CopyView(c.slots[s], c.pool.memory)
    {
      ShowsView(l, f, s);
      ShowsView(l, AsClient(m), s);
      CopyShowsView(l, c, s);
      MapView(m.slots[s], m.pool);
    }
  }

  lemma MapView(p: Payload, m: MapPool)
    requires Tracks(m)
    ensures BlockView(p, AsPool(m).blocks) == CopyView(p, m.memory)
  {
  }

  lemma CopyShowsView(l: Ledger, c: CopyClient, s: Slot)
    requires CopyRel(l, c) && s in l.items
    ensures s in c.slots
    ensures CopyView(c.slots[s], c.pool.memory) == View(|l.items[s].bytes|, l.items[s].maxSize, l.items[s].bytes)
  {
    CopySource(l, c, s);
    hide CopyRel;
  }

  lemma ShowsView(l: Ledger, c: Client, s: Slot)
    requires Rel(l, c) && s in l.items
    ensures s in c.slots && c.slots[s].data in c.pool.blocks
    ensures BlockView(c.slots[s], c.pool.blocks) == View(|l.items[s].bytes|, l.items[s].maxSize, l.items[s].bytes)
  {
    hide Counted, SharedByGroup, LedgerInv;
    assert Shows(c.slots[s], c.pool.blocks, l.items[s]);
  }

  lemma CleanIffEmpty(l: Ledger, c: Client)
    requires Rel(l, c)
    ensures c.slots.Keys == l.items.Keys && !c.failed
    ensures IsClean(c.pool) <==> l.items == map[]
  {
    hide LedgerInv;
    Located(l, c);
    hide Agrees;
    if l.items == map[] {
      assert forall a :: Holders(c.slots, a) == {};
      assert c.pool.blocks.Keys == {};
      assert |c.pool.blocks| == |c.pool.blocks.Keys|;
    } else {
      var s :| s in l.items;
      assert c.slots[s].data in c.pool.blocks.Keys;
      assert |c.pool.blocks| == |c.pool.blocks.Keys| > 0;
    }
  }

  lemma CopyCleanIffEmpty(l: Ledger, c: CopyClient)
    requires CopyRel(l, c)
    ensures c.slots.Keys == l.items.Keys && !c.failed
    ensures c.pool.reserved == c.pool.released <==> l.items == map[]
  {
    assert |c.slots| == |c.slots.Keys| == |l.items.Keys| == |l.items|;
    hide CopyShows, LedgerInv;
  }

  /**
   In every reachable state of the fast pool each block's counter is the number of payloads that hold it, reserved
   minus released is the number of live blocks, and the next release neither throws nor frees a block that another
   payload still holds, but frees it when it was the last one.
   */
  lemma CountersExact(evs: seq<Event>, s: Slot)
    requires LegalRun(evs)
    ensures var c := FastAfter(evs);
            && (forall a :: a in c.pool.blocks ==>
                  c.pool.blocks[a].refs == |Holders(c.slots, a)| && Holders(c.slots, a) != {})
            && c.pool.reserved - c.pool.released == |c.pool.blocks|
            && (s in c.slots ==>
                  var a := c.slots[s].data;
                  && a in c.pool.blocks
                  && FastRelease(c.pool, c.slots[s]).1 == Returns(true, EMPTY)
                  && (a !in FastRelease(c.pool, c.slots[s]).0.blocks <==> Holders(c.slots, a) == {s}))
  {
    RunRefines(evs);
    var l, c := LedgerAfter(evs), FastAfter(evs);
    hide LegalRun, LedgerAfter, FastAfter, MapAfter, CopyAfter;
    Located(l, c);
    if s in c.slots { ReleaseCounted(c, s); }
  }
}
