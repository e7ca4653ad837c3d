/**
 The pools as objects that are updated in place. To the program that holds its payloads, each of them is a map from
 payloads to what they show, and the same map for the same calls: see the contracts of the three classes.
 */
module PayloadObjects {
  import opened PayloadPools
  import opened PayloadRuns

  /** What the holders of the payloads see. */
  ghost function Views(c: Client): map<Slot, View> {
    map s | s in c.slots :: BlockView(c.slots[s], c.pool.blocks)
  }

  ghost function CopyViews(c: CopyClient): map<Slot, View> {
    map s | s in c.slots :: CopyView(c.slots[s], c.pool.memory)
  }

  ghost function ItemView(it: Item): View {
    View(|it.bytes|, it.maxSize, it.bytes)
  }

  ghost function ItemViews(l: Ledger): map<Slot, View> {
    map s | s in l.items :: ItemView(l.items[s])
  }

  lemma {:induction false} SeenIsLedger(l: Ledger, c: Client)
    requires Rel(l, c)
    ensures Views(c) == ItemViews(l) && c.slots.Keys == l.items.Keys
  {
    hide Counted, LedgerInv, SharedByGroup, BlockView;
    forall s | s in l.items
      ensures s in c.slots && BlockView(c.slots[s], c.pool.blocks) == ItemView(l.items[s])
    {
      ShowsView(l, c, s);
    }
  }

  lemma {:induction false} CopySeenIsLedger(l: Ledger, c: CopyClient)
    requires CopyRel(l, c)
    ensures CopyViews(c) == ItemViews(l) && c.slots.Keys == l.items.Keys
  {
    hide LedgerInv, CopyView;
    forall s | s in l.items
      ensures s in c.slots && CopyView(c.slots[s], c.pool.memory) == ItemView(l.items[s])
    {
      CopyShowsView(l, c, s);
    }
  }

  /** What a legal call does to the map of what is seen. */
  ghost function Seen(views: map<Slot, View>, op: Op): map<Slot, View>
    requires op.Share? ==> op.src in views
    requires op.Fill? ==> op.s in views
  {
    match op
    case Reserve(s, size) => views[s := View(0, size, [])]
    case Fill(s, bytes) => views[s := View(|bytes|, views[s].maxSize, bytes)]
    case Share(src, s) => views[s := views[src]]
    case Import(s, size, bytes) => views[s := View(|bytes|, size, bytes)]
    case Release(s) => views - {s}
  }

  lemma {:induction false} LedgerSeen(l: Ledger, op: Op)
    requires Legal(l, op)
    ensures ItemViews(Apply(l, op)) == Seen(ItemViews(l), op)
  {
    assert ItemViews(l).Keys == l.items.Keys;
  }

  lemma {:induction false} SeenShare(views: map<Slot, View>, src: Slot, s: Slot)
    requires src in views
    ensures Seen(views, Share(src, s)) == views[s := views[src]]
  {
  }

  lemma {:induction false} SeenImport(views: map<Slot, View>, s: Slot, size: nat, bytes: seq<Byte>)
    ensures Seen(views, Import(s, size, bytes)) == views[s := View(|bytes|, size, bytes)]
  {
  }

  lemma {:induction false} SeenRelease(views: map<Slot, View>, s: Slot)
    ensures Seen(views, Release(s)) == views - {s}
  {
  }

  lemma {:induction false} RelParts(l: Ledger, c: Client)
    requires Rel(l, c)
    ensures Agrees(l.items, c.slots, c.pool.blocks) && Counted(c) && !c.failed && c.slots.Keys == l.items.Keys
  {
  }

  /** A legal call on the fast pool, as its holders see it. */
  lemma {:induction false} CallSeen(l: Ledger, c: Client, op: Op, ch: Chunk)
    requires Rel(l, c) && Legal(l, op) && FreshFor(c, op, ch)
    ensures Rel(Apply(l, op), Call(c, op, ch))
    ensures Views(c).Keys == l.items.Keys == c.slots.Keys
    ensures Views(Call(c, op, ch)) == Seen(Views(c), op)
  {
    CallKeeps(l, c, op, ch);
    hide Rel, Call, Apply, Legal, Views, FreshFor;
    SeenIsLedger(l, c);
    SeenIsLedger(Apply(l, op), Call(c, op, ch));
    LedgerSeen(l, op);
  }

  lemma {:induction false} CopyCallSeen(l: Ledger, c: CopyClient, op: Op, ch: Chunk)
    requires CopyRel(l, c) && Legal(l, op) && CopyFreshFor(l, c, op, ch)
    ensures CopyRel(Apply(l, op), CopyCall(c, op, ch))
    ensures CopyViews(c).Keys == l.items.Keys == c.slots.Keys
    ensures CopyViews(CopyCall(c, op, ch)) == Seen(CopyViews(c), op)
  {
    CopyCallKeeps(l, c, op, ch);
    hide CopyRel, CopyCall, Apply, Legal, CopyViews, CopyFreshFor;
    CopySeenIsLedger(l, c);
    CopySeenIsLedger(Apply(l, op), CopyCall(c, op, ch));
    LedgerSeen(l, op);
  }

  // ----- the calls spelled out -----

  /** A new block for `bytes`, held by one payload. */
  ghost function WithNew(c: Client, s: Slot, size: nat, bytes: seq<Byte>, ch: Chunk): Client
    requires |bytes| <= |ch.bytes|
  {
    var blocks := c.pool.blocks[ch.addr := Block(1, Overwrite(ch.bytes, bytes))];
    Client(Pool(blocks, c.pool.reserved + 1, c.pool.released),
           c.slots[s := Payload(ch.addr, |bytes|, size, 0)], c.failed)
  }

  lemma {:induction false} NewSeen(l: Ledger, c: Client, s: Slot, size: nat, bytes: seq<Byte>, ch: Chunk)
    requires Rel(l, c) && s !in c.slots && |bytes| <= size && size > 0 && Fresh(c.pool, ch, size)
    ensures Legal(l, Import(s, size, bytes))
    ensures Rel(Apply(l, Import(s, size, bytes)), WithNew(c, s, size, bytes, ch))
    ensures Views(WithNew(c, s, size, bytes, ch)) == Views(c)[s := View(|bytes|, size, bytes)]
  {
    hide Rel, Call, Views, Seen;
    var op := Import(s, size, bytes);
    SeenIsLedger(l, c);
    CallSeen(l, c, op, ch);
    ReserveCall(c, s, size, bytes, op, ch);
    SeenImport(Views(c), s, size, bytes);
  }

  ghost function WithShared(c: Client, src: Slot, s: Slot): Client
    requires src in c.slots && c.slots[src].data in c.pool.blocks
  {
    Client(FastShare(c.pool, c.slots[src], EMPTY).0, c.slots[s := c.slots[src].(pos := 0)], c.failed)
  }

  lemma {:induction false} ShareSeen(l: Ledger, c: Client, src: Slot, s: Slot)
    requires Rel(l, c) && src in c.slots && s !in c.slots && |Holders(c.slots, c.slots[src].data)| + 1 < WORD
    ensures c.slots[src].data in c.pool.blocks && src in Views(c) && Legal(l, Share(src, s))
    ensures Rel(Apply(l, Share(src, s)), WithShared(c, src, s))
    ensures Views(WithShared(c, src, s)) == Views(c)[s := Views(c)[src]]
  {
    var op, ch := Share(src, s), Chunk(0, []);
    SeenIsLedger(l, c);
    GroupHolds(l, c, src);
    Located(l, c);
    hide Rel, Views;
    CallSeen(l, c, op, ch);
  }

  ghost function WithReleased(c: Client, s: Slot): Client
    requires s in c.slots && c.slots[s].data in c.pool.blocks
  {
    Client(FastRelease(c.pool, c.slots[s]).0, c.slots - {s}, c.failed)
  }

  lemma {:induction false} ReleaseSeen(l: Ledger, c: Client, s: Slot)
    requires Rel(l, c) && s in c.slots
    ensures c.slots[s].data in c.pool.blocks && Legal(l, Release(s))
    ensures FastRelease(c.pool, c.slots[s]).1 == Returns(true, EMPTY)
    ensures Rel(Apply(l, Release(s)), WithReleased(c, s))
    ensures Views(WithReleased(c, s)) == Views(c) - {s}
    ensures c.slots[s].data in WithReleased(c, s).pool.blocks <==> Holders(c.slots, c.slots[s].data) != {s}
  {
    var op, ch := Release(s), Chunk(0, []);
    RelParts(l, c);
    hide Rel, Views, Holders, Counted, Agrees, FastRelease, Apply, Seen;
    Located(l, c);
    ReleaseCounted(c, s);
    CallSeen(l, c, op, ch);
    hide Legal;
    assert Seen(Views(c), op) == Views(c) - {s} by { SeenRelease(Views(c), s); }
  }

  /** The counter lives in the block. */
  class FastPayloadPool {
    var blocks: map<Address, Block>
    var reserveCount: nat
    var releaseCount: nat
    /** The payloads that the program holds, and what it was given through them. */
    ghost var slots: map<Slot, Payload>
    ghost var ledger: Ledger

    ghost function Holding(): Client
      reads this
    {
      Client(Pool(blocks, reserveCount, releaseCount), slots, false)
    }

    ghost predicate Valid()
      reads this
    {
      Rel(ledger, Holding())
    }

    /** Each payload held, with its length, size and bytes. */
    ghost function Shown(): map<Slot, View>
      reads this
    {
      Views(Holding())
    }

    constructor ()
      ensures Valid() && Shown() == map[] && blocks == map[]
    {
      blocks, reserveCount, releaseCount, slots, ledger := map[], 0, 0, map[], Ledger(map[], 0);
    }

    /** A payload without bytes in a block of its own; only a size of 0 is refused. */
    method Reserve(size: nat, ch: Chunk, ghost s: Slot) returns (ok: bool, payload: Payload)
      requires Valid() && s !in slots && Fresh(Holding().pool, ch, size)
      modifies this
      ensures Valid() && (ok <==> size > 0)
      ensures !ok ==> Holding() == old(Holding()) && payload == EMPTY
      ensures ok ==> slots == old(slots)[s := payload] && Shown() == old(Shown())[s := View(0, size, [])]
      ensures ok ==> payload.data !in old(blocks) && blocks.Keys == old(blocks).Keys + {payload.data}
    {
      hide Rel, Views, Apply, Legal;
      if size == 0 {
        return false, EMPTY;
      }
      ghost var c := Holding();
      NewSeen(ledger, c, s, size, [], ch);
      assert Overwrite(ch.bytes, []) == ch.bytes;
      blocks := blocks[ch.addr := Block(1, ch.bytes)];
      reserveCount := reserveCount + 1;
      ok, payload := true, EMPTY.(data := ch.addr, maxSize := size);
      slots, ledger := slots[s := payload], Apply(ledger, PayloadRuns.Import(s, size, []));
      assert Holding() == WithNew(c, s, size, [], ch);
    }

    /** A payload of another owner is copied. */
    method Import(src: seq<Byte>, size: nat, ch: Chunk, ghost s: Slot) returns (ok: bool, payload: Payload)
      requires Valid() && s !in slots && |src| <= size && Fresh(Holding().pool, ch, size)
      modifies this
      ensures Valid() && (ok <==> size > 0)
      ensures !ok ==> Holding() == old(Holding()) && payload == EMPTY
      ensures ok ==> slots == old(slots)[s := payload] && Shown() == old(Shown())[s := View(|src|, size, src)]
      ensures ok ==> payload.data !in old(blocks) && blocks.Keys == old(blocks).Keys + {payload.data}
    {
      hide Rel, Views, Apply, Legal;
      if size == 0 {
        return false, EMPTY;
      }
      ghost var c := Holding();
      NewSeen(ledger, c, s, size, src, ch);
      blocks := blocks[ch.addr := Block(1, ch.bytes)];
      reserveCount := reserveCount + 1;
      payload := EMPTY.(data := ch.addr, maxSize := size);
      blocks := blocks[ch.addr := Block(1, Overwrite(blocks[ch.addr].bytes, src))];
      ok, payload := true, payload.(length := |src|);
      slots, ledger := slots[s := payload], Apply(ledger, PayloadRuns.Import(s, size, src));
      assert Holding() == WithNew(c, s, size, src, ch);
    }

    /** A payload of this pool is shared: the same bytes, without a new block. */
    method Share(src: Payload, ghost from: Slot, ghost s: Slot) returns (payload: Payload)
      requires Valid() && from in slots && slots[from] == src && s !in slots
      requires |Holders(slots, src.data)| + 1 < WORD
      modifies this
      ensures Valid() && slots == old(slots)[s := payload] && payload.data == src.data
      ensures from in old(Shown()) && Shown() == old(Shown())[s := old(Shown())[from]]
      ensures blocks.Keys == old(blocks).Keys && reserveCount == old(reserveCount)
    {
      hide Rel, Views, Apply, Legal, Holders;
      ghost var c := Holding();
      ShareSeen(ledger, c, from, s);
      var b := blocks[src.data];
      blocks := blocks[src.data := b.(refs := (b.refs + 1) % WORD)];
      payload := EMPTY.(data := src.data, length := src.length, maxSize := src.maxSize);
      slots, ledger := slots[s := payload], Apply(ledger, PayloadRuns.Share(from, s));
      assert Holding() == WithShared(c, from, s);
    }

    /** The block is freed exactly with its last holder, and the other holders see what they saw. */
    method Release(payload: Payload, ghost s: Slot) returns (r: Result)
      requires Valid() && s in slots && slots[s] == payload
      modifies this
      ensures Valid() && r == Returns(true, EMPTY)
      ensures slots == old(slots) - {s} && Shown() == old(Shown()) - {s}
      ensures payload.data in old(blocks)
      ensures payload.data in blocks <==> Holders(old(slots), payload.data) != {s}
      ensures releaseCount == old(releaseCount) + if payload.data in blocks then 0 else 1
    {
      hide Rel, Views, Apply, Legal, Holders;
      ghost var c := Holding();
      ReleaseSeen(ledger, c, s);
      var b := blocks[payload.data];
      blocks := blocks[payload.data := b.(refs := (b.refs - 1) % WORD)];
      slots, ledger := slots - {s}, Apply(ledger, PayloadRuns.Release(s));
      if blocks[payload.data].refs == 0 {
        blocks := blocks - {payload.data};
        assert blocks == old(blocks) - {payload.data};
        releaseCount := releaseCount + 1;
        assert Holding() == WithReleased(c, s);
        if releaseCount > reserveCount {
          return Throws;
        }
      }
      assert Holding() == WithReleased(c, s);
      r := Returns(true, EMPTY);
    }

    /** Clean exactly when nothing is held. */
    method Clean() returns (clean: bool)
      requires Valid()
      ensures clean <==> slots == map[]
      ensures clean <==> blocks == map[]
    {
      clean := reserveCount == releaseCount;
      CleanIffEmpty(ledger, Holding());
      assert slots == map[] <==> ledger.items == map[] by {
        assert slots.Keys == ledger.items.Keys;
      }
      assert blocks == map[] <==> |blocks| == 0;
    }
  }

  // ----- the map pool -----

  ghost function MapViews(c: MapClient): map<Slot, View> {
    map s | s in c.slots :: CopyView(c.slots[s], c.pool.memory)
  }

  /** The map pool is in step with a ledger when the fast pool with the same counters is. */
  ghost predicate MapRel(l: Ledger, c: MapClient) {
    Tracks(c.pool) && Rel(l, AsClient(c))
  }

  lemma {:induction false} MapViewsAlike(c: MapClient)
    requires Tracks(c.pool)
    ensures MapViews(c) == Views(AsClient(c)) && AsClient(c).pool.blocks.Keys == c.pool.memory.Keys
  {
    hide BlockView, CopyView;
    forall s | s in c.slots
      ensures BlockView(c.slots[s], AsPool(c.pool).blocks) == CopyView(c.slots[s], c.pool.memory)
    {
      MapView(c.slots[s], c.pool);
    }
  }

  lemma {:induction false} MapCallSeen(l: Ledger, c: MapClient, op: Op, ch: Chunk)
    requires MapRel(l, c) && Legal(l, op) && FreshFor(AsClient(c), op, ch)
    ensures MapRel(Apply(l, op), MapCall(c, op, ch))
    ensures MapViews(c).Keys == l.items.Keys == c.slots.Keys
    ensures MapViews(MapCall(c, op, ch)) == Seen(MapViews(c), op)
  {
    MapCallIsCall(l, c, op, ch);
    hide Rel, Call, Apply, Legal, MapCall, Views, MapViews;
    MapViewsAlike(c);
    MapViewsAlike(MapCall(c, op, ch));
    CallSeen(l, AsClient(c), op, ch);
  }

  ghost function MapWithNew(c: MapClient, s: Slot, size: nat, bytes: seq<Byte>, ch: Chunk): MapClient
    requires |bytes| <= |ch.bytes|
  {
    MapClient(
      MapPool(c.pool.memory[ch.addr := Overwrite(ch.bytes, bytes)], c.pool.counters[ch.addr := 1],
              c.pool.reserved + 1, c.pool.released),
      c.slots[s := Payload(ch.addr, |bytes|, size, 0)], c.failed)
  }

  lemma {:induction false} MapNewSeen(l: Ledger, c: MapClient, s: Slot, size: nat, bytes: seq<Byte>, ch: Chunk)
    requires MapRel(l, c) && s !in c.slots && |bytes| <= size && size > 0
    requires ch.addr != NULL && ch.addr !in c.pool.memory && |ch.bytes| == size
    ensures Legal(l, Import(s, size, bytes))
    ensures MapRel(Apply(l, Import(s, size, bytes)), MapWithNew(c, s, size, bytes, ch))
    ensures MapViews(MapWithNew(c, s, size, bytes, ch)) == MapViews(c)[s := View(|bytes|, size, bytes)]
  {
    hide Rel, Views, MapViews, Apply, Legal, AsPool, Overwrite;
    var c' := MapWithNew(c, s, size, bytes, ch);
    AsPoolUpdate(c.pool, ch.addr, Overwrite(ch.bytes, bytes));
    AsPoolTotals(c.pool);
    MapViewsAlike(c);
    MapViewsAlike(c');
    NewSeen(l, AsClient(c), s, size, bytes, ch);
    assert AsClient(c') == WithNew(AsClient(c), s, size, bytes, ch);
  }

  lemma {:induction false} MapShareSeen(l: Ledger, c: MapClient, src: Slot, s: Slot)
    requires MapRel(l, c) && src in c.slots && s !in c.slots && |Holders(c.slots, c.slots[src].data)| + 1 < WORD
    ensures Legal(l, Share(src, s)) && c.slots[src].data in c.pool.counters && src in MapViews(c)
    ensures var slots := c.slots[s := c.slots[src].(pos := 0)];
            var c' := MapClient(MapShare(c.pool, c.slots[src], EMPTY).0, slots, c.failed);
            MapRel(Apply(l, Share(src, s)), c') && MapViews(c') == MapViews(c)[s := MapViews(c)[src]]
  {
    hide Rel, Views, MapViews, Apply, Legal, Holders, Seen;
    var op, ch := Share(src, s), Chunk(0, []);
    ShareSeen(l, AsClient(c), src, s);
    MapViewsAlike(c);
    MapCallSeen(l, c, op, ch);
    SeenShare(MapViews(c), src, s);
    MapShareCall(c, src, s, ch);
  }

  lemma {:induction false} MapShareCall(c: MapClient, src: Slot, s: Slot, ch: Chunk)
    requires src in c.slots && c.slots[src].data in c.pool.counters
    ensures MapCall(c, Share(src, s), ch)
         == MapClient(MapShare(c.pool, c.slots[src], EMPTY).0, c.slots[s := c.slots[src].(pos := 0)], c.failed)
  {
  }

  lemma {:induction false} MapReleaseSeen(l: Ledger, c: MapClient, s: Slot)
    requires MapRel(l, c) && s in c.slots
    ensures Legal(l, Release(s)) && c.slots[s].data in c.pool.counters && c.slots[s].data in c.pool.memory
    ensures MapRelease(c.pool, c.slots[s]).1 == Returns(true, EMPTY)
    ensures var c' := MapClient(MapRelease(c.pool, c.slots[s]).0, c.slots - {s}, c.failed);
            && MapRel(Apply(l, Release(s)), c') && MapViews(c') == MapViews(c) - {s}
            && (c.slots[s].data in c'.pool.memory <==> Holders(c.slots, c.slots[s].data) != {s})
  {
    var op, ch := Release(s), Chunk(0, []);
    ReleaseSeen(l, AsClient(c), s);
    hide Rel, Views, MapViews, Apply, Legal, Holders, Seen;
    MapViewsAlike(c);
    MapCallSeen(l, c, op, ch);
    SeenRelease(MapViews(c), s);
    MapReleaseReturns(c, s);
  }

  lemma {:induction false} MapReleaseReturns(c: MapClient, s: Slot)
    requires Tracks(c.pool) && s in c.slots && c.slots[s].data in c.pool.memory
    requires FastRelease(AsPool(c.pool), c.slots[s]).1 == Returns(true, EMPTY)
    ensures MapRelease(c.pool, c.slots[s]).1 == Returns(true, EMPTY)
    ensures c.slots[s].data in MapRelease(c.pool, c.slots[s]).0.memory
       <==> c.slots[s].data in FastRelease(AsPool(c.pool), c.slots[s]).0.blocks
  {
  }

  /** The counters live in a map. */
  class MapPayloadPool {
    var memory: map<Address, seq<Byte>>
    var reservedPayloads: map<Address, nat>
    var reserveCount: nat
    var releaseCount: nat
    ghost var slots: map<Slot, Payload>
    ghost var ledger: Ledger

    ghost function Holding(): MapClient
      reads this
    {
      MapClient(MapPool(memory, reservedPayloads, reserveCount, releaseCount), slots, false)
    }

    ghost predicate Valid()
      reads this
    {
      MapRel(ledger, Holding())
    }

    ghost function Shown(): map<Slot, View>
      reads this
    {
      MapViews(Holding())
    }

    constructor ()
      ensures Valid() && Shown() == map[] && memory == map[]
    {
      memory, reservedPayloads, reserveCount, releaseCount := map[], map[], 0, 0;
      slots, ledger := map[], Ledger(map[], 0);
      new;
      EmptyPools();
    }

    method Reserve(size: nat, ch: Chunk, ghost s: Slot) returns (ok: bool, payload: Payload)
      requires Valid() && s !in slots && ch.addr != NULL && ch.addr !in memory && |ch.bytes| == size
      modifies this
      ensures Valid() && (ok <==> size > 0)
      ensures !ok ==> Holding() == old(Holding()) && payload == EMPTY
      ensures ok ==> slots == old(slots)[s := payload] && Shown() == old(Shown())[s := View(0, size, [])]
      ensures ok ==> payload.data !in old(memory) && memory.Keys == old(memory).Keys + {payload.data}
    {
      hide MapRel, MapViews, Apply, Legal;
      if size == 0 {
        return false, EMPTY;
      }
      ghost var c := Holding();
      MapNewSeen(ledger, c, s, size, [], ch);
      assert Overwrite(ch.bytes, []) == ch.bytes;
      memory := memory[ch.addr := ch.bytes];
      reserveCount := reserveCount + 1;
      reservedPayloads := reservedPayloads[ch.addr := 1];
      ok, payload := true, EMPTY.(data := ch.addr, maxSize := size);
      slots, ledger := slots[s := payload], Apply(ledger, PayloadRuns.Import(s, size, []));
      assert Holding() == MapWithNew(c, s, size, [], ch);
    }

    method Import(src: seq<Byte>, size: nat, ch: Chunk, ghost s: Slot) returns (ok: bool, payload: Payload)
      requires Valid() && s !in slots && |src| <= size
      requires ch.addr != NULL && ch.addr !in memory && |ch.bytes| == size
      modifies this
      ensures Valid() && (ok <==> size > 0)
      ensures !ok ==> Holding() == old(Holding()) && payload == EMPTY
      ensures ok ==> slots == old(slots)[s := payload] && Shown() == old(Shown())[s := View(|src|, size, src)]
      ensures ok ==> payload.data !in old(memory) && memory.Keys == old(memory).Keys + {payload.data}
    {
      hide MapRel, MapViews, Apply, Legal;
      if size == 0 {
        return false, EMPTY;
      }
      ghost var c := Holding();
      MapNewSeen(ledger, c, s, size, src, ch);
      memory := memory[ch.addr := ch.bytes];
      reserveCount := reserveCount + 1;
      reservedPayloads := reservedPayloads[ch.addr := 1];
      payload := EMPTY.(data := ch.addr, maxSize := size);
      memory := memory[ch.addr := Overwrite(memory[ch.addr], src)];
      ok, payload := true, payload.(length := |src|);
      slots, ledger := slots[s := payload], Apply(ledger, PayloadRuns.Import(s, size, src));
      assert Holding() == MapWithNew(c, s, size, src, ch);
    }

    /** A payload that was not reserved here throws and changes nothing. */
    method Share(src: Payload, ghost from: Slot, ghost s: Slot) returns (r: Result)
      requires Valid() && s !in slots
      requires src.data in reservedPayloads ==> from in slots && slots[from] == src
      requires src.data in reservedPayloads ==> |Holders(slots, src.data)| + 1 < WORD
      modifies this
      ensures Valid() && (r.Throws? <==> src.data !in old(reservedPayloads))
      ensures r.Throws? ==> Holding() == old(Holding())
      ensures r.Returns? ==> r.ok && slots == old(slots)[s := r.payload] && r.payload.data == src.data
      ensures r.Returns? ==> from in old(Shown()) && Shown() == old(Shown())[s := old(Shown())[from]]
      ensures memory == old(memory) && reserveCount == old(reserveCount)
    {
      hide MapRel, MapViews, Apply, Legal, Holders;
      if src.data !in reservedPayloads {
        return Throws;
      }
      ghost var c := Holding();
      MapShareSeen(ledger, c, from, s);
      reservedPayloads := reservedPayloads[src.data := (reservedPayloads[src.data] + 1) % WORD];
      r := Returns(true, EMPTY.(data := src.data, length := src.length, maxSize := src.maxSize));
      slots, ledger := slots[s := r.payload], Apply(ledger, PayloadRuns.Share(from, s));
    }

    /** As for the fast pool; a payload that was not reserved here throws and changes nothing. */
    method Release(payload: Payload, ghost s: Slot) returns (r: Result)
      requires Valid() && (payload.data in reservedPayloads ==> s in slots && slots[s] == payload)
      modifies this
      ensures Valid() && r == if payload.data in old(reservedPayloads) then Returns(true, EMPTY) else Throws
      ensures r.Throws? ==> Holding() == old(Holding())
      ensures r.Returns? ==> slots == old(slots) - {s} && Shown() == old(Shown()) - {s}
      ensures r.Returns? ==> payload.data in old(memory)
      ensures r.Returns? ==> (payload.data in memory <==> Holders(old(slots), payload.data) != {s})
    {
      hide MapRel, MapViews, Apply, Legal, Holders;
      if payload.data !in reservedPayloads {
        return Throws;
      }
      ghost var c := Holding();
      MapReleaseSeen(ledger, c, s);
      reservedPayloads := reservedPayloads[payload.data := (reservedPayloads[payload.data] - 1) % WORD];
      slots, ledger := slots - {s}, Apply(ledger, PayloadRuns.Release(s));
      if reservedPayloads[payload.data] == 0 {
        memory := memory - {payload.data};
        releaseCount := releaseCount + 1;
        if releaseCount > reserveCount {
          return Throws;
        }
        reservedPayloads := reservedPayloads - {payload.data};
        assert reservedPayloads == old(reservedPayloads) - {payload.data};
      }
      r := Returns(true, EMPTY);
    }
  }

  // ----- the copying pool -----

  ghost function CopyWithNew(c: CopyClient, s: Slot, size: nat, bytes: seq<Byte>, ch: Chunk): CopyClient
    requires |bytes| <= |ch.bytes|
  {
    CopyClient(CopyPool(c.pool.memory[ch.addr := Overwrite(ch.bytes, bytes)], c.pool.reserved + 1, c.pool.released),
               c.slots[s := Payload(ch.addr, |bytes|, size, 0)], c.failed)
  }

  lemma {:induction false} CopyNewSeen(l: Ledger, c: CopyClient, s: Slot, size: nat, bytes: seq<Byte>, ch: Chunk)
    requires CopyRel(l, c) && s !in c.slots && |bytes| <= size && size > 0
    requires ch.addr != NULL && ch.addr !in c.pool.memory && |ch.bytes| == size
    ensures Legal(l, Import(s, size, bytes))
    ensures CopyRel(Apply(l, Import(s, size, bytes)), CopyWithNew(c, s, size, bytes, ch))
    ensures CopyViews(CopyWithNew(c, s, size, bytes, ch)) == CopyViews(c)[s := View(|bytes|, size, bytes)]
  {
    hide CopyRel, CopyViews, CopyCall, Seen, CopyShows;
    var op := Import(s, size, bytes);
    CopySeenIsLedger(l, c);
    CopyCallSeen(l, c, op, ch);
    CopyCallResult(l, c, op, ch, NewItem(l, op));
    hide Legal, Apply, Overwrite;
    SeenImport(CopyViews(c), s, size, bytes);
  }

  lemma {:induction false} CopyReleaseSeen(l: Ledger, c: CopyClient, s: Slot)
    requires CopyRel(l, c) && s in c.slots
    ensures Legal(l, Release(s)) && c.slots[s].data in c.pool.memory
    ensures CopyRelease(c.pool, c.slots[s]).1 == Returns(true, EMPTY)
    ensures var c' := CopyClient(CopyRelease(c.pool, c.slots[s]).0, c.slots - {s}, c.failed);
            CopyRel(Apply(l, Release(s)), c') && CopyViews(c') == CopyViews(c) - {s}
  {
    var op, ch := Release(s), Chunk(0, []);
    CopySeenIsLedger(l, c);
    CopySource(l, c, s);
    CopyCallSeen(l, c, op, ch);
    assert CopyRel(Apply(l, op), CopyCall(c, op, ch));
    assert !CopyCall(c, op, ch).failed;
    hide CopyRel, CopyViews;
  }

  /** Every payload has memory of its own. */
  class CopyPayloadPool {
    var memory: map<Address, seq<Byte>>
    var reserveCount: nat
    var releaseCount: nat
    ghost var slots: map<Slot, Payload>
    ghost var ledger: Ledger

    ghost function Holding(): CopyClient
      reads this
    {
      CopyClient(CopyPool(memory, reserveCount, releaseCount), slots, false)
    }

    ghost predicate Valid()
      reads this
    {
      CopyRel(ledger, Holding())
    }

    ghost function Shown(): map<Slot, View>
      reads this
    {
      CopyViews(Holding())
    }

    constructor ()
      ensures Valid() && Shown() == map[] && memory == map[]
    {
      memory, reserveCount, releaseCount, slots, ledger := map[], 0, 0, map[], Ledger(map[], 0);
    }

    /** A copy of the bytes, whoever owns them. A size of 0 reserves nothing and still succeeds. */
    method Get(src: seq<Byte>, size: nat, ch: Chunk, ghost s: Slot) returns (payload: Payload)
      requires Valid() && s !in slots && |src| <= size
      requires ch.addr != NULL && ch.addr !in memory && |ch.bytes| == size
      modifies this
      ensures Valid()
      ensures size == 0 ==> Holding() == old(Holding()) && payload == EMPTY
      ensures size > 0 ==> slots == old(slots)[s := payload] && Shown() == old(Shown())[s := View(|src|, size, src)]
      ensures size > 0 ==> payload.data !in old(memory) && memory.Keys == old(memory).Keys + {payload.data}
    {
      hide CopyRel, CopyViews, Apply, Legal;
      payload := EMPTY;
      if size != 0 {
        ghost var c := Holding();
        CopyNewSeen(ledger, c, s, size, src, ch);
        memory := memory[ch.addr := ch.bytes];
        reserveCount := reserveCount + 1;
        payload := payload.(data := ch.addr, maxSize := size);
        memory := memory[ch.addr := Overwrite(memory[ch.addr], src)];
        payload := payload.(length := |src|, maxSize := size);
        slots, ledger := slots[s := payload], Apply(ledger, Import(s, size, src));
        assert Holding() == CopyWithNew(c, s, size, src, ch);
      }
    }

    method Release(payload: Payload, ghost s: Slot) returns (r: Result)
      requires Valid() && s in slots && slots[s] == payload
      modifies this
      ensures Valid() && r == Returns(true, EMPTY)
      ensures slots == old(slots) - {s} && Shown() == old(Shown()) - {s}
      ensures payload.data in old(memory) && memory.Keys == old(memory).Keys - {payload.data}
    {
      hide CopyRel, CopyViews, Apply, Legal;
      CopyReleaseSeen(ledger, Holding(), s);
      memory := memory - {payload.data};
      releaseCount := releaseCount + 1;
      slots, ledger := slots - {s}, Apply(ledger, PayloadRuns.Release(s));
      if releaseCount > reserveCount {
        return Throws;
      }
      r := Returns(true, EMPTY);
    }
  }
}
