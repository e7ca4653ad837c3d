/**
 Payloads of size 0. The reference-counted pools refuse them; the copying pool accepts one without reserving memory,
 and counts its release all the same, so that its counters drift.
 */
module PayloadEmpty {
  import opened PayloadPools
  import opened PayloadRuns
  import opened PayloadObjects

  /** `FreeEmpty` releases a payload without memory: one of size 0, or one released before. */
  datatype Call = Get(s: Slot, size: nat, bytes: seq<Byte>, ch: Chunk) | Free(s: Slot) | FreeEmpty

  /** The pool with the payloads held that have memory, what they were given, and the releases of empty ones. */
  datatype State = State(pool: CopyPool, slots: map<Slot, Payload>, items: map<Slot, Item>, empties: nat)

  ghost predicate Legal(st: State, call: Call) {
    match call
    case Get(s, size, bytes, ch) =>
      && s !in st.slots && |bytes| <= size == |ch.bytes|
      && (size > 0 ==> ch.addr != NULL && ch.addr !in st.pool.memory)
    case Free(s) => s in st.slots
    case FreeEmpty => true
  }

  /** What the pool answers. */
  ghost function Answer(st: State, call: Call): (CopyPool, Result)
    requires Legal(st, call)
  {
    match call
    case Get(_, size, bytes, ch) => CopyGet(st.pool, bytes, size, EMPTY, ch)
    case Free(s) => CopyRelease(st.pool, st.slots[s])
    case FreeEmpty => CopyRelease(st.pool, EMPTY)
  }

  /** A call that throws has still freed the memory and counted the release. */
  ghost function Step(st: State, call: Call): State
    requires Legal(st, call)
  {
    var out := Answer(st, call);
    match call
    case Get(s, size, bytes, _) =>
      if size == 0 then st.(pool := out.0)
      else st.(pool := out.0, slots := st.slots[s := out.1.payload], items := st.items[s := Item(0, size, bytes)])
    case Free(s) => st.(pool := out.0, slots := st.slots - {s}, items := st.items - {s})
    case FreeEmpty => st.(pool := out.0, empties := st.empties + 1)
  }

  ghost function After(calls: seq<Call>): State {
    if calls == [] then State(CopyPool(map[], 0, 0), map[], map[], 0)
    else
      var st, call := After(calls[..|calls| - 1]), calls[|calls| - 1];
      if Legal(st, call) then Step(st, call) else st
  }

  ghost predicate LegalRun(calls: seq<Call>) {
    calls == [] || (LegalRun(calls[..|calls| - 1]) && Legal(After(calls[..|calls| - 1]), calls[|calls| - 1]))
  }

  ghost predicate Inv(st: State) {
    && CopyAgrees(st.items, st.slots, st.pool.memory) && NULL !in st.pool.memory
    && st.pool.reserved + st.empties == st.pool.released + |st.slots|
  }

  lemma {:induction false} StepKeeps(st: State, call: Call)
    requires Inv(st) && Legal(st, call)
    ensures Inv(Step(st, call))
  {
    hide Step, Inv;
    match call
    case Get(_, _, _, _) => GetKeeps(st, call);
    case Free(_) => FreeKeeps(st, call);
    case FreeEmpty => FreeEmptyKeeps(st);
  }

  lemma {:induction false} GetKeeps(st: State, call: Call)
    requires Inv(st) && Legal(st, call) && call.Get?
    ensures Inv(Step(st, call))
  {
    hide CopyAgrees, CopyShows, Overwrite;
    var it := Item(0, call.size, call.bytes);
    if call.size > 0 {
      Keys(st);
      CopyAgreesAdd(st.items, st.slots, st.pool.memory, call.s, it, call.ch);
      assert Answer(st, call).1.payload == Payload(call.ch.addr, |call.bytes|, call.size, 0);
      assert Answer(st, call).0.memory == st.pool.memory[call.ch.addr := Overwrite(call.ch.bytes, call.bytes)];
    }
  }

  lemma {:induction false} FreeKeeps(st: State, call: Call)
    requires Inv(st) && Legal(st, call) && call.Free?
    ensures Inv(Step(st, call))
  {
    hide CopyAgrees, CopyShows;
    CopyAgreesRemove(st.items, st.slots, st.pool.memory, call.s);
  }

  lemma {:induction false} FreeEmptyKeeps(st: State)
    requires Inv(st)
    ensures Inv(Step(st, FreeEmpty))
  {
    hide CopyAgrees, CopyShows;
    assert st.pool.memory - {NULL} == st.pool.memory;
  }

  lemma {:induction false} Keys(st: State)
    requires CopyAgrees(st.items, st.slots, st.pool.memory)
    ensures st.items.Keys == st.slots.Keys
  {
  }

  /**
   Over every run, with empty payloads: what was reserved and the releases of empty payloads balance what was released
   and what is held; and every payload held shows what it was given.
   */
  lemma {:induction false} Balance(calls: seq<Call>)
    requires LegalRun(calls)
    ensures var st := After(calls);
            && Inv(st)
            && st.pool.reserved + st.empties == st.pool.released + |st.slots|
            && st.slots.Keys == st.items.Keys
            && forall s :: s in st.slots ==> CopyView(st.slots[s], st.pool.memory) == ItemView(st.items[s])
  {
    if calls != [] {
      var front := calls[..|calls| - 1];
      Balance(front);
      hide Inv, Step, Legal;
      StepKeeps(After(front), calls[|calls| - 1]);
      Shown(After(calls));
    }
  }

  lemma {:induction false} Shown(st: State)
    requires Inv(st)
    ensures st.pool.reserved + st.empties == st.pool.released + |st.slots| && st.slots.Keys == st.items.Keys
    ensures forall s :: s in st.slots ==> CopyView(st.slots[s], st.pool.memory) == ItemView(st.items[s])
  {
    forall s | s in st.slots
      ensures CopyView(st.slots[s], st.pool.memory) == ItemView(st.items[s])
    {
      assert CopyShows(st.slots[s], st.pool.memory, st.items[s]);
    }
  }

  /** Any release throws if and only if at least as many empty payloads were released as are held. */
  lemma {:induction false} ReleaseThrowsIff(calls: seq<Call>, call: Call)
    requires LegalRun(calls) && !call.Get? && Legal(After(calls), call)
    ensures var st := After(calls);
            Answer(st, call).1 == Throws <==> st.empties >= |st.slots|
  {
    Balance(calls);
    hide After, LegalRun, Inv;
  }

  /**
   The pool is clean if and only if as many empty payloads were released as are held; so is_clean tells whether
   anything is held if and only if no empty payload was released, or something is held and the two numbers differ.
   */
  lemma {:induction false} CleanIff(calls: seq<Call>)
    requires LegalRun(calls)
    ensures var st := After(calls);
            var clean := st.pool.reserved == st.pool.released;
            && (clean <==> st.empties == |st.slots|)
            && ((clean <==> |st.slots| == 0) <==> st.empties == 0 || (|st.slots| != 0 && st.empties != |st.slots|))
  {
    Balance(calls);
    hide After, LegalRun, Inv;
  }

  /** The exception hits the wrong holder: an empty payload is released, and the release of the one held throws. */
  lemma {:induction false} WrongHolder(b: Byte)
    ensures exists calls: seq<Call> ::
      && LegalRun(calls) && 0 in After(calls).slots
      && After(calls).pool.reserved == After(calls).pool.released
      && Answer(After(calls), Free(0)).1 == Throws
  {
    var ch := Chunk(1, [b]);
    var c1, c2, c3 := Get(0, 1, [b], ch), Get(1, 0, [], Chunk(0, [])), FreeEmpty;
    var calls := [c1, c2, c3];
    assert calls[..2] == [c1, c2] && calls[..2][..1] == [c1] && [c1, c2][..1] == [c1] && [c1][..0] == [];
    assert LegalRun([]) && After([]) == State(CopyPool(map[], 0, 0), map[], map[], 0);
    assert LegalRun([c1]) && After([c1]) == Step(After([]), c1);
    assert LegalRun([c1, c2]) && After([c1, c2]) == Step(After([c1]), c2);
    assert LegalRun(calls) && After(calls) == Step(After([c1, c2]), c3);
    assert 0 in After(calls).slots;
    assert Answer(After(calls), Free(0)).1 == Throws;
  }

  /** The other pools refuse a size of 0, whatever their state, and stay as they are. */
  lemma {:induction false} EmptyRefused(p: Pool, m: MapPool, payload: Payload, ch: Chunk)
    ensures FastReserve(p, 0, payload, ch) == (p, Returns(false, payload))
    ensures MapReserve(m, 0, payload, ch) == (m, Returns(false, payload))
  {
  }

  /** The copying pool accepts one in every state, through either call, and stays as it is. */
  lemma {:induction false} EmptyAccepted(m: CopyPool, ch: Chunk)
    requires ch.bytes == []
    ensures CopyReserve(m, 0, EMPTY, ch) == (m, Returns(true, EMPTY))
    ensures CopyGet(m, [], 0, EMPTY, ch) == (m, Returns(true, EMPTY))
  {
  }

  /**
   What an over-release would do, which no legal run reaches: the last holder's release throws exactly when as much was
   released as reserved, after the block is freed and the release counted; the map pool keeps a counter of 0.
   */
  lemma {:induction false} OverRelease(p: Pool, m: MapPool, payload: Payload)
    requires payload.data in p.blocks && p.blocks[payload.data].refs == 1
    requires payload.data in m.counters && m.counters[payload.data] == 1
    ensures FastRelease(p, payload).0 == Pool(p.blocks - {payload.data}, p.reserved, p.released + 1)
    ensures FastRelease(p, payload).1 == if p.released >= p.reserved then Throws else Returns(true, EMPTY)
    ensures MapRelease(m, payload).1 == if m.released >= m.reserved then Throws else Returns(true, EMPTY)
    ensures MapRelease(m, payload).0
         == MapPool(m.memory - {payload.data},
                    if m.released >= m.reserved then m.counters[payload.data := 0] else m.counters - {payload.data},
                    m.reserved, m.released + 1)
  {
  }
}
