/** The table that maps a forwarded request to the requester its reply must go back to. */
module ServiceRegistry {

  type ParticipantId = nat
  type Guid = nat
  type SequenceNumber = nat

  datatype Option<+T> = None | Some(value: T)

  datatype SampleIdentity = SampleIdentity(writer: Guid, sequence: SequenceNumber)

  /** The participant that received the request, and the identity the reply must be related to. */
  datatype Entry = Entry(participant: ParticipantId, identity: SampleIdentity)

  type Table = map<SequenceNumber, Entry>

  const MAX_ENTRIES := 5000

  ghost predicate IsOldest(t: Table, k: SequenceNumber) {
    k in t && forall j :: j in t ==> k <= j
  }

  lemma {:induction false} OldestExists(t: Table) returns (k: SequenceNumber)
    requires t != map[]
    ensures IsOldest(t, k)
    decreases |t|
  {
    k :| k in t;
    var rest := t - {k};
    if rest == map[] {
      assert forall j :: j in t ==> j == k || j in rest;
    } else {
      assert |t.Keys| == |rest.Keys + {k}|;
      assert rest.Keys == t.Keys - {k};
      var j := OldestExists(rest);
      assert forall i :: i in t ==> i == k || i in rest;
      if j < k { k := j; }
    }
  }

  /** The oldest key, the one that `std::map::begin` points to. */
  ghost function Oldest(t: Table): (k: SequenceNumber)
    requires t != map[]
    ensures IsOldest(t, k)
  {
    assert exists k :: IsOldest(t, k) by { var k := OldestExists(t); }
    var k :| IsOldest(t, k);
    k
  }

  /** The table after `add`: a present key is left alone, a full table loses its oldest entry. */
  ghost function Added(t: Table, idx: SequenceNumber, e: Entry): Table {
    if idx in t then t
    else
      var t1 := t[idx := e];
      if |t1| == MAX_ENTRIES then t1 - {Oldest(t1)} else t1
  }

  function Lookup(t: Table, idx: SequenceNumber): Option<Entry> {
    if idx in t then Some(t[idx]) else None
  }

  class ServiceRegistry {
    var enabled: bool
    var registry: Table

    ghost predicate Valid()
      reads this
    {
      |registry| < MAX_ENTRIES
    }

    constructor ()
      ensures Valid() && !enabled && registry == map[]
    {
      enabled, registry := false, map[];
    }

    method Enable()
      modifies this`enabled
      ensures enabled
    {
      enabled := true;
    }

    method Add(idx: SequenceNumber, newEntry: Entry)
      requires Valid()
      modifies this`registry
      ensures Valid()
      ensures registry == Added(old(registry), idx, newEntry)
    {
      if idx in registry {
        return;
      }
      ghost var before := registry;
      registry := registry[idx := newEntry];
      assert registry.Keys == before.Keys + {idx};
      if |registry| == MAX_ENTRIES {
        ghost var witness_ := OldestExists(registry);
        var begin :| begin in registry && forall j :: j in registry ==> begin <= j;
        assert begin == Oldest(registry);
        ghost var full := registry;
        registry := registry - {begin};
        assert registry.Keys == full.Keys - {begin};
      }
    }

    method Get(idx: SequenceNumber) returns (r: Option<Entry>)
      ensures r == Lookup(registry, idx)
      ensures r.Some? <==> idx in registry
    {
      if idx in registry {
        r := Some(registry[idx]);
      } else {
        r := None;
      }
    }

    method Erase(idx: SequenceNumber)
      requires Valid()
      modifies this`registry
      ensures Valid() && registry == old(registry) - {idx}
    {
      if idx in registry {
        ghost var before := registry;
        registry := registry - {idx};
        assert registry.Keys == before.Keys - {idx};
      }
    }
  }

  /** Adding a new key keeps every surviving entry as it was. */
  lemma AddedEntries(t: Table, idx: SequenceNumber, e: Entry)
    requires idx !in t
    ensures forall k :: k in Added(t, idx, e) ==>
              if k == idx then Added(t, idx, e)[k] == e else k in t && Added(t, idx, e)[k] == t[k]
  {
  }

  // ----- sequences of calls -----

  datatype Op = Add(idx: SequenceNumber, entry: Entry) | Erase(idx: SequenceNumber)

  ghost function Apply(t: Table, op: Op): Table {
    match op
    case Add(idx, e) => Added(t, idx, e)
    case Erase(idx) => t - {idx}
  }

  /** The table after a sequence of calls on a new registry. */
  ghost function After(ops: seq<Op>): Table {
    if ops == [] then map[] else Apply(After(ops[..|ops| - 1]), ops[|ops| - 1])
  }

  /** The added keys, in order. */
  ghost function Adds(ops: seq<Op>): seq<SequenceNumber> {
    if ops == [] then []
    else
      var rest, op := Adds(ops[..|ops| - 1]), ops[|ops| - 1];
      if op.Add? then rest + [op.idx] else rest
  }

  ghost predicate Increasing(s: seq<SequenceNumber>) {
    forall i, j :: 0 <= i < j < |s| ==> s[i] < s[j]
  }

  /** `|t|` counts the keys; updating adds at most one. */
  lemma SizeAfterUpdate(t: Table, idx: SequenceNumber, e: Entry)
    ensures |t[idx := e]| == if idx in t then |t| else |t| + 1
  {
    assert t[idx := e].Keys == t.Keys + {idx};
  }

  lemma SizeAfterRemove(t: Table, idx: SequenceNumber)
    ensures |t - {idx}| == if idx in t then |t| - 1 else |t|
  {
    assert (t - {idx}).Keys == t.Keys - {idx};
  }

  /** The registry always holds fewer than 5000 entries, and only keys that were added. */
  lemma {:induction false} AlwaysBelowLimit(ops: seq<Op>)
    ensures |After(ops)| < 5000
    ensures forall k :: k in After(ops) ==> k in Adds(ops)
  {
    if ops != [] {
      var front, op := ops[..|ops| - 1], ops[|ops| - 1];
      AlwaysBelowLimit(front);
      var t := After(front);
      match op
      case Add(idx, e) =>
        SizeAfterUpdate(t, idx, e);
        var t1 := t[idx := e];
        if |t1| == MAX_ENTRIES { SizeAfterRemove(t1, Oldest(t1)); }
      case Erase(idx) => SizeAfterRemove(t, idx);
    }
  }

  /** Keys of the table that are newer than `idx`. */
  ghost function Newer(t: Table, idx: SequenceNumber): set<SequenceNumber> {
    set k | k in t && k > idx
  }

  lemma AddsConcat(a: seq<Op>, op: Op)
    ensures Adds(a + [op]) == if op.Add? then Adds(a) + [op.idx] else Adds(a)
    ensures After(a + [op]) == Apply(After(a), op)
  {
    assert (a + [op])[..|a + [op]| - 1] == a;
  }

  /** An eviction of `idx` needs 4999 newer keys. */
  lemma EvictionNeedsNewer(t: Table, idx: SequenceNumber, k: SequenceNumber, e: Entry)
    requires idx in t && k !in t && |Newer(t, idx)| + 1 < 4999
    ensures idx in Added(t, k, e) && Added(t, k, e)[idx] == t[idx]
  {
    var t1 := t[k := e];
    if IsOldest(t1, idx) { assert t1.Keys == {idx} + Newer(t1, idx); }
    assert IsOldest(t1, idx) ==> |t1| == 1 + |Newer(t1, idx)|;
    SubsetSize(Newer(t1, idx), Newer(t, idx) + {k});
  }

  lemma {:induction false} SubsetSize(a: set<SequenceNumber>, b: set<SequenceNumber>)
    requires a <= b
    ensures |a| <= |b|
  {
    if a != {} {
      var x :| x in a;
      SubsetSize(a - {x}, b - {x});
    }
  }

  /**
   With increasing keys, an entry that was not erased since is still there, unchanged, while fewer than 4999
   later adds have happened.
   */
  lemma {:induction false} RecentEntryStays(before: seq<Op>, idx: SequenceNumber, e: Entry, later: seq<Op>)
    requires Increasing(Adds(before + [Add(idx, e)] + later))
    requires Erase(idx) !in later
    requires |Adds(before + [Add(idx, e)] + later)| - |Adds(before)| - 1 < 4999
    ensures idx in After(before + [Add(idx, e)] + later) && After(before + [Add(idx, e)] + later)[idx] == e
    ensures |Newer(After(before + [Add(idx, e)] + later), idx)| <=
            |Adds(before + [Add(idx, e)] + later)| - |Adds(before)| - 1
    decreases |later|
  {
    var add := Add(idx, e);
    if later == [] {
      assert before + [add] + later == before + [add];
      AddsConcat(before, add);
      AlwaysBelowLimit(before);
      FirstEntry(Adds(before), After(before), idx, e);
    } else {
      var n := |later| - 1;
      var front, op := before + [add] + later[..n], later[n];
      assert before + [add] + later == front + [op];
      AddsConcat(front, op);
      assert Increasing(Adds(front)) by {
        assert forall i :: 0 <= i < |Adds(front)| ==> Adds(front)[i] == Adds(front + [op])[i];
      }
      AddsGrow(before + [add], later[..n]);
      AddsConcat(before, add);
      RecentEntryStays(before, idx, e, later[..n]);
      LaterOp(front, op, idx);
    }
  }

  lemma {:induction false} AddsGrow(a: seq<Op>, b: seq<Op>)
    ensures |Adds(a)| <= |Adds(a + b)|
  {
    if b == [] {
      assert a + b == a;
    } else {
      AddsGrow(a, b[..|b| - 1]);
      assert a + b == (a + b[..|b| - 1]) + [b[|b| - 1]];
      AddsConcat(a + b[..|b| - 1], b[|b| - 1]);
    }
  }

  lemma FirstEntry(adds: seq<SequenceNumber>, t: Table, idx: SequenceNumber, e: Entry)
    requires Increasing(adds + [idx]) && |t| < MAX_ENTRIES && forall k :: k in t ==> k in adds
    ensures idx in Added(t, idx, e) && Added(t, idx, e)[idx] == e
    ensures Newer(Added(t, idx, e), idx) == {}
  {
    forall k | k in adds ensures k < idx {
      var i :| 0 <= i < |adds| && adds[i] == k;
      assert (adds + [idx])[i] < (adds + [idx])[|adds|];
    }
    assert idx !in t;
    SizeAfterUpdate(t, idx, e);
    if |t| + 1 == MAX_ENTRIES {
      assert t != map[];
      var k :| k in t;
      assert k in t[idx := e] && k < idx;
    }
  }

  lemma LaterOp(front: seq<Op>, op: Op, idx: SequenceNumber)
    requires Increasing(Adds(front + [op])) && op != Erase(idx)
    requires idx in After(front) && (op.Add? ==> |Newer(After(front), idx)| + 1 < 4999)
    ensures idx in After(front + [op]) && After(front + [op])[idx] == After(front)[idx]
    ensures |Newer(After(front + [op]), idx)| <= |Newer(After(front), idx)| + if op.Add? then 1 else 0
  {
    AddsConcat(front, op);
    var t, t' := After(front), After(front + [op]);
    match op
    case Add(k, e) =>
      AlwaysBelowLimit(front);
      NewKey(Adds(front), k);
      assert k !in t;
      EvictionNeedsNewer(t, idx, k, e);
      SubsetSize(Newer(t', idx), Newer(t, idx) + {k});
    case Erase(k) =>
      SubsetSize(Newer(t', idx), Newer(t, idx));
  }

  lemma NewKey(adds: seq<SequenceNumber>, k: SequenceNumber)
    requires Increasing(adds + [k])
    ensures forall j :: j in adds ==> j < k
  {
    forall j | j in adds ensures j < k {
      var i :| 0 <= i < |adds| && adds[i] == j;
      assert (adds + [k])[i] < (adds + [k])[|adds|];
    }
  }

  lemma {:induction false} FindAdd(ops: seq<Op>, m: nat) returns (before: seq<Op>, e: Entry, later: seq<Op>)
    requires m < |Adds(ops)|
    ensures ops == before + [Add(Adds(ops)[m], e)] + later && |Adds(before)| == m
  {
    var n := |ops| - 1;
    assert ops[..n] + [ops[n]] == ops;
    AddsConcat(ops[..n], ops[n]);
    if ops[n].Add? && m == |Adds(ops)| - 1 {
      before, e, later := ops[..n], ops[n].entry, [];
    } else {
      before, e, later := FindAdd(ops[..n], m);
      later := later + [ops[n]];
    }
  }

  /** With increasing keys, the m-th key added is in the table, was erased, or was followed by 4999 adds or more. */
  lemma KeptUntilEvicted(ops: seq<Op>, m: nat)
    requires Increasing(Adds(ops)) && m < |Adds(ops)|
    ensures Adds(ops)[m] in After(ops) || Erase(Adds(ops)[m]) in ops || |Adds(ops)| - 1 - m >= 4999
  {
    hide After, Adds;
    var idx := Adds(ops)[m];
    var before, e, later := FindAdd(ops, m);
    if Erase(idx) !in later && |Adds(ops)| - 1 - m < 4999 {
      RecentEntryStays(before, idx, e, later);
    }
  }
}
