/**
 The two arrays that parsing fills. `buffer` receives every option in order; `options[k]` is a copy of the first
 option of index k, and heads a circular doubly linked list through the later ones in the buffer. A link's tag
 marks the seam of the circle.
 */
module OptionStorage {
  import opened OptionParser

  /** An address in one of the arrays. */
  datatype Addr = Head(k: nat) | Buf(i: nat)

  datatype Link = Link(to: Addr, tagged: bool)

  datatype Slot = Empty | Full(opt: Opt)

  datatype Cell = Cell(slot: Slot, next: Link, prev: Link)

  datatype Memory = Memory(options: seq<Cell>, buffer: seq<Cell>)

  predicate Has(m: Memory, a: Addr) {
    match a
    case Head(k) => k < |m.options|
    case Buf(i) => i < |m.buffer|
  }

  function Get(m: Memory, a: Addr): Cell
    requires Has(m, a)
  {
    match a
    case Head(k) => m.options[k]
    case Buf(i) => m.buffer[i]
  }

  function Set(m: Memory, a: Addr, c: Cell): (m': Memory)
    requires Has(m, a)
    ensures |m'.options| == |m.options| && |m'.buffer| == |m.buffer|
    ensures forall b :: Has(m, b) ==> Get(m', b) == if b == a then c else Get(m, b)
  {
    match a
    case Head(k) => m.(options := m.options[k := c])
    case Buf(i) => m.(buffer := m.buffer[i := c])
  }

  /** A cell alone in its circle. */
  function Single(s: Slot, a: Addr): Cell {
    Cell(s, Link(a, true), Link(a, true))
  }

  /** The four assignments that put `a` behind `last` in the circle headed by `first`. */
  function Appended(m: Memory, first: Addr, last: Addr, a: Addr): Memory
    requires Has(m, first) && Has(m, last) && Has(m, a)
  {
    var m1 := Set(m, last, Get(m, last).(next := Link(a, false)));
    var m2 := Set(m1, a, Get(m1, a).(prev := Link(last, false)));
    var m3 := Set(m2, a, Get(m2, a).(next := Link(first, true)));
    Set(m3, first, Get(m3, first).(prev := Link(a, true)))
  }

  const INT_MAX: nat := 0x7fff_ffff

  /** The index of an option's list: the unsigned index of its descriptor, converted to a signed int. */
  function ListIndex(index: Unsigned): int {
    if index <= INT_MAX then index else index - UNSIGNED
  }

  /** The list of that index is inside an array of `length` lists. */
  predicate Inside(index: Unsigned, length: nat) {
    0 <= ListIndex(index) < length
  }

  /** A list is inside the array exactly when its index is, and fits a signed int: no array helps a larger one. */
  lemma {:induction false} InsideIff(index: Unsigned, length: nat)
    ensures Inside(index, length) <==> index < length && index <= INT_MAX
  {
  }

  // ----- what the arrays mean -----

  /** The options of index `k`, in order. */
  function OfIndex(u: Usage, os: seq<Opt>, k: nat): seq<Opt>
    requires Described(u, os)
  {
    if os == [] then []
    else
      var before, o := os[..|os| - 1], os[|os| - 1];
      OfIndex(u, before, k) + if u[o.desc].index == k then [o] else []
  }

  /** Where the list of index `k` keeps them. */
  function Chain(u: Usage, os: seq<Opt>, k: nat): (c: seq<Addr>)
    requires Described(u, os)
    ensures |c| == |OfIndex(u, os, k)|
    ensures c != [] ==> c[0] == Head(k)
  {
    if os == [] then []
    else
      var before, o := os[..|os| - 1], os[|os| - 1];
      var c := Chain(u, before, k);
      c + if u[o.desc].index != k then [] else if c == [] then [Head(k)] else [Buf(|before|)]
  }

  /** The cell at place `j` of the circle `c` that holds `os`, the seam between its last and its first cell. */
  function CellAt(c: seq<Addr>, os: seq<Opt>, j: nat): Cell
    requires j < |c| == |os|
  {
    Cell(Full(os[j]),
         if j + 1 < |c| then Link(c[j + 1], false) else Link(c[0], true),
         if j > 0 then Link(c[j - 1], false) else Link(c[|c| - 1], true))
  }

  /** The cells at `c` form one circle, whatever they hold: an unused option is a circle of its own. */
  ghost predicate Ring(m: Memory, c: seq<Addr>) {
    forall j :: 0 <= j < |c| ==>
      && Has(m, c[j])
      && Get(m, c[j]).next == (if j + 1 < |c| then Link(c[j + 1], false) else Link(c[0], true))
      && Get(m, c[j]).prev == (if j > 0 then Link(c[j - 1], false) else Link(c[|c| - 1], true))
  }

  ghost predicate Linked(m: Memory, c: seq<Addr>, os: seq<Opt>)
    requires |c| == |os|
  {
    forall j :: 0 <= j < |c| ==> Has(m, c[j]) && Get(m, c[j]) == CellAt(c, os, j)
  }

  /** The arrays hold exactly the options of `os`. */
  ghost predicate Holds(u: Usage, m: Memory, os: seq<Opt>) {
    && Described(u, os) && |os| <= |m.buffer|
    && (forall o :: o in os ==> Inside(u[o.desc].index, |m.options|))
    && (forall i :: 0 <= i < |os| ==> m.buffer[i].slot == Full(os[i]))
    && (forall i :: |os| <= i < |m.buffer| ==> m.buffer[i] == Single(Empty, Buf(i)))
    && (forall k :: 0 <= k < |m.options| ==> (m.options[k].slot == Empty <==> Chain(u, os, k) == []))
    && (forall k :: 0 <= k < |m.options| && Chain(u, os, k) == [] ==> m.options[k] == Single(Empty, Head(k)))
    && (forall k :: 0 <= k < |m.options| ==> Linked(m, Chain(u, os, k), OfIndex(u, os, k)))
  }

  /** StoreOptionAction::perform for an option that fits, which becomes the `n`-th of the buffer. */
  function Stored(u: Usage, m: Memory, n: nat, o: Opt): Memory
    requires n < |m.buffer| && o.desc < |u| && Inside(u[o.desc].index, |m.options|)
    requires var head := m.options[u[o.desc].index]; head.slot != Empty ==> Has(m, head.prev.to)
  {
    var k := ListIndex(u[o.desc].index);
    var m' := Set(m, Buf(n), Single(Full(o), Buf(n)));
    if m.options[k].slot != Empty then Appended(m', Head(k), m'.options[k].prev.to, Buf(n))
    else Set(m', Head(k), Single(Full(o), Head(k)))
  }

  // ----- one more option -----

  lemma {:induction false} ChainPlaces(u: Usage, os: seq<Opt>, k: nat, j: nat)
    requires Described(u, os) && j < |Chain(u, os, k)|
    ensures var a := Chain(u, os, k)[j];
            if j == 0 then a == Head(k) else a.Buf? && a.i < |os| && u[os[a.i].desc].index == k
  {
    var before := os[..|os| - 1];
    if j < |Chain(u, before, k)| {
      ChainPlaces(u, before, k, j);
    }
  }

  /** A list visits the buffer upwards, so no cell twice. */
  lemma {:induction false} ChainAscends(u: Usage, os: seq<Opt>, k: nat, i: nat, j: nat)
    requires Described(u, os) && i < j < |Chain(u, os, k)|
    ensures var c := Chain(u, os, k);
            c[i] != c[j]
  {
    var before := os[..|os| - 1];
    ChainPlaces(u, os, k, i);
    ChainPlaces(u, os, k, j);
    if j < |Chain(u, before, k)| {
      ChainAscends(u, before, k, i, j);
    } else {
      ChainPlaces(u, before, k, i);
    }
  }

  lemma {:induction false} ChainGrows(u: Usage, os: seq<Opt>, o: Opt, k: nat)
    requires Described(u, os) && o.desc < |u|
    ensures Described(u, os + [o])
    ensures OfIndex(u, os + [o], k) == OfIndex(u, os, k) + if u[o.desc].index == k then [o] else []
    ensures Chain(u, os + [o], k) == Chain(u, os, k)
              + if u[o.desc].index != k then [] else if Chain(u, os, k) == [] then [Head(k)] else [Buf(|os|)]
  {
    assert (os + [o])[..|os|] == os;
  }

  /** Cells outside the circle do not matter to it. */
  lemma {:induction false} LinkedFrame(m: Memory, m': Memory, c: seq<Addr>, os: seq<Opt>)
    requires |c| == |os| && Linked(m, c, os)
    requires forall j :: 0 <= j < |c| ==> Has(m', c[j]) && Get(m', c[j]) == Get(m, c[j])
    ensures Linked(m', c, os)
  {
  }

  lemma {:induction false} AppendedCells(m: Memory, first: Addr, last: Addr, a: Addr, b: Addr)
    requires Has(m, first) && Has(m, last) && Has(m, a) && Has(m, b) && a != first && a != last
    ensures var m' := Appended(m, first, last, a);
            && |m'.options| == |m.options| && |m'.buffer| == |m.buffer|
            && Get(m', b) == Cell(Get(m, b).slot,
                                  if b == a then Link(first, true)
                                  else if b == last then Link(a, false) else Get(m, b).next,
                                  if b == a then Link(last, false)
                                  else if b == first then Link(a, true) else Get(m, b).prev)
  {
    hide Get, Set;
  }

  lemma {:induction false} AppendLinksAt(m: Memory, c: seq<Addr>, os: seq<Opt>, a: Addr, o: Opt, j: nat)
    requires |c| == |os| > 0 && j <= |c| && Linked(m, c, os)
    requires Has(m, a) && Get(m, a) == Single(Full(o), a) && a !in c
    requires forall i, j :: 0 <= i < j < |c| ==> c[i] != c[j]
    ensures var m' := Appended(m, c[0], c[|c| - 1], a);
            Has(m', (c + [a])[j]) && Get(m', (c + [a])[j]) == CellAt(c + [a], os + [o], j)
  {
    hide Appended, Get;
    assert c[0] in c && c[|c| - 1] in c;
    if j == |c| {
      AppendedCells(m, c[0], c[|c| - 1], a, a);
    } else {
      assert c[j] in c;
      AppendedCells(m, c[0], c[|c| - 1], a, c[j]);
      assert Get(m, c[j]) == CellAt(c, os, j);
      assert j > 0 ==> c[0] != c[j];
      assert j + 1 < |c| ==> c[j] != c[|c| - 1];
    }
  }

  /** Appending a single cell to a circle. */
  lemma {:induction false} AppendLinks(m: Memory, c: seq<Addr>, os: seq<Opt>, a: Addr, o: Opt)
    requires |c| == |os| > 0 && Linked(m, c, os)
    requires Has(m, a) && Get(m, a) == Single(Full(o), a) && a !in c
    requires forall i, j :: 0 <= i < j < |c| ==> c[i] != c[j]
    ensures Linked(Appended(m, c[0], c[|c| - 1], a), c + [a], os + [o])
  {
    hide Appended, Get;
    forall j | 0 <= j < |c + [a]|
      ensures var m' := Appended(m, c[0], c[|c| - 1], a);
              Has(m', (c + [a])[j]) && Get(m', (c + [a])[j]) == CellAt(c + [a], os + [o], j)
    {
      AppendLinksAt(m, c, os, a, o, j);
    }
  }

  /** The last cell of a list, through the tagged link of its head. */
  ghost function LastOf(u: Usage, os: seq<Opt>, k: nat): Addr
    requires Described(u, os) && Chain(u, os, k) != []
  {
    Chain(u, os, k)[|Chain(u, os, k)| - 1]
  }

  lemma {:induction false} HeadKnowsLast(u: Usage, m: Memory, os: seq<Opt>, k: nat)
    requires Holds(u, m, os) && k < |m.options| && m.options[k].slot != Empty
    ensures Chain(u, os, k) != [] && m.options[k].prev == Link(LastOf(u, os, k), true) && Has(m, LastOf(u, os, k))
    ensures LastOf(u, os, k) == Head(k)
         || (LastOf(u, os, k).Buf? && LastOf(u, os, k).i < |os| && u[os[LastOf(u, os, k).i].desc].index == k)
  {
    var c := Chain(u, os, k);
    assert Linked(m, c, OfIndex(u, os, k));
    assert Get(m, c[0]) == m.options[k] == CellAt(c, OfIndex(u, os, k), 0);
    assert Has(m, c[|c| - 1]);
    ChainPlaces(u, os, k, |c| - 1);
  }

  /** The cells that storing an option leaves alone. */
  lemma {:induction false} StoredCells(u: Usage, m: Memory, n: nat, o: Opt, b: Addr)
    requires n < |m.buffer| && o.desc < |u| && Inside(u[o.desc].index, |m.options|) && Has(m, b)
    requires var head := m.options[u[o.desc].index];
             head.slot != Empty ==> Has(m, head.prev.to) && head.prev.to != Buf(n)
    ensures var k, m' := u[o.desc].index, Stored(u, m, n, o);
            && |m'.options| == |m.options| && |m'.buffer| == |m.buffer|
            && Get(m', b).slot
               == (if b == Buf(n) || (b == Head(k) && m.options[k].slot == Empty) then Full(o) else Get(m, b).slot)
            && (b != Buf(n) && b != Head(k) && (m.options[k].slot != Empty ==> b != m.options[k].prev.to) ==>
                  Get(m', b) == Get(m, b))
  {
    var k := u[o.desc].index;
    var m1 := Set(m, Buf(n), Single(Full(o), Buf(n)));
    assert m1.options == m.options;
    if m.options[k].slot != Empty {
      AppendedCells(m1, Head(k), m1.options[k].prev.to, Buf(n), b);
    }
    assert Get(m1, b) == if b == Buf(n) then Single(Full(o), Buf(n)) else Get(m, b);
    hide Appended;
  }

  /** Lists other than that of the new option. */
  lemma {:induction false} OtherList(u: Usage, m: Memory, os: seq<Opt>, o: Opt, k: nat)
    requires Holds(u, m, os) && |os| < |m.buffer| && o.desc < |u| && Inside(u[o.desc].index, |m.options|)
    requires k < |m.options| && k != u[o.desc].index
    requires var head := m.options[u[o.desc].index];
             head.slot != Empty ==> Has(m, head.prev.to) && head.prev.to != Buf(|os|)
    ensures Linked(Stored(u, m, |os|, o), Chain(u, os, k), OfIndex(u, os, k))
  {
    var m', c := Stored(u, m, |os|, o), Chain(u, os, k);
    var own := u[o.desc].index;
    assert Linked(m, c, OfIndex(u, os, k));
    if m.options[own].slot != Empty {
      HeadKnowsLast(u, m, os, own);
    }
    hide Stored, Holds, Chain, OfIndex, Get, LastOf;
    forall j | 0 <= j < |c|
      ensures Has(m', c[j]) && Get(m', c[j]) == Get(m, c[j])
    {
      ChainPlaces(u, os, k, j);
      StoredCells(u, m, |os|, o, c[j]);
    }
    LinkedFrame(m, m', c, OfIndex(u, os, k));
  }

  /** The list of the new option. */
  lemma {:induction false} OwnList(u: Usage, m: Memory, os: seq<Opt>, o: Opt)
    requires Holds(u, m, os) && |os| < |m.buffer| && o.desc < |u| && Inside(u[o.desc].index, |m.options|)
    requires m.options[u[o.desc].index].slot != Empty
    ensures Has(m, m.options[u[o.desc].index].prev.to) && Described(u, os + [o])
    ensures var k := u[o.desc].index;
            Linked(Stored(u, m, |os|, o), Chain(u, os + [o], k), OfIndex(u, os + [o], k))
  {
    var k := u[o.desc].index;
    var c, n := Chain(u, os, k), Buf(|os|);
    var m1 := Set(m, n, Single(Full(o), n));
    HeadKnowsLast(u, m, os, k);
    ChainGrows(u, os, o, k);
    assert Linked(m, c, OfIndex(u, os, k));
    assert Stored(u, m, |os|, o) == Appended(m1, Head(k), LastOf(u, os, k), n);
    hide Holds, Stored, Appended, Chain, OfIndex;
    forall j | 0 <= j < |c|
      ensures c[j] != n
    {
      ChainPlaces(u, os, k, j);
    }
    LinkedFrame(m, m1, c, OfIndex(u, os, k));
    forall i, j | 0 <= i < j < |c|
      ensures c[i] != c[j]
    {
      ChainAscends(u, os, k, i, j);
    }
    AppendLinks(m1, c, OfIndex(u, os, k), n, o);
  }

  lemma {:induction false} NewList(u: Usage, m: Memory, os: seq<Opt>, o: Opt)
    requires Holds(u, m, os) && |os| < |m.buffer| && o.desc < |u| && Inside(u[o.desc].index, |m.options|)
    requires m.options[u[o.desc].index].slot == Empty
    ensures Described(u, os + [o])
    ensures var k := u[o.desc].index;
            Linked(Stored(u, m, |os|, o), Chain(u, os + [o], k), OfIndex(u, os + [o], k))
  {
    var k := u[o.desc].index;
    ChainGrows(u, os, o, k);
    assert Chain(u, os, k) == [];
    hide Holds, Chain, OfIndex;
    assert Get(Stored(u, m, |os|, o), Head(k)) == Single(Full(o), Head(k));
  }

  /** A place of the list of index `k`, and none of the free slots. */
  ghost predicate OldPlace(os: seq<Opt>, k: nat, a: Addr) {
    a == Head(k) || (a.Buf? && a.i < |os|)
  }

  lemma {:induction false} RoomBehindLast(u: Usage, m: Memory, os: seq<Opt>, k: nat)
    requires Holds(u, m, os) && k < |m.options|
    ensures m.options[k].slot != Empty ==> Has(m, m.options[k].prev.to) && OldPlace(os, k, m.options[k].prev.to)
  {
    if m.options[k].slot != Empty {
      HeadKnowsLast(u, m, os, k);
    }
  }

  lemma {:induction false} StoreKeepsLists(u: Usage, m: Memory, os: seq<Opt>, o: Opt, k: nat)
    requires Holds(u, m, os) && |os| < |m.buffer| && o.desc < |u| && Inside(u[o.desc].index, |m.options|)
    requires k < |m.options|
    requires var head := m.options[u[o.desc].index];
             head.slot != Empty ==> Has(m, head.prev.to) && OldPlace(os, u[o.desc].index, head.prev.to)
    ensures Described(u, os + [o])
    ensures Linked(Stored(u, m, |os|, o), Chain(u, os + [o], k), OfIndex(u, os + [o], k))
    ensures Stored(u, m, |os|, o).options[k].slot == Empty <==> Chain(u, os + [o], k) == []
    ensures Chain(u, os + [o], k) == [] ==> Stored(u, m, |os|, o).options[k] == Single(Empty, Head(k))
  {
    hide Holds, Stored, Chain, OfIndex, Linked;
    HoldsAt(u, m, os, k);
    ChainGrows(u, os, o, k);
    StoredCells(u, m, |os|, o, Head(k));
    if k != u[o.desc].index {
      OtherList(u, m, os, o, k);
      assert Chain(u, os, k) + [] == Chain(u, os, k) && OfIndex(u, os, k) + [] == OfIndex(u, os, k);
    } else if m.options[k].slot == Empty {
      NewList(u, m, os, o);
    } else {
      OwnList(u, m, os, o);
    }
  }

  lemma {:induction false} HoldsAt(u: Usage, m: Memory, os: seq<Opt>, k: nat)
    requires Holds(u, m, os) && k < |m.options|
    ensures Described(u, os)
    ensures m.options[k].slot == Empty <==> Chain(u, os, k) == []
    ensures Chain(u, os, k) == [] ==> m.options[k] == Single(Empty, Head(k))
  {
    hide Chain, OfIndex, Linked;
  }

  /** Storing one more option. */
  lemma {:induction false} StoreKeeps(u: Usage, m: Memory, os: seq<Opt>, o: Opt)
    requires Holds(u, m, os) && |os| < |m.buffer| && o.desc < |u| && Inside(u[o.desc].index, |m.options|)
    ensures var head := m.options[u[o.desc].index]; head.slot != Empty ==> Has(m, head.prev.to)
    ensures |Stored(u, m, |os|, o).options| == |m.options| && |Stored(u, m, |os|, o).buffer| == |m.buffer|
    ensures Holds(u, Stored(u, m, |os|, o), os + [o])
  {
    RoomBehindLast(u, m, os, u[o.desc].index);
    var m' := Stored(u, m, |os|, o);
    StoredCells(u, m, |os|, o, Buf(|os|));
    hide Stored, Chain, OfIndex, Linked;
    forall i | 0 <= i < |m.buffer|
      ensures m'.buffer[i].slot == if i == |os| then Full(o) else m.buffer[i].slot
      ensures i > |os| ==> m'.buffer[i] == m.buffer[i]
    {
      StoredCells(u, m, |os|, o, Buf(i));
    }
    forall k | 0 <= k < |m.options|
      ensures Described(u, os + [o])
      ensures Linked(m', Chain(u, os + [o], k), OfIndex(u, os + [o], k))
      ensures m'.options[k].slot == Empty <==> Chain(u, os + [o], k) == []
      ensures Chain(u, os + [o], k) == [] ==> m'.options[k] == Single(Empty, Head(k))
    {
      StoreKeepsLists(u, m, os, o, k);
    }
  }

  /** Fresh arrays hold nothing. */
  lemma {:induction false} FreshHolds(u: Usage, m: Memory)
    requires forall i :: 0 <= i < |m.buffer| ==> m.buffer[i] == Single(Empty, Buf(i))
    requires forall k :: 0 <= k < |m.options| ==> m.options[k] == Single(Empty, Head(k))
    ensures Holds(u, m, [])
  {
  }

  /** The circle of `options[k]`: its list, or the unused option alone. */
  ghost function RingOf(u: Usage, os: seq<Opt>, k: nat): (c: seq<Addr>)
    requires Described(u, os)
    ensures |c| > 0 && c[0] == Head(k)
  {
    if Chain(u, os, k) == [] then [Head(k)] else Chain(u, os, k)
  }

  lemma {:induction false} LinkedRing(m: Memory, c: seq<Addr>, os: seq<Opt>)
    requires |c| == |os| && Linked(m, c, os)
    ensures Ring(m, c)
  {
    hide Get;
  }

  lemma {:induction false} HeldRing(u: Usage, m: Memory, os: seq<Opt>, k: nat)
    requires Holds(u, m, os) && k < |m.options|
    ensures Ring(m, RingOf(u, os, k))
    ensures |OfIndex(u, os, k)| == |RingOf(u, os, k)| - if m.options[k].slot == Empty then 1 else 0
  {
    assert Chain(u, os, k) == [] ==> m.options[k] == Single(Empty, Head(k));
    assert m.options[k].slot == Empty <==> Chain(u, os, k) == [];
    assert Linked(m, Chain(u, os, k), OfIndex(u, os, k));
    assert |Chain(u, os, k)| == |OfIndex(u, os, k)|;
    hide Holds, OfIndex, Chain, Linked;
    if Chain(u, os, k) != [] {
      LinkedRing(m, Chain(u, os, k), OfIndex(u, os, k));
    } else {
      assert RingOf(u, os, k) == [Head(k)];
      assert Get(m, Head(k)) == Single(Empty, Head(k));
    }
  }
}
