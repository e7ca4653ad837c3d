/** What is done with each option of a vector: the sizing pass counts it, the storing pass stores it. */
module OptionActions {
  import opened OptionParser
  import opened OptionStorage

  /** No more options than fit a signed int. */
  const LIMIT: nat := 0x7fffffff

  // ----- what the actions do, on values -----

  /** The state of an action: what the counting one counts, or what the storing one has stored. */
  datatype Tally = Tally(counting: bool, max: nat, os: seq<Opt>, bufmax: int)

  function Performed(t: Tally, o: Opt): (Tally, bool) {
    if t.counting then
      if t.max == LIMIT then (t, false) else (t.(max := t.max + 1), true)
    else if t.bufmax < 0 || |t.os| < t.bufmax then
      if |t.os| == LIMIT then (t, false) else (t.(os := t.os + [o]), true)
    else (t, true)
  }

  /** The options are performed in order until one is refused. */
  function PerformedAll(t: Tally, os: seq<Opt>): (Tally, bool)
    decreases |os|
  {
    if os == [] then (t, true)
    else
      var (t', ok) := Performed(t, os[0]);
      if ok then PerformedAll(t', os[1..]) else (t', false)
  }

  /** The option refused, if any, was given a separate argument. */
  predicate RefusedWithArg(t: Tally, os: seq<Opt>)
    decreases |os|
  {
    os != [] &&
    var (t', ok) := Performed(t, os[0]);
    if ok then RefusedWithArg(t', os[1..]) else os[0].arg.Detached?
  }

  lemma {:induction false} RefusedIsRefused(t: Tally, os: seq<Opt>)
    ensures RefusedWithArg(t, os) ==> !PerformedAll(t, os).1
    decreases |os|
  {
    if os != [] {
      RefusedIsRefused(Performed(t, os[0]).0, os[1..]);
    }
  }

  lemma {:induction false} PerformedConcat(t: Tally, a: seq<Opt>, b: seq<Opt>)
    ensures PerformedAll(t, a + b)
         == if PerformedAll(t, a).1 then PerformedAll(PerformedAll(t, a).0, b) else PerformedAll(t, a)
    decreases |a|
  {
    if a == [] {
      assert a + b == b;
    } else {
      assert (a + b)[1..] == a[1..] + b;
      PerformedConcat(Performed(t, a[0]).0, a[1..], b);
    }
  }

  lemma {:induction false} PerformedBound(t: Tally, os: seq<Opt>)
    ensures |PerformedAll(t, os).0.os| <= |t.os| + |os|
    ensures PerformedAll(t, os).0.counting == t.counting && PerformedAll(t, os).0.bufmax == t.bufmax
    decreases |os|
  {
    if os != [] {
      PerformedBound(Performed(t, os[0]).0, os[1..]);
    }
  }

  function Min(a: int, b: int): int { if a <= b then a else b }

  /** Counting stops at the limit. */
  lemma {:induction false} CountedAll(t: Tally, os: seq<Opt>)
    requires t.counting && t.max <= LIMIT
    ensures PerformedAll(t, os) == (t.(max := Min(t.max + |os|, 0x7fff_ffff)), t.max + |os| <= 0x7fff_ffff)
    decreases |os|
  {
    if os != [] && t.max < LIMIT {
      CountedAll(t.(max := t.max + 1), os[1..]);
    }
  }

  /** How many options an action has room for in all. */
  function Capacity(t: Tally): nat {
    if t.bufmax < 0 then LIMIT else Min(t.bufmax, LIMIT)
  }

  /** Storing keeps the first options that there is room for. */
  lemma {:induction false} StoredAll(t: Tally, os: seq<Opt>)
    requires !t.counting && t.bufmax <= LIMIT
    ensures var n := Min(|os|, if |t.os| <= Capacity(t) then Capacity(t) - |t.os| else 0);
            |t.os| <= LIMIT ==>
              PerformedAll(t, os) == (t.(os := t.os + os[..n]), t.bufmax >= 0 || |t.os| + |os| <= LIMIT)
    decreases |os|
  {
    var n := Min(|os|, if |t.os| <= Capacity(t) then Capacity(t) - |t.os| else 0);
    if n == 0 {
      assert t.os + os[..0] == t.os;
    }
    if os != [] && |t.os| <= LIMIT {
      if n > 0 {
        StoredAll(t.(os := t.os + [os[0]]), os[1..]);
        assert t.os + [os[0]] + os[1..][..n - 1] == t.os + os[..n];
      } else if t.bufmax >= 0 {
        StoredAll(t, os[1..]);
      }
    }
  }

  // ----- the actions -----

  lemma {:induction false} Place(m: Memory, c: seq<Addr>, j: nat)
    requires j < |c| && Ring(m, c)
    ensures Has(m, c[j])
    ensures Get(m, c[j]).next == if j + 1 < |c| then Link(c[j + 1], false) else Link(c[0], true)
    ensures Get(m, c[j]).prev == if j > 0 then Link(c[j - 1], false) else Link(c[|c| - 1], true)
  {
  }

  /** Storing an option, as the assignments that do it. */
  lemma {:induction false} StoredByParts(u: Usage, m: Memory, os: seq<Opt>, o: Opt)
    requires Holds(u, m, os) && |os| < |m.buffer| && o.desc < |u| && Inside(u[o.desc].index, |m.options|)
    ensures var head := m.options[u[o.desc].index];
            head.slot != Empty ==> Has(m, head.prev.to)
    ensures Holds(u, Stored(u, m, |os|, o), os + [o])
    ensures var k, m1 := u[o.desc].index, Set(m, Buf(|os|), Single(Full(o), Buf(|os|)));
            var c := Chain(u, os, k);
            if m.options[k].slot == Empty then Stored(u, m, |os|, o) == Set(m1, Head(k), Single(Full(o), Head(k)))
            else
              && |c| > 0 && c[0] == Head(k) && Ring(m1, c) && Has(m1, c[|c| - 1])
              && Stored(u, m, |os|, o) == Appended(m1, Head(k), c[|c| - 1], Buf(|os|))
  {
    StoreKeeps(u, m, os, o);
    var k, m1 := u[o.desc].index, Set(m, Buf(|os|), Single(Full(o), Buf(|os|)));
    var c := Chain(u, os, k);
    if m.options[k].slot != Empty {
      HeadKnowsLast(u, m, os, k);
      assert Linked(m, c, OfIndex(u, os, k));
      hide Holds, Chain, OfIndex, Linked, Ring, Appended;
      LinkedRing(m, c, OfIndex(u, os, k));
      forall j | 0 <= j < |c|
        ensures c[j] != Buf(|os|) && Has(m1, c[j])
      {
        ChainPlaces(u, os, k, j);
        Place(m, c, j);
      }
      LinkedFrame(m, m1, c, OfIndex(u, os, k));
      LinkedRing(m1, c, OfIndex(u, os, k));
      Place(m1, c, |c| - 1);
    }
  }

  class Action {
    const counting: bool
    var bufferMax: nat
    const options: array<Cell>
    const buffer: array<Cell>
    const bufmax: int
    var opCount: nat
    ghost var os: seq<Opt>

    ghost function State(): Tally
      reads this
    {
      Tally(counting, bufferMax, os, bufmax)
    }

    ghost function Arrays(): Memory
      reads this, options, buffer
    {
      Memory(options[..], buffer[..])
    }

    ghost predicate Valid(u: Usage)
      reads this, options, buffer
    {
      && options != buffer
      && (counting ==> bufferMax <= LIMIT)
      && (!counting ==> Holds(u, Arrays(), os) && opCount == |os| <= LIMIT && bufmax <= buffer.Length)
    }

    /** The option has a list. */
    ghost predicate Indexed(u: Usage, o: Opt)
    {
      o.desc < |u| && (!counting ==> Inside(u[o.desc].index, options.Length))
    }

    /** `n` more options stay inside the buffer, or the limit does. */
    ghost predicate Room(n: nat)
      reads this
    {
      counting || bufmax >= 0 || LIMIT <= buffer.Length || |os| + n <= buffer.Length
    }

    constructor Count(max: nat)
      requires max <= LIMIT
      ensures fresh(options) && fresh(buffer) && options != buffer
      ensures State() == Tally(true, max, [], -1)
    {
      counting, bufferMax, bufmax, opCount, os := true, max, -1, 0, [];
      options := new Cell[0];
      buffer := new Cell[0];
      new;
    }

    /** Starts at the first empty slot of the buffer. */
    constructor Store(ghost u: Usage, options: array<Cell>, buffer: array<Cell>, bufmax: int, ghost os: seq<Opt>)
      requires options != buffer && Holds(u, Memory(options[..], buffer[..]), os) && |os| <= LIMIT
      requires bufmax <= buffer.Length && (bufmax < 0 ==> |os| < buffer.Length) && (bufmax >= 0 ==> |os| <= bufmax)
      ensures this.options == options && this.buffer == buffer && Valid(u)
      ensures State() == Tally(false, 0, os, bufmax)
    {
      assert forall b :: 0 <= b < |os| ==> buffer[..][b].slot == Full(os[b]);
      var i := 0;
      while (bufmax < 0 || i < bufmax) && buffer[i].slot != Empty
        invariant 0 <= i <= |os|
        decreases |os| - i
      {
        assert buffer[..][i].slot != Empty;
        i := i + 1;
      }
      counting, bufferMax, this.options, this.buffer, this.bufmax, opCount, this.os :=
        false, 0, options, buffer, bufmax, i, os;
    }

    function Load(a: Addr): (cell: Cell)
      requires Has(Memory(options[..], buffer[..]), a)
      reads options, buffer
      ensures cell == Get(Memory(options[..], buffer[..]), a)
    {
      match a
      case Head(k) => options[k]
      case Buf(i) => buffer[i]
    }

    /** Backwards to the tagged link, from any option of a list; an unused one is its own first. */
    method First(a: Addr, ghost c: seq<Addr>, ghost j: nat) returns (first: Addr)
      requires j < |c| && a == c[j] && Ring(Arrays(), c)
      ensures first == c[0]
    {
      hide Ring, Get, Has;
      first := a;
      ghost var at: nat := j;
      Place(Arrays(), c, at);
      while !Load(first).prev.tagged
        invariant at < |c| && first == c[at]
        invariant Has(Arrays(), c[at])
        invariant Get(Arrays(), c[at]).prev == if at > 0 then Link(c[at - 1], false) else Link(c[|c| - 1], true)
        decreases at
      {
        first := Load(first).prev.to;
        at := at - 1;
        Place(Arrays(), c, at);
      }
    }

    method Last(a: Addr, ghost c: seq<Addr>, ghost j: nat) returns (last: Addr)
      requires j < |c| && a == c[j] && Ring(Arrays(), c)
      ensures last == c[|c| - 1]
    {
      hide Ring, Get, Has;
      var first := First(a, c, j);
      Place(Arrays(), c, 0);
      last := Load(first).prev.to;
    }

    /** The number of options in the list of `a`, 0 for an unused one. */
    method Length(a: Addr, ghost c: seq<Addr>, ghost j: nat) returns (n: nat)
      requires j < |c| && a == c[j] && Ring(Arrays(), c)
      ensures Has(Arrays(), a) && n == |c| - if Get(Arrays(), a).slot == Empty then 1 else 0
    {
      hide Ring, Get, Has;
      Place(Arrays(), c, j);
      n := if Load(a).slot == Empty then 0 else 1;
      var p := First(a, c, j);
      ghost var at := 0;
      Place(Arrays(), c, 0);
      while !Load(p).next.tagged
        invariant 0 <= at < |c| && p == c[at] && n == at + if Get(Arrays(), a).slot == Empty then 0 else 1
        invariant Has(Arrays(), p)
        invariant Get(Arrays(), p).next == if at + 1 < |c| then Link(c[at + 1], false) else Link(c[0], true)
        decreases |c| - at
      {
        p := Load(p).next.to;
        n := n + 1;
        at := at + 1;
        Place(Arrays(), c, at);
      }
    }

    /** How often the options of index `k` occur, counted through the list of `options[k]`. */
    method Occurrences(ghost u: Usage, k: nat) returns (n: nat)
      requires Valid(u) && !counting && k < options.Length
      ensures n == |OfIndex(u, os, k)|
    {
      hide Ring, OfIndex, Chain, Linked;
      HeldRing(u, Arrays(), os, k);
      n := Length(Head(k), RingOf(u, os, k), 0);
    }

    method Write(a: Addr, cell: Cell)
      requires options != buffer && Has(Arrays(), a)
      modifies options, buffer
      ensures Arrays() == Set(old(Arrays()), a, cell)
    {
      match a {
        case Head(k) => options[k] := cell;
        case Buf(i) => buffer[i] := cell;
      }
    }

    /** `added` becomes the last option of the list of `a`, whichever of its options `a` is. */
    method Append(a: Addr, added: Addr, ghost c: seq<Addr>, ghost j: nat)
      requires options != buffer && Has(Arrays(), added)
      requires j < |c| && a == c[j] && Ring(Arrays(), c)
      modifies options, buffer
      ensures Has(old(Arrays()), c[0]) && Has(old(Arrays()), c[|c| - 1])
      ensures Arrays() == Appended(old(Arrays()), c[0], c[|c| - 1], added)
    {
      hide Ring, Set;
      Place(Arrays(), c, 0);
      Place(Arrays(), c, |c| - 1);
      var p := Last(a, c, j);
      var f := First(a, c, j);
      Write(p, Load(p).(next := Link(added, false)));
      Write(added, Load(added).(prev := Link(p, false)));
      Write(added, Load(added).(next := Link(f, true)));
      Write(f, Load(f).(prev := Link(added, true)));
    }

    /** An option that fits is put in the next slot of the buffer and at the end of its list. */
    method Put(u: Usage, o: Opt)
      requires Valid(u) && !counting && Indexed(u, o) && opCount < buffer.Length
      modifies options, buffer
      ensures Holds(u, Arrays(), os + [o])
    {
      ghost var before := Arrays();
      var k, n := ListIndex(u[o.desc].index), opCount;
      StoredByParts(u, before, os, o);
      ghost var c := Chain(u, os, k);
      hide Holds, Chain, OfIndex, Linked, Ring, Stored, Appended;
      buffer[n] := Single(Full(o), Buf(n));
      assert Arrays() == Set(before, Buf(n), Single(Full(o), Buf(n)));
      if options[k].slot != Empty {
        Append(Head(k), Buf(n), c, 0);
      } else {
        options[k] := Single(Full(o), Head(k));
        assert Arrays() == Stored(u, before, n, o);
      }
    }

    method Perform(u: Usage, o: Opt) returns (ok: bool)
      requires Valid(u) && Indexed(u, o) && Room(1)
      modifies this, options, buffer
      ensures Valid(u) && (State(), ok) == Performed(old(State()), o)
    {
      if counting {
        if bufferMax == LIMIT {
          return false;
        }
        bufferMax := bufferMax + 1;
        return true;
      }
      if bufmax < 0 || opCount < bufmax {
        if opCount == LIMIT {
          return false;
        }
        Put(u, o);
        opCount := opCount + 1;
        os := os + [o];
      }
      ok := true;
    }
  }
}
