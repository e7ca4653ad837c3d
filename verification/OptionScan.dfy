/**
 Both modes of the option parser. In GNU mode the options need not come first: a pass moves them, and the separate
 arguments they use up, in front of the non-option arguments, so that a later pass finds them there.
 */
module OptionScan {
  import opened OptionParser

  /**
   `ops`: the elements that are options or used up by one, with a final `--`; `nonops`: the non-option arguments
   between them; `tail`: what was not looked at.
   */
  datatype Scanned = Scanned(options: seq<Opt>, fatal: bool, ops: seq<string>, nonops: seq<string>, tail: seq<string>)

  ghost function Scan(gnu: bool, u: Usage, f: Flags, msg: bool, args: seq<string>, i: nat): Scanned
    requires i <= |args|
    decreases |args| - i
  {
    if i == |args| then Scanned([], false, [], [], [])
    else if !IsOption(args[i]) then
      if !gnu then Scanned([], false, [], [], args[i..])
      else
        var r := Scan(gnu, u, f, msg, args, i + 1);
        r.(nonops := [args[i]] + r.nonops)
    else if args[i] == "--" then Scanned([], false, ["--"], [], args[i + 1..])
    else
      var e := Element(u, f, msg, args, i);
      if e.fatal then Scanned(e.options, true, [], [], args[i..])
      else
        ElementNext(u, f, msg, args, i);
        var r := Scan(gnu, u, f, msg, args, e.next);
        r.(options := e.options + r.options, ops := args[i..e.next] + r.ops)
  }

  /** The vector as a pass leaves it. */
  ghost function Order(r: Scanned): seq<string> {
    r.ops + r.nonops + r.tail
  }

  // ----- POSIX mode is what Parse says -----

  lemma {:induction false} PosixScan(u: Usage, f: Flags, msg: bool, args: seq<string>, i: nat)
    requires i <= |args|
    ensures var r, p := Scan(false, u, f, msg, args, i), Parse(u, f, msg, args, i);
            && r.options == p.options && r.fatal == p.fatal && r.nonops == [] && (!p.fatal ==> i + |r.ops| == p.rest)
    ensures Order(Scan(false, u, f, msg, args, i)) == args[i..]
    decreases |args| - i
  {
    hide Element, Scan, Parse;
    if i == |args| || !IsOption(args[i]) || args[i] == "--" {
      ParseStops(u, f, msg, args, i);
      PosixStops(u, f, msg, args, i);
    } else {
      ParseElement(u, f, msg, args, i);
      var e := Element(u, f, msg, args, i);
      if e.fatal {
        ScanIllegal(false, u, f, msg, args, i);
      } else {
        ScanElement(false, u, f, msg, args, i);
        PosixScan(u, f, msg, args, e.next);
        assert args[i..e.next] + args[e.next..] == args[i..];
      }
    }
  }

  lemma {:induction false} PosixStops(u: Usage, f: Flags, msg: bool, args: seq<string>, i: nat)
    requires i <= |args| && (i == |args| || !IsOption(args[i]) || args[i] == "--")
    ensures var r := Scan(false, u, f, msg, args, i);
            && r.options == [] && !r.fatal && r.nonops == [] && Order(r) == args[i..]
            && |r.ops| == if i < |args| && IsOption(args[i]) then 1 else 0
  {
  }

  lemma {:induction false} ScanIllegal(gnu: bool, u: Usage, f: Flags, msg: bool, args: seq<string>, i: nat)
    requires i < |args| && IsOption(args[i]) && args[i] != "--" && Element(u, f, msg, args, i).fatal
    ensures Scan(gnu, u, f, msg, args, i) == Scanned(Element(u, f, msg, args, i).options, true, [], [], args[i..])
    ensures Order(Scan(gnu, u, f, msg, args, i)) == args[i..]
  {
    hide Element;
  }

  lemma {:induction false} ScanPassesOver(u: Usage, f: Flags, msg: bool, args: seq<string>, i: nat)
    requires i < |args| && !IsOption(args[i])
    ensures var r, more := Scan(true, u, f, msg, args, i), Scan(true, u, f, msg, args, i + 1);
            r == more.(nonops := [args[i]] + more.nonops)
  {
  }

  lemma {:induction false} Regroup(front: seq<string>, r: Scanned)
    ensures front + r.ops + r.nonops + r.tail == front + Order(r)
  {
  }

  lemma {:induction false} ScanElement(gnu: bool, u: Usage, f: Flags, msg: bool, args: seq<string>, i: nat)
    requires i < |args| && IsOption(args[i]) && args[i] != "--" && !Element(u, f, msg, args, i).fatal
    ensures var e := Element(u, f, msg, args, i);
            && i < e.next <= |args|
            && var r, r1 := Scan(gnu, u, f, msg, args, i), Scan(gnu, u, f, msg, args, e.next);
            && r == r1.(options := e.options + r1.options, ops := args[i..e.next] + r1.ops)
            && Order(r) == args[i..e.next] + Order(r1)
  {
    hide Element;
    ElementNext(u, f, msg, args, i);
    Regroup(args[i..Element(u, f, msg, args, i).next], Scan(gnu, u, f, msg, args, Element(u, f, msg, args, i).next));
  }

  // ----- a pass only moves elements -----

  lemma {:induction false} MovedIn(x: string, a: seq<string>, b: seq<string>, c: seq<string>)
    ensures multiset(a + ([x] + b) + c) == multiset([x] + (a + b + c))
  {
  }

  /** The vector is permuted, whatever happens. */
  lemma {:induction false} Moved(gnu: bool, u: Usage, f: Flags, msg: bool, args: seq<string>, i: nat)
    requires i <= |args|
    ensures multiset(Order(Scan(gnu, u, f, msg, args, i))) == multiset(args[i..])
    decreases |args| - i
  {
    hide Element;
    if i < |args| {
      assert args[i..] == [args[i]] + args[i + 1..];
      if !IsOption(args[i]) {
        if gnu {
          var r := Scan(gnu, u, f, msg, args, i + 1);
          Moved(gnu, u, f, msg, args, i + 1);
          MovedIn(args[i], r.ops, r.nonops, r.tail);
        }
      } else if args[i] != "--" {
        ElementNext(u, f, msg, args, i);
        var e := Element(u, f, msg, args, i);
        if !e.fatal {
          Moved(gnu, u, f, msg, args, e.next);
          Regroup(args[i..e.next], Scan(gnu, u, f, msg, args, e.next));
          assert args[i..] == args[i..e.next] + args[e.next..];
        }
      }
    }
  }

  lemma {:induction false} NonopsAreNone(gnu: bool, u: Usage, f: Flags, msg: bool, args: seq<string>, i: nat)
    requires i <= |args|
    ensures NoOptions(Scan(gnu, u, f, msg, args, i).nonops)
    decreases |args| - i
  {
    hide Element;
    if i < |args| {
      if !IsOption(args[i]) {
        NonopsAreNone(gnu, u, f, msg, args, i + 1);
      } else if args[i] != "--" {
        ElementNext(u, f, msg, args, i);
        var e := Element(u, f, msg, args, i);
        if !e.fatal {
          NonopsAreNone(gnu, u, f, msg, args, e.next);
        }
      }
    }
  }

  predicate NoOptions(s: seq<string>) {
    forall j :: 0 <= j < |s| ==> !IsOption(s[j])
  }

  // ----- a second pass finds the same options -----

  /** The option at `n` goes on without a separate argument. */
  ghost predicate StepsOver(u: Usage, f: Flags, msg: bool, b: seq<string>, n: nat)
    requires n < |b| && IsOption(b[n])
  {
    !Element(u, f, msg, b, n).fatal && Element(u, f, msg, b, n).next == n + 1
  }

  /** Each parameter of `args` that used no separate argument uses none in `b`, where they follow from `n` on. */
  ghost predicate Kept(u: Usage, f: Flags, msg: bool, args: seq<string>, i: nat, b: seq<string>, n: nat)
    requires i <= |args|
    decreases |args| - i
  {
    if i == |args| then true
    else if !IsOption(args[i]) then Kept(u, f, msg, args, i + 1, b, n)
    else if args[i] == "--" || Element(u, f, msg, args, i).fatal then true
    else
      ElementNext(u, f, msg, args, i);
      var e := Element(u, f, msg, args, i);
      && (e.next == i + 1 ==> n < |b| && IsOption(b[n]) && StepsOver(u, f, msg, b, n))
      && Kept(u, f, msg, args, e.next, b, n + (e.next - i))
  }

  /** What a parameter without a separate argument means in another place: the same, or visibly something else. */
  ghost predicate Alike(e: Step, e': Step, n: nat) {
    if e'.fatal then |e'.options| < |e.options|
    else |e'.options| == |e.options| && (e'.next == n + 1 <==> e'.options == e.options)
  }

  lemma {:induction false} MovedGroup(u: Usage, msg: bool, a: seq<string>, i: nat, b: seq<string>, n: nat, j: nat)
    requires i < |a| && n < |b| && a[i] == b[n] && j <= |a[i]|
    requires var e := ShortGroup(u, msg, a, i, j); !e.fatal && e.next == i + 1
    ensures Alike(ShortGroup(u, msg, a, i, j), ShortGroup(u, msg, b, n, j), n)
    decreases |a[i]| - j
  {
    if j < |a[i]| {
      var d := OrDummy(u, Find(u, Short(a[i][j]), 0));
      var arg, name := ShortArg(a, i, j), a[i][j..];
      if d == |u| {
        MovedGroup(u, msg, a, i, b, n, j + 1);
      } else if j + 1 < |a[i]| {
        if u[d].check(name, arg, msg) != ArgOk {
          MovedGroup(u, msg, a, i, b, n, j + 1);
          var more, more' := ShortGroup(u, msg, a, i, j + 1), ShortGroup(u, msg, b, n, j + 1);
          var o := [Opt(d, name, NoArg)];
          assert (o + more.options)[1..] == more.options && (o + more'.options)[1..] == more'.options;
        }
      } else {
        assert ShortGroup(u, msg, a, i, j + 1).options == [] && ShortGroup(u, msg, b, n, j + 1).options == [];
        assert ShortGroup(u, msg, a, i, j).options == [Opt(d, name, NoArg)];
      }
    }
  }

  lemma {:induction false} MovedLong(
    u: Usage, msg: bool, a: seq<string>, i: nat, b: seq<string>, n: nat, j: nat, d: nat)
    requires i < |a| && n < |b| && a[i] == b[n] && j <= |a[i]| && d <= |u|
    requires var e := LongOption(u, msg, a, i, j, d); !e.fatal && e.next == i + 1
    ensures Alike(LongOption(u, msg, a, i, j, d), LongOption(u, msg, b, n, j, d), n)
  {
  }

  lemma {:induction false} MovedElement(u: Usage, f: Flags, msg: bool, a: seq<string>, i: nat, b: seq<string>, n: nat)
    requires i < |a| && n < |b| && a[i] == b[n] && IsOption(a[i])
    requires var e := Element(u, f, msg, a, i); !e.fatal && e.next == i + 1
    ensures Alike(Element(u, f, msg, a, i), Element(u, f, msg, b, n), n)
  {
    hide ShortGroup, LongOption, LongIndex, Find;
    var s := a[i];
    if s[1] != '-' && !(f.singleMinusLongopt && LongIndex(u, f, s[1..]) < |u|) {
      MovedGroup(u, msg, a, i, b, n, 1);
    } else {
      var j := if s[1] == '-' then 2 else 1;
      var d := if s[1] == '-' then OrDummy(u, LongIndex(u, f, s[2..])) else LongIndex(u, f, s[1..]);
      MovedLong(u, msg, a, i, b, n, j, d);
    }
  }

  /** Non-option arguments at the end are passed over in GNU mode and end the options in POSIX mode. */
  lemma {:induction false} NonopsLast(gnu: bool, u: Usage, f: Flags, msg: bool, b: seq<string>, i: nat)
    requires i <= |b| && NoOptions(b[i..])
    ensures var r := Scan(gnu, u, f, msg, b, i);
            r.options == [] && !r.fatal && r.ops == [] && Order(r) == b[i..]
    decreases |b| - i
  {
    if i < |b| {
      assert b[i..][0] == b[i];
      assert b[i..] == [b[i]] + b[i + 1..];
      if gnu {
        var rest := b[i + 1..];
        forall j | 0 <= j < |rest|
          ensures !IsOption(rest[j])
        {
          assert rest[j] == b[i..][j + 1];
        }
        NonopsLast(gnu, u, f, msg, b, i + 1);
      }
    }
  }

  /** A rearranged vector: options first, then non-option arguments, `more` of them from earlier. */
  ghost function Laid(front: seq<string>, r: Scanned, more: seq<string>): seq<string> {
    front + r.ops + (more + r.nonops) + r.tail
  }

  lemma {:induction false} LaidParts(
    front: seq<string>, used: seq<string>, r: Scanned, more: seq<string>, r0: Scanned)
    requires r0.ops == used + r.ops && r0.nonops == r.nonops && r0.tail == r.tail
    ensures var b, n := Laid(front + used, r, more), |front|;
            && b == Laid(front, r0, more)
            && n + |used| <= |b| && b[n..n + |used|] == used && b[n..] == used + b[n + |used|..]
            && (|used| > 0 ==> b[n] == used[0])
  {
    var b := Laid(front + used, r, more);
    assert b == front + (used + (r.ops + (more + r.nonops) + r.tail));
  }

  /** GNU mode passes over non-option arguments. */
  lemma {:induction false} PassOver(
    u: Usage, f: Flags, msg: bool, front: seq<string>, more: seq<string>, rest: seq<string>)
    requires NoOptions(more)
    ensures var b, n := front + more + rest, |front| + |more|;
            Scan(true, u, f, msg, b, |front|)
            == Scan(true, u, f, msg, b, n).(nonops := more + Scan(true, u, f, msg, b, n).nonops)
    decreases |more|
  {
    hide Scan;
    if more != [] {
      var b, k := front + more + rest, |front|;
      PassOver(u, f, msg, front + [more[0]], more[1..], rest);
      assert b == (front + [more[0]]) + more[1..] + rest;
      assert b[k] == more[0];
      ScanPassesOver(u, f, msg, b, k);
      var r := Scan(true, u, f, msg, b, |front| + |more|);
      assert [more[0]] + (more[1..] + r.nonops) == more + r.nonops;
    } else {
      var b := front + more + rest;
      assert [] + Scan(true, u, f, msg, b, |front|).nonops == Scan(true, u, f, msg, b, |front|).nonops;
    }
  }

  /** An illegal option that follows non-option arguments is found again. */
  lemma {:induction false} RescanIllegal(
    u: Usage, f: Flags, msg: bool, args: seq<string>, i: nat, front: seq<string>, more: seq<string>)
    requires i < |args| && IsOption(args[i]) && args[i] != "--" && Element(u, f, msg, args, i).fatal && NoOptions(more)
    ensures var b := front + more + args[i..];
            var r := Scan(true, u, f, msg, b, |front|);
            && r.options == Element(u, f, msg, args, i).options && r.fatal && r.ops == []
            && Order(r) == b[|front|..]
  {
    hide Element;
    var b, n := front + more + args[i..], |front| + |more|;
    PassOver(u, f, msg, front, more, args[i..]);
    assert b[n..] == args[i..] && b[n] == args[i] && Following(b, n) == Following(args, i);
    SameElement(u, f, msg, args, i, b, n);
    var r := Scan(true, u, f, msg, b, n);
    assert r == Scanned(Element(u, f, msg, b, n).options, true, [], [], b[n..]);
    assert b[|front|..] == more + args[i..];
    assert [] + (more + []) + b[n..] == more + args[i..];
  }

  /** `r` is what the second pass finds from `n` on in the vector `b` that the first pass left. */
  ghost predicate Found(first: Scanned, r: Scanned, b: seq<string>, n: nat, kept: bool)
    requires n <= |b|
  {
    if kept then r.options == first.options && r.fatal == first.fatal && r.ops == first.ops && Order(r) == b[n..]
    else r.options != first.options
  }

  /**
   A pass in either mode over a vector that a GNU pass has rearranged finds the same options if and only if each
   parameter that used no separate argument still uses none; and then it finds them in the same elements and leaves
   the vector as it is. An illegal option is found again in GNU mode.
   */
  lemma {:induction false} Rescan(
    gnu: bool, u: Usage, f: Flags, msg: bool, args: seq<string>, i: nat, front: seq<string>, more: seq<string>)
    requires i <= |args| && NoOptions(more) && (gnu || !Scan(true, u, f, msg, args, i).fatal)
    ensures var r, n := Scan(true, u, f, msg, args, i), |front|;
            var b := Laid(front, r, more);
            n <= |b| && Found(r, Scan(gnu, u, f, msg, b, n), b, n, Kept(u, f, msg, args, i, b, n))
    decreases |args| - i, 1
  {
    hide Element, Laid, Scan, Found, Kept, NoOptions;
    if i == |args| || args[i] == "--" {
      RescanStops(gnu, u, f, msg, args, i, front, more);
    } else if !IsOption(args[i]) {
      RescanOver(u, f, msg, args, i, front, more);
      Rescan(gnu, u, f, msg, args, i + 1, front, more + [args[i]]);
    } else if Element(u, f, msg, args, i).fatal {
      RescanFatal(u, f, msg, args, i, front, more);
    } else {
      RescanElement(gnu, u, f, msg, args, i, front, more);
    }
  }

  lemma {:induction false} RescanStops(
    gnu: bool, u: Usage, f: Flags, msg: bool, args: seq<string>, i: nat, front: seq<string>, more: seq<string>)
    requires i <= |args| && NoOptions(more) && (i == |args| || args[i] == "--")
    ensures var r, n := Scan(true, u, f, msg, args, i), |front|;
            var b := Laid(front, r, more);
            n <= |b| && Found(r, Scan(gnu, u, f, msg, b, n), b, n, Kept(u, f, msg, args, i, b, n))
  {
    var r := Scan(true, u, f, msg, args, i);
    var b := Laid(front, r, more);
    if i == |args| {
      assert b[|front|..] == more;
      NonopsLast(gnu, u, f, msg, b, |front|);
    } else {
      assert b[|front|] == "--";
      assert b[|front|..] == ["--"] + b[|front| + 1..];
    }
  }

  /** A non-option argument only moves on to those passed over. */
  lemma {:induction false} RescanOver(
    u: Usage, f: Flags, msg: bool, args: seq<string>, i: nat, front: seq<string>, more: seq<string>)
    requires i < |args| && !IsOption(args[i]) && NoOptions(more)
    ensures NoOptions(more + [args[i]])
    ensures var r, r1 := Scan(true, u, f, msg, args, i), Scan(true, u, f, msg, args, i + 1);
            && r.fatal == r1.fatal && r.options == r1.options && r.ops == r1.ops
            && Laid(front, r, more) == Laid(front, r1, more + [args[i]])
    ensures forall b, n :: Kept(u, f, msg, args, i, b, n) == Kept(u, f, msg, args, i + 1, b, n)
    ensures forall r', b, n, kept :: 0 <= n <= |b| ==>
              Found(Scan(true, u, f, msg, args, i), r', b, n, kept)
              == Found(Scan(true, u, f, msg, args, i + 1), r', b, n, kept)
  {
    hide Order;
    ScanPassesOver(u, f, msg, args, i);
    var r1 := Scan(true, u, f, msg, args, i + 1);
    assert more + ([args[i]] + r1.nonops) == more + [args[i]] + r1.nonops;
    hide Scan;
  }

  lemma {:induction false} RescanFatal(
    u: Usage, f: Flags, msg: bool, args: seq<string>, i: nat, front: seq<string>, more: seq<string>)
    requires i < |args| && IsOption(args[i]) && args[i] != "--" && Element(u, f, msg, args, i).fatal && NoOptions(more)
    ensures Scan(true, u, f, msg, args, i).fatal
    ensures var r, n := Scan(true, u, f, msg, args, i), |front|;
            var b := Laid(front, r, more);
            n <= |b| && Found(r, Scan(true, u, f, msg, b, n), b, n, Kept(u, f, msg, args, i, b, n))
  {
    hide Element, Scan, Order;
    ScanIllegal(true, u, f, msg, args, i);
    RescanIllegal(u, f, msg, args, i, front, more);
    assert Laid(front, Scan(true, u, f, msg, args, i), more) == front + more + args[i..];
  }

  lemma {:induction false} RescanElement(
    gnu: bool, u: Usage, f: Flags, msg: bool, args: seq<string>, i: nat, front: seq<string>, more: seq<string>)
    requires i < |args| && NoOptions(more) && (gnu || !Scan(true, u, f, msg, args, i).fatal)
    requires IsOption(args[i]) && args[i] != "--" && !Element(u, f, msg, args, i).fatal
    ensures var r, n := Scan(true, u, f, msg, args, i), |front|;
            var b := Laid(front, r, more);
            n <= |b| && Found(r, Scan(gnu, u, f, msg, b, n), b, n, Kept(u, f, msg, args, i, b, n))
    decreases |args| - i, 0
  {
    hide Element, Laid, Scan, Order, NoOptions, Found, Kept;
    ScanElement(true, u, f, msg, args, i);
    var e, n := Element(u, f, msg, args, i), |front|;
    var r1, used := Scan(true, u, f, msg, args, e.next), args[i..e.next];
    Rescan(gnu, u, f, msg, args, e.next, front + used, more);
    LaidParts(front, used, r1, more, Scan(true, u, f, msg, args, i));
    var b := Laid(front + used, r1, more);
    KeptElement(u, f, msg, args, i, b, n);
    if e.next == i + 1 && !StepsOver(u, f, msg, b, n) {
      Strays(gnu, u, f, msg, args, i, b, n);
    } else {
      GoesOn(gnu, u, f, msg, args, i, b, n);
    }
  }

  lemma {:induction false} KeptElement(
    u: Usage, f: Flags, msg: bool, args: seq<string>, i: nat, b: seq<string>, n: nat)
    requires i < |args| && IsOption(args[i]) && args[i] != "--" && !Element(u, f, msg, args, i).fatal
    requires n < |b| && IsOption(b[n])
    ensures var e := Element(u, f, msg, args, i);
            && i < e.next <= |args|
            && (Kept(u, f, msg, args, i, b, n)
                <==> && (e.next == i + 1 ==> StepsOver(u, f, msg, b, n))
                     && Kept(u, f, msg, args, e.next, b, n + (e.next - i)))
  {
    hide Element, StepsOver;
    ElementNext(u, f, msg, args, i);
  }

  /** A parameter that now uses a separate argument, or is now illegal, shows in the options. */
  lemma {:induction false} Strays(
    gnu: bool, u: Usage, f: Flags, msg: bool, args: seq<string>, i: nat, b: seq<string>, n: nat)
    requires i < |args| && IsOption(args[i]) && args[i] != "--" && !Element(u, f, msg, args, i).fatal
    requires Element(u, f, msg, args, i).next == i + 1 && n < |b| && b[n] == args[i] && !StepsOver(u, f, msg, b, n)
    ensures Found(Scan(true, u, f, msg, args, i), Scan(gnu, u, f, msg, b, n), b, n, false)
  {
    hide Element, Scan, Order;
    ScanElement(true, u, f, msg, args, i);
    MovedElement(u, f, msg, args, i, b, n);
    var e, e' := Element(u, f, msg, args, i), Element(u, f, msg, b, n);
    var r, r' := Scan(true, u, f, msg, args, i), Scan(gnu, u, f, msg, b, n);
    if e'.fatal {
      ScanIllegal(gnu, u, f, msg, b, n);
    } else {
      ScanElement(gnu, u, f, msg, b, n);
      assert r.options[..|e.options|] == e.options && r'.options[..|e'.options|] == e'.options;
    }
  }

  lemma {:induction false} GoesOn(
    gnu: bool, u: Usage, f: Flags, msg: bool, args: seq<string>, i: nat, b: seq<string>, n: nat)
    requires i < |args| && IsOption(args[i]) && args[i] != "--" && !Element(u, f, msg, args, i).fatal
    requires var e := Element(u, f, msg, args, i);
             && i < e.next <= |args| && n + (e.next - i) <= |b| && b[n..n + (e.next - i)] == args[i..e.next]
             && b[n] == args[i] && (e.next == i + 1 ==> StepsOver(u, f, msg, b, n))
             && b[n..] == args[i..e.next] + b[n + (e.next - i)..]
    ensures var e := Element(u, f, msg, args, i);
            var m := n + (e.next - i);
            forall kept :: Found(Scan(true, u, f, msg, args, e.next), Scan(gnu, u, f, msg, b, m), b, m, kept) ==>
              Found(Scan(true, u, f, msg, args, i), Scan(gnu, u, f, msg, b, n), b, n, kept)
  {
    hide Element, Scan;
    var e := Element(u, f, msg, args, i);
    if e.next == i + 1 {
      MovedElement(u, f, msg, args, i, b, n);
    } else {
      ElementUses(u, f, msg, args, i);
      assert args[i + 1] == args[i..e.next][1] == b[n + 1];
      SameElement(u, f, msg, args, i, b, n);
    }
    hide Order;
    ScanElement(true, u, f, msg, args, i);
    ScanElement(gnu, u, f, msg, b, n);
    var r, r' := Scan(true, u, f, msg, args, i), Scan(gnu, u, f, msg, b, n);
    assert r.options[|e.options|..] == Scan(true, u, f, msg, args, e.next).options;
    assert r'.options[|e.options|..] == Scan(gnu, u, f, msg, b, n + (e.next - i)).options;
  }

  /** A parameter uses one element, or two. */
  lemma {:induction false} GroupUses(u: Usage, msg: bool, args: seq<string>, i: nat, j: nat)
    requires i < |args| && j <= |args[i]|
    ensures var e := ShortGroup(u, msg, args, i, j);
            !e.fatal ==> e.next == i + 1 || (e.next == i + 2 <= |args|)
    decreases |args[i]| - j
  {
    if j < |args[i]| {
      GroupUses(u, msg, args, i, j + 1);
    }
  }

  lemma {:induction false} ElementUses(u: Usage, f: Flags, msg: bool, args: seq<string>, i: nat)
    requires i < |args| && IsOption(args[i])
    ensures var e := Element(u, f, msg, args, i);
            !e.fatal ==> e.next == i + 1 || (e.next == i + 2 <= |args|)
  {
    hide ShortGroup, LongIndex, Find;
    GroupUses(u, msg, args, i, 1);
  }

  /** What the second pass over a rearranged vector finds, exactly. */
  lemma {:induction false} SecondPass(gnu: bool, u: Usage, f: Flags, msg: bool, args: seq<string>)
    requires gnu || !Scan(true, u, f, msg, args, 0).fatal
    ensures var r := Scan(true, u, f, msg, args, 0);
            var r' := Scan(gnu, u, f, msg, Order(r), 0);
            && |Order(r)| == |args|
            && (r'.options == r.options <==> Kept(u, f, msg, args, 0, Order(r), 0))
            && (r'.options == r.options ==> r'.fatal == r.fatal && r'.ops == r.ops && Order(r') == Order(r))
  {
    hide Element, Scan, Kept;
    var r := Scan(true, u, f, msg, args, 0);
    Rescan(gnu, u, f, msg, args, 0, [], []);
    assert Laid([], r, []) == Order(r);
    assert Order(r)[0..] == Order(r);
    Moved(true, u, f, msg, args, 0);
    assert args[0..] == args;
    assert |multiset(Order(r))| == |multiset(args)|;
  }

  /** An option that takes a separate argument if there is one may take another one the second time. */
  lemma {:induction false} SecondPassDiffers()
    ensures exists u: Usage, f: Flags, args: seq<string> ::
      var r := Scan(true, u, f, true, args, 0);
      !r.fatal && Scan(false, u, f, true, Order(r), 0).options != r.options
  {
    var check := (name: string, arg: Arg, msg: bool) => if arg == NoArg then ArgIgnore else ArgOk;
    var u, f, args, b := [Descriptor(0, "a", "all", check)], Flags(0, false), ["x", "-a"], ["-a", "x"];
    assert Find(u, Short('a'), 0) == 0;
    assert ShortGroup(u, true, args, 1, 2) == Step([], false, 2);
    assert ShortGroup(u, true, args, 1, 1) == Step([Opt(0, "a", NoArg)] + [], false, 2);
    var r := Scan(true, u, f, true, args, 0);
    assert Scan(true, u, f, true, args, 2) == Scanned([], false, [], [], []);
    assert Scan(true, u, f, true, args, 1).ops == ["-a"] + [];
    assert r.ops == ["-a"] && r.nonops == ["x"] + [] && r.tail == [] && r.options == [Opt(0, "a", NoArg)];
    assert Order(r) == b;
    assert ShortGroup(u, true, b, 0, 1) == Step([Opt(0, "a", Detached("x"))], false, 2);
    assert Scan(false, u, f, true, b, 2).options == [];
    assert Scan(false, u, f, true, b, 0).options == [Opt(0, "a", Detached("x"))];
  }

  // ----- a condition on the usage alone -----

  predicate Separate(arg: Arg) { !arg.Attached? }

  /** The option goes on without a separate argument. */
  predicate Declines(d: Descriptor, name: string, arg: Arg, msg: bool) {
    var status := d.check(name, arg, msg);
    status != ArgIllegal && (status == ArgOk ==> arg == NoArg)
  }

  /** An option that declines one separate argument, or the lack of one, declines every other. */
  ghost predicate Steady(u: Usage) {
    forall d, name, arg, arg', msg :: 0 <= d < |u| && Separate(arg) && Separate(arg') && Declines(u[d], name, arg, msg)
      ==> Declines(u[d], name, arg', msg)
  }

  lemma {:induction false} SteadyGroup(
    u: Usage, msg: bool, a: seq<string>, i: nat, b: seq<string>, i': nat, j: nat)
    requires Steady(u) && i < |a| && i' < |b| && a[i] == b[i'] && j <= |a[i]|
    requires var e := ShortGroup(u, msg, a, i, j); !e.fatal && e.next == i + 1
    ensures var e, e' := ShortGroup(u, msg, a, i, j), ShortGroup(u, msg, b, i', j);
            !e'.fatal && e'.next == i' + 1 && e'.options == e.options
    decreases |a[i]| - j
  {
    if j < |a[i]| {
      var d := OrDummy(u, Find(u, Short(a[i][j]), 0));
      var arg, arg', name := ShortArg(a, i, j), ShortArg(b, i', j), a[i][j..];
      if d == |u| {
        SteadyGroup(u, msg, a, i, b, i', j + 1);
      } else if j + 1 < |a[i]| {
        if u[d].check(name, arg, msg) != ArgOk {
          SteadyGroup(u, msg, a, i, b, i', j + 1);
        }
      } else {
        assert Separate(arg) && Separate(arg') && Declines(u[d], name, arg, msg);
        assert Declines(u[d], name, arg', msg);
        assert j + 1 == |a[i]|;
        assert ShortGroup(u, msg, a, i, j + 1).options == [] && ShortGroup(u, msg, b, i', j + 1).options == [];
      }
    }
  }

  lemma {:induction false} SteadyElement(
    u: Usage, f: Flags, msg: bool, a: seq<string>, i: nat, b: seq<string>, i': nat)
    requires Steady(u) && i < |a| && i' < |b| && a[i] == b[i'] && IsOption(a[i])
    requires var e := Element(u, f, msg, a, i); !e.fatal && e.next == i + 1
    ensures var e, e' := Element(u, f, msg, a, i), Element(u, f, msg, b, i');
            !e'.fatal && e'.next == i' + 1 && e'.options == e.options
  {
    hide ShortGroup, LongIndex, Find;
    var s := a[i];
    if s[1] != '-' && !(f.singleMinusLongopt && LongIndex(u, f, s[1..]) < |u|) {
      SteadyGroup(u, msg, a, i, b, i', 1);
    } else {
      var j := if s[1] == '-' then 2 else 1;
      var d := if s[1] == '-' then OrDummy(u, LongIndex(u, f, s[2..])) else LongIndex(u, f, s[1..]);
      SteadyLong(u, msg, a, i, b, i', j, d);
    }
  }

  lemma {:induction false} SteadyLong(
    u: Usage, msg: bool, a: seq<string>, i: nat, b: seq<string>, i': nat, j: nat, d: nat)
    requires Steady(u) && i < |a| && i' < |b| && a[i] == b[i'] && j <= |a[i]| && d <= |u|
    requires var e := LongOption(u, msg, a, i, j, d); !e.fatal && e.next == i + 1
    ensures var e, e' := LongOption(u, msg, a, i, j, d), LongOption(u, msg, b, i', j, d);
            !e'.fatal && e'.next == i' + 1 && e'.options == e.options
  {
    var arg, arg' := LongArg(a, i, j), LongArg(b, i', j);
    if d < |u| && Separate(arg) {
      assert Separate(arg') && Declines(u[d], a[i], arg, msg);
      assert Declines(u[d], a[i], arg', msg);
    }
  }

  /** With steady options every vector is kept, so a second pass finds what the first one found. */
  lemma {:induction false} SteadyKept(
    u: Usage, f: Flags, msg: bool, args: seq<string>, i: nat, front: seq<string>, more: seq<string>)
    requires Steady(u) && i <= |args|
    ensures Kept(u, f, msg, args, i, Laid(front, Scan(true, u, f, msg, args, i), more), |front|)
    decreases |args| - i
  {
    hide Element, Steady;
    var r := Scan(true, u, f, msg, args, i);
    if i < |args| {
      if !IsOption(args[i]) {
        SteadyKept(u, f, msg, args, i + 1, front, more + [args[i]]);
        var r1 := Scan(true, u, f, msg, args, i + 1);
        assert more + ([args[i]] + r1.nonops) == more + [args[i]] + r1.nonops;
      } else if args[i] != "--" && !Element(u, f, msg, args, i).fatal {
        SteadyKeptElement(u, f, msg, args, i, front, more);
      }
    }
  }

  lemma {:induction false} SteadyKeptElement(
    u: Usage, f: Flags, msg: bool, args: seq<string>, i: nat, front: seq<string>, more: seq<string>)
    requires Steady(u) && i < |args| && IsOption(args[i]) && args[i] != "--" && !Element(u, f, msg, args, i).fatal
    ensures Kept(u, f, msg, args, i, Laid(front, Scan(true, u, f, msg, args, i), more), |front|)
    decreases |args| - i, 0
  {
    hide Element, Steady, Laid, Scan, Order, Kept;
    ScanElement(true, u, f, msg, args, i);
    var e, n := Element(u, f, msg, args, i), |front|;
    var r1, used := Scan(true, u, f, msg, args, e.next), args[i..e.next];
    SteadyKept(u, f, msg, args, e.next, front + used, more);
    LaidParts(front, used, r1, more, Scan(true, u, f, msg, args, i));
    var b := Laid(front + used, r1, more);
    KeptElement(u, f, msg, args, i, b, n);
    if e.next == i + 1 {
      SteadyElement(u, f, msg, args, i, b, n);
    }
  }
}
