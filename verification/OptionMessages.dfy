/**
 The sizing pass runs the argument checks silently, the storing pass lets them print messages. When this makes no
 difference to the options found.
 */
module OptionMessages {
  import opened OptionParser
  import opened OptionScan

  /** What the answer of a check means for an option. */
  datatype Effect = Stops | Takes | Passes

  function EffectOf(status: ArgStatus, arg: Arg): Effect {
    if status == ArgIllegal then Stops else if status == ArgOk && arg != NoArg then Takes else Passes
  }

  ghost function Asked(u: Usage, d: nat, name: string, arg: Arg, msg: bool): Effect
    requires d < |u|
  {
    EffectOf(u[d].check(name, arg, msg), arg)
  }

  /** The checks that a group of short options asks for have the same effect with and without a message. */
  ghost predicate GroupAlike(u: Usage, args: seq<string>, i: nat, j: nat)
    requires i < |args| && j <= |args[i]|
    decreases |args[i]| - j
  {
    j == |args[i]| ||
    var d := OrDummy(u, Find(u, Short(args[i][j]), 0));
    var arg, name := ShortArg(args, i, j), args[i][j..];
    if d == |u| then GroupAlike(u, args, i, j + 1)
    else
      && Asked(u, d, name, arg, true) == Asked(u, d, name, arg, false)
      && (Asked(u, d, name, arg, true) == Passes ==> GroupAlike(u, args, i, j + 1))
  }

  ghost predicate LongAlike(u: Usage, args: seq<string>, i: nat, j: nat, d: nat)
    requires i < |args| && j <= |args[i]| && d <= |u|
  {
    var arg := LongArg(args, i, j);
    d < |u| ==> Asked(u, d, args[i], arg, true) == Asked(u, d, args[i], arg, false)
  }

  ghost predicate ElementAlike(u: Usage, f: Flags, args: seq<string>, i: nat)
    requires i < |args| && IsOption(args[i])
  {
    var s := args[i];
    if s[1] == '-' then LongAlike(u, args, i, 2, OrDummy(u, LongIndex(u, f, s[2..])))
    else if f.singleMinusLongopt && LongIndex(u, f, s[1..]) < |u| then LongAlike(u, args, i, 1, LongIndex(u, f, s[1..]))
    else GroupAlike(u, args, i, 1)
  }

  /** Every check that a pass asks for. */
  ghost predicate PassAlike(gnu: bool, u: Usage, f: Flags, args: seq<string>, i: nat)
    requires i <= |args|
    decreases |args| - i
  {
    if i == |args| then true
    else if !IsOption(args[i]) then gnu ==> PassAlike(gnu, u, f, args, i + 1)
    else if args[i] == "--" then true
    else
      ElementNext(u, f, true, args, i);
      var e := Element(u, f, true, args, i);
      ElementAlike(u, f, args, i) && (!e.fatal ==> PassAlike(gnu, u, f, args, e.next))
  }

  /** Whatever follows, the options found differ. */
  ghost predicate Diverge(e: Step, e': Step) {
    || (exists x :: 0 <= x < |e.options| && x < |e'.options| && e.options[x] != e'.options[x])
    || (e.fatal && |e.options| < |e'.options|)
    || (e'.fatal && |e'.options| < |e.options|)
  }

  lemma {:induction false} DivergeBehind(o: Opt, e: Step, e': Step)
    requires Diverge(e, e')
    ensures Diverge(e.(options := [o] + e.options), e'.(options := [o] + e'.options))
  {
    var a, b := [o] + e.options, [o] + e'.options;
    if x :| 0 <= x < |e.options| && x < |e'.options| && e.options[x] != e'.options[x] {
      assert a[x + 1] != b[x + 1];
    }
  }

  lemma {:induction false} GroupAgrees(u: Usage, args: seq<string>, i: nat, j: nat)
    requires i < |args| && j <= |args[i]|
    ensures var e, e' := ShortGroup(u, true, args, i, j), ShortGroup(u, false, args, i, j);
            if GroupAlike(u, args, i, j) then e == e' else Diverge(e, e')
    decreases |args[i]| - j
  {
    if j < |args[i]| {
      var d := OrDummy(u, Find(u, Short(args[i][j]), 0));
      var arg, name := ShortArg(args, i, j), args[i][j..];
      GroupAgrees(u, args, i, j + 1);
      var e, e' := ShortGroup(u, true, args, i, j), ShortGroup(u, false, args, i, j);
      var more, more' := ShortGroup(u, true, args, i, j + 1), ShortGroup(u, false, args, i, j + 1);
      if d < |u| {
        GroupHeads(u, args, i, j, d);
        if Asked(u, d, name, arg, true) == Passes == Asked(u, d, name, arg, false) && !GroupAlike(u, args, i, j + 1) {
          DivergeBehind(Opt(d, name, NoArg), more, more');
        }
      }
    }
  }

  /** One option of a group, in both passes. */
  lemma {:induction false} GroupHeads(u: Usage, args: seq<string>, i: nat, j: nat, d: nat)
    requires i < |args| && j < |args[i]| && d == OrDummy(u, Find(u, Short(args[i][j]), 0)) < |u|
    ensures var arg, name := ShortArg(args, i, j), args[i][j..];
            var e, e' := ShortGroup(u, true, args, i, j), ShortGroup(u, false, args, i, j);
            var more, more' := ShortGroup(u, true, args, i, j + 1), ShortGroup(u, false, args, i, j + 1);
            var a, a' := Asked(u, d, name, arg, true), Asked(u, d, name, arg, false);
            && (a == a' != Passes ==> e == e')
            && (a != a' ==> Diverge(e, e'))
            && (a == Passes ==> e == more.(options := [Opt(d, name, NoArg)] + more.options))
            && (a' == Passes ==> e' == more'.(options := [Opt(d, name, NoArg)] + more'.options))
  {
    hide Find;
    var e, e' := ShortGroup(u, true, args, i, j), ShortGroup(u, false, args, i, j);
    assert j + 1 == |args[i]| ==> ShortGroup(u, true, args, i, j + 1) == Step([], false, i + 1);
    assert j + 1 == |args[i]| ==> ShortGroup(u, false, args, i, j + 1) == Step([], false, i + 1);
    var name := args[i][j..];
    assert [Opt(d, name, NoArg)] + [] == [Opt(d, name, NoArg)];
    if |e.options| > 0 && |e'.options| > 0 && e.options[0] != e'.options[0] {
      assert Diverge(e, e');
    }
  }

  lemma {:induction false} LongAgrees(u: Usage, args: seq<string>, i: nat, j: nat, d: nat)
    requires i < |args| && j <= |args[i]| && d <= |u|
    ensures var e, e' := LongOption(u, true, args, i, j, d), LongOption(u, false, args, i, j, d);
            if LongAlike(u, args, i, j, d) then e == e' else Diverge(e, e')
  {
    var e, e' := LongOption(u, true, args, i, j, d), LongOption(u, false, args, i, j, d);
    if |e.options| > 0 && |e'.options| > 0 && e.options[0] != e'.options[0] {
      assert Diverge(e, e');
    }
  }

  lemma {:induction false} ElementAgrees(u: Usage, f: Flags, args: seq<string>, i: nat)
    requires i < |args| && IsOption(args[i])
    ensures var e, e' := Element(u, f, true, args, i), Element(u, f, false, args, i);
            if ElementAlike(u, f, args, i) then e == e' else Diverge(e, e')
  {
    hide ShortGroup, LongOption, LongIndex, Find, GroupAlike, LongAlike, Diverge;
    var s := args[i];
    if s[1] == '-' {
      LongAgrees(u, args, i, 2, OrDummy(u, LongIndex(u, f, s[2..])));
    } else if f.singleMinusLongopt && LongIndex(u, f, s[1..]) < |u| {
      LongAgrees(u, args, i, 1, LongIndex(u, f, s[1..]));
    } else {
      GroupAgrees(u, args, i, 1);
    }
  }

  /**
   The silent pass finds the options of the other one if and only if every check that the pass asks for has the same
   effect with and without a message; and then the passes agree in everything.
   */
  lemma {:induction false} PassesAgree(gnu: bool, u: Usage, f: Flags, args: seq<string>, i: nat)
    requires i <= |args|
    ensures var r, r' := Scan(gnu, u, f, true, args, i), Scan(gnu, u, f, false, args, i);
            if PassAlike(gnu, u, f, args, i) then r == r' else r.options != r'.options
    decreases |args| - i
  {
    hide Element, ElementAlike, Diverge;
    if i < |args| {
      if !IsOption(args[i]) {
        if gnu {
          PassesAgree(gnu, u, f, args, i + 1);
        }
      } else if args[i] != "--" {
        ParameterAgrees(gnu, u, f, args, i);
      }
    }
  }

  lemma {:induction false} ParameterAgrees(gnu: bool, u: Usage, f: Flags, args: seq<string>, i: nat)
    requires i < |args| && IsOption(args[i]) && args[i] != "--"
    ensures var r, r' := Scan(gnu, u, f, true, args, i), Scan(gnu, u, f, false, args, i);
            if PassAlike(gnu, u, f, args, i) then r == r' else r.options != r'.options
    decreases |args| - i, 0
  {
    hide Element, ElementAlike, Diverge, Scan, Order;
    ElementAgrees(u, f, args, i);
    ElementNext(u, f, true, args, i);
    var e, e' := Element(u, f, true, args, i), Element(u, f, false, args, i);
    var r, r' := Scan(gnu, u, f, true, args, i), Scan(gnu, u, f, false, args, i);
    ScanStarts(gnu, u, f, true, args, i);
    ScanStarts(gnu, u, f, false, args, i);
    if !ElementAlike(u, f, args, i) {
      DivergedOptions(e, e', r.options, r'.options);
    } else if e.fatal {
      ScanIllegal(gnu, u, f, true, args, i);
      ScanIllegal(gnu, u, f, false, args, i);
    } else {
      PassesAgree(gnu, u, f, args, e.next);
      ScanElement(gnu, u, f, true, args, i);
      ScanElement(gnu, u, f, false, args, i);
      assert r.options[|e.options|..] == Scan(gnu, u, f, true, args, e.next).options;
      assert r'.options[|e.options|..] == Scan(gnu, u, f, false, args, e.next).options;
    }
  }

  /** The options of a pass begin with those of its first parameter, and are those if it is illegal. */
  lemma {:induction false} ScanStarts(gnu: bool, u: Usage, f: Flags, msg: bool, args: seq<string>, i: nat)
    requires i < |args| && IsOption(args[i]) && args[i] != "--"
    ensures var r, e := Scan(gnu, u, f, msg, args, i), Element(u, f, msg, args, i);
            e.options <= r.options && (e.fatal ==> r.options == e.options)
  {
    hide Element, Scan, Order;
    if Element(u, f, msg, args, i).fatal {
      ScanIllegal(gnu, u, f, msg, args, i);
    } else {
      ScanElement(gnu, u, f, msg, args, i);
    }
  }

  lemma {:induction false} DivergedOptions(e: Step, e': Step, all: seq<Opt>, all': seq<Opt>)
    requires Diverge(e, e') && e.options <= all && e'.options <= all'
    requires (e.fatal ==> all == e.options) && (e'.fatal ==> all' == e'.options)
    ensures all != all'
  {
    if x :| 0 <= x < |e.options| && x < |e'.options| && e.options[x] != e'.options[x] {
      assert all[x] == e.options[x] && all'[x] == e'.options[x];
    }
  }

  // ----- a condition on the usage alone -----

  /** The checks answer alike with and without a message. */
  ghost predicate Quiet(u: Usage) {
    forall d, name, arg :: 0 <= d < |u| ==> u[d].check(name, arg, true) == u[d].check(name, arg, false)
  }

  lemma {:induction false} QuietGroup(u: Usage, args: seq<string>, i: nat, j: nat)
    requires Quiet(u) && i < |args| && j <= |args[i]|
    ensures GroupAlike(u, args, i, j)
    decreases |args[i]| - j
  {
    if j < |args[i]| {
      QuietGroup(u, args, i, j + 1);
    }
  }

  /** Then every vector is alike. */
  lemma {:induction false} QuietAlike(gnu: bool, u: Usage, f: Flags, args: seq<string>, i: nat)
    requires Quiet(u) && i <= |args|
    ensures PassAlike(gnu, u, f, args, i)
    decreases |args| - i
  {
    if i < |args| {
      if !IsOption(args[i]) {
        QuietAlike(gnu, u, f, args, i + 1);
      } else if args[i] != "--" {
        QuietGroup(u, args, i, 1);
        hide GroupAlike, Element;
        ElementNext(u, f, true, args, i);
        var e := Element(u, f, true, args, i);
        if !e.fatal {
          QuietAlike(gnu, u, f, args, e.next);
        }
      }
    }
  }

  /** Checks that answer differently when silent make the passes differ. */
  lemma {:induction false} LoudChecksDiffer()
    ensures exists u: Usage, f: Flags, args: seq<string> ::
      |Scan(false, u, f, true, args, 0).options| > |Scan(false, u, f, false, args, 0).options|
  {
    var check := (name: string, arg: Arg, msg: bool) => if msg then ArgNone else ArgIllegal;
    var u, f, args := [Descriptor(0, "a", "all", check)], Flags(0, false), ["-a"];
    assert Find(u, Short('a'), 0) == 0;
    assert ShortGroup(u, true, args, 0, 2) == Step([], false, 1);
    assert |ShortGroup(u, true, args, 0, 1).options| == 1;
    assert ShortGroup(u, false, args, 0, 1) == Step([], true, 0);
    assert |Scan(false, u, f, true, args, 0).options| > |Scan(false, u, f, false, args, 0).options|;
  }
}
