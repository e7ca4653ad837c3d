/** The loop over an argument vector, run once to size the arrays and once to fill them. */
module OptionPasses {
  import opened OptionParser
  import opened OptionStorage
  import opened OptionActions
  import opened OptionScan
  import opened OptionMessages

  /** What became of one option: `used` when its argument is an element of its own. */
  datatype Verdict = Illegal | Refused(used: bool) | Ended(used: bool) | More

  /** The elements to parse: the count may be negative, or too large, when a null pointer ends the vector. */
  function Args(argv: seq<string>, numargs: int): (args: seq<string>)
    ensures args <= argv
  {
    if numargs < 0 || numargs > |argv| then argv else argv[..numargs]
  }

  /** Every index in use has a list. */
  ghost predicate Listed(u: Usage, a: Action) {
    !a.counting ==> forall d :: 0 <= d < |u| ==> Inside(u[d].index, a.options.Length)
  }

  /** The descriptor judges the option and the action performs it. */
  method Handle(u: Usage, msg: bool, a: Action, d: nat, name: string, arg: Arg) returns (v: Verdict)
    requires d < |u| && a.Valid(u) && Listed(u, a)
    requires u[d].check(name, arg, msg) != ArgIllegal ==> a.Room(1)
    modifies a, a.options, a.buffer
    ensures a.Valid(u) && |a.os| <= |old(a.os)| + 1
    ensures var status := u[d].check(name, arg, msg);
            var o := Opt(d, name, if status == ArgOk then arg else NoArg);
            if status == ArgIllegal then v == Illegal && a.State() == old(a.State())
            else
              && a.State() == Performed(old(a.State()), o).0
              && v == if !Performed(old(a.State()), o).1 then Refused(status == ArgOk && arg.Detached?)
                      else if status == ArgOk then Ended(arg.Detached?) else More
  {
    var status := u[d].check(name, arg, msg);
    if status == ArgIllegal {
      return Illegal;
    }
    hide Holds;
    var ok := a.Perform(u, Opt(d, name, if status == ArgOk then arg else NoArg));
    v := if !ok then Refused(status == ArgOk && arg.Detached?)
         else if status == ArgOk then Ended(arg.Detached?) else More;
  }

  method LongArgument(argv: seq<string>, ghost args: seq<string>, i: nat, j: nat, haveMore: bool) returns (arg: Arg)
    requires args <= argv && i < |args| && j <= |args[i]|
    requires haveMore && i + 1 < |argv| <==> i + 1 < |args|
    ensures arg == LongArg(args, i, j)
  {
    var e := j;
    while e < |argv[i]| && argv[i][e] != '='
      invariant j <= e <= |argv[i]|
      invariant Equals(argv[i], j) == Equals(argv[i], e)
    {
      e := e + 1;
    }
    if e < |argv[i]| {
      arg := Attached(argv[i][e + 1..]);
    } else {
      arg := if haveMore && i + 1 < |argv| then Detached(argv[i + 1]) else NoArg;
    }
  }

  /** One short option, and the rest of its group. */
  lemma {:induction false} GroupStep(u: Usage, msg: bool, args: seq<string>, i: nat, j: nat, d: nat, t: Tally)
    requires i < |args| && j < |args[i]| && d == OrDummy(u, Find(u, Short(args[i][j]), 0))
    ensures var e, more := ShortGroup(u, msg, args, i, j), ShortGroup(u, msg, args, i, j + 1);
            var arg, name := ShortArg(args, i, j), args[i][j..];
            if d == |u| then e == more
            else
              var status := u[d].check(name, arg, msg);
              var (t', ok) := Performed(t, Opt(d, name, if status == ArgOk then arg else NoArg));
              if status == ArgIllegal then
                e.fatal && PerformedAll(t, e.options) == (t, true) && !RefusedWithArg(t, e.options)
              else if status == ArgOk then
                && !e.fatal && |e.options| == 1 && PerformedAll(t, e.options) == (t', ok)
                && RefusedWithArg(t, e.options) == (!ok && arg.Detached?)
                && e.next == i + if arg.Detached? then 2 else 1
              else
                && e.fatal == more.fatal && e.next == more.next && |e.options| == 1 + |more.options|
                && PerformedAll(t, e.options) == (if ok then PerformedAll(t', more.options) else (t', false))
                && RefusedWithArg(t, e.options) == (ok && RefusedWithArg(t', more.options))
  {
    hide Find, Performed;
    var more := ShortGroup(u, msg, args, i, j + 1);
    var o := Opt(d, args[i][j..], NoArg);
    assert ([o] + more.options)[1..] == more.options;
  }

  lemma {:induction false} GroupEnd(u: Usage, msg: bool, args: seq<string>, i: nat, t: Tally)
    requires i < |args|
    ensures ShortGroup(u, msg, args, i, |args[i]|) == Step([], false, i + 1)
    ensures PerformedAll(t, []) == (t, true) && !RefusedWithArg(t, [])
  {
  }

  lemma {:induction false} LongStep(u: Usage, msg: bool, args: seq<string>, i: nat, j: nat, d: nat, t: Tally)
    requires i < |args| && j <= |args[i]| && d <= |u|
    ensures var e, arg := LongOption(u, msg, args, i, j, d), LongArg(args, i, j);
            if d == |u| then
              e == Step([], false, i + 1) && PerformedAll(t, e.options) == (t, true) && !RefusedWithArg(t, e.options)
            else
              var status := u[d].check(args[i], arg, msg);
              var (t', ok) := Performed(t, Opt(d, args[i], if status == ArgOk then arg else NoArg));
              if status == ArgIllegal then
                e.fatal && PerformedAll(t, e.options) == (t, true) && !RefusedWithArg(t, e.options)
              else
                && !e.fatal && |e.options| == 1 && PerformedAll(t, e.options) == (t', ok)
                && RefusedWithArg(t, e.options) == (!ok && status == ArgOk && arg.Detached?)
                && e.next == i + if status == ArgOk && arg.Detached? then 2 else 1
  {
    hide Performed;
  }

  /** The elements of one parameter: a long option or a group of short ones. */
  method DoElement(u: Usage, f: Flags, msg: bool, a: Action, argv: seq<string>, ghost args: seq<string>, i: nat,
                   haveMore: bool)
    returns (ok: bool, used: bool)
    requires CUsage(u) && CStrings(argv) && a.Valid(u) && Listed(u, a)
    requires args <= argv && i < |args| && IsOption(args[i]) && args[i] != "--"
    requires haveMore && i + 1 < |argv| <==> i + 1 < |args|
    requires a.Room(|Element(u, f, msg, args, i).options|)
    modifies a, a.options, a.buffer
    ensures a.Valid(u)
    ensures var e := Element(u, f, msg, args, i);
            var (t, all) := PerformedAll(old(a.State()), e.options);
            && a.State() == t && (ok <==> all && !e.fatal)
            && (ok ==> e.next == i + if used then 2 else 1)
            && (!ok ==> used == RefusedWithArg(old(a.State()), e.options))
  {
    hide Performed, PerformedAll, RefusedWithArg, Holds, Find, LongIndex, ShortGroup, LongOption, Action.Valid;
    var param := argv[i];
    used := false;
    var handleShort := param[1] != '-';
    var start := if handleShort then 1 else 2;
    var d, arg := |u|, NoArg;
    if !handleShort || f.singleMinusLongopt {
      d := FindLong(u, f, param[start..]);
      if d < |u| {
        handleShort := false;
      }
      arg := LongArgument(argv, args, i, start, haveMore);
    }
    if handleShort {
      ok, used := DoGroup(u, msg, a, argv, args, i, haveMore);
      return;
    }
    if d == |u| {
      d := FindDummy(u);
    }
    assert Element(u, f, msg, args, i) == LongOption(u, msg, args, i, start, d);
    LongStep(u, msg, args, i, start, d, a.State());
    if d == |u| {
      return true, false;
    }
    var v := Handle(u, msg, a, d, param, arg);
    ok := v.Ended? || v.More?;
    used := v == Ended(true) || v == Refused(true);
  }

  method DoGroup(u: Usage, msg: bool, a: Action, argv: seq<string>, ghost args: seq<string>, i: nat, haveMore: bool)
    returns (ok: bool, used: bool)
    requires CUsage(u) && CStrings(argv) && a.Valid(u) && Listed(u, a)
    requires args <= argv && i < |args| && |args[i]| > 1
    requires haveMore && i + 1 < |argv| <==> i + 1 < |args|
    requires a.Room(|ShortGroup(u, msg, args, i, 1).options|)
    modifies a, a.options, a.buffer
    ensures a.Valid(u)
    ensures var e := ShortGroup(u, msg, args, i, 1);
            var (t, all) := PerformedAll(old(a.State()), e.options);
            && a.State() == t && (ok <==> all && !e.fatal)
            && (ok ==> e.next == i + if used then 2 else 1)
            && (!ok ==> used == RefusedWithArg(old(a.State()), e.options))
  {
    hide Performed, PerformedAll, RefusedWithArg, Holds, Find, ShortGroup, Action.Valid;
    var param := argv[i];
    used := false;
    ghost var e := ShortGroup(u, msg, args, i, 1);
    ghost var t0 := a.State();
    var j := 1;
    while j < |param|
      invariant 1 <= j <= |param| && a.Valid(u)
      invariant var rest := ShortGroup(u, msg, args, i, j);
                && PerformedAll(t0, e.options) == PerformedAll(a.State(), rest.options)
                && RefusedWithArg(t0, e.options) == RefusedWithArg(a.State(), rest.options)
                && e.fatal == rest.fatal && (!e.fatal ==> e.next == rest.next)
                && a.Room(|rest.options|)
      decreases |param| - j
    {
      var d := FindShort(u, param[j]);
      if d == |u| {
        d := FindDummy(u);
      }
      GroupStep(u, msg, args, i, j, d, a.State());
      if d < |u| {
        var arg := if j + 1 < |param| then Attached(param[j + 1..])
                   else if haveMore && i + 1 < |argv| then Detached(argv[i + 1]) else NoArg;
        assert arg == ShortArg(args, i, j);
        var v := Handle(u, msg, a, d, param[j..], arg);
        if v == Illegal || v.Refused? {
          return false, v == Refused(true);
        }
        if v.Ended? {
          return true, v.used;
        }
      }
      j := j + 1;
    }
    GroupEnd(u, msg, args, i, a.State());
    ok := true;
  }

  /** One parameter, and the rest of the vector. */
  lemma {:induction false} ScanStep(
    gnu: bool, u: Usage, f: Flags, msg: bool, args: seq<string>, i: nat, t: Tally)
    requires i < |args| && IsOption(args[i]) && args[i] != "--"
    ensures var r, e := Scan(gnu, u, f, msg, args, i), Element(u, f, msg, args, i);
            && |e.options| <= |r.options|
            && |PerformedAll(t, e.options).0.os| <= |t.os| + |e.options|
            && if e.fatal then r == Scanned(e.options, true, [], [], args[i..])
               else
                 && i < e.next <= |args|
                 && var more := Scan(gnu, u, f, msg, args, e.next);
                 && r.fatal == more.fatal && |r.options| == |e.options| + |more.options|
                 && r.ops == args[i..e.next] + more.ops && r.nonops == more.nonops && r.tail == more.tail
                 && PerformedAll(t, r.options)
                 == if PerformedAll(t, e.options).1 then PerformedAll(PerformedAll(t, e.options).0, more.options)
                    else PerformedAll(t, e.options)
  {
    hide Element, PerformedAll;
    var e := Element(u, f, msg, args, i);
    ElementNext(u, f, msg, args, i);
    PerformedBound(t, e.options);
    if !e.fatal {
      PerformedConcat(t, e.options, Scan(gnu, u, f, msg, args, e.next).options);
    }
  }

  /** Where the options end. */
  lemma {:induction false} ScanEnd(
    gnu: bool, u: Usage, f: Flags, msg: bool, args: seq<string>, i: nat, t: Tally)
    requires i <= |args| && (i == |args| || (!gnu && !IsOption(args[i])) || args[i] == "--")
    ensures var r := Scan(gnu, u, f, msg, args, i);
            && !r.fatal && PerformedAll(t, r.options) == (t, true) && r.nonops == []
            && if i < |args| && IsOption(args[i]) then r.ops == ["--"] && r.tail == args[i + 1..]
               else r.ops == [] && r.tail == args[i..]
  {
  }

  /** Rotates `count` elements and the one behind them, which comes first. */
  method Shift(argv: array<string>, at: nat, count: nat)
    requires count <= at < argv.Length
    modifies argv
    ensures argv[..] == old(argv[..at - count]) + [old(argv[at])] + old(argv[at - count..at]) + old(argv[at + 1..])
  {
    var i := 0;
    ghost var was := argv[..];
    assert was == was[..at] + [was[at]] + was[at..at] + was[at + 1..];
    while i < count
      invariant 0 <= i <= count
      invariant argv[..] == was[..at - i] + [was[at]] + was[at - i..at] + was[at + 1..]
    {
      Rotated(argv[..], was, at, i);
      argv[at - i], argv[at - i - 1] := argv[at - i - 1], argv[at - i];
      i := i + 1;
    }
  }

  lemma {:induction false} Rotated(now: seq<string>, was: seq<string>, at: nat, i: nat)
    requires i < at < |was| && now == was[..at - i] + [was[at]] + was[at - i..at] + was[at + 1..]
    ensures |now| == |was|
    ensures now[at - i := now[at - i - 1]][at - i - 1 := now[at - i]]
         == was[..at - i - 1] + [was[at]] + was[at - i - 1..at] + was[at + 1..]
  {
  }

  /** An element behind the non-option arguments passed over is moved in front of them. */
  method MoveOption(argv: array<string>, at: nat, nonops: nat, ghost ops: seq<string>, ghost nons: seq<string>,
                    ghost rest: seq<string>)
    requires at < argv.Length && rest != [] && argv[..] == ops + nons + rest && |ops + nons| == at && nonops == |nons|
    modifies argv
    ensures argv[..] == (ops + [rest[0]]) + nons + rest[1..]
  {
    ghost var was := argv[..];
    assert was[..at - nonops] == ops && was[at - nonops..at] == nons;
    assert was[at] == rest[0] && was[at + 1..] == rest[1..];
    Shift(argv, at, nonops);
    assert ops + [rest[0]] + nons + rest[1..] == (ops + [rest[0]]) + nons + rest[1..];
  }

  /** What a pass makes of the vector: its options moved to the front, elements beyond the count left alone. */
  ghost function Rearranged(argv: seq<string>, numargs: int, r: Scanned): seq<string> {
    Order(r) + argv[|Args(argv, numargs)|..]
  }

  /** One pass over a vector. */
  datatype Pass = Pass(gnu: bool, u: Usage, f: Flags, msg: bool, args: seq<string>, beyond: seq<string>)

  ghost function PassOf(gnu: bool, u: Usage, f: Flags, msg: bool, argv: seq<string>, numargs: int): Pass {
    Pass(gnu, u, f, msg, Args(argv, numargs), argv[|Args(argv, numargs)|..])
  }

  ghost function Whole(p: Pass): Scanned {
    Scan(p.gnu, p.u, p.f, p.msg, p.args, 0)
  }

  ghost function Rest(p: Pass, i: nat): Scanned
    requires i <= |p.args|
  {
    Scan(p.gnu, p.u, p.f, p.msg, p.args, i)
  }

  /**
   The vector that a pass leaves when the rest of it, from `i` on, is performed from `t`; `ops` and `nons` have been
   passed. An option that is refused has already been moved if it was given a separate argument.
   */
  ghost function Final(p: Pass, i: nat, ops: seq<string>, nons: seq<string>, t: Tally): seq<string>
    requires i <= |p.args|
    decreases |p.args| - i
  {
    var stay := ops + nons + (p.args[i..] + p.beyond);
    if i == |p.args| then stay
    else if !IsOption(p.args[i]) then
      if p.gnu then Final(p, i + 1, ops, nons + [p.args[i]], t) else stay
    else if p.args[i] == "--" then (ops + ["--"]) + nons + (p.args[i + 1..] + p.beyond)
    else
      var e := Element(p.u, p.f, p.msg, p.args, i);
      var (t', all) := PerformedAll(t, e.options);
      if RefusedWithArg(t, e.options) then (ops + [p.args[i]]) + nons + (p.args[i + 1..] + p.beyond)
      else if !all || e.fatal then stay
      else
        ElementNext(p.u, p.f, p.msg, p.args, i);
        Final(p, e.next, ops + p.args[i..e.next], nons, t')
  }

  /** Whatever happens, the elements are those of the vector given. */
  lemma {:induction false} FinalMoves(p: Pass, i: nat, ops: seq<string>, nons: seq<string>, t: Tally)
    requires i <= |p.args|
    ensures multiset(Final(p, i, ops, nons, t)) == multiset(ops + nons + (p.args[i..] + p.beyond))
    decreases |p.args| - i
  {
    hide Final, IsOption;
    if i == |p.args| || (!p.gnu && !IsOption(p.args[i])) || p.args[i] == "--" {
      FinalStops(p, i, ops, nons, t);
    } else if !IsOption(p.args[i]) {
      FinalOver(p, i, ops, nons, t);
      FinalMoves(p, i + 1, ops, nons + [p.args[i]], t);
      OverAgain(p, i, ops, nons);
    } else {
      FinalElement(p, i, ops, nons, t);
    }
  }

  lemma {:induction false} FinalStops(p: Pass, i: nat, ops: seq<string>, nons: seq<string>, t: Tally)
    requires i <= |p.args| && (i == |p.args| || (!p.gnu && !IsOption(p.args[i])) || p.args[i] == "--")
    ensures multiset(Final(p, i, ops, nons, t)) == multiset(ops + nons + (p.args[i..] + p.beyond))
  {
    hide Final;
    FinalEnd(p, i, ops, nons, t);
    if i < |p.args| && IsOption(p.args[i]) {
      Forward(p, ops, nons, i, i + 1);
      assert p.args[i..i + 1] == ["--"];
    }
  }

  lemma {:induction false} OverAgain(p: Pass, i: nat, ops: seq<string>, nons: seq<string>)
    requires i < |p.args|
    ensures ops + (nons + [p.args[i]]) + (p.args[i + 1..] + p.beyond) == ops + nons + (p.args[i..] + p.beyond)
  {
  }

  lemma {:induction false} FinalElement(p: Pass, i: nat, ops: seq<string>, nons: seq<string>, t: Tally)
    requires i < |p.args| && IsOption(p.args[i]) && p.args[i] != "--"
    ensures multiset(Final(p, i, ops, nons, t)) == multiset(ops + nons + (p.args[i..] + p.beyond))
    decreases |p.args| - i, 0
  {
    hide Element, PerformedAll, RefusedWithArg, Final;
    FinalStep(p, i, ops, nons, t);
    var e := Element(p.u, p.f, p.msg, p.args, i);
    if RefusedWithArg(t, e.options) {
      Forward(p, ops, nons, i, i + 1);
      assert p.args[i..i + 1] == [p.args[i]];
    } else if !e.fatal && PerformedAll(t, e.options).1 {
      FinalMoves(p, e.next, ops + p.args[i..e.next], nons, PerformedAll(t, e.options).0);
      Forward(p, ops, nons, i, e.next);
    }
  }

  lemma {:induction false} Forward(p: Pass, ops: seq<string>, nons: seq<string>, i: nat, k: nat)
    requires i <= k <= |p.args|
    ensures multiset((ops + p.args[i..k]) + nons + (p.args[k..] + p.beyond))
         == multiset(ops + nons + (p.args[i..] + p.beyond))
  {
    assert p.args[i..] == p.args[i..k] + p.args[k..];
  }

  /** `i` elements are done: the options among them moved in front of the non-option arguments, and performed. */
  ghost predicate Progress(
    p: Pass, i: nat, now: seq<string>, ops: seq<string>, nons: seq<string>, t0: Tally, t: Tally)
  {
    && i <= |p.args| && |ops| + |nons| == i && (!p.gnu ==> nons == [])
    && now == ops + nons + (p.args[i..] + p.beyond)
    && PerformedAll(t0, Whole(p).options) == PerformedAll(t, Rest(p, i).options)
    && Whole(p).fatal == Rest(p, i).fatal && Whole(p).tail == Rest(p, i).tail
    && Whole(p).ops == ops + Rest(p, i).ops && Whole(p).nonops == nons + Rest(p, i).nonops
    && Final(p, 0, [], [], t0) == Final(p, i, ops, nons, t)
  }

  lemma {:induction false} ProgressStart(p: Pass, t: Tally)
    ensures Progress(p, 0, p.args + p.beyond, [], [], t, t)
  {
    hide Scan, PerformedAll, Final;
  }

  lemma {:induction false} ProgressFacts(
    p: Pass, i: nat, now: seq<string>, ops: seq<string>, nons: seq<string>, t0: Tally, t: Tally)
    requires Progress(p, i, now, ops, nons, t0, t)
    ensures |now| == |p.args| + |p.beyond| && |ops| + |nons| == i <= |p.args|
    ensures now == ops + nons + (p.args[i..] + p.beyond)
    ensures i < |p.args| ==> now[i] == p.args[i]
    ensures i + 1 < |p.args| ==> now[i + 1] == p.args[i + 1]
    ensures !p.gnu ==> nons == []
  {
    hide Scan, PerformedAll, Final;
  }

  lemma {:induction false} RestOver(p: Pass, i: nat)
    requires i < |p.args| && p.gnu && !IsOption(p.args[i])
    ensures Rest(p, i) == Rest(p, i + 1).(nonops := [p.args[i]] + Rest(p, i + 1).nonops)
  {
    ScanPassesOver(p.u, p.f, p.msg, p.args, i);
  }

  lemma {:induction false} FinalOver(p: Pass, i: nat, ops: seq<string>, nons: seq<string>, t: Tally)
    requires i < |p.args| && p.gnu && !IsOption(p.args[i])
    ensures Final(p, i, ops, nons, t) == Final(p, i + 1, ops, nons + [p.args[i]], t)
  {
  }

  lemma {:induction false} FinalStep(p: Pass, i: nat, ops: seq<string>, nons: seq<string>, t: Tally)
    requires i < |p.args| && IsOption(p.args[i]) && p.args[i] != "--"
    ensures var e := Element(p.u, p.f, p.msg, p.args, i);
            var (t', all) := PerformedAll(t, e.options);
            if RefusedWithArg(t, e.options) then
              Final(p, i, ops, nons, t) == (ops + [p.args[i]]) + nons + (p.args[i + 1..] + p.beyond)
            else if !all || e.fatal then Final(p, i, ops, nons, t) == ops + nons + (p.args[i..] + p.beyond)
            else
              i < e.next <= |p.args| && Final(p, i, ops, nons, t) == Final(p, e.next, ops + p.args[i..e.next], nons, t')
  {
    hide Element, PerformedAll, RefusedWithArg;
    ElementNext(p.u, p.f, p.msg, p.args, i);
  }

  lemma {:induction false} ProgressOver(
    p: Pass, i: nat, now: seq<string>, ops: seq<string>, nons: seq<string>, t0: Tally, t: Tally)
    requires Progress(p, i, now, ops, nons, t0, t) && i < |p.args| && p.gnu && !IsOption(p.args[i])
    ensures Progress(p, i + 1, now, ops, nons + [p.args[i]], t0, t)
    ensures Rest(p, i + 1).options == Rest(p, i).options
  {
    hide PerformedAll, Scan, Rest, Whole, Final;
    RestOver(p, i);
    FinalOver(p, i, ops, nons, t);
    assert p.args[i..] == [p.args[i]] + p.args[i + 1..];
    assert nons + ([p.args[i]] + Rest(p, i + 1).nonops) == nons + [p.args[i]] + Rest(p, i + 1).nonops;
  }

  lemma {:induction false} ProgressFails(
    p: Pass, i: nat, now: seq<string>, ops: seq<string>, nons: seq<string>, t0: Tally, t: Tally)
    requires Progress(p, i, now, ops, nons, t0, t) && i < |p.args| && IsOption(p.args[i]) && p.args[i] != "--"
    requires var e := Element(p.u, p.f, p.msg, p.args, i); e.fatal || !PerformedAll(t, e.options).1
    ensures var e := Element(p.u, p.f, p.msg, p.args, i);
            && PerformedAll(t0, Whole(p).options) == PerformedAll(t, e.options)
            && (e.fatal ==> Whole(p).fatal && now == Order(Whole(p)) + p.beyond)
            && Final(p, 0, [], [], t0)
            == (if RefusedWithArg(t, e.options) then (ops + [p.args[i]]) + nons + (p.args[i + 1..] + p.beyond) else now)
            && (RefusedWithArg(t, e.options) ==> !PerformedAll(t, e.options).1)
  {
    hide Scan, PerformedAll, RefusedWithArg, Element, Rest, Whole, Final;
    RestFails(p, i, t);
    FinalStep(p, i, ops, nons, t);
    RefusedIsRefused(t, Element(p.u, p.f, p.msg, p.args, i).options);
    if Element(p.u, p.f, p.msg, p.args, i).fatal {
      assert ops + [] == ops && nons + [] == nons;
      assert ops + nons + (p.args[i..] + p.beyond) == ops + nons + p.args[i..] + p.beyond;
    }
  }

  lemma {:induction false} RestFails(p: Pass, i: nat, t: Tally)
    requires i < |p.args| && IsOption(p.args[i]) && p.args[i] != "--"
    requires var e := Element(p.u, p.f, p.msg, p.args, i); e.fatal || !PerformedAll(t, e.options).1
    ensures var e := Element(p.u, p.f, p.msg, p.args, i);
            && PerformedAll(t, Rest(p, i).options) == PerformedAll(t, e.options)
            && (e.fatal ==> Rest(p, i) == Scanned(e.options, true, [], [], p.args[i..]))
  {
    hide Scan, PerformedAll, Element;
    ScanStep(p.gnu, p.u, p.f, p.msg, p.args, i, t);
  }

  lemma {:induction false} RestStep(p: Pass, i: nat, t: Tally)
    requires i < |p.args| && IsOption(p.args[i]) && p.args[i] != "--"
    requires !Element(p.u, p.f, p.msg, p.args, i).fatal
    ensures var r, e := Rest(p, i), Element(p.u, p.f, p.msg, p.args, i);
            && i < e.next <= |p.args|
            && var more, done := Rest(p, e.next), PerformedAll(t, e.options);
            && r.fatal == more.fatal && r.ops == p.args[i..e.next] + more.ops
            && r.nonops == more.nonops && r.tail == more.tail
            && |done.0.os| + |more.options| <= |t.os| + |r.options|
            && (done.1 ==> PerformedAll(t, r.options) == PerformedAll(done.0, more.options))
  {
    hide Scan, PerformedAll, Element;
    ScanStep(p.gnu, p.u, p.f, p.msg, p.args, i, t);
  }

  lemma {:induction false} ProgressElement(
    p: Pass, i: nat, now: seq<string>, ops: seq<string>, nons: seq<string>, t0: Tally, t: Tally, now': seq<string>)
    requires Progress(p, i, now, ops, nons, t0, t) && i < |p.args| && IsOption(p.args[i]) && p.args[i] != "--"
    requires var e := Element(p.u, p.f, p.msg, p.args, i);
             && !e.fatal && PerformedAll(t, e.options).1 && i < e.next <= |p.args|
             && now' == (ops + p.args[i..e.next]) + nons + (p.args[e.next..] + p.beyond)
    ensures var e := Element(p.u, p.f, p.msg, p.args, i);
            var t' := PerformedAll(t, e.options).0;
            && |t'.os| + |Rest(p, e.next).options| <= |t.os| + |Rest(p, i).options|
            && Progress(p, e.next, now', ops + p.args[i..e.next], nons, t0, t')
  {
    hide Scan, PerformedAll, RefusedWithArg, Element, Rest, Whole, Final;
    RestStep(p, i, t);
    FinalStep(p, i, ops, nons, t);
    RefusedIsRefused(t, Element(p.u, p.f, p.msg, p.args, i).options);
    var e := Element(p.u, p.f, p.msg, p.args, i);
    assert ops + (p.args[i..e.next] + Rest(p, e.next).ops) == ops + p.args[i..e.next] + Rest(p, e.next).ops;
  }

  lemma {:induction false} ElementFits(p: Pass, i: nat)
    requires i < |p.args| && IsOption(p.args[i]) && p.args[i] != "--"
    ensures |Element(p.u, p.f, p.msg, p.args, i).options| <= |Rest(p, i).options|
    ensures !Element(p.u, p.f, p.msg, p.args, i).fatal ==> i < Element(p.u, p.f, p.msg, p.args, i).next <= |p.args|
  {
    hide Element;
    ElementNext(p.u, p.f, p.msg, p.args, i);
  }

  lemma {:induction false} FinalEnd(p: Pass, i: nat, ops: seq<string>, nons: seq<string>, t: Tally)
    requires i <= |p.args| && (i == |p.args| || (!p.gnu && !IsOption(p.args[i])) || p.args[i] == "--")
    ensures Final(p, i, ops, nons, t)
         == if i < |p.args| && IsOption(p.args[i]) then (ops + ["--"]) + nons + (p.args[i + 1..] + p.beyond)
            else ops + nons + (p.args[i..] + p.beyond)
  {
  }

  /** At the end of the options: `now` is the vector with a `--` already moved. */
  lemma {:induction false} ProgressEnd(
    p: Pass, i: nat, now: seq<string>, ops: seq<string>, nons: seq<string>, t0: Tally, t: Tally)
    requires Progress(p, i, now, ops, nons, t0, t)
    requires i == |p.args| || (!p.gnu && !IsOption(p.args[i])) || p.args[i] == "--"
    ensures var r := Whole(p);
            && PerformedAll(t0, r.options) == (t, true) && !r.fatal && r.nonops == nons
            && if i < |p.args| && IsOption(p.args[i]) then
                 && r.ops == ops + ["--"] && r.tail == p.args[i + 1..]
                 && Order(r) + p.beyond == (ops + ["--"]) + nons + (p.args[i + 1..] + p.beyond)
               else r.ops == ops && r.tail == p.args[i..] && Order(r) + p.beyond == now
    ensures Final(p, 0, [], [], t0) == Order(Whole(p)) + p.beyond
  {
    ScanEnd(p.gnu, p.u, p.f, p.msg, p.args, i, t);
    FinalEnd(p, i, ops, nons, t);
    hide Scan, PerformedAll, Final;
    var tail := Whole(p).tail;
    assert Whole(p).ops + nons + tail + p.beyond == Whole(p).ops + nons + (tail + p.beyond);
  }

  /** A parameter, and the separate argument it used up, are moved in front of the non-option arguments. */
  method MoveElement(argv: array<string>, at: nat, nonops: nat, used: bool, ghost ops: seq<string>,
                     ghost nons: seq<string>, ghost rest: seq<string>)
    requires at < argv.Length && |rest| >= (if used then 2 else 1) && argv[..] == ops + nons + rest
    requires |ops + nons| == at && nonops == |nons|
    modifies argv
    ensures var k := if used then 2 else 1;
            argv[..] == (ops + rest[..k]) + nons + rest[k..]
  {
    MoveOption(argv, at, nonops, ops, nons, rest);
    assert [rest[0]] == rest[..1];
    if used {
      MoveOption(argv, at + 1, nonops, ops + [rest[0]], nons, rest[1..]);
      assert ops + [rest[0]] + [rest[1..][0]] == ops + rest[..2];
      assert rest[1..][1..] == rest[2..];
    }
  }

  lemma {:induction false} MovedCStrings(ops: seq<string>, nons: seq<string>, rest: seq<string>, k: nat)
    requires k <= |rest| && CStrings(ops + nons + rest)
    ensures CStrings((ops + rest[..k]) + nons + rest[k..])
    ensures nons == [] ==> (ops + rest[..k]) + nons + rest[k..] == ops + nons + rest
  {
    var was, now := ops + nons + rest, (ops + rest[..k]) + nons + rest[k..];
    forall i | 0 <= i < |now|
      ensures CString(now[i])
    {
      var j := if i < |ops| then i
               else if i < |ops| + k then i + |nons| else if i < |ops| + k + |nons| then i - k else i;
      assert now[i] == was[j];
    }
  }

  /** When an option is refused, its parameter has been moved if it was given a separate argument. */
  method LeaveElement(argv: array<string>, at: nat, nonops: nat, used: bool, ghost ops: seq<string>,
                      ghost nons: seq<string>, ghost rest: seq<string>)
    requires at < argv.Length && rest != [] && argv[..] == ops + nons + rest && CStrings(argv[..])
    requires |ops + nons| == at && nonops == |nons|
    modifies argv
    ensures argv[..] == if used then (ops + [rest[0]]) + nons + rest[1..] else old(argv[..])
    ensures CStrings(argv[..]) && (nons == [] ==> argv[..] == old(argv[..]))
  {
    hide CStrings;
    if used {
      MovedCStrings(ops, nons, rest, 1);
      assert rest[..1] == [rest[0]];
      MoveOption(argv, at, nonops, ops, nons, rest);
    }
  }

  lemma {:induction false} RestParts(args: seq<string>, beyond: seq<string>, i: nat, k: nat)
    requires i + k <= |args|
    ensures var rest := args[i..] + beyond;
            |rest| >= k && rest[..k] == args[i..i + k] && rest[k..] == args[i + k..] + beyond
  {
  }

  lemma {:induction false} PassFacts(p: Pass, argv: seq<string>, numargs: int)
    requires p.args == Args(argv, numargs) && p.beyond == argv[|p.args|..]
    ensures Whole(p) == Scan(p.gnu, p.u, p.f, p.msg, p.args, 0) == Rest(p, 0) && argv == p.args + p.beyond
    ensures |p.args| == if numargs < 0 || numargs > |argv| then |argv| else numargs
    ensures Rearranged(argv, numargs, Whole(p)) == Order(Whole(p)) + p.beyond
  {
    hide Scan, Order;
  }

  /** The pass is over because an option was illegal or refused. */
  ghost predicate Failed(p: Pass, now: seq<string>, t0: Tally, t: Tally) {
    var done := PerformedAll(t0, Whole(p).options);
    && t == done.0 && !(done.1 && !Whole(p).fatal)
    && (done.1 ==> now == Order(Whole(p)) + p.beyond) && now == Final(p, 0, [], [], t0)
  }

  lemma {:induction false} FailedFacts(p: Pass, argv: seq<string>, numargs: int, now: seq<string>, t0: Tally, t: Tally)
    requires p == PassOf(p.gnu, p.u, p.f, p.msg, argv, numargs) && Failed(p, now, t0, t)
    ensures var r := Scan(p.gnu, p.u, p.f, p.msg, Args(argv, numargs), 0);
            var done := PerformedAll(t0, r.options);
            && t == done.0 && !(done.1 && !r.fatal) && (done.1 ==> now == Rearranged(argv, numargs, r))
            && now == Final(p, 0, [], [], t0)
  {
    hide PerformedAll, Final, Scan, Order;
    PassFacts(p, argv, numargs);
  }

  /** One parameter is performed, in a vector rearranged so far. */
  method PerformElement(u: Usage, f: Flags, msg: bool, a: Action, argv: seq<string>, i: nat, haveMore: bool,
                        ghost p: Pass)
    returns (ok: bool, used: bool)
    requires p.u == u && p.f == f && p.msg == msg && i < |p.args| <= |argv| && IsOption(p.args[i]) && p.args[i] != "--"
    requires argv[i] == p.args[i] && (i + 1 < |p.args| ==> argv[i + 1] == p.args[i + 1])
    requires CUsage(u) && CStrings(argv) && a.Valid(u) && Listed(u, a)
    requires a.Room(|Element(u, f, msg, p.args, i).options|)
    requires haveMore && i + 1 < |argv| <==> i + 1 < |p.args|
    modifies a, a.options, a.buffer
    ensures a.Valid(u)
    ensures var e := Element(u, f, msg, p.args, i);
            var (t, all) := PerformedAll(old(a.State()), e.options);
            && a.State() == t && (ok <==> all && !e.fatal)
            && (ok ==> e.next == i + (if used then 2 else 1))
            && (!ok ==> used == RefusedWithArg(old(a.State()), e.options))
  {
    hide Performed, PerformedAll, RefusedWithArg, Holds, Element, Action.Valid, CStrings, CUsage;
    ghost var cur := argv[..|p.args|];
    SameElement(u, f, msg, p.args, i, cur, i);
    ok, used := DoElement(u, f, msg, a, argv, cur, i, haveMore);
  }

  /** One parameter: performed, and moved in front of the non-option arguments passed over. */
  method OneElement(u: Usage, f: Flags, msg: bool, a: Action, argv: array<string>, i: nat, haveMore: bool, nonops: nat,
                    ghost p: Pass, ghost ops: seq<string>, ghost nons: seq<string>, ghost t0: Tally)
    returns (ok: bool, used: bool)
    requires p.u == u && p.f == f && p.msg == msg && i < |p.args| && IsOption(p.args[i]) && p.args[i] != "--"
    requires CUsage(u) && CStrings(argv[..]) && a.Valid(u) && Listed(u, a) && a.Room(|Rest(p, i).options|)
    requires Progress(p, i, argv[..], ops, nons, t0, a.State()) && nonops == |nons|
    requires haveMore && i + 1 < argv.Length <==> i + 1 < |p.args|
    modifies argv, a, a.options, a.buffer
    ensures a.Valid(u)
    ensures !ok ==> Failed(p, argv[..], t0, a.State())
    ensures CStrings(argv[..]) && (!p.gnu ==> argv[..] == old(argv[..]))
    ensures var k := i + if used then 2 else 1;
            ok ==>
              && k <= |p.args| && Progress(p, k, argv[..], ops + p.args[i..k], nons, t0, a.State())
              && a.Room(|Rest(p, k).options|)
  {
    hide Performed, PerformedAll, RefusedWithArg, Holds, Element, Scan, Rest, Whole, Failed, Action.Valid, Progress,
      CStrings, CUsage;
    ghost var t := a.State();
    ProgressFacts(p, i, argv[..], ops, nons, t0, t);
    ElementFits(p, i);
    ok, used := PerformElement(u, f, msg, a, argv[..], i, haveMore, p);
    if ok {
      PlaceElement(argv, i, nonops, used, p, ops, nons, t0, t);
    } else {
      LeaveFailed(argv, i, nonops, used, p, ops, nons, t0, t);
    }
  }

  /** Moves the parameter just performed. */
  method PlaceElement(argv: array<string>, i: nat, nonops: nat, used: bool,
                      ghost p: Pass, ghost ops: seq<string>, ghost nons: seq<string>, ghost t0: Tally, ghost t: Tally)
    requires i < |p.args| && IsOption(p.args[i]) && p.args[i] != "--" && CStrings(argv[..])
    requires Progress(p, i, argv[..], ops, nons, t0, t) && nonops == |nons|
    requires var e := Element(p.u, p.f, p.msg, p.args, i);
             PerformedAll(t, e.options).1 && !e.fatal && e.next == i + (if used then 2 else 1) <= |p.args|
    modifies argv
    ensures CStrings(argv[..]) && (!p.gnu ==> argv[..] == old(argv[..]))
    ensures var e := Element(p.u, p.f, p.msg, p.args, i);
            var t' := PerformedAll(t, e.options).0;
            && Progress(p, e.next, argv[..], ops + p.args[i..e.next], nons, t0, t')
            && |t'.os| + |Rest(p, e.next).options| <= |t.os| + |Rest(p, i).options|
  {
    hide PerformedAll, Element, Scan, Rest, Whole, Progress, CStrings;
    ghost var now := argv[..];
    ProgressFacts(p, i, now, ops, nons, t0, t);
    ghost var rest := p.args[i..] + p.beyond;
    ghost var k := if used then 2 else 1;
    RestParts(p.args, p.beyond, i, k);
    MoveElement(argv, i, nonops, used, ops, nons, rest);
    MovedCStrings(ops, nons, rest, k);
    ProgressElement(p, i, now, ops, nons, t0, t, argv[..]);
  }

  /** Leaves a parameter that was illegal or refused. */
  method LeaveFailed(argv: array<string>, i: nat, nonops: nat, used: bool,
                     ghost p: Pass, ghost ops: seq<string>, ghost nons: seq<string>, ghost t0: Tally, ghost t: Tally)
    requires i < |p.args| && IsOption(p.args[i]) && p.args[i] != "--" && CStrings(argv[..])
    requires Progress(p, i, argv[..], ops, nons, t0, t) && nonops == |nons|
    requires var e := Element(p.u, p.f, p.msg, p.args, i);
             (!PerformedAll(t, e.options).1 || e.fatal) && used == RefusedWithArg(t, e.options)
    modifies argv
    ensures CStrings(argv[..]) && (!p.gnu ==> argv[..] == old(argv[..]))
    ensures Failed(p, argv[..], t0, PerformedAll(t, Element(p.u, p.f, p.msg, p.args, i).options).0)
  {
    hide PerformedAll, RefusedWithArg, Element, Scan, Rest, Whole, Final, Progress, Order, CStrings;
    ghost var now := argv[..];
    ProgressFacts(p, i, now, ops, nons, t0, t);
    ProgressFails(p, i, now, ops, nons, t0, t);
    RestParts(p.args, p.beyond, i, 1);
    LeaveElement(argv, i, nonops, used, ops, nons, p.args[i..] + p.beyond);
  }

  /** Parser::workhorse: `first` and `count` are the non-option arguments once the vector is rearranged. */
  method Workhorse(gnu: bool, u: Usage, f: Flags, msg: bool, argv: array<string>, numargs: int, a: Action)
    returns (ok: bool, first: nat, count: nat)
    requires CUsage(u) && CStrings(argv[..]) && a.Valid(u) && Listed(u, a)
    requires a.Room(|Scan(gnu, u, f, msg, Args(argv[..], numargs), 0).options|)
    modifies argv, a, a.options, a.buffer
    ensures a.Valid(u) && CStrings(argv[..]) && (!gnu ==> argv[..] == old(argv[..]))
    ensures var r := Scan(gnu, u, f, msg, Args(old(argv[..]), numargs), 0);
            var (t, all) := PerformedAll(old(a.State()), r.options);
            && a.State() == t && (ok <==> all && !r.fatal)
            && (all ==> argv[..] == Rearranged(old(argv[..]), numargs, r))
            && (ok ==> first == |r.ops| && count == NonOptions(argv.Length, numargs, r))
            && NoOptions(r.nonops)
    ensures argv[..] == Final(PassOf(gnu, u, f, msg, old(argv[..]), numargs), 0, [], [], old(a.State()))
  {
    hide Performed, PerformedAll, Holds, Element, Scan, Action.Valid, Progress, Order, CStrings, CUsage, Rest, Whole,
      Args, Rearranged, NonOptions, NoOptions, Final, Failed;
    NonopsAreNone(gnu, u, f, msg, Args(argv[..], numargs), 0);
    ghost var orig := argv[..];
    ghost var args := Args(orig, numargs);
    ghost var p := PassOf(gnu, u, f, msg, orig, numargs);
    PassFacts(p, orig, numargs);
    ghost var t0 := a.State();
    ghost var ops, nons: seq<string> := [], [];
    ProgressStart(p, t0);
    var i, left, nonops := 0, numargs, 0;
    ok, first, count := true, 0, 0;
    while left != 0 && i < argv.Length
      invariant 0 <= i <= |args| && a.Valid(u)
      invariant if numargs < 0 then left == numargs else left == numargs - i
      invariant nonops == |nons| && ok && Progress(p, i, argv[..], ops, nons, t0, a.State())
      invariant a.Room(|Rest(p, i).options|) && CStrings(argv[..]) && (!gnu ==> argv[..] == orig)
      decreases argv.Length - i
    {
      ProgressFacts(p, i, argv[..], ops, nons, t0, a.State());
      var param := argv[i];
      if |param| == 0 || param[0] != '-' || |param| == 1 {
        if !gnu {
          break;
        }
        ProgressOver(p, i, argv[..], ops, nons, t0, a.State());
        nons := nons + [param];
        nonops, i := nonops + 1, i + 1;
        if left > 0 {
          left := left - 1;
        }
        continue;
      }
      if param[1] == '-' && |param| == 2 {
        break;
      }
      var used;
      ok, used := OneElement(u, f, msg, a, argv, i, left > 1 || left < 0, nonops, p, ops, nons, t0);
      if !ok {
        FailedFacts(p, orig, numargs, argv[..], t0, a.State());
        return;
      }
      ops := ops + args[i..if used then i + 2 else i + 1];
      i := if used then i + 2 else i + 1;
      if left > 0 {
        left := left - if used then 2 else 1;
      }
    }
    first, count := Finish(argv, numargs, i, left, nonops, p, ops, nons, t0, a.State());
  }

  /** The end of the options: a `--` is moved too, and skipped. */
  method Finish(argv: array<string>, numargs: int, i: nat, left: int, nonops: nat,
                ghost p: Pass, ghost ops: seq<string>, ghost nons: seq<string>, ghost t0: Tally, ghost t: Tally)
    returns (first: nat, count: nat)
    requires Progress(p, i, argv[..], ops, nons, t0, t) && nonops == |nons| && i <= |p.args|
    requires i == |p.args| || (!p.gnu && !IsOption(p.args[i])) || p.args[i] == "--"
    requires if numargs < 0 then left == numargs else left == numargs - i
    requires |p.args| == (if numargs < 0 || numargs > argv.Length then argv.Length else numargs) && CStrings(argv[..])
    modifies argv
    ensures CStrings(argv[..]) && (!p.gnu ==> argv[..] == old(argv[..]))
    ensures var r := Whole(p);
            && PerformedAll(t0, r.options) == (t, true) && !r.fatal && argv[..] == Order(r) + p.beyond
            && first == |r.ops| && count == NonOptions(argv.Length, numargs, r)
            && argv[..] == Final(p, 0, [], [], t0)
  {
    hide Progress, Scan, Whole, PerformedAll, Order, CStrings, Final;
    ghost var rest := p.args[i..] + p.beyond;
    ProgressFacts(p, i, argv[..], ops, nons, t0, t);
    ProgressEnd(p, i, argv[..], ops, nons, t0, t);
    var end, still := i, left;
    if left != 0 && i < argv.Length && argv[i] == "--" {
      MoveOption(argv, i, nonops, ops, nons, rest);
      MovedCStrings(ops, nons, rest, 1);
      assert rest[..1] == [rest[0]];
      assert [rest[0]] == ["--"] && rest[1..] == p.args[i + 1..] + p.beyond;
      end := end + 1;
      if still > 0 {
        still := still - 1;
      }
    }
    first := end - nonops;
    count := Remaining(argv.Length, end, still);
    count := count + nonops;
  }

  /** The arguments left in a vector of `length`, counted where the caller gave no number. */
  method Remaining(length: nat, i: nat, left: int) returns (n: nat)
    requires i <= length
    ensures n == if left < 0 || (left > 0 && i == length) then length - i else left
  {
    if left >= 0 {
      n := if left > 0 && i == length then 0 else left;
      return;
    }
    n := 0;
    while i + n < length
      invariant i + n <= length
    {
      n := n + 1;
    }
  }

  /** How many non-option arguments are reported: a count beyond the end of the vector is corrected only at its end. */
  function NonOptions(length: nat, numargs: int, r: Scanned): int {
    if numargs > length && r.tail != [] then numargs - |r.ops| else |r.nonops| + |r.tail|
  }

  /**
   The number reported is that of the arguments behind the options if and only if the count given does not exceed the
   vector, or the options reach its end.
   */
  lemma {:induction false} NonOptionsRight(
    gnu: bool, u: Usage, f: Flags, msg: bool, argv: seq<string>, numargs: int)
    ensures var args := Args(argv, numargs);
            var r := Scan(gnu, u, f, msg, args, 0);
            && |r.ops| + |r.nonops| + |r.tail| == |args|
            && (NonOptions(|argv|, numargs, r) == |args| - |r.ops| <==> numargs <= |argv| || r.tail == [])
  {
    hide Scan;
    var args := Args(argv, numargs);
    var r := Scan(gnu, u, f, msg, args, 0);
    Moved(gnu, u, f, msg, args, 0);
    assert args[0..] == args;
    assert |Order(r)| == |multiset(Order(r))| == |multiset(args)| == |args|;
  }

  /** Stats::add: `optionsMax` and `bufferMax` grow to the sizes that the arrays need, one free slot included. */
  class Stats {
    var bufferMax: nat
    var optionsMax: nat

    ghost predicate Valid()
      reads this
    {
      1 <= bufferMax <= LIMIT && optionsMax < UNSIGNED
    }

    constructor ()
      ensures Valid() && bufferMax == 1 && optionsMax == 1
    {
      bufferMax, optionsMax := 1, 1;
    }

    method Add(gnu: bool, u: Usage, f: Flags, argv: array<string>, numargs: int)
      requires Valid() && CUsage(u) && CStrings(argv[..])
      modifies this, argv
      ensures Valid() && CStrings(argv[..]) && (!gnu ==> argv[..] == old(argv[..]))
      ensures var r := Scan(gnu, u, f, false, Args(old(argv[..]), numargs), 0);
              && bufferMax == Min(old(bufferMax) + |r.options|, LIMIT)
              && (old(bufferMax) + |r.options| <= LIMIT ==> argv[..] == Rearranged(old(argv[..]), numargs, r))
      ensures (forall d :: 0 <= d < |u| ==> u[d].index + 1 < optionsMax) <==> SmallIndices(u)
      ensures (forall d :: 0 <= d < |u| ==> Inside(u[d].index, optionsMax)) <==> IntIndices(u)
      ensures SmallIndices(u) ==> optionsMax >= old(optionsMax)
    {
      hide Scan, PerformedAll, CUsage, CStrings, Order, Final, NoOptions, Rearranged, Args;
      optionsMax := OptionsMax(u, optionsMax);
      var a := new Action.Count(bufferMax);
      CountedAll(a.State(), Scan(gnu, u, f, false, Args(argv[..], numargs), 0).options);
      var _, _, _ := Workhorse(gnu, u, f, false, argv, numargs, a);
      bufferMax := a.bufferMax;
    }
  }

  /** One more than each index, and a free slot, still fit. */
  ghost predicate SmallIndices(u: Usage) {
    forall d :: 0 <= d < |u| ==> u[d].index + 2 < UNSIGNED
  }

  /** Every list can be reached through a signed int. */
  ghost predicate IntIndices(u: Usage) {
    forall d :: 0 <= d < |u| ==> u[d].index <= INT_MAX
  }

  /** The arithmetic is unsigned, so a usage with a larger index is not sized for. */
  method OptionsMax(u: Usage, was: nat) returns (max: nat)
    requires was < UNSIGNED
    ensures (forall d :: 0 <= d < |u| ==> u[d].index + 1 < max) <==> SmallIndices(u)
    ensures max < UNSIGNED && (SmallIndices(u) ==> was <= max)
    ensures (forall d :: 0 <= d < |u| ==> Inside(u[d].index, max)) <==> IntIndices(u)
  {
    max := was;
    for i := 0 to |u|
      invariant max < UNSIGNED
      invariant SmallIndices(u) ==> was <= max && forall d :: 0 <= d < i ==> u[d].index + 1 < max
    {
      if (u[i].index + 1) % UNSIGNED >= max {
        max := (u[i].index + 2) % UNSIGNED;
      }
    }
  }

  class Parser {
    var opCount: nat
    var nonopCount: int
    var nonopFirst: nat
    var err: bool

    constructor ()
      ensures opCount == 0 && nonopCount == 0 && !err
    {
      opCount, nonopCount, nonopFirst, err := 0, 0, 0, false;
    }

    /**
     Parser::parse, into arrays that may already hold the options `os` of an earlier call. The options of the vector
     are added behind them, as many as there is room for, and without a bound they all fit when the arrays were sized
     for them.
     */
    method ParseArgs(gnu: bool, u: Usage, f: Flags, argv: array<string>, numargs: int,
                     options: array<Cell>, buffer: array<Cell>, bufmax: int, ghost os: seq<Opt>)
      requires CUsage(u) && CStrings(argv[..]) && options != buffer
      requires Holds(u, Memory(options[..], buffer[..]), os) && |os| <= LIMIT
      requires forall d :: 0 <= d < |u| ==> Inside(u[d].index, options.Length)
      requires bufmax <= buffer.Length && bufmax <= LIMIT && (bufmax >= 0 ==> |os| <= bufmax)
      requires bufmax < 0 ==>
        && |os| < buffer.Length
        && (LIMIT <= buffer.Length
            || |os| + |Scan(gnu, u, f, true, Args(argv[..], numargs), 0).options| <= buffer.Length)
      modifies this, argv, options, buffer
      ensures CStrings(argv[..]) && (!gnu ==> argv[..] == old(argv[..]))
      ensures var r := Scan(gnu, u, f, true, Args(old(argv[..]), numargs), 0);
              var room := (if bufmax < 0 then LIMIT else bufmax) - |os|;
              && Holds(u, Memory(options[..], buffer[..]), os + r.options[..Min(|r.options|, room)])
              && opCount == |os| + Min(|r.options|, room)
              && (err <==> r.fatal || (bufmax < 0 && |r.options| > room))
              && (!err ==> argv[..] == Rearranged(old(argv[..]), numargs, r))
              && (!err && NonOptions(argv.Length, numargs, r) > 0 ==>
                    nonopFirst == |r.ops| && nonopCount == NonOptions(argv.Length, numargs, r))
              && (err || NonOptions(argv.Length, numargs, r) <= 0 ==>
                    nonopFirst == old(nonopFirst) && nonopCount == old(nonopCount))
    {
      hide Holds, Scan, PerformedAll, CUsage, CStrings, Order, Final, NoOptions, Rearranged, NonOptions, Args;
      ghost var all := Scan(gnu, u, f, true, Args(argv[..], numargs), 0).options;
      var a := new Action.Store(u, options, buffer, bufmax, os);
      StoredAll(a.State(), all);
      var ok, first, count := Workhorse(gnu, u, f, true, argv, numargs, a);
      opCount, err := a.opCount, !ok;
      if ok && count > 0 {
        nonopFirst, nonopCount := first, count;
      }
    }
  }

  /**
   A command line sized by one pass, into arrays of just that size, and stored by a second one; the router's tool does
   so in POSIX mode. Both arrays end with a free slot unless the options reach the limit of a signed int. In GNU mode
   the first pass moves the options of the vector, and the second still finds the same ones if they are kept.
   */
  method ParseCommandLine(gnu: bool, u: Usage, f: Flags, argv: array<string>, numargs: int)
    returns (parser: Parser, options: array<Cell>, buffer: array<Cell>)
    requires CUsage(u) && CStrings(argv[..]) && IntIndices(u)
    requires PassAlike(gnu, u, f, Args(argv[..], numargs), 0)
    requires var args := Args(argv[..], numargs);
             var r := Scan(gnu, u, f, true, args, 0);
             gnu ==> |r.options| < 0x7fff_ffff && Kept(u, f, true, args, 0, Order(r), 0)
    modifies argv
    ensures var r := Scan(gnu, u, f, true, Args(old(argv[..]), numargs), 0);
            && Holds(u, Memory(options[..], buffer[..]), r.options[..Min(|r.options|, 0x7fff_ffff)])
            && buffer.Length == Min(|r.options| + 1, 0x7fff_ffff)
            && (parser.err <==> r.fatal || |r.options| > 0x7fff_ffff)
            && parser.opCount == Min(|r.options|, 0x7fff_ffff)
            && options.Length > 0 && options[options.Length - 1].slot == Empty
            && (buffer[buffer.Length - 1].slot == Empty <==> |r.options| < 0x7fff_ffff)
  {
    hide Scan, Holds, PassAlike, Kept, CUsage, CStrings, Order;
    ghost var r := Scan(gnu, u, f, true, Args(argv[..], numargs), 0);
    PassesAgree(gnu, u, f, Args(argv[..], numargs), 0);
    var stats := new Stats();
    ghost var was := argv[..];
    stats.Add(gnu, u, f, argv, numargs);
    if gnu {
      SizedVector(u, f, was, numargs, argv[..]);
    }
    options, buffer := FreshArrays(u, stats.optionsMax, stats.bufferMax);
    parser := new Parser();
    Store(gnu, u, f, argv, numargs, parser, options, buffer);
  }

  /** What the second pass finds in the vector that the first one left. */
  lemma {:induction false} SizedVector(u: Usage, f: Flags, was: seq<string>, numargs: int, now: seq<string>)
    requires var args := Args(was, numargs);
             var r := Scan(true, u, f, true, args, 0);
             now == Rearranged(was, numargs, r) && Kept(u, f, true, args, 0, Order(r), 0)
    ensures var r, r' := Scan(true, u, f, true, Args(was, numargs), 0), Scan(true, u, f, true, Args(now, numargs), 0);
            r'.options == r.options && r'.fatal == r.fatal
  {
    hide Scan, Kept, Order;
    var args := Args(was, numargs);
    SecondPass(true, u, f, true, args);
    assert |now| == |was|;
    assert Args(now, numargs) == Order(Scan(true, u, f, true, args, 0));
  }

  method Store(gnu: bool, u: Usage, f: Flags, argv: array<string>, numargs: int, parser: Parser,
               options: array<Cell>, buffer: array<Cell>)
    requires CUsage(u) && CStrings(argv[..]) && options != buffer && Holds(u, Memory(options[..], buffer[..]), [])
    requires buffer.Length == Min(|Scan(gnu, u, f, true, Args(argv[..], numargs), 0).options| + 1, LIMIT)
    requires options.Length > 0 && IntIndices(u) && forall d :: 0 <= d < |u| ==> u[d].index + 1 < options.Length
    modifies parser, argv, options, buffer
    ensures var r := Scan(gnu, u, f, true, Args(old(argv[..]), numargs), 0);
            && Holds(u, Memory(options[..], buffer[..]), r.options[..Min(|r.options|, LIMIT)])
            && (parser.err <==> r.fatal || |r.options| > LIMIT)
            && parser.opCount == Min(|r.options|, LIMIT)
            && options[options.Length - 1].slot == Empty
            && (buffer[buffer.Length - 1].slot == Empty <==> |r.options| < LIMIT)
  {
    hide Scan, Holds, CUsage, CStrings, Order;
    ghost var all := Scan(gnu, u, f, true, Args(argv[..], numargs), 0).options;
    parser.ParseArgs(gnu, u, f, argv, numargs, options, buffer, -1, []);
    ghost var os := all[..Min(|all|, LIMIT)];
    assert [] + os == os;
    FreeSlots(u, Memory(options[..], buffer[..]), os);
  }

  method FreshArrays(ghost u: Usage, optionsMax: nat, bufferMax: nat)
    returns (options: array<Cell>, buffer: array<Cell>)
    ensures fresh(options) && fresh(buffer) && options != buffer
    ensures options.Length == optionsMax && buffer.Length == bufferMax
    ensures Holds(u, Memory(options[..], buffer[..]), [])
  {
    options := new Cell[optionsMax](k requires k >= 0 => Single(Empty, Head(k)));
    buffer := new Cell[bufferMax](i requires i >= 0 => Single(Empty, Buf(i)));
    FreshHolds(u, Memory(options[..], buffer[..]));
  }

  lemma {:induction false} FreeSlots(u: Usage, m: Memory, os: seq<Opt>)
    requires Holds(u, m, os) && |m.options| > 0 && |m.buffer| > 0
    requires forall d :: 0 <= d < |u| ==> u[d].index + 1 < |m.options|
    ensures m.options[|m.options| - 1].slot == Empty
    ensures m.buffer[|m.buffer| - 1].slot == Empty <==> |os| < |m.buffer|
  {
    hide Chain, OfIndex, Linked;
    ChainEmpty(u, os, |m.options| - 1);
  }

  lemma {:induction false} ChainEmpty(u: Usage, os: seq<Opt>, k: nat)
    requires Described(u, os) && forall d :: 0 <= d < |u| ==> u[d].index != k
    ensures Chain(u, os, k) == []
  {
    if os != [] {
      ChainEmpty(u, os[..|os| - 1], k);
    }
  }

  /**
   Sizing does not see that limit: a descriptor of index 2^31 is sized for and its option is found, and storing it
   would reach 2^31 lists before the array.
   */
  lemma {:induction false} SizedButOutside()
    ensures exists u: Usage, f: Flags, args: seq<string> ::
      && |u| == 1 && SmallIndices(u) && |Scan(false, u, f, true, args, 0).options| == 1
      && Scan(false, u, f, true, args, 0).options[0].desc == 0
      && forall length: nat :: !Inside(u[0].index, length)
  {
    var check := (name: string, arg: Arg, msg: bool) => ArgNone;
    var u, f, args := [Descriptor(0x8000_0000, "a", "all", check)], Flags(0, false), ["-a"];
    assert Find(u, Short('a'), 0) == 0;
    assert ShortGroup(u, true, args, 0, 2) == Step([], false, 1);
    assert ShortGroup(u, true, args, 0, 1) == Step([Opt(0, "a", NoArg)] + [], false, 1);
    assert Scan(false, u, f, true, args, 1).options == [];
    assert Scan(false, u, f, true, args, 0).options == [Opt(0, "a", NoArg)] + [];
    assert ListIndex(u[0].index) == -0x8000_0000;
    assert SmallIndices(u);
  }
}
