/**
 Command lines: which options a vector of arguments holds in POSIX mode, and the loop that finds them and hands
 each one to an action. A C string is a sequence without the terminating character.
 */
module OptionParser {
  datatype ArgStatus = ArgNone | ArgOk | ArgIgnore | ArgIllegal

  /** `Attached`: part of the same element; `Detached`: the following element of the vector. */
  datatype Arg = NoArg | Attached(text: string) | Detached(text: string)

  /** The values of an unsigned int. */
  const UNSIGNED: nat := 0x1_0000_0000
  type Unsigned = x: nat | x < UNSIGNED

  /** `check` is given the name, the possible argument and whether it may print a message. */
  datatype Descriptor = Descriptor(
    index: Unsigned, shortopt: string, longopt: string, check: (string, Arg, bool) -> ArgStatus)

  /** A parsed option: `desc` is its place in the usage. */
  datatype Opt = Opt(desc: nat, name: string, arg: Arg)

  /** The array of descriptors up to its terminating entry. */
  type Usage = seq<Descriptor>

  datatype Flags = Flags(minAbbrLen: int, singleMinusLongopt: bool)

  const NUL: char := '\0'

  predicate CString(s: string) { NUL !in s }

  predicate CUsage(u: Usage) {
    forall d :: 0 <= d < |u| ==> CString(u[d].shortopt) && CString(u[d].longopt)
  }

  predicate CStrings(args: seq<string>) {
    forall i :: 0 <= i < |args| ==> CString(args[i])
  }

  /** The character of a C string at a place up to its end. */
  function At(s: string, i: nat): char
    requires i <= |s|
  {
    if i < |s| then s[i] else NUL
  }

  // ----- matching -----

  /** `s` is the whole of `t`, or of the part of `t` before an equals sign. */
  predicate Names(s: string, t: string) {
    s <= t && (|s| == |t| || t[|s|] == '=')
  }

  /** The common prefix of `s` and `t` reaches an end or equals sign of `t`, and is long enough. */
  predicate Abbreviates(s: string, t: string, min: int) {
    exists n :: 0 <= n <= |s| && n <= |t| && PrefixStop(s, t, n)
      && (n == |s| || (min > 0 && n >= min)) && (n == |t| || t[n] == '=')
  }

  /** `n` is the length of the longest common prefix. */
  predicate PrefixStop(s: string, t: string, n: nat)
    requires n <= |s| && n <= |t|
  {
    s[..n] == t[..n] && (n < |s| && n < |t| ==> s[n] != t[n])
  }

  lemma {:induction false} LongestPrefix(s: string, t: string, n: nat, m: nat)
    requires n <= |s| && n <= |t| && m <= |s| && m <= |t|
    requires PrefixStop(s, t, n) && s[..m] == t[..m]
    ensures m <= n
  {
    assert forall j :: 0 <= j < m ==> s[j] == s[..m][j] && t[j] == t[..m][j];
  }

  method StrEq(s: string, t: string) returns (r: bool)
    requires CString(s) && CString(t)
    ensures r <==> Names(s, t)
  {
    var i := 0;
    while At(s, i) != NUL
      invariant 0 <= i <= |s| && i <= |t| && s[..i] == t[..i]
      decreases |s| - i
    {
      if At(s, i) != At(t, i) {
        return false;
      }
      i := i + 1;
    }
    r := At(t, i) == NUL || At(t, i) == '=';
  }

  method StrEqAbbr(s: string, t: string, min: int) returns (r: bool)
    requires CString(s) && CString(t)
    ensures r <==> Abbreviates(s, t, min)
  {
    var i := 0;
    while At(s, i) != NUL && At(s, i) == At(t, i)
      invariant 0 <= i <= |s| && i <= |t| && s[..i] == t[..i]
      decreases |s| - i
    {
      i := i + 1;
    }
    assert PrefixStop(s, t, i);
    forall n | 0 <= n <= |s| && n <= |t| && PrefixStop(s, t, n)
      ensures n == i
    {
      LongestPrefix(s, t, i, n);
      LongestPrefix(s, t, n, i);
    }
    r := (At(s, i) == NUL || (min > 0 && i >= min)) && (At(t, i) == NUL || At(t, i) == '=');
  }

  method InStr(ch: char, s: string) returns (r: bool)
    requires CString(s)
    ensures r <==> ch in s || ch == NUL
  {
    var i := 0;
    while At(s, i) != NUL && At(s, i) != ch
      invariant 0 <= i <= |s| && ch !in s[..i]
      decreases |s| - i
    {
      i := i + 1;
    }
    r := At(s, i) == ch;
    assert i == |s| ==> s[..i] == s;
  }

  // ----- finding a descriptor -----

  /** The first descriptor from `from` on with the property, or the end of the usage. */
  ghost function Find(u: Usage, p: Descriptor -> bool, from: nat): (d: nat)
    requires from <= |u|
    ensures from <= d <= |u| && (forall e :: from <= e < d ==> !p(u[e])) && (d < |u| ==> p(u[d]))
    decreases |u| - from
  {
    if from == |u| || p(u[from]) then from else Find(u, p, from + 1)
  }

  ghost function Exact(t: string): Descriptor -> bool { (d: Descriptor) => Names(d.longopt, t) }

  ghost function Abbreviated(t: string, min: int): Descriptor -> bool {
    (d: Descriptor) => Abbreviates(d.longopt, t, min)
  }

  ghost function Short(c: char): Descriptor -> bool { (d: Descriptor) => c in d.shortopt }

  /** The entry that collects unknown options. */
  ghost function Dummy(): Descriptor -> bool { (d: Descriptor) => d.shortopt == "" && d.longopt == "" }

  /** An exact match, or else the only abbreviation. */
  ghost function LongIndex(u: Usage, f: Flags, t: string): (d: nat)
    ensures d <= |u|
  {
    var exact := Find(u, Exact(t), 0);
    if exact < |u| || f.minAbbrLen <= 0 then exact
    else
      var i1 := Find(u, Abbreviated(t, f.minAbbrLen), 0);
      if i1 < |u| && Find(u, Abbreviated(t, f.minAbbrLen), i1 + 1) == |u| then i1 else |u|
  }

  ghost function OrDummy(u: Usage, d: nat): (r: nat)
    requires d <= |u|
    ensures r <= |u|
  {
    if d < |u| then d else Find(u, Dummy(), 0)
  }

  lemma {:induction false} FoundHere(u: Usage, p: Descriptor -> bool, from: nat, d: nat)
    requires from <= d <= |u| && (forall e :: from <= e < d ==> !p(u[e])) && (d < |u| ==> p(u[d]))
    ensures Find(u, p, from) == d
  {
  }

  method FindLongExact(u: Usage, t: string) returns (d: nat)
    requires CUsage(u) && CString(t)
    ensures d == Find(u, Exact(t), 0)
  {
    d := 0;
    while d < |u|
      invariant 0 <= d <= |u|
      invariant forall e :: 0 <= e < d ==> !Names(u[e].longopt, t)
    {
      var match_ := StrEq(u[d].longopt, t);
      if match_ {
        break;
      }
      d := d + 1;
    }
    FoundHere(u, Exact(t), 0, d);
  }

  method FindLongAbbr(u: Usage, t: string, min: int, from: nat) returns (d: nat)
    requires CUsage(u) && CString(t) && from <= |u|
    ensures d == Find(u, Abbreviated(t, min), from)
  {
    d := from;
    while d < |u|
      invariant from <= d <= |u|
      invariant forall e :: from <= e < d ==> !Abbreviates(u[e].longopt, t, min)
    {
      var match_ := StrEqAbbr(u[d].longopt, t, min);
      if match_ {
        break;
      }
      d := d + 1;
    }
    FoundHere(u, Abbreviated(t, min), from, d);
  }

  method FindLong(u: Usage, f: Flags, t: string) returns (d: nat)
    requires CUsage(u) && CString(t)
    ensures d == LongIndex(u, f, t)
  {
    d := FindLongExact(u, t);
    if d == |u| && f.minAbbrLen > 0 {
      var i1 := FindLongAbbr(u, t, f.minAbbrLen, 0);
      if i1 != |u| {
        var i2 := FindLongAbbr(u, t, f.minAbbrLen, i1 + 1);
        if i2 == |u| {
          d := i1;
        }
      }
    }
  }

  method FindShort(u: Usage, c: char) returns (d: nat)
    requires CUsage(u) && c != NUL
    ensures d == Find(u, Short(c), 0)
  {
    d := 0;
    while d < |u|
      invariant 0 <= d <= |u|
      invariant forall e :: 0 <= e < d ==> c !in u[e].shortopt
    {
      var match_ := InStr(c, u[d].shortopt);
      if match_ {
        break;
      }
      d := d + 1;
    }
    FoundHere(u, Short(c), 0, d);
  }

  method FindDummy(u: Usage) returns (d: nat)
    ensures d == Find(u, Dummy(), 0)
  {
    d := 0;
    while d < |u| && (u[d].shortopt != "" || u[d].longopt != "")
      invariant 0 <= d <= |u|
      invariant forall e :: 0 <= e < d ==> !(u[e].shortopt == "" && u[e].longopt == "")
    {
      d := d + 1;
    }
    FoundHere(u, Dummy(), 0, d);
  }

  // ----- the options of a vector -----

  /** What one element of the vector amounts to; `next` is the element after it and its argument. */
  datatype Step = Step(options: seq<Opt>, fatal: bool, next: nat)

  /** `rest`: where the non-option arguments begin. */
  datatype Outcome = Outcome(options: seq<Opt>, fatal: bool, rest: nat)

  /** The following element, as a possible argument. */
  function Following(args: seq<string>, i: nat): Arg {
    if i + 1 < |args| then Detached(args[i + 1]) else NoArg
  }

  /** The first equals sign from `j` on, or the end. */
  function Equals(s: string, j: nat): (r: nat)
    requires j <= |s|
    ensures j <= r <= |s| && (r < |s| ==> s[r] == '=')
    ensures forall m :: j <= m < r ==> s[m] != '='
    decreases |s| - j
  {
    if j == |s| || s[j] == '=' then j else Equals(s, j + 1)
  }

  function LongArg(args: seq<string>, i: nat, j: nat): Arg
    requires i < |args| && j <= |args[i]|
  {
    var e := Equals(args[i], j);
    if e < |args[i]| then Attached(args[i][e + 1..]) else Following(args, i)
  }

  function ShortArg(args: seq<string>, i: nat, j: nat): Arg
    requires i < |args| && j < |args[i]|
  {
    if j + 1 < |args[i]| then Attached(args[i][j + 1..]) else Following(args, i)
  }

  /** An accepted argument that is an element of its own is used up. */
  function After(i: nat, arg: Arg): nat {
    if arg.Detached? then i + 2 else i + 1
  }

  /** A long option whose name starts at `j`, with its descriptor, if any. */
  ghost function LongOption(u: Usage, msg: bool, args: seq<string>, i: nat, j: nat, d: nat): Step
    requires i < |args| && j <= |args[i]| && d <= |u|
  {
    var arg := LongArg(args, i, j);
    if d == |u| then Step([], false, i + 1)
    else
      var status := u[d].check(args[i], arg, msg);
      if status == ArgIllegal then Step([], true, i)
      else if status == ArgOk then Step([Opt(d, args[i], arg)], false, After(i, arg))
      else Step([Opt(d, args[i], NoArg)], false, i + 1)
  }

  /** The short options from character `j` of element `i` on; one with an argument ends the group. */
  ghost function ShortGroup(u: Usage, msg: bool, args: seq<string>, i: nat, j: nat): Step
    requires i < |args| && j <= |args[i]|
    decreases |args[i]| - j
  {
    if j == |args[i]| then Step([], false, i + 1)
    else
      var d := OrDummy(u, Find(u, Short(args[i][j]), 0));
      var arg, name := ShortArg(args, i, j), args[i][j..];
      if d == |u| then ShortGroup(u, msg, args, i, j + 1)
      else
        var status := u[d].check(name, arg, msg);
        if status == ArgIllegal then Step([], true, i)
        else if status == ArgOk then Step([Opt(d, name, arg)], false, After(i, arg))
        else
          var more := ShortGroup(u, msg, args, i, j + 1);
          more.(options := [Opt(d, name, NoArg)] + more.options)
  }

  /** A lone minus is not an option. */
  predicate IsOption(s: string) { |s| > 1 && s[0] == '-' }

  ghost function Element(u: Usage, f: Flags, msg: bool, args: seq<string>, i: nat): Step
    requires i < |args| && IsOption(args[i])
  {
    var s := args[i];
    if s[1] == '-' then LongOption(u, msg, args, i, 2, OrDummy(u, LongIndex(u, f, s[2..])))
    else if f.singleMinusLongopt && LongIndex(u, f, s[1..]) < |u| then
      LongOption(u, msg, args, i, 1, LongIndex(u, f, s[1..]))
    else ShortGroup(u, msg, args, i, 1)
  }

  lemma {:induction false} ShortGroupNext(u: Usage, msg: bool, args: seq<string>, i: nat, j: nat)
    requires i < |args| && j <= |args[i]|
    ensures var r := ShortGroup(u, msg, args, i, j);
            !r.fatal ==> i < r.next <= |args|
    decreases |args[i]| - j
  {
    if j < |args[i]| {
      ShortGroupNext(u, msg, args, i, j + 1);
    }
  }

  lemma {:induction false} ElementNext(u: Usage, f: Flags, msg: bool, args: seq<string>, i: nat)
    requires i < |args| && IsOption(args[i])
    ensures var r := Element(u, f, msg, args, i);
            !r.fatal ==> i < r.next <= |args|
  {
    ShortGroupNext(u, msg, args, i, 1);
    hide ShortGroup;
  }

  /** The first non-option argument ends the options, and so does `--`, which is skipped. */
  ghost function Parse(u: Usage, f: Flags, msg: bool, args: seq<string>, i: nat): (r: Outcome)
    requires i <= |args|
    ensures !r.fatal ==> i <= r.rest <= |args|
    decreases |args| - i
  {
    if i == |args| || !IsOption(args[i]) then Outcome([], false, i)
    else if args[i] == "--" then Outcome([], false, i + 1)
    else
      var e := Element(u, f, msg, args, i);
      if e.fatal then Outcome(e.options, true, i)
      else
        ElementNext(u, f, msg, args, i);
        var r := Parse(u, f, msg, args, e.next);
        r.(options := e.options + r.options)
  }

  /** Every option found has a descriptor. */
  ghost predicate Described(u: Usage, os: seq<Opt>) {
    forall o :: o in os ==> o.desc < |u|
  }

  // ----- what follows the options is not looked at -----

  lemma {:induction false} SameGroup(u: Usage, msg: bool, a: seq<string>, i: nat, b: seq<string>, n: nat, j: nat)
    requires i < |a| && n < |b| && a[i] == b[n] && Following(a, i) == Following(b, n) && j <= |a[i]|
    ensures var e, e' := ShortGroup(u, msg, a, i, j), ShortGroup(u, msg, b, n, j);
            e'.fatal == e.fatal && (!e.fatal ==> e'.next - n == e.next - i) && e'.options == e.options
    decreases |a[i]| - j
  {
    if j < |a[i]| {
      SameGroup(u, msg, a, i, b, n, j + 1);
    }
  }

  lemma {:induction false} SameElement(u: Usage, f: Flags, msg: bool, a: seq<string>, i: nat, b: seq<string>, n: nat)
    requires i < |a| && n < |b| && a[i] == b[n] && Following(a, i) == Following(b, n) && IsOption(a[i])
    ensures var e, e' := Element(u, f, msg, a, i), Element(u, f, msg, b, n);
            e'.fatal == e.fatal && (!e.fatal ==> e'.next - n == e.next - i) && e'.options == e.options
  {
    hide ShortGroup, LongIndex, Find, LongOption;
    var s := a[i];
    if s[1] != '-' && !(f.singleMinusLongopt && LongIndex(u, f, s[1..]) < |u|) {
      SameGroup(u, msg, a, i, b, n, 1);
    } else {
      var j := if s[1] == '-' then 2 else 1;
      var d := if s[1] == '-' then OrDummy(u, LongIndex(u, f, s[2..])) else LongIndex(u, f, s[1..]);
      SameLong(u, msg, a, i, b, n, j, d);
    }
  }

  lemma {:induction false} SameLong(
    u: Usage, msg: bool, a: seq<string>, i: nat, b: seq<string>, n: nat, j: nat, d: nat)
    requires i < |a| && n < |b| && a[i] == b[n] && Following(a, i) == Following(b, n) && j <= |a[i]| && d <= |u|
    ensures var e, e' := LongOption(u, msg, a, i, j, d), LongOption(u, msg, b, n, j, d);
            e'.fatal == e.fatal && (!e.fatal ==> e'.next - n == e.next - i) && e'.options == e.options
  {
  }

  lemma {:induction false} ParseStops(u: Usage, f: Flags, msg: bool, args: seq<string>, i: nat)
    requires i <= |args| && (i == |args| || !IsOption(args[i]) || args[i] == "--")
    ensures Parse(u, f, msg, args, i) == Outcome([], false, if i < |args| && IsOption(args[i]) then i + 1 else i)
  {
  }

  lemma {:induction false} ParseElement(u: Usage, f: Flags, msg: bool, args: seq<string>, i: nat)
    requires i < |args| && IsOption(args[i]) && args[i] != "--"
    ensures var e := Element(u, f, msg, args, i);
            if e.fatal then Parse(u, f, msg, args, i) == Outcome(e.options, true, i)
            else
              && i < e.next <= |args|
              && var r := Parse(u, f, msg, args, e.next);
              Parse(u, f, msg, args, i) == r.(options := e.options + r.options)
  {
    hide Element;
    ElementNext(u, f, msg, args, i);
  }

  /** The options depend on the vector up to and including the argument that ended them, and on nothing after it. */
  lemma {:induction false} TailIgnored(u: Usage, f: Flags, msg: bool, a: seq<string>, b: seq<string>, i: nat)
    requires i <= |a|
    requires var r := Parse(u, f, msg, a, i);
             !r.fatal && r.rest < |a| && r.rest < |b| && forall m :: i <= m <= r.rest ==> a[m] == b[m]
    ensures Parse(u, f, msg, b, i) == Parse(u, f, msg, a, i)
    decreases |a| - i
  {
    hide Element, Parse;
    if i == |a| || !IsOption(a[i]) || a[i] == "--" {
      ParseStops(u, f, msg, a, i);
      ParseStops(u, f, msg, b, i);
    } else {
      ParseElement(u, f, msg, a, i);
      var e := Element(u, f, msg, a, i);
      assert i < e.next <= Parse(u, f, msg, a, i).rest;
      SameElement(u, f, msg, a, i, b, i);
      ParseElement(u, f, msg, b, i);
      TailIgnored(u, f, msg, a, b, e.next);
    }
  }

  /** Where the options end: at the end of the vector, at a non-option argument, or behind a `--`. */
  lemma {:induction false} RestIsNonOption(u: Usage, f: Flags, msg: bool, args: seq<string>, i: nat)
    requires i <= |args|
    ensures var r := Parse(u, f, msg, args, i);
            !r.fatal && r.rest < |args| && IsOption(args[r.rest]) ==> r.rest > i && args[r.rest - 1] == "--"
    decreases |args| - i
  {
    hide Element;
    if i < |args| && IsOption(args[i]) && args[i] != "--" {
      ElementNext(u, f, msg, args, i);
      var e := Element(u, f, msg, args, i);
      if !e.fatal {
        RestIsNonOption(u, f, msg, args, e.next);
      }
    }
  }
}
