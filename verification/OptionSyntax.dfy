/** What the elements of an argument vector mean, character by character. */
module OptionSyntax {
  import opened OptionParser

  // ----- which descriptor is meant -----

  /** The first descriptor that names the option. */
  ghost predicate LongNamed(u: Usage, t: string, d: nat) {
    d < |u| && Names(u[d].longopt, t) && forall e :: 0 <= e < d ==> !Names(u[e].longopt, t)
  }

  ghost predicate ShortNamed(u: Usage, ch: char, d: nat) {
    d < |u| && ch in u[d].shortopt && forall e :: 0 <= e < d ==> ch !in u[e].shortopt
  }

  ghost predicate IsDummy(u: Usage, d: nat) {
    && d < |u| && u[d].shortopt == "" && u[d].longopt == ""
    && forall e :: 0 <= e < d ==> u[e].shortopt != "" || u[e].longopt != ""
  }

  /** The descriptor of a name is the first that matches exactly. */
  lemma {:induction false} ExactIndex(u: Usage, f: Flags, t: string, d: nat)
    requires LongNamed(u, t, d)
    ensures LongIndex(u, f, t) == d
  {
    FoundHere(u, Exact(t), 0, d);
  }

  /** Without an exact match it is the only descriptor that the name abbreviates, where abbreviations are allowed. */
  lemma {:induction false} AbbreviatedIndex(u: Usage, f: Flags, t: string, d: nat)
    requires forall e :: 0 <= e < |u| ==> !Names(u[e].longopt, t)
    requires d < |u| && f.minAbbrLen > 0 && Abbreviates(u[d].longopt, t, f.minAbbrLen)
    ensures LongIndex(u, f, t) == d
       <==> forall e :: 0 <= e < |u| && e != d ==> !Abbreviates(u[e].longopt, t, f.minAbbrLen)
  {
    FoundHere(u, Exact(t), 0, |u|);
    var i1 := Find(u, Abbreviated(t, f.minAbbrLen), 0);
    if i1 < |u| {
      var i2 := Find(u, Abbreviated(t, f.minAbbrLen), i1 + 1);
      assert i2 < |u| ==> Abbreviates(u[i2].longopt, t, f.minAbbrLen);
    }
  }

  /** Without any match there is none. */
  lemma {:induction false} UnknownIndex(u: Usage, f: Flags, t: string)
    requires forall e :: 0 <= e < |u| ==> !Names(u[e].longopt, t)
    requires f.minAbbrLen > 0 ==> forall e :: 0 <= e < |u| ==> !Abbreviates(u[e].longopt, t, f.minAbbrLen)
    ensures LongIndex(u, f, t) == |u|
  {
    FoundHere(u, Exact(t), 0, |u|);
    if f.minAbbrLen > 0 {
      FoundHere(u, Abbreviated(t, f.minAbbrLen), 0, |u|);
    }
  }

  // ----- long options -----

  lemma {:induction false} EqualsAt(s: string, j: nat, e: nat)
    requires j <= e <= |s| && (e < |s| ==> s[e] == '=') && forall m :: j <= m < e ==> s[m] != '='
    ensures Equals(s, j) == e
  {
  }

  /** `--name=value`: the value is the argument, and one element is used. */
  lemma {:induction false} LongAttached(
    u: Usage, f: Flags, msg: bool, args: seq<string>, i: nat, name: string, value: string, d: nat)
    requires i < |args| && args[i] == "--" + name + "=" + value && '=' !in name
    requires LongNamed(u, name + "=" + value, d) && u[d].check(args[i], Attached(value), msg) == ArgOk
    ensures Element(u, f, msg, args, i) == Step([Opt(d, args[i], Attached(value))], false, i + 1)
  {
    hide Find, LongIndex, ShortGroup;
    var s := args[i];
    assert s[2..] == name + "=" + value;
    ExactIndex(u, f, s[2..], d);
    assert forall m :: 2 <= m < 2 + |name| ==> s[m] == name[m - 2];
    EqualsAt(s, 2, 2 + |name|);
    assert s[2 + |name| + 1..] == value;
  }

  /** `--name value`: an accepted following element is the argument, and two elements are used. */
  lemma {:induction false} LongDetached(
    u: Usage, f: Flags, msg: bool, args: seq<string>, i: nat, name: string, d: nat)
    requires i + 1 < |args| && args[i] == "--" + name && '=' !in name
    requires LongNamed(u, name, d) && u[d].check(args[i], Detached(args[i + 1]), msg) == ArgOk
    ensures Element(u, f, msg, args, i) == Step([Opt(d, args[i], Detached(args[i + 1]))], false, i + 2)
  {
    hide Find, LongIndex, ShortGroup;
    LongPlain(u, f, args, i, name, d);
  }

  lemma {:induction false} LongPlain(u: Usage, f: Flags, args: seq<string>, i: nat, name: string, d: nat)
    requires i < |args| && args[i] == "--" + name && '=' !in name && LongNamed(u, name, d)
    ensures LongIndex(u, f, args[i][2..]) == d && Equals(args[i], 2) == |args[i]|
  {
    hide Find, LongIndex;
    var s := args[i];
    assert s[2..] == name;
    ExactIndex(u, f, s[2..], d);
    assert forall m :: 2 <= m < |s| ==> s[m] == name[m - 2];
    EqualsAt(s, 2, |s|);
  }

  /** `--name` whose option declines the following element, or has none: one element, and no argument. */
  lemma {:induction false} LongAlone(u: Usage, f: Flags, msg: bool, args: seq<string>, i: nat, name: string, d: nat)
    requires i < |args| && args[i] == "--" + name && '=' !in name && LongNamed(u, name, d)
    requires var arg := if i + 1 < |args| then Detached(args[i + 1]) else NoArg;
             var status := u[d].check(args[i], arg, msg);
             status == ArgNone || status == ArgIgnore || (status == ArgOk && i + 1 == |args|)
    ensures Element(u, f, msg, args, i) == Step([Opt(d, args[i], NoArg)], false, i + 1)
  {
    hide Find, LongIndex, ShortGroup;
    LongPlain(u, f, args, i, name, d);
  }

  /** A name that nothing matches: the entry for unknown options is used, and without one the element is skipped. */
  lemma {:induction false} LongUnknown(u: Usage, f: Flags, msg: bool, args: seq<string>, i: nat, t: string, d: nat)
    requires i < |args| && args[i] == "--" + t && (forall e :: 0 <= e < |u| ==> !Names(u[e].longopt, t))
    requires f.minAbbrLen > 0 ==> forall e :: 0 <= e < |u| ==> !Abbreviates(u[e].longopt, t, f.minAbbrLen)
    requires if d == |u| then forall e :: 0 <= e < |u| ==> u[e].shortopt != "" || u[e].longopt != "" else IsDummy(u, d)
    ensures Element(u, f, msg, args, i) == LongOption(u, msg, args, i, 2, d)
    ensures d == |u| ==> Element(u, f, msg, args, i) == Step([], false, i + 1)
  {
    hide Find, LongIndex, ShortGroup;
    assert args[i][2..] == t;
    UnknownIndex(u, f, t);
    FoundHere(u, Dummy(), 0, d);
  }

  /** `-name=value` where a single minus may begin a long option. */
  lemma {:induction false} SingleMinusAttached(
    u: Usage, f: Flags, msg: bool, args: seq<string>, i: nat, name: string, value: string, d: nat)
    requires i < |args| && args[i] == "-" + name + "=" + value && '=' !in name && f.singleMinusLongopt
    requires name != "" && name[0] != '-'
    requires LongNamed(u, name + "=" + value, d) && u[d].check(args[i], Attached(value), msg) == ArgOk
    ensures Element(u, f, msg, args, i) == Step([Opt(d, args[i], Attached(value))], false, i + 1)
  {
    hide Find, LongIndex, ShortGroup;
    var s := args[i];
    assert s[1] == name[0];
    assert s[1..] == name + "=" + value;
    ExactIndex(u, f, s[1..], d);
    assert forall m :: 1 <= m < 1 + |name| ==> s[m] == name[m - 1];
    EqualsAt(s, 1, 1 + |name|);
    assert s[1 + |name| + 1..] == value;
  }

  // ----- short options -----

  /** A parameter of short options: one minus, and no long option of that name where a single minus may begin one. */
  ghost predicate IsGroup(u: Usage, f: Flags, s: string, chars: string) {
    && s == "-" + chars && chars != "" && chars[0] != '-'
    && (f.singleMinusLongopt ==> LongIndex(u, f, chars) == |u|)
  }

  lemma {:induction false} GroupElement(u: Usage, f: Flags, msg: bool, args: seq<string>, i: nat, chars: string)
    requires i < |args| && IsGroup(u, f, args[i], chars)
    ensures IsOption(args[i]) && Element(u, f, msg, args, i) == ShortGroup(u, msg, args, i, 1)
    ensures forall j :: 0 <= j < |chars| ==> args[i][j + 1..] == chars[j..] && args[i][j + 1] == chars[j]
  {
    hide Find, LongIndex, ShortGroup;
    var s := args[i];
    assert s[1] == chars[0] && s[1..] == chars;
  }

  lemma {:induction false} ShortIndex(u: Usage, ch: char, d: nat)
    requires ShortNamed(u, ch, d)
    ensures OrDummy(u, Find(u, Short(ch), 0)) == d
  {
    FoundHere(u, Short(ch), 0, d);
  }

  /** One character of a group. */
  lemma {:induction false} GroupOption(
    u: Usage, msg: bool, args: seq<string>, i: nat, j: nat, name: string, arg: Arg, d: nat)
    requires i < |args| && j < |args[i]| && args[i][j..] == name && ShortNamed(u, args[i][j], d)
    requires arg == if j + 1 < |args[i]| then Attached(args[i][j + 1..])
                    else if i + 1 < |args| then Detached(args[i + 1]) else NoArg
    ensures var e, more := ShortGroup(u, msg, args, i, j), ShortGroup(u, msg, args, i, j + 1);
            var status := u[d].check(name, arg, msg);
            if status == ArgIllegal then e == Step([], true, i)
            else if status == ArgOk then e == Step([Opt(d, name, arg)], false, if arg.Detached? then i + 2 else i + 1)
            else e == more.(options := [Opt(d, name, NoArg)] + more.options)
  {
    hide Find;
    ShortIndex(u, args[i][j], d);
  }

  /** `-cvalue`: what follows the character is the argument, and one element is used. */
  lemma {:induction false} ShortAttached(
    u: Usage, f: Flags, msg: bool, args: seq<string>, i: nat, ch: char, value: string, d: nat)
    requires i < |args| && IsGroup(u, f, args[i], [ch] + value) && value != "" && ShortNamed(u, ch, d)
    requires u[d].check([ch] + value, Attached(value), msg) == ArgOk
    ensures Element(u, f, msg, args, i) == Step([Opt(d, [ch] + value, Attached(value))], false, i + 1)
  {
    hide Find, LongIndex, ShortGroup;
    GroupElement(u, f, msg, args, i, [ch] + value);
    assert args[i][0 + 1..] == ([ch] + value)[0..] == [ch] + value;
    assert args[i][1 + 1..] == ([ch] + value)[1..] == value;
    GroupOption(u, msg, args, i, 1, [ch] + value, Attached(value), d);
  }

  /** `-c value`: an accepted following element is the argument, and two elements are used. */
  lemma {:induction false} ShortDetached(u: Usage, f: Flags, msg: bool, args: seq<string>, i: nat, ch: char, d: nat)
    requires i + 1 < |args| && IsGroup(u, f, args[i], [ch]) && ShortNamed(u, ch, d)
    requires u[d].check([ch], Detached(args[i + 1]), msg) == ArgOk
    ensures Element(u, f, msg, args, i) == Step([Opt(d, [ch], Detached(args[i + 1]))], false, i + 2)
  {
    hide Find, LongIndex, ShortGroup;
    GroupElement(u, f, msg, args, i, [ch]);
    assert args[i][0 + 1..] == [ch][0..] == [ch];
    GroupOption(u, msg, args, i, 1, [ch], Detached(args[i + 1]), d);
  }

  /** What the character at `j` of a group could take as its argument. */
  function Offered(args: seq<string>, i: nat, chars: string, j: nat): Arg
    requires j < |chars|
  {
    if j + 1 < |chars| then Attached(chars[j + 1..]) else if i + 1 < |args| then Detached(args[i + 1]) else NoArg
  }

  /** The character at `m` is an option that takes nothing. */
  ghost predicate IsFlag(u: Usage, msg: bool, args: seq<string>, i: nat, chars: string, m: nat, d: nat)
    requires m < |chars|
  {
    && ShortNamed(u, chars[m], d)
    && (u[d].check(chars[m..], Offered(args, i, chars, m), msg) == ArgNone
        || u[d].check(chars[m..], Offered(args, i, chars, m), msg) == ArgIgnore)
  }

  /** The options of the characters from `j` on. */
  function FlagOptions(chars: string, ds: seq<nat>, j: nat): (os: seq<Opt>)
    requires |ds| == |chars| && j <= |chars|
    ensures |os| == |chars| - j
    ensures forall m :: 0 <= m < |os| ==> os[m] == Opt(ds[j + m], chars[j + m..], NoArg)
    decreases |chars| - j
  {
    if j == |chars| then [] else [Opt(ds[j], chars[j..], NoArg)] + FlagOptions(chars, ds, j + 1)
  }

  lemma {:induction false} FlagsFrom(
    u: Usage, msg: bool, args: seq<string>, i: nat, chars: string, ds: seq<nat>, j: nat)
    requires i < |args| && args[i] == "-" + chars && |ds| == |chars| && j <= |chars|
    requires forall m :: 0 <= m < |chars| ==> IsFlag(u, msg, args, i, chars, m, ds[m])
    ensures ShortGroup(u, msg, args, i, j + 1) == Step(FlagOptions(chars, ds, j), false, i + 1)
    decreases |chars| - j
  {
    if j < |chars| {
      hide Find, ShortGroup, ShortNamed;
      FlagsFrom(u, msg, args, i, chars, ds, j + 1);
      assert IsFlag(u, msg, args, i, chars, j, ds[j]);
      assert args[i][j + 1..] == chars[j..] && args[i][j + 1] == chars[j];
      assert j + 1 < |chars| ==> args[i][(j + 1) + 1..] == chars[j + 1..];
      GroupOption(u, msg, args, i, j + 1, chars[j..], Offered(args, i, chars, j), ds[j]);
    }
  }

  /** A group whose options all decline: each character is an option without argument, and one element is used. */
  lemma {:induction false} ShortFlags(
    u: Usage, f: Flags, msg: bool, args: seq<string>, i: nat, chars: string, ds: seq<nat>)
    requires i < |args| && IsGroup(u, f, args[i], chars) && |ds| == |chars|
    requires forall m :: 0 <= m < |chars| ==> IsFlag(u, msg, args, i, chars, m, ds[m])
    ensures IsOption(args[i]) && Element(u, f, msg, args, i) == Step(FlagOptions(chars, ds, 0), false, i + 1)
  {
    hide IsFlag, ShortGroup, LongIndex, FlagOptions;
    GroupElement(u, f, msg, args, i, chars);
    FlagsFrom(u, msg, args, i, chars, ds, 0);
  }

  /** An illegal argument is fatal, after the options before it. */
  lemma {:induction false} ShortIllegal(u: Usage, f: Flags, msg: bool, args: seq<string>, i: nat, chars: string, d: nat)
    requires i < |args| && IsGroup(u, f, args[i], chars) && ShortNamed(u, chars[0], d)
    requires u[d].check(chars, Offered(args, i, chars, 0), msg) == ArgIllegal
    ensures Element(u, f, msg, args, i) == Step([], true, i)
  {
    hide Find, LongIndex;
    GroupElement(u, f, msg, args, i, chars);
    assert args[i][0 + 1..] == chars[0..] == chars;
    assert 1 < |chars| ==> args[i][1 + 1..] == chars[1..];
    GroupOption(u, msg, args, i, 1, chars, Offered(args, i, chars, 0), d);
  }

  // ----- names, as the parser documents them -----

  lemma {:induction false} NamesExamples()
    ensures Names("foo", "foo=bar") && !Names("foo", "foobar") && Names("foo", "foo") && !Names("foo=bar", "foo")
  {
  }

  lemma {:induction false} AbbreviatesExamples(any: int)
    ensures Abbreviates("foo", "foo=bar", any) && Abbreviates("foo", "fo=bar", 2) && Abbreviates("foo", "fo", 2)
    ensures !Abbreviates("foo", "fo", 0) && !Abbreviates("foo", "f=bar", 2) && !Abbreviates("foo", "f", 2)
    ensures !Abbreviates("fo", "foo=bar", any) && !Abbreviates("foo", "foobar", any)
    ensures !Abbreviates("foo", "fobar", any) && Abbreviates("foo", "foo", any)
  {
    AbbreviatesAt("foo", "foo=bar", any, 3);
    AbbreviatesAt("foo", "fo=bar", 2, 2);
    AbbreviatesAt("foo", "fo", 2, 2);
    AbbreviatesAt("foo", "fo", 0, 2);
    AbbreviatesAt("foo", "f=bar", 2, 1);
    AbbreviatesAt("foo", "f", 2, 1);
    AbbreviatesAt("fo", "foo=bar", any, 2);
    AbbreviatesAt("foo", "foobar", any, 3);
    AbbreviatesAt("foo", "fobar", any, 2);
    AbbreviatesAt("foo", "foo", any, 3);
  }

  /** The longest common prefix decides. */
  lemma {:induction false} AbbreviatesAt(s: string, t: string, min: int, n: nat)
    requires n <= |s| && n <= |t| && s[..n] == t[..n] && (n < |s| && n < |t| ==> s[n] != t[n])
    ensures Abbreviates(s, t, min) <==> (n == |s| || (min > 0 && n >= min)) && (n == |t| || t[n] == '=')
  {
    assert PrefixStop(s, t, n);
    forall m | 0 <= m <= |s| && m <= |t| && PrefixStop(s, t, m)
      ensures m == n
    {
      LongestPrefix(s, t, n, m);
      LongestPrefix(s, t, m, n);
    }
  }
}
