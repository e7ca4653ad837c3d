/** A request that is read is tried on every participant it may go to, and on no other, once. */
module RpcFanOut {
  import opened ServiceRegistry
  import opened RpcBridge
  import opened RpcTasks

  /** A request received at `p` may go to `q`: not back to its source unless that repeats, and only to servers. */
  ghost predicate Eligible(c: Config, s: State, p: ParticipantId, q: ParticipantId)
    requires q in s.regs
  {
    (q != p || q in c.repeaters) && s.regs[q].enabled
  }

  /** The task works on a request. */
  predicate Forwards(pc: Pc) {
    pc.Forward? || pc.ForwardLock? || pc.ForwardWrite? || pc.ForwardAdd? || pc.ForwardUnlock?
  }

  /** How far a task is with its request: each participant takes five program points. */
  function Rank(pc: Pc): nat
    requires Forwards(pc)
  {
    5 * pc.i + match pc
               case Forward(_, _) => 0
               case ForwardLock(_, _) => 1
               case ForwardWrite(_, _) => 2
               case ForwardAdd(_, _, _) => 3
               case _ => 4
  }

  /** One step of a task that ends up working on a request. */
  ghost predicate Moves(c: Config, s: State, r: ReaderId, pc: Pc, pc': Pc)
    requires Shaped(c, s)
  {
    || pc' == pc
    || (pc.Take? && pc'.Forward? && pc'.i == 0)
    || (pc.Forward? && pc.i < |c.ids| && !Eligible(c, s, r.p, c.ids[pc.i]) && pc' == Forward(pc.x, pc.i + 1))
    || (pc.Forward? && pc.i < |c.ids| && Eligible(c, s, r.p, c.ids[pc.i]) && pc' == ForwardLock(pc.x, pc.i))
    || (pc.ForwardLock? && pc' == ForwardWrite(pc.x, pc.i))
    || (pc.ForwardWrite? && (pc'.ForwardAdd? || pc'.ForwardUnlock?) && pc'.x == pc.x && pc'.i == pc.i)
    || (pc.ForwardAdd? && pc' == ForwardUnlock(pc.x, pc.i))
    || (pc.ForwardUnlock? && pc' == Forward(pc.x, pc.i + 1))
  }

  lemma {:induction false} LoopMoves(c: Config, s: State, r: ReaderId, k: nat)
    requires Shaped(c, s) && HasTask(s, r, k) && InLoop(PcOf(s, r, k))
    requires Forwards(LoopStep(c, s, r, k).readers[r].tasks[k])
    ensures Moves(c, s, r, PcOf(s, r, k), LoopStep(c, s, r, k).readers[r].tasks[k])
  {
  }

  lemma {:induction false} RouteMoves(c: Config, s: State, r: ReaderId, k: nat, ok: bool, sn: SequenceNumber)
    requires Shaped(c, s) && HasTask(s, r, k) && r.p in c.ids && Forwards(RoutePc(c, s, r, PcOf(s, r, k), ok, sn))
    requires !InLoop(PcOf(s, r, k))
    ensures Moves(c, s, r, PcOf(s, r, k), RoutePc(c, s, r, PcOf(s, r, k), ok, sn))
  {
  }

  lemma {:induction false} RunTasks(c: Config, s: State, a: Action, r: ReaderId, k: nat)
    requires Can(c, s, a) && a.Run? && HasTask(Do(c, s, a), r, k) && Forwards(PcOf(Do(c, s, a), r, k))
    ensures HasTask(s, r, k) && Moves(c, s, r, PcOf(s, r, k), PcOf(Do(c, s, a), r, k))
  {
    hide Moves, RoutePc, RouteRegistry, RouteEvents, InLoop;
    RunFrame(c, s, a, r, k);
    if a.r == r && a.k == k {
      if InLoop(PcOf(s, r, k)) {
        LoopMoves(c, s, r, k);
      } else {
        RouteMoves(c, s, r, k, a.ok, a.sn);
      }
    } else {
      Stays(c, s, r, PcOf(s, r, k));
    }
  }

  lemma {:induction false} Stays(c: Config, s: State, r: ReaderId, pc: Pc)
    requires Shaped(c, s)
    ensures Moves(c, s, r, pc, pc)
  {
  }

  lemma {:induction false} StepMoves(c: Config, s: State, a: Action, r: ReaderId, k: nat)
    requires Can(c, s, a) && HasTask(Do(c, s, a), r, k) && Forwards(PcOf(Do(c, s, a), r, k))
    ensures HasTask(s, r, k) && Moves(c, s, r, PcOf(s, r, k), PcOf(Do(c, s, a), r, k))
  {
    hide Moves, Do, Can;
    assert Shaped(c, s) by { CanIsShaped(c, s, a); }
    if a.Run? {
      RunTasks(c, s, a, r, k);
    } else {
      QuietTasks(c, s, a, r, k);
      Stays(c, s, r, PcOf(s, r, k));
    }
  }

  // ----- the work on one request -----

  /** From `from` to `to` the task works on `x`, and never goes back. */
  ghost predicate Works(run: seq<State>, r: ReaderId, k: nat, from: nat, to: nat, x: Sample) {
    && from <= to < |run|
    && (forall m :: from <= m <= to ==> HasTask(run[m], r, k))
    && (forall m :: from <= m <= to ==> Forwards(PcOf(run[m], r, k)) && PcOf(run[m], r, k).x == x)
    && (forall m, n :: from <= m <= n <= to ==> Rank(PcOf(run[m], r, k)) <= Rank(PcOf(run[n], r, k)))
    && PcOf(run[from], r, k) == Forward(x, 0)
  }

  /** In step `m` the request is written, or written without success, to participant number `i`. */
  ghost predicate TriedAt(run: seq<State>, r: ReaderId, k: nat, m: nat, i: nat) {
    && m + 1 < |run| && HasTask(run[m], r, k) && HasTask(run[m + 1], r, k)
    && PcOf(run[m], r, k).ForwardWrite? && PcOf(run[m], r, k).i == i && PcOf(run[m + 1], r, k) != PcOf(run[m], r, k)
  }

  /** Step `m` is the turn of participant number `i`. */
  ghost predicate TurnAt(c: Config, run: seq<State>, r: ReaderId, k: nat, m: nat, i: nat) {
    && m + 1 < |run| && i < |c.ids| && c.ids[i] in run[m].regs && HasTask(run[m], r, k) && HasTask(run[m + 1], r, k)
    && PcOf(run[m], r, k).Forward? && PcOf(run[m], r, k).i == i && PcOf(run[m + 1], r, k) != PcOf(run[m], r, k)
  }

  /** The turn of participant number `i` leads to its registry, or to the next participant. */
  predicate Leads(pc: Pc, i: nat, eligible: bool) {
    if eligible then pc.ForwardLock? && pc.i == i else pc.Forward? && pc.i == i + 1
  }

  /** Participant number `i` had its turn, and could be sent the request or not. */
  ghost predicate Turned(c: Config, run: seq<State>, r: ReaderId, k: nat, from: nat, to: nat, i: nat, eligible: bool) {
    exists m: nat ::
      && from <= m < to && TurnAt(c, run, r, k, m, i)
      && Eligible(c, run[m], r.p, c.ids[i]) == eligible && Leads(PcOf(run[m + 1], r, k), i, eligible)
  }

  ghost predicate Tried(run: seq<State>, r: ReaderId, k: nat, from: nat, to: nat, i: nat) {
    exists m: nat :: from <= m < to && TriedAt(run, r, k, m, i)
  }

  /** The participants before the one the task is at, and that one once it has been written to. */
  ghost function Past(pc: Pc): nat
    requires Forwards(pc)
  {
    if pc.ForwardAdd? || pc.ForwardUnlock? then pc.i + 1 else pc.i
  }

  /** The participants that have had their turn. */
  ghost function Opened(pc: Pc): nat
    requires Forwards(pc)
  {
    if pc.Forward? then pc.i else pc.i + 1
  }

  ghost predicate HadTurns(c: Config, run: seq<State>, r: ReaderId, k: nat, from: nat, to: nat, n: nat) {
    forall i :: 0 <= i < n ==> Turned(c, run, r, k, from, to, i, true) || Turned(c, run, r, k, from, to, i, false)
  }

  ghost predicate Handled(c: Config, run: seq<State>, r: ReaderId, k: nat, from: nat, to: nat, n: nat) {
    forall i :: 0 <= i < n ==> Tried(run, r, k, from, to, i) || Turned(c, run, r, k, from, to, i, false)
  }

  /** A step of a task on a request: it starts one, or goes on with it. */
  lemma {:induction false} MovesForward(c: Config, s: State, r: ReaderId, pc: Pc, pc': Pc)
    requires Shaped(c, s) && Moves(c, s, r, pc, pc') && Forwards(pc')
    ensures if pc.Take? then pc' == Forward(pc'.x, 0)
            else
              && Forwards(pc) && pc'.x == pc.x && Rank(pc) <= Rank(pc')
              && Past(pc) <= Past(pc') <= Past(pc) + 1 && Opened(pc) <= Opened(pc') <= Opened(pc) + 1
    ensures !pc.Take? && Opened(pc') > Opened(pc) ==>
      && pc.Forward? && pc.i == Opened(pc) < |c.ids| && pc' != pc
      && Leads(pc', pc.i, Eligible(c, s, r.p, c.ids[pc.i]))
    ensures !pc.Take? && Past(pc') > Past(pc) ==>
      && Past(pc) == pc.i && pc' != pc
      && (pc.ForwardWrite?
          || (pc.Forward? && pc.i < |c.ids| && !Eligible(c, s, r.p, c.ids[pc.i]) && Leads(pc', pc.i, false)))
  {
  }

  lemma {:induction false} WorksOn(run: seq<State>, r: ReaderId, k: nat, from: nat, j: nat, x: Sample)
    requires Works(run, r, k, from, j, x) && j + 1 < |run| && HasTask(run[j + 1], r, k)
    requires Forwards(PcOf(run[j + 1], r, k)) && PcOf(run[j + 1], r, k).x == x
    requires Rank(PcOf(run[j], r, k)) <= Rank(PcOf(run[j + 1], r, k))
    ensures Works(run, r, k, from, j + 1, x)
  {
    hide Rank, Forwards;
  }

  /** What happened before still has when the run goes on. */
  lemma {:induction false} Later(
    c: Config, run: seq<State>, r: ReaderId, k: nat, from: nat, j: nat, to: nat, n: nat)
    requires j <= to
    ensures HadTurns(c, run, r, k, from, j, n) ==> HadTurns(c, run, r, k, from, to, n)
    ensures Handled(c, run, r, k, from, j, n) ==> Handled(c, run, r, k, from, to, n)
  {
    hide Turned, Tried;
    forall i | 0 <= i < n
      ensures Turned(c, run, r, k, from, j, i, true) ==> Turned(c, run, r, k, from, to, i, true)
      ensures Turned(c, run, r, k, from, j, i, false) ==> Turned(c, run, r, k, from, to, i, false)
      ensures Tried(run, r, k, from, j, i) ==> Tried(run, r, k, from, to, i)
    {
      StillTurned(c, run, r, k, from, j, to, i, true);
      StillTurned(c, run, r, k, from, j, to, i, false);
    }
  }

  lemma {:induction false} StillTurned(
    c: Config, run: seq<State>, r: ReaderId, k: nat, from: nat, j: nat, to: nat, i: nat, e: bool)
    requires j <= to
    ensures Turned(c, run, r, k, from, j, i, e) ==> Turned(c, run, r, k, from, to, i, e)
    ensures Tried(run, r, k, from, j, i) ==> Tried(run, r, k, from, to, i)
  {
    hide TriedAt, Eligible, Leads;
  }

  lemma {:induction false} OneMore(c: Config, run: seq<State>, j: nat, r: ReaderId, k: nat, from: nat, to: nat)
    requires from <= j < to == j + 1 < |run| && Shaped(c, run[j]) && HasTask(run[j], r, k) && HasTask(run[j + 1], r, k)
    requires var pc, pc' := PcOf(run[j], r, k), PcOf(run[j + 1], r, k);
             Moves(c, run[j], r, pc, pc') && Forwards(pc') && !pc.Take?
    requires Forwards(PcOf(run[j], r, k))
    requires HadTurns(c, run, r, k, from, j, Opened(PcOf(run[j], r, k)))
    requires Handled(c, run, r, k, from, j, Past(PcOf(run[j], r, k)))
    ensures HadTurns(c, run, r, k, from, to, Opened(PcOf(run[to], r, k)))
    ensures Handled(c, run, r, k, from, to, Past(PcOf(run[to], r, k)))
  {
    var pc, pc' := PcOf(run[j], r, k), PcOf(run[j + 1], r, k);
    MovesForward(c, run[j], r, pc, pc');
    Later(c, run, r, k, from, j, to, Opened(pc));
    Later(c, run, r, k, from, j, to, Past(pc));
    hide Forwards, Past, Opened, Eligible, Moves, Rank;
    if Opened(pc') > Opened(pc) {
      assert TurnAt(c, run, r, k, j, Opened(pc));
      assert Turned(c, run, r, k, from, to, Opened(pc), Eligible(c, run[j], r.p, c.ids[Opened(pc)]));
    }
    if Past(pc') > Past(pc) {
      assert TriedAt(run, r, k, j, Past(pc)) || TurnAt(c, run, r, k, j, Past(pc));
      assert Tried(run, r, k, from, to, Past(pc)) || Turned(c, run, r, k, from, to, Past(pc), false);
    }
  }

  lemma {:induction false} HandledSoFar(c: Config, run: seq<State>, j: nat, r: ReaderId, k: nat) returns (from: nat)
    requires IsRun(c, run) && j < |run| && HasTask(run[j], r, k) && Forwards(PcOf(run[j], r, k))
    ensures Works(run, r, k, from, j, PcOf(run[j], r, k).x)
    ensures HadTurns(c, run, r, k, from, j, Opened(PcOf(run[j], r, k)))
    ensures Handled(c, run, r, k, from, j, Past(PcOf(run[j], r, k)))
  {
    hide Do, Can, Moves;
    from := j;
    if j > 0 {
      assert Next(c, run[j - 1], run[(j - 1) + 1]);
      var a :| Can(c, run[j - 1], a) && run[j] == Do(c, run[j - 1], a);
      CanIsShaped(c, run[j - 1], a);
      StepMoves(c, run[j - 1], a, r, k);
      var pc, pc' := PcOf(run[j - 1], r, k), PcOf(run[j], r, k);
      MovesForward(c, run[j - 1], r, pc, pc');
      if !pc.Take? {
        hide Works, Rank, Past, Opened, Forwards, HadTurns, Handled;
        from := HandledSoFar(c, run, j - 1, r, k);
        WorksFacts(run, r, k, from, j - 1, pc.x);
        WorksOn(run, r, k, from, j - 1, pc.x);
        OneMore(c, run, j - 1, r, k, from, j);
      }
    }
  }

  lemma {:induction false} WorksFacts(run: seq<State>, r: ReaderId, k: nat, from: nat, to: nat, x: Sample)
    requires Works(run, r, k, from, to, x)
    ensures from <= to < |run|
  {
  }

  /** A participant is tried once: later the task is past it. */
  lemma {:induction false} TriedOnce(
    run: seq<State>, r: ReaderId, k: nat, from: nat, to: nat, x: Sample, m: nat, n: nat, i: nat)
    requires Works(run, r, k, from, to, x) && from <= m < n < to
    ensures !(TriedAt(run, r, k, m, i) && TriedAt(run, r, k, n, i))
  {
    if TriedAt(run, r, k, m, i) && TriedAt(run, r, k, n, i) {
      var a, b, d := PcOf(run[m], r, k), PcOf(run[m + 1], r, k), PcOf(run[n], r, k);
      assert Rank(a) <= Rank(b) <= Rank(d);
      SameRank(a, b);
    }
  }

  lemma {:induction false} SameRank(a: Pc, b: Pc)
    requires Forwards(a) && Forwards(b) && a.x == b.x && a.ForwardWrite? && a != b
    ensures Rank(a) != Rank(b)
  {
  }

  /** A participant has one turn, and one that could not be sent the request then is never tried. */
  lemma {:induction false} OneTurn(
    c: Config, run: seq<State>, r: ReaderId, k: nat, from: nat, to: nat, x: Sample, m: nat, n: nat, i: nat)
    requires Works(run, r, k, from, to, x) && from <= m < to && from <= n < to && TurnAt(c, run, r, k, m, i)
    ensures TurnAt(c, run, r, k, n, i) ==> m == n
    ensures TriedAt(run, r, k, n, i) ==> !Leads(PcOf(run[m + 1], r, k), i, false)
  {
    var a, b, d := PcOf(run[m], r, k), PcOf(run[m + 1], r, k), PcOf(run[n], r, k);
    assert Rank(a) <= Rank(b);
    assert n > m ==> Rank(b) <= Rank(d);
    assert n < m ==> Rank(PcOf(run[n + 1], r, k)) <= Rank(a);
    assert n < m ==> Rank(d) <= Rank(PcOf(run[n + 1], r, k));
    SameStart(a, b);
    if TurnAt(c, run, r, k, n, i) && n < m {
      SameStart(d, PcOf(run[n + 1], r, k));
    }
  }

  lemma {:induction false} SameStart(a: Pc, b: Pc)
    requires Forwards(a) && Forwards(b) && a.x == b.x && a.Forward?
    ensures Rank(a) == Rank(b) ==> a == b
  {
  }

  /** Participant number `i` has had its turn, and was tried if and only if it could be sent the request then. */
  ghost predicate TurnDecides(c: Config, run: seq<State>, r: ReaderId, k: nat, from: nat, to: nat, i: nat) {
    exists m: nat ::
      && from <= m < to && TurnAt(c, run, r, k, m, i)
      && (Tried(run, r, k, from, to, i)
          <==> (c.ids[i] != r.p || c.ids[i] in c.repeaters) && run[m].regs[c.ids[i]].enabled)
  }

  /**
   When the task is through with a request, every participant has had one turn, and it had a write attempt, exactly
   one, if and only if at its turn it was not the source of the request, or a repeater, and had an enabled registry.
   */
  lemma {:induction false} EveryParticipantTried(c: Config, run: seq<State>, j: nat, r: ReaderId, k: nat)
    returns (from: nat)
    requires IsRun(c, run) && j < |run| && HasTask(run[j], r, k)
    requires PcOf(run[j], r, k).Forward? && PcOf(run[j], r, k).i >= |c.ids|
    ensures Works(run, r, k, from, j, PcOf(run[j], r, k).x)
    ensures forall i :: 0 <= i < |c.ids| ==> TurnDecides(c, run, r, k, from, j, i)
    ensures forall i, m, n :: from <= m < n < j ==> !(TriedAt(run, r, k, m, i) && TriedAt(run, r, k, n, i))
  {
    from := HandledSoFar(c, run, j, r, k);
    var x := PcOf(run[j], r, k).x;
    hide IsRun, Works, Turned, Tried, TurnDecides;
    forall i | 0 <= i < |c.ids|
      ensures TurnDecides(c, run, r, k, from, j, i)
    {
      TriedIffEligible(c, run, r, k, from, j, x, i);
    }
    forall i, m, n | from <= m < n < j
      ensures !(TriedAt(run, r, k, m, i) && TriedAt(run, r, k, n, i))
    {
      TriedOnce(run, r, k, from, j, x, m, n, i);
    }
  }

  lemma {:induction false} TriedIffEligible(
    c: Config, run: seq<State>, r: ReaderId, k: nat, from: nat, to: nat, x: Sample, i: nat)
    requires Works(run, r, k, from, to, x)
    requires Turned(c, run, r, k, from, to, i, true) || Turned(c, run, r, k, from, to, i, false)
    requires Tried(run, r, k, from, to, i) || Turned(c, run, r, k, from, to, i, false)
    ensures TurnDecides(c, run, r, k, from, to, i)
  {
    hide Works, TriedAt;
    var m: nat :| from <= m < to && TurnAt(c, run, r, k, m, i)
                  && Leads(PcOf(run[m + 1], r, k), i, Eligible(c, run[m], r.p, c.ids[i]));
    if Tried(run, r, k, from, to, i) {
      var n: nat :| from <= n < to && TriedAt(run, r, k, n, i);
      OneTurn(c, run, r, k, from, to, x, m, n, i);
    } else {
      var n: nat :| from <= n < to && TurnAt(c, run, r, k, n, i) && Eligible(c, run[n], r.p, c.ids[i]) == false
                    && Leads(PcOf(run[n + 1], r, k), i, false);
      OneTurn(c, run, r, k, from, to, x, m, n, i);
    }
    TurnFacts(c, run, r, k, m, i);
  }

  lemma {:induction false} TurnFacts(c: Config, run: seq<State>, r: ReaderId, k: nat, m: nat, i: nat)
    requires TurnAt(c, run, r, k, m, i)
    ensures m + 1 < |run| && i < |c.ids| && c.ids[i] in run[m].regs && HasTask(run[m + 1], r, k)
  {
  }
}
