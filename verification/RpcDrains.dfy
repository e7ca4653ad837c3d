/** The tasks of an RPCBridge never block one another for good, and come to an end with everything read. */
module RpcDrains {
  import opened ServiceRegistry
  import opened RpcBridge
  import opened RpcTasks
  import W = RpcWake
  import R = RpcRouting
  import F = RpcFanOut
  import T = RpcTheorems

  // ----- how far tasks are -----

  /** A task that works on the writer or registry of participant number `i` of them. */
  predicate InRange(c: Config, pc: Pc) {
    F.Forwards(pc) && !pc.Forward? ==> pc.i < |c.ids|
  }

  function PcRank(c: Config, pc: Pc): nat {
    match pc
    case Done => 0
    case Leaving => 1
    case Retired => 2
    case ClearFlag => 3
    case Take => 4
    case TestUnread => 5
    case TestEnabled => 6
    case Head => 7
    case Queued => 8
    case ReplyErase(_) => 8
    case ReplyWrite(_, _) => 9
    case ReplyUnlock(_, _) => 10
    case ReplyGet(_) => 11
    case ReplyLock(_) => 12
    case Forward(_, i) => ForwardRank(c, i)
    case ForwardLock(_, i) => ForwardRank(c, i) - 1
    case ForwardWrite(_, i) => ForwardRank(c, i) - 2
    case ForwardAdd(_, i, _) => ForwardRank(c, i) - 3
    case ForwardUnlock(_, i) => ForwardRank(c, i) - 4
  }

  function ForwardRank(c: Config, i: nat): (n: nat)
    ensures n >= 8
  {
    8 + if i < |c.ids| then 5 * (|c.ids| - i) else 0
  }

  function TasksRank(c: Config, tasks: seq<Pc>): nat {
    if tasks == [] then 0 else TasksRank(c, tasks[..|tasks| - 1]) + PcRank(c, tasks[|tasks| - 1])
  }

  function MutexRank(m: Mutex): nat {
    match m
    case AtReader => 11
    case AtBridge => 10
    case AtFlag => 9
    case _ => 0
  }

  /** Steps that callbacks and tasks of a reader may still take when nothing more arrives. */
  function ReaderRank(c: Config, rd: Reader): nat {
    (5 * |c.ids| + 20) * |rd.unread| + TasksRank(c, rd.tasks) + MutexRank(rd.mutex)
  }

  lemma {:induction false} TasksRankUpdate(c: Config, tasks: seq<Pc>, k: nat, pc: Pc)
    requires k < |tasks|
    ensures TasksRank(c, tasks[k := pc]) == TasksRank(c, tasks) - PcRank(c, tasks[k]) + PcRank(c, pc)
  {
    hide PcRank;
    var n := |tasks| - 1;
    var tasks' := tasks[k := pc];
    if k < n {
      TasksRankUpdate(c, tasks[..n], k, pc);
      assert tasks'[..n] == tasks[..n][k := pc];
    } else {
      assert tasks'[..n] == tasks[..n];
    }
  }

  lemma {:induction false} TasksRankAppend(c: Config, tasks: seq<Pc>, pc: Pc)
    ensures TasksRank(c, tasks + [pc]) == TasksRank(c, tasks) + PcRank(c, pc)
  {
    assert (tasks + [pc])[..|tasks|] == tasks;
  }

  lemma {:induction false} CallbackRanks(c: Config, enabled: bool, on: bool, rd: Reader)
    requires W.InCallback(rd)
    ensures ReaderRank(c, CallbackStep(enabled, on, rd)) < ReaderRank(c, rd)
  {
    hide TasksRank;
    TasksRankAppend(c, rd.tasks, Queued);
  }

  /** A task that tests, takes and ends; at Take its reader is on and has something unread. */
  lemma {:induction false} LoopRanks(c: Config, enabled: bool, on: bool, r: ReaderId, rd: Reader, k: nat)
    requires k < |rd.tasks| && InLoop(rd.tasks[k]) && !rd.tasks[k].Done?
    requires rd.tasks[k].Take? ==> on && rd.unread != []
    requires rd.mutex.Free? || rd.mutex.HeldBy? || !(rd.tasks[k].Head? || W.HoldsMutex(rd.tasks[k]))
    ensures ReaderRank(c, ReaderStep(c, enabled, on, r, rd, k)) < ReaderRank(c, rd)
  {
    hide TasksRank;
    var rd' := ReaderStep(c, enabled, on, r, rd, k);
    assert rd'.tasks == rd.tasks[k := rd'.tasks[k]];
    TasksRankUpdate(c, rd.tasks, k, rd'.tasks[k]);
    if rd.tasks[k].Take? {
      TakenRank(c, |rd.unread|);
      StartRank(c, r, rd.unread[0]);
    }
  }

  lemma {:induction false} TakenRank(c: Config, n: nat)
    requires n > 0
    ensures (5 * |c.ids| + 20) * n == (5 * |c.ids| + 20) * (n - 1) + 5 * |c.ids| + 20
  {
  }

  lemma {:induction false} StartRank(c: Config, r: ReaderId, x: Sample)
    ensures PcRank(c, PcAfterTake(c, r, x)) < 5 * |c.ids| + 20
  {
  }

  lemma {:induction false} RouteRanks(c: Config, s: State, r: ReaderId, pc: Pc, ok: bool, sn: SequenceNumber)
    requires Shaped(c, s) && r.p in c.ids && !InLoop(pc) && InRange(c, pc)
    ensures PcRank(c, RoutePc(c, s, r, pc, ok, sn)) < PcRank(c, pc)
  {
  }

  lemma {:induction false} MovesInRange(c: Config, s: State, r: ReaderId, pc: Pc, pc': Pc)
    requires Shaped(c, s) && F.Moves(c, s, r, pc, pc') && InRange(c, pc) && F.Forwards(pc')
    ensures InRange(c, pc')
  {
  }

  lemma {:induction false} TasksInRange(c: Config, run: seq<State>, i: nat, r: ReaderId, k: nat)
    requires IsRun(c, run) && i < |run| && HasTask(run[i], r, k)
    ensures InRange(c, PcOf(run[i], r, k))
  {
    hide Do, Can, F.Moves;
    if i > 0 && F.Forwards(PcOf(run[i], r, k)) {
      assert Next(c, run[i - 1], run[(i - 1) + 1]);
      var a :| Can(c, run[i - 1], a) && run[i] == Do(c, run[i - 1], a);
      CanIsShaped(c, run[i - 1], a);
      F.StepMoves(c, run[i - 1], a, r, k);
      TasksInRange(c, run, i - 1, r, k);
      MovesInRange(c, run[i - 1], r, PcOf(run[i - 1], r, k), PcOf(run[i], r, k));
    }
  }

  // ----- every step of a task or a callback is progress -----

  /** The router thread is outside enable and disable, or waits for the transmission lock. */
  ghost predicate Quiet(s: State) {
    s.bridge.control.Idle? || s.bridge.control.WaitTransmission?
  }

  lemma {:induction false} TakesWhileOn(c: Config, s: State, r: ReaderId, k: nat)
    requires W.Inv(c, s) && Quiet(s) && HasTask(s, r, k) && PcOf(s, r, k).Take?
    ensures r in s.on.readers && s.readers[r].unread != []
  {
    hide W.Served, W.SharingInv;
    assert W.ReaderInv(c, s.bridge, s.on, s.sharing, r, s.readers[r]);
    var j := W.ReaderIndex(c, r);
  }

  lemma {:induction false} MutexFacts(c: Config, s: State, r: ReaderId, k: nat)
    requires W.Inv(c, s) && HasTask(s, r, k) && W.HoldsMutex(PcOf(s, r, k))
    ensures s.readers[r].mutex == HeldBy(k)
  {
    T.ReaderFacts(c, s, r);
    T.FlagFacts(c, s, r);
  }

  /** It lowers the rank of its reader and leaves the other readers and the endpoints as they are. */
  ghost predicate Progress(c: Config, s: State, r: ReaderId, s': State) {
    && r in s.readers && s'.readers.Keys == s.readers.Keys
    && s'.bridge == s.bridge && s'.on == s.on
    && (forall q :: q in s.readers && q != r ==> s'.readers[q] == s.readers[q])
    && ReaderRank(c, s'.readers[r]) < ReaderRank(c, s.readers[r])
  }

  lemma {:induction false} LoopProgress(c: Config, s: State, r: ReaderId, k: nat, ok: bool, sn: SequenceNumber)
    requires W.Inv(c, s) && Quiet(s) && Can(c, s, Run(r, k, ok, sn)) && InLoop(s.readers[r].tasks[k])
    ensures Progress(c, s, r, LoopStep(c, s, r, k))
  {
    hide W.Inv, ReaderRank, ReaderStep, InLoop;
    var pc := PcOf(s, r, k);
    if pc.Take? {
      TakesWhileOn(c, s, r, k);
    }
    if W.HoldsMutex(pc) {
      MutexFacts(c, s, r, k);
    }
    LoopRanks(c, s.bridge.enabled, r in s.on.readers, r, s.readers[r], k);
  }

  lemma {:induction false} RouteProgress(c: Config, s: State, r: ReaderId, k: nat, ok: bool, sn: SequenceNumber)
    requires Can(c, s, Run(r, k, ok, sn)) && !InLoop(s.readers[r].tasks[k]) && InRange(c, s.readers[r].tasks[k])
    ensures Progress(c, s, r, RouteStep(c, s, r, k, ok, sn))
  {
    hide RoutePc, RouteRegistry, RouteEvents, InLoop, PcRank, TasksRank, InRange;
    var pc := PcOf(s, r, k);
    RouteRanks(c, s, r, pc, ok, sn);
    TasksRankUpdate(c, s.readers[r].tasks, k, RoutePc(c, s, r, pc, ok, sn));
  }

  lemma {:induction false} StepProgress(c: Config, run: seq<State>, i: nat, a: Action)
    requires IsRun(c, run) && i < |run| && Quiet(run[i]) && Can(c, run[i], a) && (a.Run? || a.Callback?)
    ensures Progress(c, run[i], a.r, Do(c, run[i], a))
  {
    hide W.Inv, ReaderRank, CallbackStep, LoopStep, RouteStep, InLoop, InRange, IsRun;
    var s := run[i];
    W.RunKeeps(c, run, i);
    match a
    case Run(r, k, ok, sn) =>
      assert HasTask(s, r, k);
      TasksInRange(c, run, i, r, k);
      if InLoop(PcOf(s, r, k)) {
        LoopProgress(c, s, r, k, ok, sn);
      } else {
        RouteProgress(c, s, r, k, ok, sn);
      }
    case Callback(r) =>
      CallbackRanks(c, s.bridge.enabled, r in s.on.readers, s.readers[r]);
  }

  // ----- nobody waits for good -----

  ghost predicate Own(a: Action) {
    a.Run? || a.Callback?
  }

  /** Whoever holds a reader's RTPS mutex can go on. */
  lemma {:induction false} MutexMoves(c: Config, s: State, r: ReaderId) returns (a: Action)
    requires W.Inv(c, s) && r in s.readers && s.readers[r].mutex != Free
    ensures Own(a) && Can(c, s, a)
  {
    T.ReaderFacts(c, s, r);
    T.FlagFacts(c, s, r);
    hide W.ReaderInv, W.ControlInv, W.ServersInv;
    var m := s.readers[r].mutex;
    a := if m.HeldBy? then Run(r, m.k, false, 0) else Callback(r);
  }

  /** Whoever holds a registry's mutex can go on. */
  lemma {:induction false} RegistryMoves(c: Config, run: seq<State>, i: nat, q: ParticipantId) returns (a: Action)
    requires IsRun(c, run) && i < |run| && q in run[i].regs && run[i].regs[q].owner != None
    ensures Own(a) && Can(c, run[i], a)
  {
    hide IsRun, W.Inv, R.Inv;
    R.RunKeepsRouting(c, run, i);
    var s, r := run[i], run[i].regs[q].owner.value.r;
    ShapedNow(c, s);
    OwnerFacts(c, s, q);
    var k := |s.readers[r].tasks| - 1;
    TasksInRange(c, run, i, r, k);
    a := Run(r, k, false, 0);
  }

  lemma {:induction false} ShapedNow(c: Config, s: State)
    requires W.Inv(c, s)
    ensures Shaped(c, s)
  {
  }

  lemma {:induction false} OwnerFacts(c: Config, s: State, q: ParticipantId)
    requires R.Inv(c, R.ViewOf(s)) && q in s.regs && s.regs[q].owner.Some?
    ensures var r := s.regs[q].owner.value.r;
            && r in s.readers && s.readers[r].tasks != []
            && R.HoldsLock(s.readers[r].tasks[|s.readers[r].tasks| - 1])
  {
    hide R.TaskInv, R.TableInv, R.RepliesInv, R.Traced, R.ReadAtParticipants;
    var v := R.ViewOf(s);
    assert q in v.regs && v.regs[q] == s.regs[q];
  }

  /** Every task that has not ended can go on, or another step can be made by whoever holds the lock it waits for. */
  lemma {:induction false} TaskMoves(c: Config, run: seq<State>, i: nat, r: ReaderId, k: nat) returns (a: Action)
    requires IsRun(c, run) && i < |run| && HasTask(run[i], r, k) && !PcOf(run[i], r, k).Done?
    ensures Own(a) && Can(c, run[i], a)
  {
    hide IsRun, W.Inv, Shaped;
    W.RunKeeps(c, run, i);
    var s, pc := run[i], PcOf(run[i], r, k);
    ShapedNow(c, s);
    TasksInRange(c, run, i, r, k);
    assert r.p in c.ids && forall q :: q in c.ids ==> q in s.regs by { ShapedKeys(c, s, r); }
    a := Run(r, k, false, 0);
    if (pc.Head? || pc.Take?) && s.readers[r].mutex != Free {
      a := MutexMoves(c, s, r);
    } else if (pc.ReplyLock? || pc.ReplyErase?) && s.regs[r.p].owner != None {
      a := RegistryMoves(c, run, i, r.p);
    } else if pc.ForwardLock? && s.regs[c.ids[pc.i]].owner != None {
      a := RegistryMoves(c, run, i, c.ids[pc.i]);
    }
  }

  lemma {:induction false} ShapedKeys(c: Config, s: State, r: ReaderId)
    requires Shaped(c, s) && r in s.readers
    ensures r.p in c.ids && forall q :: q in c.ids ==> q in s.regs
  {
  }

  /** Every callback has returned and every task has ended. */
  ghost predicate Drained(s: State) {
    && (forall r :: r in s.readers ==> s.readers[r].mutex == Free)
    && (forall r, k: nat :: HasTask(s, r, k) ==> PcOf(s, r, k).Done?)
  }

  lemma {:induction false} GoesOn(c: Config, run: seq<State>, i: nat) returns (a: Action)
    requires IsRun(c, run) && i < |run| && !Drained(run[i])
    ensures Own(a) && Can(c, run[i], a)
  {
    hide IsRun, W.Inv, Can;
    W.RunKeeps(c, run, i);
    if r :| r in run[i].readers && run[i].readers[r].mutex != Free {
      a := MutexMoves(c, run[i], r);
    } else {
      var r, k: nat :| HasTask(run[i], r, k) && !PcOf(run[i], r, k).Done?;
      a := TaskMoves(c, run, i, r, k);
    }
  }

  /** Nothing is left: the transmission lock is free, and an enabled bridge has read everything that arrived. */
  lemma {:induction false} NothingLeft(c: Config, run: seq<State>, i: nat)
    requires IsRun(c, run) && i < |run| && Drained(run[i])
    ensures run[i].sharing == {}
    ensures run[i].bridge.enabled && run[i].bridge.control.Idle? ==>
      forall r :: r in run[i].readers ==> run[i].readers[r].unread == []
  {
    hide IsRun, W.Inv;
    var s := run[i];
    W.RunKeeps(c, run, i);
    if t :| t in s.sharing {
      SharedBy(c, s, t);
    }
    if s.bridge.enabled && s.bridge.control.Idle? {
      forall r | r in s.readers
        ensures s.readers[r].unread == []
      {
        T.NoLostWakeup(c, run, i, r);
        AllEnded(s, r);
      }
    }
  }

  lemma {:induction false} AllEnded(s: State, r: ReaderId)
    requires Drained(s) && r in s.readers
    ensures s.readers[r].mutex == Free
    ensures forall k :: 0 <= k < |s.readers[r].tasks| ==> !W.Active(s.readers[r].tasks[k])
  {
    forall k: nat | k < |s.readers[r].tasks|
      ensures !W.Active(s.readers[r].tasks[k])
    {
      assert HasTask(s, r, k);
    }
  }

  lemma {:induction false} SharedBy(c: Config, s: State, t: TaskId)
    requires W.Inv(c, s) && t in s.sharing
    ensures HasTask(s, t.r, t.k) && !PcOf(s, t.r, t.k).Done?
  {
    hide W.FlagInv, W.Served, W.PcsInv, W.ControlInv;
    assert W.ReaderInv(c, s.bridge, s.on, s.sharing, t.r, s.readers[t.r]);
  }

  // ----- everything comes to an end -----

  /** The ranks of the first `n` readers, in the order of `enable`. */
  ghost function Ranks(c: Config, s: State, n: nat): nat
    requires Shaped(c, s) && n <= 2 * |c.ids|
  {
    if n == 0 then 0 else Ranks(c, s, n - 1) + ReaderRank(c, s.readers[ReaderAt(c, n - 1)])
  }

  lemma {:induction false} RanksFall(c: Config, s: State, r: ReaderId, s': State, n: nat)
    requires Shaped(c, s) && Shaped(c, s') && n <= 2 * |c.ids| && Progress(c, s, r, s')
    ensures Ranks(c, s', n) <= Ranks(c, s, n)
    ensures (exists j: nat :: j < n && ReaderAt(c, j) == r) ==> Ranks(c, s', n) < Ranks(c, s, n)
  {
    hide ReaderRank;
    if n > 0 {
      RanksFall(c, s, r, s', n - 1);
      assert ReaderAt(c, n - 1) == r || s'.readers[ReaderAt(c, n - 1)] == s.readers[ReaderAt(c, n - 1)];
    }
  }

  lemma {:induction false} Extends(c: Config, run: seq<State>, a: Action)
    requires IsRun(c, run) && Can(c, run[|run| - 1], a)
    ensures IsRun(c, run + [Do(c, run[|run| - 1], a)])
  {
    hide Can, Do, Init;
    var s := run[|run| - 1];
    var run' := run + [Do(c, s, a)];
    forall i | 0 <= i < |run'| - 1
      ensures Next(c, run'[i], run'[i + 1])
    {
      if i == |run| - 1 {
        assert Can(c, run'[i], a) && run'[i + 1] == Do(c, run'[i], a);
      } else {
        assert Next(c, run[i], run[i + 1]);
      }
    }
  }

  lemma {:induction false} RunShaped(c: Config, run: seq<State>, i: nat)
    requires IsRun(c, run) && i < |run|
    ensures Shaped(c, run[i])
  {
    W.RunKeeps(c, run, i);
  }

  lemma {:induction false} StepLowers(c: Config, run: seq<State>, i: nat, a: Action)
    requires IsRun(c, run) && i < |run| && Quiet(run[i]) && Own(a) && Can(c, run[i], a)
    requires Shaped(c, run[i]) && Shaped(c, Do(c, run[i], a))
    ensures Ranks(c, Do(c, run[i], a), 2 * |c.ids|) < Ranks(c, run[i], 2 * |c.ids|)
    ensures Do(c, run[i], a).bridge == run[i].bridge
  {
    hide IsRun, Do, Can, ReaderRank, ReaderAt;
    StepProgress(c, run, i, a);
    var j := W.ReaderIndex(c, a.r);
    RanksFall(c, run[i], a.r, Do(c, run[i], a), 2 * |c.ids|);
  }

  /**
   With nothing more arriving, callbacks and tasks of a bridge that is not in the middle of enable or disable, however
   they are scheduled, make no more steps than the ranks of its readers say.
   */
  lemma {:induction false} BoundedWork(c: Config, run: seq<State>, from: nat, to: nat)
    requires IsRun(c, run) && from <= to < |run| && Quiet(run[from]) && Shaped(c, run[from]) && Shaped(c, run[to])
    requires forall m :: from <= m < to ==> OwnStep(c, run[m], run[m + 1])
    ensures Quiet(run[to]) && Ranks(c, run[to], 2 * |c.ids|) + (to - from) <= Ranks(c, run[from], 2 * |c.ids|)
  {
    hide IsRun, Do, Can, Ranks, Shaped;
    if from < to {
      RunShaped(c, run, to - 1);
      BoundedWork(c, run, from, to - 1);
      assert OwnStep(c, run[to - 1], run[(to - 1) + 1]);
      var a :| Own(a) && Can(c, run[to - 1], a) && run[to] == Do(c, run[to - 1], a);
      StepLowers(c, run, to - 1, a);
    }
  }

  ghost predicate OwnStep(c: Config, s: State, s': State) {
    exists a: Action :: Own(a) && Can(c, s, a) && s' == Do(c, s, a)
  }

  /**
   From every such state callbacks and tasks reach a state in which all of them have ended: the transmission lock that
   `disable` waits for is free, and an enabled bridge has read everything that arrived.
   */
  lemma {:induction false} Drains(c: Config, run: seq<State>) returns (run': seq<State>)
    requires IsRun(c, run) && Quiet(run[|run| - 1]) && Shaped(c, run[|run| - 1])
    ensures IsRun(c, run') && run <= run'
    ensures forall m :: |run| - 1 <= m < |run'| - 1 ==> OwnStep(c, run'[m], run'[m + 1])
    ensures var s, s' := run[|run| - 1], run'[|run'| - 1];
            && s'.bridge == s.bridge && Drained(s') && s'.sharing == {}
            && (s.bridge.enabled && s.bridge.control.Idle? ==>
                  forall r :: r in s'.readers ==> s'.readers[r].unread == [])
    decreases Ranks(c, run[|run| - 1], 2 * |c.ids|)
  {
    hide Do, Can, Ranks, Shaped, Drained, Init, Next, Own;
    var s := run[|run| - 1];
    run' := run;
    if Drained(s) {
      NothingLeft(c, run, |run| - 1);
    } else {
      var a := GoesOn(c, run, |run| - 1);
      var longer := run + [Do(c, s, a)];
      Extends(c, run, a);
      RunShaped(c, longer, |run|);
      StepLowers(c, run, |run| - 1, a);
      run' := Drains(c, longer);
      assert run <= longer;
      assert run'[|run| - 1] == s && run'[|run|] == Do(c, s, a) by {
        assert longer[|run|] == Do(c, s, a) && longer[|run| - 1] == s;
      }
      assert OwnStep(c, run'[|run| - 1], run'[|run|]);
    }
  }

  // ----- writes -----

  /** A request can be sent in every state in which a task is about to: under any number not sent before. */
  lemma {:induction false} RequestCanBeSent(
    c: Config, run: seq<State>, i: nat, r: ReaderId, k: nat, ok: bool, sn: SequenceNumber)
    requires IsRun(c, run) && i < |run| && HasTask(run[i], r, k) && PcOf(run[i], r, k).ForwardWrite?
    ensures var j := PcOf(run[i], r, k).i;
            && j < |c.ids| && c.ids[j] in run[i].regs
            && (Can(c, run[i], Run(r, k, ok, sn)) <==>
                  (ok ==> forall n :: n in run[i].regs[c.ids[j]].written ==> n < sn))
  {
    hide IsRun;
    RunShaped(c, run, i);
    TasksInRange(c, run, i, r, k);
    T.WritersEnabled(c, run, i, r, k);
  }

  /** A reply that was found can always be written. */
  lemma {:induction false} ReplyCanBeSent(
    c: Config, run: seq<State>, i: nat, r: ReaderId, k: nat, ok: bool, sn: SequenceNumber)
    requires IsRun(c, run) && i < |run| && HasTask(run[i], r, k) && PcOf(run[i], r, k).ReplyWrite?
    ensures Can(c, run[i], Run(r, k, ok, sn))
  {
    hide IsRun;
    RunShaped(c, run, i);
    T.WritersEnabled(c, run, i, r, k);
  }

  // ----- enable and disable come to an end -----

  /** Steps the router thread has left in `enable` or `disable`. */
  function ControlRank(c: Config, control: Control): int {
    var n := 2 * |c.ids|;
    match control
    case Idle => 0
    case EnableReader(i) => if i < n then 2 * (n - i) + 1 else 1
    case NotifyReader(i) => 2 * (n - i)
    case EnableWriters(i) => 2 * n + 2 + if i < n then n - i else 0
    case DisableWriters(i) => 1 + if i < n then n - i else 0
    case DisableReaders(i) => n + 2 + if i < n then n - i else 0
    case WaitTransmission => 2 * n + 3
  }

  /** Each of its steps brings the router thread nearer to the end, and no other step but the first moves it. */
  lemma {:induction false} ControlFalls(c: Config, s: State, a: Action)
    requires Can(c, s, a) && s.bridge.control != Idle
    ensures var control, control' := s.bridge.control, Do(c, s, a).bridge.control;
            if a.Advance? then 0 <= ControlRank(c, control') < ControlRank(c, control) else control' == control
  {
    hide RoutePc, RouteRegistry, RouteEvents, ReaderStep, CallbackStep, CanRun, InLoop, RequestsRead;
    if a.Advance? {
      AdvanceFalls(c, s);
    }
  }

  lemma {:induction false} AdvanceFalls(c: Config, s: State)
    requires Shaped(c, s) && CanAdvance(c, s)
    ensures 0 <= ControlRank(c, ControlStep(c, s).bridge.control) < ControlRank(c, s.bridge.control)
  {
    hide ControlRank;
    NextControl(c, s);
    NextFalls(c, s.bridge.control, ControlStep(c, s).bridge.control);
  }

  /** The order of the router thread's program points. */
  ghost predicate Follows(c: Config, control: Control, control': Control) {
    var n := 2 * |c.ids|;
    match control
    case Idle => false
    case EnableWriters(i) => control' == if i < n then EnableWriters(i + 1) else EnableReader(0)
    case EnableReader(i) => control' == if i < n then NotifyReader(i) else Idle
    case NotifyReader(i) => i < n && control' == EnableReader(i + 1)
    case WaitTransmission => control' == DisableReaders(0)
    case DisableReaders(i) => control' == if i < n then DisableReaders(i + 1) else DisableWriters(0)
    case DisableWriters(i) => control' == if i < n then DisableWriters(i + 1) else Idle
  }

  lemma {:induction false} NextControl(c: Config, s: State)
    requires Shaped(c, s) && CanAdvance(c, s)
    ensures Follows(c, s.bridge.control, ControlStep(c, s).bridge.control)
  {
    hide ReaderAt, WriterAt, Swapped;
  }

  lemma {:induction false} NextFalls(c: Config, control: Control, control': Control)
    requires Follows(c, control, control')
    ensures 0 <= ControlRank(c, control') < ControlRank(c, control)
  {
  }

  /**
   In every run, as long as enable or disable, a callback or a task is under way, the router thread, a callback or a
   task can make a step: no two of them ever wait for each other.
   */
  lemma {:induction false} NeverStuck(c: Config, run: seq<State>, i: nat) returns (a: Action)
    requires IsRun(c, run) && i < |run| && (!run[i].bridge.control.Idle? || !Drained(run[i]))
    ensures (Own(a) || a.Advance?) && Can(c, run[i], a)
  {
    hide IsRun, Drained, Shaped, W.ReaderInv;
    if Drained(run[i]) {
      W.RunKeeps(c, run, i);
      NothingLeft(c, run, i);
      AllFree(c, run[i]);
      a := Advance;
    } else {
      a := GoesOn(c, run, i);
    }
  }

  lemma {:induction false} AllFree(c: Config, s: State)
    requires Shaped(c, s) && Drained(s)
    ensures forall j :: 0 <= j < 2 * |c.ids| ==> s.readers[ReaderAt(c, j)].mutex == Free
  {
  }

  /**
   The order in which the router thread switches endpoints, one in a step: request writers, reply writers, reply readers
   and request readers on; request readers, reply readers, reply writers and request writers off.
   */
  lemma {:induction false} SwitchOrder(c: Config, s: State, j: nat)
    requires Shaped(c, s) && CanAdvance(c, s) && j < |c.ids|
    ensures var p, n, on, on' := c.ids[j], |c.ids|, s.on, ControlStep(c, s).on;
            match s.bridge.control
            case EnableWriters(i) =>
              && (i == j ==> on' == on.(writers := on.writers + {RequestWriter(p)}))
              && (i == n + j ==> on' == on.(writers := on.writers + {ReplyWriter(p)}))
            case EnableReader(i) =>
              && (i == j ==> on' == on.(readers := on.readers + {ReplyReader(p)}))
              && (i == n + j ==> on' == on.(readers := on.readers + {RequestReader(p)}))
            case DisableReaders(i) =>
              && (i == j ==> on' == on.(readers := on.readers - {RequestReader(p)}))
              && (i == n + j ==> on' == on.(readers := on.readers - {ReplyReader(p)}))
            case DisableWriters(i) =>
              && (i == j ==> on' == on.(writers := on.writers - {ReplyWriter(p)}))
              && (i == n + j ==> on' == on.(writers := on.writers - {RequestWriter(p)}))
            case _ => on' == on
  {
  }

  /** What `disable` has switched off, in its own order. */
  ghost predicate WritersOff(c: Config, s: State) {
    var b := s.bridge;
    forall j :: 0 <= j < 2 * |c.ids| && ((b.control.Idle? && !b.enabled)
                                         || (b.control.DisableWriters? && j < b.control.i)) ==>
                  WriterAt(c, Swapped(c, j)) !in s.on.writers
  }

  lemma {:induction false} AdvanceOff(c: Config, s: State)
    requires Shaped(c, s) && CanAdvance(c, s) && WritersOff(c, s) && W.ControlInv(c, s.bridge, s.on)
    ensures WritersOff(c, ControlStep(c, s))
  {
  }

  lemma {:induction false} StepOff(c: Config, s: State, a: Action)
    requires W.Inv(c, s) && Can(c, s, a) && WritersOff(c, s)
    ensures WritersOff(c, Do(c, s, a))
  {
    hide RoutePc, RouteRegistry, RouteEvents, ReaderStep, CallbackStep, CanRun, InLoop, RequestsRead, ControlStep,
      CanAdvance, W.ControlInv, W.ReaderInv, W.ServersInv;
    if a.Advance? {
      AdvanceOff(c, s);
    }
  }

  lemma {:induction false} RunOff(c: Config, run: seq<State>, i: nat)
    requires IsRun(c, run) && i < |run|
    ensures WritersOff(c, run[i])
  {
    hide Do, Can, W.Inv, Shaped;
    if i > 0 {
      RunOff(c, run, i - 1);
      W.RunKeeps(c, run, i - 1);
      assert Next(c, run[i - 1], run[(i - 1) + 1]);
      var a :| Can(c, run[i - 1], a) && run[i] == Do(c, run[i - 1], a);
      StepOff(c, run[i - 1], a);
    }
  }

  /** In every run, outside enable and disable all endpoints are switched as the bridge is. */
  lemma {:induction false} EndpointsSwitched(c: Config, run: seq<State>, i: nat, p: ParticipantId)
    requires IsRun(c, run) && i < |run| && run[i].bridge.control.Idle? && p in c.ids
    ensures var s := run[i];
            && (RequestReader(p) in s.on.readers <==> s.bridge.enabled)
            && (ReplyReader(p) in s.on.readers <==> s.bridge.enabled)
            && (RequestWriter(p) in s.on.writers <==> s.bridge.enabled)
            && (ReplyWriter(p) in s.on.writers <==> s.bridge.enabled)
  {
    hide IsRun, W.ReaderInv, W.ServersInv, Shaped;
    var s := run[i];
    W.RunKeeps(c, run, i);
    RunOff(c, run, i);
    var j: nat :| j < |c.ids| && c.ids[j] == p;
    var n := |c.ids|;
    if s.bridge.enabled {
      assert ReaderAt(c, j) in s.on.readers && ReaderAt(c, j + n) in s.on.readers;
      assert WriterAt(c, j) in s.on.writers && WriterAt(c, j + n) in s.on.writers;
    } else {
      assert ReaderAt(c, Swapped(c, j)) !in s.on.readers && ReaderAt(c, Swapped(c, j + n)) !in s.on.readers;
      assert WriterAt(c, Swapped(c, j)) !in s.on.writers && WriterAt(c, Swapped(c, j + n)) !in s.on.writers;
    }
  }

  /** `disable` always gets the transmission lock and ends. */
  lemma {:induction false} DisableEnds(c: Config, run: seq<State>) returns (run': seq<State>)
    requires IsRun(c, run) && run[|run| - 1].bridge.control.WaitTransmission?
    ensures IsRun(c, run') && run <= run'
    ensures run'[|run'| - 1].bridge == run[|run| - 1].bridge.(control := Idle)
  {
    hide Init, Next, Drained, Shaped;
    RunShaped(c, run, |run| - 1);
    var drained := Drains(c, run);
    var last := drained[|drained| - 1];
    RunShaped(c, drained, |drained| - 1);
    Extends(c, drained, Advance);
    run' := SwitchOff(c, drained + [Do(c, last, Advance)]);
    assert run <= drained <= run';
  }

  lemma {:induction false} SwitchOff(c: Config, run: seq<State>) returns (run': seq<State>)
    requires IsRun(c, run)
    requires run[|run| - 1].bridge.control.DisableReaders? || run[|run| - 1].bridge.control.DisableWriters?
    ensures IsRun(c, run') && run <= run'
    ensures run'[|run'| - 1].bridge == run[|run| - 1].bridge.(control := Idle)
    decreases ControlRank(c, run[|run| - 1].bridge.control)
  {
    hide Init, Next, Shaped;
    var s := run[|run| - 1];
    RunShaped(c, run, |run| - 1);
    Extends(c, run, Advance);
    AdvanceFalls(c, s);
    run' := run + [Do(c, s, Advance)];
    if run'[|run|].bridge.control != Idle {
      run' := SwitchOff(c, run');
    }
  }
}
