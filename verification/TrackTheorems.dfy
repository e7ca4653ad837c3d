/** Theorems about whole runs of one Track. */
module TrackTheorems {
  import opened Track
  import opened TrackInvariants
  import opened TrackHistory

  /**
   Over every run, including enable and disable: at most one transmit task is outstanding, a status of 0 means
   there is none, the fetch_sub never underflows and the 32-bit counter agrees with the mathematical one.
   */
  lemma OneOutstandingTask(c: Config, run: seq<State>, i: nat)
    requires IsRun(c, run) && i < |run|
    ensures Tokens(run[i]) <= 1
    ensures run[i].word == 0 ==> Tokens(run[i]) == 0
    ensures run[i].loop.Sub? ==> run[i].word >= 1
    ensures run[i].word == run[i].h.status
  {
    RunKeeps(c, run, i);
  }

  /** While the track is never turned off, unread data means a callback in progress or exactly one outstanding task. */
  lemma {:induction false} NoLostWakeup(c: Config, run: seq<State>, i: nat)
    requires IsRun(c, run) && i < |run|
    requires forall m :: 0 <= m < i && run[m].enabled ==> run[m + 1].enabled
    requires run[i].enabled && run[i].control.Idle?
    ensures run[i].queue != [] ==> Pending(run[i]) > 0 || Tokens(run[i]) == 1
  {
    RunKeeps(c, run, i);
    RunHistory(c, run, i);
    hide IsRun;
  }

  /**
   Across any number of enable and disable calls and for every reader, an enabled track with unread data and no
   callback in progress is served exactly when no task has ever left at its loop head, because the track was disabled,
   and no callback has been missed: one was dropped, no other got through since, and the counter was 0 whenever the
   track was enabled since. A reliable reader, whose enable calls back, misses none.
   */
  lemma {:induction false} ServedIff(c: Config, run: seq<State>, i: nat)
    requires IsRun(c, run) && i < |run|
    requires run[i].enabled && run[i].control.Idle? && run[i].queue != [] && Pending(run[i]) == 0
    ensures Tokens(run[i]) == 1 <==> NeverAborted(run, i) && !Missed(run, i)
    ensures c.reliable ==> !Missed(run, i)
  {
    RunKeeps(c, run, i);
    RunHistory(c, run, i);
    hide IsRun, NeverAborted, Missed;
  }

  lemma Extend(c: Config, run: seq<State>, s: State, a: Action) returns (run': seq<State>)
    requires IsRun(c, run) && s == run[|run| - 1] && Can(c, s, a) && Do(c, s, a).h.sinceStore < CALLBACK_LIMIT
    ensures IsRun(c, run') && |run'| > 0 && run'[|run'| - 1] == Do(c, s, a)
  {
    hide Do, Can;
    var s' := Do(c, s, a);
    run' := run + [s'];
    forall i | 0 <= i < |run'| - 1 ensures Next(c, run'[i], run'[i + 1]) {
      if i + 1 < |run| { assert Next(c, run[i], run[i + 1]); }
    }
  }

  /** A task queued before a disable starts after it: it leaves at the loop head, with the status still at 2. */
  lemma StaleTask(c: Config) returns (run: seq<State>)
    requires c == Config([], true, 0)
    ensures IsRun(c, run) && |run| > 0
    ensures run[|run| - 1] == Init(c).(word := 2, h := History(2, 1, [], [], true, true, true, [], false))
  {
    hide IsRun;
    var s := Init(c);
    assert IsRun(c, [s]) by { FirstState(c); }
    run := [s];
    // enabled; the callback made by the reader's enable emits a task
    run := Extend(c, run, s, StartEnable); s := Do(c, s, StartEnable);
    run := Extend(c, run, s, AdvanceControl); s := Do(c, s, AdvanceControl);
    run := Extend(c, run, s, AdvanceControl); s := Do(c, s, AdvanceControl);
    run := Extend(c, run, s, TestTrack); s := Do(c, s, TestTrack);
    run := Extend(c, run, s, FetchAdd); s := Do(c, s, FetchAdd);
    run := Extend(c, run, s, Emit); s := Do(c, s, Emit);
    // disabled before the task starts
    run := Extend(c, run, s, StartDisable); s := Do(c, s, StartDisable);
    run := Extend(c, run, s, AdvanceControl); s := Do(c, s, AdvanceControl);
    run := Extend(c, run, s, AdvanceControl); s := Do(c, s, AdvanceControl);
    run := Extend(c, run, s, AdvanceControl); s := Do(c, s, AdvanceControl);
    run := Extend(c, run, s, Start); s := Do(c, s, Start);
    run := Extend(c, run, s, Transmit(false)); s := Do(c, s, Transmit(false));
    run := Extend(c, run, s, Transmit(false)); s := Do(c, s, Transmit(false));
  }

  /**
   The wake-up claim does not survive disable and enable: after the stale task, a datum that arrives before the
   next enable is left unread with no callback in progress and no task.
   */
  lemma LostWakeup() returns (c: Config, run: seq<State>)
    ensures IsRun(c, run)
    ensures var s := run[|run| - 1];
            && c.reliable && s.enabled && s.control.Idle?
            && s.queue != [] && Pending(s) == 0 && Tokens(s) == 0
  {
    hide IsRun;
    c := Config([], true, 0);
    run := StaleTask(c);
    var s, d := run[|run| - 1], Data(0, true, true);
    run := Extend(c, run, s, Arrive(d)); s := Do(c, s, Arrive(d));
    run := Extend(c, run, s, StartEnable); s := Do(c, s, StartEnable);
    run := Extend(c, run, s, AdvanceControl); s := Do(c, s, AdvanceControl);
    run := Extend(c, run, s, AdvanceControl); s := Do(c, s, AdvanceControl);
    run := Extend(c, run, s, TestTrack); s := Do(c, s, TestTrack);
    run := Extend(c, run, s, FetchAdd); s := Do(c, s, FetchAdd);
  }

  /** A callback that finds the track disabled is dropped, and its datum stays unread. */
  lemma DroppedCallback(c: Config, d: Data) returns (run: seq<State>)
    requires c == Config([], false, 0) && d.block != 0
    ensures IsRun(c, run) && |run| > 0
    ensures run[|run| - 1]
         == Init(c).(queue := [d], h := History(0, 0, [], [], true, false, true, [Arrival(d, true)], true))
  {
    hide IsRun;
    var s := Init(c);
    assert IsRun(c, [s]) by { FirstState(c); }
    run := [s];
    run := Extend(c, run, s, StartEnable); s := Do(c, s, StartEnable);
    run := Extend(c, run, s, AdvanceControl); s := Do(c, s, AdvanceControl);
    run := Extend(c, run, s, AdvanceControl); s := Do(c, s, AdvanceControl);
    run := Extend(c, run, s, Arrive(d)); s := Do(c, s, Arrive(d));
    run := Extend(c, run, s, StartDisable); s := Do(c, s, StartDisable);
    run := Extend(c, run, s, TestTrack); s := Do(c, s, TestTrack);
    run := Extend(c, run, s, AdvanceControl); s := Do(c, s, AdvanceControl);
    run := Extend(c, run, s, AdvanceControl); s := Do(c, s, AdvanceControl);
    run := Extend(c, run, s, AdvanceControl); s := Do(c, s, AdvanceControl);
  }

  /**
   So a best-effort reader has a second way to lose the wake-up, with no task involved: the enable after a dropped
   callback does not call back.
   */
  lemma LostBestEffortWakeup() returns (c: Config, run: seq<State>)
    ensures IsRun(c, run)
    ensures var s := run[|run| - 1];
            && !c.reliable && s.enabled && s.control.Idle? && !s.h.aborted && s.h.missed
            && s.queue != [] && Pending(s) == 0 && Tokens(s) == 0
  {
    hide IsRun;
    c := Config([], false, 0);
    run := DroppedCallback(c, Data(1, true, true));
    var s := run[|run| - 1];
    run := Extend(c, run, s, StartEnable); s := Do(c, s, StartEnable);
    run := Extend(c, run, s, AdvanceControl); s := Do(c, s, AdvanceControl);
    run := Extend(c, run, s, AdvanceControl); s := Do(c, s, AdvanceControl);
  }

  lemma FirstState(c: Config)
    ensures IsRun(c, [Init(c)])
  {
  }

  lemma {:induction false} HistoryGrows(c: Config, s: State, a: Action)
    requires Can(c, s, a)
    ensures !s.loop.Keep? ==> Do(c, s, a).h.taken == s.h.taken
    ensures !s.loop.Write? ==> Do(c, s, a).h.writes == s.h.writes
    ensures s.h.aborted ==> Do(c, s, a).h.aborted
  {
    hide LoopStep, ControlStep;
    if a.Transmit? {
      LoopHistoryGrows(c, s, a.ok);
    } else if a.AdvanceControl? {
      ControlKeepsHistory(c, s);
    }
  }

  lemma {:induction false} LoopHistoryGrows(c: Config, s: State, ok: bool)
    requires s.loop != Free
    ensures !s.loop.Keep? ==> LoopStep(c, s, ok).h.taken == s.h.taken
    ensures !s.loop.Write? ==> LoopStep(c, s, ok).h.writes == s.h.writes
    ensures s.h.aborted ==> LoopStep(c, s, ok).h.aborted
  {
  }

  lemma {:induction false} ControlKeepsHistory(c: Config, s: State)
    requires s.control != Idle
    ensures ControlStep(c, s).h == s.h
  {
  }

  /** Once a task has left that way, no later step of the run takes or writes anything. */
  lemma {:induction false} AbortedStaysSilent(c: Config, run: seq<State>, i: nat, j: nat)
    requires IsRun(c, run) && i <= j < |run| && !NeverAborted(run, i)
    ensures run[j].h.aborted && run[j].h.taken == run[i].h.taken && run[j].h.writes == run[i].h.writes
  {
    hide Do, Can;
    RunHistory(c, run, i);
    if i < j {
      AbortedStaysSilent(c, run, i, j - 1);
      RunKeeps(c, run, j - 1);
      assert Next(c, run[j - 1], run[(j - 1) + 1]);
      var a :| Can(c, run[j - 1], a) && run[j] == Do(c, run[j - 1], a);
      HistoryGrows(c, run[j - 1], a);
    }
  }

  /**
   For a track that alone drives its endpoints, every write finds its writer enabled; for any track, once disable
   has passed the transmission mutex nothing is taken or written until the next enable.
   */
  lemma EndpointsRespected(c: Config, run: seq<State>, i: nat)
    requires IsRun(c, run) && i < |run|
    ensures run[i].h.alone && run[i].loop.Write? ==>
              forall j :: 0 <= j < |c.writers| ==> c.writers[j] in run[i].writersOn
    ensures Stopped(run[i]) && i + 1 < |run| ==>
              && !run[i].loop.Take? && !run[i].loop.Write?
              && run[i + 1].h.taken == run[i].h.taken && run[i + 1].h.writes == run[i].h.writes
  {
    RunKeeps(c, run, i);
    if Stopped(run[i]) && i + 1 < |run| {
      assert Next(c, run[i], run[i + 1]);
      var a :| Can(c, run[i], a) && run[i + 1] == Do(c, run[i], a);
      HistoryGrows(c, run[i], a);
    }
  }

  /**
   The counter of a payload block is the number of changes, writer histories and running transmissions that hold
   it, so it is never negative; at the loop head the track holds none, and while it forwards a datum the block
   stays referenced although the reader's change is gone.
   */
  lemma PayloadReferences(c: Config, run: seq<State>, i: nat)
    requires IsRun(c, run) && i < |run|
    ensures run[i].refs == QueueRefs(c, run[i].queue) + run[i].writerRefs + OwnRefs(c, run[i])
    ensures run[i].refs >= 0 && run[i].writerRefs >= 0
    ensures run[i].loop.Head? ==> run[i].refs == QueueRefs(c, run[i].queue) + run[i].writerRefs
    ensures run[i].loop.Write? || run[i].loop.Release? ==> run[i].refs >= Ref(c, run[i].loop.d)
  {
    RunKeeps(c, run, i);
  }

  /** Outside enable and disable the reader is on exactly when the track is; enabled alone, it has all its writers. */
  lemma {:induction false} EndpointsSwitched(c: Config, run: seq<State>, i: nat)
    requires IsRun(c, run) && i < |run| && run[i].control.Idle?
    ensures run[i].readerOn <==> run[i].enabled
    ensures run[i].enabled && run[i].h.alone ==> forall j :: 0 <= j < |c.writers| ==> c.writers[j] in run[i].writersOn
  {
    RunKeeps(c, run, i);
  }

  /** Program points left of enable or disable. */
  function ControlRank(c: Config, control: Control): nat {
    match control
    case Idle => 0
    case EnableReader => 1
    case EnableWriters(k) => if k < |c.writers| then 2 + (|c.writers| - k) else 2
    case DisableWriters(k) => if k < |c.writers| then 1 + (|c.writers| - k) else 1
    case DisableReader => 2 + |c.writers|
    case WaitTransmission => 3 + |c.writers|
  }

  /** Enable and disable end: each of their steps brings them nearer. */
  lemma {:induction false} ControlEnds(c: Config, s: State)
    requires Can(c, s, AdvanceControl)
    ensures ControlRank(c, Do(c, s, AdvanceControl).control) < ControlRank(c, s.control)
  {
  }

  /**
   A write may fail at any time and may succeed exactly through an enabled writer; it is noted either way, and the
   writer's history holds the block exactly if it succeeds.
   */
  lemma {:induction false} WriteOutcome(c: Config, s: State, ok: bool)
    requires s.loop.Write? && s.loop.k < |c.writers|
    ensures Can(c, s, Transmit(false)) && (Can(c, s, Transmit(true)) <==> c.writers[s.loop.k] in s.writersOn)
    ensures Can(c, s, Transmit(ok)) ==>
              var s' := Do(c, s, Transmit(ok));
              && s'.loop == Write(s.loop.d, s.loop.k + 1)
              && s'.h.writes == s.h.writes + [(c.writers[s.loop.k], s.loop.d)]
              && s'.writerRefs == s.writerRefs + if ok then Ref(c, s.loop.d) else 0
  {
  }

  /** Anybody may switch a writer, at any time. */
  lemma {:induction false} OthersSwitch(c: Config, s: State, w: WriterId, on: bool)
    ensures Can(c, s, SwitchWriter(w, on))
    ensures var s' := Do(c, s, SwitchWriter(w, on));
            (w in s'.writersOn <==> on) && forall v :: v != w ==> (v in s'.writersOn <==> v in s.writersOn)
  {
  }

  /** The counter is 32 bits wide. */
  lemma {:induction false} WrapIsModulo(x: int)
    requires -0x1_0000_0000 <= x < 0x2_0000_0000
    ensures Wrap(x) == x % 0x1_0000_0000
  {
  }

  // ----- draining -----

  /** Steps of callbacks and tasks: everything but arrivals, enable/disable and other owners of the endpoints. */
  ghost predicate Internal(a: Action) {
    a.TestTrack? || a.FetchAdd? || a.Emit? || a.Start? || a.Transmit?
  }

  /** Enabled, and neither way of losing the wake-up has happened, or a callback in progress makes up for it. */
  ghost predicate Settled(s: State) {
    s.enabled && s.control.Idle? && !s.h.aborted && (s.h.missed ==> Pending(s) > 0)
  }

  ghost predicate InternalStep(c: Config, s: State, s': State) {
    exists a: Action :: Internal(a) && Can(c, s, a) && s' == Do(c, s, a)
  }

  ghost predicate Quiescent(c: Config, s: State) {
    forall a: Action :: Internal(a) ==> !Can(c, s, a)
  }

  /** Loop iterations that may still start when nothing more arrives. */
  ghost function Iterations(s: State): nat {
    |s.queue| + Pending(s) +
    if s.loop.Take? || s.loop.Sub? then (if s.h.status >= 2 then 1 else 0)
    else if s.loop.Keep? || Tokens(s) == 0 then 0
    else 1
  }

  ghost function LoopRank(c: Config, l: Loop): nat {
    match l
    case Free => 0
    case Leaving => 1
    case Store => 1
    case Head => 2
    case Release(_) => 3
    case Sub => 3
    case Write(_, k) => if k < |c.writers| then 4 + (|c.writers| - k) else 4
    case Keep(_) => 5 + |c.writers|
    case Take => 6 + |c.writers|
  }

  /** A bound on the number of internal steps. */
  ghost function Rank(c: Config, s: State): nat {
    (|c.writers| + 6) * Iterations(s) +
    6 * s.atTrack + 5 * s.atAdd + 4 * s.atEmit + 3 * s.queued + LoopRank(c, s.loop)
  }

  lemma {:induction false} CallbackRanks(c: Config, s: State, a: Action)
    requires Inv(c, s) && Settled(s) && Can(c, s, a) && Internal(a) && !a.Transmit?
    ensures Iterations(Do(c, s, a)) <= Iterations(s)
    ensures Rank(c, Do(c, s, a)) < Rank(c, s) && Settled(Do(c, s, a))
    ensures s.loop.Store? ==> !Do(c, s, a).loop.Take?
  {
    var i, i' := Iterations(s), Iterations(Do(c, s, a));
    if i' < i { Scale(|c.writers| + 6, i', i); }
  }

  lemma {:induction false} TransmitRanks(c: Config, s: State, ok: bool)
    requires Inv(c, s) && Settled(s) && Can(c, s, Transmit(ok))
    ensures IterationEnds(s, Do(c, s, Transmit(ok)))
    ensures Rank(c, Do(c, s, Transmit(ok))) < Rank(c, s) && Settled(Do(c, s, Transmit(ok)))
  {
    hide Inv, Do, Iterations, Settled;
    TransmitIterates(c, s, ok);
    var i, i' := Iterations(s), Iterations(Do(c, s, Transmit(ok)));
    if i' < i { Scale(|c.writers| + 6, i', i); }
  }

  ghost predicate IterationEnds(s: State, s': State) {
    && Iterations(s') <= Iterations(s)
    && (s.loop.Store? ==> Iterations(s') < Iterations(s))
  }

  ghost predicate SameCallbacks(s: State, s': State) {
    s'.atTrack == s.atTrack && s'.atAdd == s.atAdd && s'.atEmit == s.atEmit && s'.queued == s.queued
  }

  lemma {:induction false} TransmitIterates(c: Config, s: State, ok: bool)
    requires Inv(c, s) && Settled(s) && Can(c, s, Transmit(ok))
    ensures IterationEnds(s, Do(c, s, Transmit(ok)))
    ensures SameCallbacks(s, Do(c, s, Transmit(ok))) && Settled(Do(c, s, Transmit(ok)))
    ensures if s.loop.Store? then Do(c, s, Transmit(ok)).loop.Take?
            else LoopRank(c, Do(c, s, Transmit(ok)).loop) < LoopRank(c, s.loop)
  {
  }

  lemma {:induction false} Scale(k: nat, i': nat, i: nat)
    requires i' < i
    ensures k * i' + k <= k * i
  {
    assert k * i == k * (i - 1) + k;
    if i' < i - 1 { Scale(k, i', i - 1); }
  }

  /** A run of internal steps from a settled state that satisfies the invariant. */
  ghost predicate IsDrain(c: Config, run: seq<State>) {
    && |run| > 0 && Inv(c, run[0]) && Settled(run[0])
    && (forall i :: 0 <= i < |run| - 1 ==> InternalStep(c, run[i], run[i + 1]))
    && (forall i :: 0 <= i < |run| ==> run[i].h.sinceStore < CALLBACK_LIMIT)
  }

  /** Loop iterations started along a run: executions of the store. */
  ghost function Stores(run: seq<State>): nat {
    if |run| < 2 then 0
    else Stores(run[..|run| - 1]) + if run[|run| - 2].loop.Store? && run[|run| - 1].loop.Take? then 1 else 0
  }

  lemma {:induction false} DrainKeeps(c: Config, run: seq<State>)
    requires IsDrain(c, run)
    ensures Inv(c, run[|run| - 1]) && Settled(run[|run| - 1])
    ensures Rank(c, run[|run| - 1]) + |run| - 1 <= Rank(c, run[0])
    ensures Iterations(run[|run| - 1]) + Stores(run) <= Iterations(run[0])
    decreases |run|
  {
    hide Do, Can, Rank, Iterations, Inv, Settled;
    var n := |run| - 1;
    if n > 0 {
      DrainKeeps(c, run[..n]);
      var s := run[n - 1];
      assert InternalStep(c, s, run[(n - 1) + 1]);
      var a :| Internal(a) && Can(c, s, a) && run[n] == Do(c, s, a);
      StepKeeps(c, s, a);
      if a.Transmit? {
        TransmitRanks(c, s, a.ok);
      } else {
        CallbackRanks(c, s, a);
      }
    }
  }

  /**
   With no further arrivals the outstanding task drains the reader: every run of internal steps is finite, starts
   at most (queue length + callbacks in progress + 1) loop iterations, and where nothing can move any more the
   queue is empty, the status is 0 and no task is left.
   */
  lemma Drains(c: Config, run: seq<State>)
    requires IsDrain(c, run)
    ensures |run| - 1 <= Rank(c, run[0])
    ensures Stores(run) <= |run[0].queue| + Pending(run[0]) + 1
    ensures Quiescent(c, run[|run| - 1]) ==>
              && run[|run| - 1].queue == [] && run[|run| - 1].word == 0
              && Tokens(run[|run| - 1]) == 0 && Pending(run[|run| - 1]) == 0
  {
    hide Rank, Do, Can, Inv, Settled;
    DrainKeeps(c, run);
    if Quiescent(c, run[|run| - 1]) { QuiescentIsDrained(c, run[|run| - 1]); }
  }

  lemma QuiescentIsDrained(c: Config, s: State)
    requires Inv(c, s) && Settled(s) && Quiescent(c, s)
    ensures s.queue == [] && s.word == 0 && Tokens(s) == 0 && Pending(s) == 0
  {
    assert !Can(c, s, TestTrack) && !Can(c, s, FetchAdd) && !Can(c, s, Emit);
    assert !Can(c, s, Transmit(false)) && !Can(c, s, Start);
  }
}
