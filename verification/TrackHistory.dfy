/** The history of a Track's run says what the steps of the run show. */
module TrackHistory {
  import opened Track
  import opened TrackInvariants

  // ----- steps as seen from outside -----

  /** The step turns the track off. */
  ghost predicate Disables(s: State, s': State) { s.enabled && !s'.enabled }

  ghost predicate Enables(s: State, s': State) { !s.enabled && s'.enabled }

  /** The task leaves at the loop head. */
  ghost predicate Aborts(s: State, s': State) { s.loop.Head? && s'.loop.Leaving? }

  /** A callback ends without reaching the counter. */
  ghost predicate Drops(s: State, s': State) { s'.atTrack < s.atTrack && s'.atAdd == s.atAdd }

  /** A callback gets through to the counter. */
  ghost predicate GetsThrough(s: State, s': State) { s'.atAdd < s.atAdd }

  ghost predicate Stores(s: State, s': State) { s.loop.Store? && s'.loop.Take? }

  lemma {:induction false} LoopHistory(c: Config, s: State, ok: bool)
    requires s.loop != Free
    ensures var s' := LoopStep(c, s, ok);
            && s'.enabled == s.enabled && s'.atTrack == s.atTrack && s'.atAdd == s.atAdd
            && s'.h.everDisabled == s.h.everDisabled && s'.h.missed == s.h.missed
            && s'.h.aborted == (s.h.aborted || Aborts(s, s'))
            && s'.h.sinceStore == (if Stores(s, s') then 0 else s.h.sinceStore)
  {
  }

  lemma {:induction false} ControlHistory(c: Config, s: State)
    requires s.control != Idle
    ensures var s' := ControlStep(c, s);
            && s'.enabled == s.enabled && s'.atTrack >= s.atTrack && s'.atAdd == s.atAdd && s'.loop == s.loop
            && s'.h == s.h
  {
  }

  /** What each step shows is what it adds to the history. */
  lemma {:induction false} StepHistory(c: Config, s: State, a: Action)
    requires Can(c, s, a)
    ensures var s' := Do(c, s, a);
            && s'.h.everDisabled == (s.h.everDisabled || Disables(s, s'))
            && s'.h.aborted == (s.h.aborted || Aborts(s, s'))
            && s'.h.sinceStore
               == (if Stores(s, s') then 0 else s.h.sinceStore + if GetsThrough(s, s') then 1 else 0)
            && s'.h.missed
               == (if Drops(s, s') then true else if GetsThrough(s, s') then false
                   else s.h.missed && (Enables(s, s') ==> s.word == 0))
  {
    hide LoopStep, ControlStep;
    if a.Transmit? {
      LoopHistory(c, s, a.ok);
    } else if a.AdvanceControl? {
      ControlHistory(c, s);
    }
  }

  // ----- runs -----

  /** No task has left at the loop head. */
  ghost predicate NeverAborted(run: seq<State>, i: nat)
    requires i < |run|
  {
    forall m :: 0 <= m < i ==> !Aborts(run[m], run[m + 1])
  }

  /** A callback was dropped, none got through since, and the counter was 0 whenever the track was enabled since. */
  ghost predicate Missed(run: seq<State>, i: nat)
    requires i < |run|
  {
    exists m :: 0 <= m < i && DroppedAt(run, m, i)
  }

  ghost predicate DroppedAt(run: seq<State>, m: nat, i: nat)
    requires m < i < |run|
  {
    && Drops(run[m], run[m + 1])
    && (forall n :: m < n < i ==> !GetsThrough(run[n], run[n + 1]))
    && (forall n :: m < n < i && Enables(run[n], run[n + 1]) ==> run[n].word == 0)
  }

  lemma {:induction false} RunHistory(c: Config, run: seq<State>, i: nat)
    requires IsRun(c, run) && i < |run|
    ensures run[i].h.everDisabled <==> exists m :: 0 <= m < i && Disables(run[m], run[m + 1])
    ensures run[i].h.aborted <==> !NeverAborted(run, i)
    ensures run[i].h.missed <==> Missed(run, i)
  {
    hide Do, Can;
    if i > 0 {
      RunHistory(c, run, i - 1);
      var s, s' := run[i - 1], run[i];
      assert Next(c, s, run[(i - 1) + 1]);
      var a :| Can(c, s, a) && s' == Do(c, s, a);
      StepHistory(c, s, a);
      hide Disables, Aborts, Drops, GetsThrough, Enables, IsRun;
      assert Disables(s, s') == Disables(run[i - 1], run[(i - 1) + 1]);
      assert NeverAborted(run, i) <==> NeverAborted(run, i - 1) && !Aborts(s, s');
      MissedStep(run, i - 1);
    }
  }

  lemma {:induction false} MissedStep(run: seq<State>, i: nat)
    requires i + 1 < |run|
    requires Drops(run[i], run[i + 1]) ==> !GetsThrough(run[i], run[i + 1])
    ensures Missed(run, i + 1)
       <==> (Drops(run[i], run[i + 1])
             || (!GetsThrough(run[i], run[i + 1]) && Missed(run, i)
                 && (Enables(run[i], run[i + 1]) ==> run[i].word == 0)))
  {
    hide Drops, GetsThrough, Enables, DroppedAt;
    if Drops(run[i], run[i + 1]) {
      LastDropped(run, i);
      assert DroppedAt(run, i, i + 1);
    }
    if Missed(run, i) {
      var m :| 0 <= m < i && DroppedAt(run, m, i);
      StillDropped(run, m, i);
      assert DroppedAt(run, m, i + 1) ==> Missed(run, i + 1);
    }
    if Missed(run, i + 1) {
      var m :| 0 <= m < i + 1 && DroppedAt(run, m, i + 1);
      if m == i {
        LastDropped(run, i);
      } else {
        StillDropped(run, m, i);
      }
    }
  }

  lemma {:induction false} StillDropped(run: seq<State>, m: nat, i: nat)
    requires m < i && i + 1 < |run|
    ensures DroppedAt(run, m, i + 1)
       <==> DroppedAt(run, m, i) && !GetsThrough(run[i], run[i + 1])
            && (Enables(run[i], run[i + 1]) ==> run[i].word == 0)
  {
    hide Drops, GetsThrough, Enables;
  }

  lemma {:induction false} LastDropped(run: seq<State>, i: nat)
    requires i + 1 < |run|
    ensures DroppedAt(run, i, i + 1) <==> Drops(run[i], run[i + 1])
  {
  }
}
