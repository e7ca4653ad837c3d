/**
 The writers that the tracks of a bridge share. DDSBridge enables and disables its tracks one after the other, and a
 track switches the writers of the other participants, which other tracks use too.
 */
module BridgeWriters {
  import T = Track
  import I = TrackInvariants
  import TT = TrackTheorems
  import opened DdsBridge

  /** What DDSBridge::enable or DDSBridge::disable is at: the track with that number, in the order of the ids. */
  datatype Mode = Off | Enabling(n: nat) | On | Disabling(n: nat)

  /** `on`: the enabled writers, whatever track switched them. */
  datatype Bridge = Bridge(tracks: map<ParticipantId, T.State>, on: set<ParticipantId>, mode: Mode)

  datatype Step = TrackStep(p: ParticipantId, a: T.Action) | BeginEnable | BeginDisable | NextTrack

  predicate Controls(a: T.Action) {
    a.StartEnable? || a.StartDisable? || a.AdvanceControl?
  }

  /** A track as it sees the writers. */
  ghost function Seen(s: Bridge, p: ParticipantId): T.State
    requires p in s.tracks
  {
    s.tracks[p].(writersOn := s.on)
  }

  /** The bridge is at the track of `p`. */
  ghost predicate At(b: Config, s: Bridge, p: ParticipantId) {
    (s.mode.Enabling? || s.mode.Disabling?) && s.mode.n < |b.ids| && b.ids[s.mode.n] == p
  }

  ghost predicate CanStep(b: Config, s: Bridge, step: Step) {
    match step
    case TrackStep(p, a) =>
      && p in s.tracks && T.Can(TrackConfig(b, p), Seen(s, p), a) && !a.SwitchWriter?
      && (Controls(a) ==> At(b, s, p))
      && (a.StartEnable? ==> s.mode.Enabling?) && (a.StartDisable? ==> s.mode.Disabling?)
    case BeginEnable => s.mode.Off?
    case BeginDisable => s.mode.On?
    case NextTrack =>
      || (s.mode.Enabling? && s.mode.n == |b.ids|)
      || (s.mode.Disabling? && s.mode.n == |b.ids|)
      || ((s.mode.Enabling? || s.mode.Disabling?) && s.mode.n < |b.ids| && b.ids[s.mode.n] in s.tracks
          && s.tracks[b.ids[s.mode.n]].control.Idle? && s.tracks[b.ids[s.mode.n]].enabled == s.mode.Enabling?)
  }

  ghost function DoStep(b: Config, s: Bridge, step: Step): Bridge
    requires CanStep(b, s, step)
  {
    match step
    case TrackStep(p, a) =>
      var t := T.Do(TrackConfig(b, p), Seen(s, p), a);
      s.(tracks := s.tracks[p := t], on := t.writersOn)
    case BeginEnable => s.(mode := Enabling(0))
    case BeginDisable => s.(mode := Disabling(0))
    case NextTrack =>
      if s.mode.n < |b.ids| then
        s.(mode := if s.mode.Enabling? then Enabling(s.mode.n + 1) else Disabling(s.mode.n + 1))
      else s.(mode := if s.mode.Enabling? then On else Off)
  }

  ghost function InitBridge(b: Config): Bridge {
    Bridge(map p | p in b.ids :: T.Init(TrackConfig(b, p)), {}, Off)
  }

  ghost function After(b: Config, steps: seq<Step>): Bridge {
    if steps == [] then InitBridge(b)
    else
      var s, step := After(b, steps[..|steps| - 1]), steps[|steps| - 1];
      if CanStep(b, s, step) then DoStep(b, s, step) else s
  }

  // ----- where the tracks are -----

  function Writers(b: Config, m: nat): seq<ParticipantId>
    requires m < |b.ids|
  {
    TrackConfig(b, b.ids[m]).writers
  }

  /** The track with number `m`, given what the bridge is at. */
  ghost predicate TrackAt(mode: Mode, m: nat, t: T.State) {
    match mode
    case Off => t.control.Idle? && !t.enabled
    case On => t.control.Idle? && t.enabled
    case Enabling(n) =>
      if m < n then t.control.Idle? && t.enabled
      else if m > n then t.control.Idle? && !t.enabled
      else t.control.Idle? || (t.enabled && (t.control.EnableWriters? || t.control.EnableReader?))
    case Disabling(n) =>
      if m < n then t.control.Idle? && !t.enabled
      else if m > n then t.control.Idle? && t.enabled
      else t.control.Idle? || (!t.enabled && !t.control.EnableWriters? && !t.control.EnableReader?)
  }

  ghost predicate TracksInv(b: Config, s: Bridge) {
    && s.tracks.Keys == (set p | p in b.ids)
    && (forall p :: p in s.tracks ==> I.ControlInv(s.tracks[p]))
    && (forall m :: 0 <= m < |b.ids| ==> TrackAt(s.mode, m, s.tracks[b.ids[m]]))
    && (s.mode.Enabling? || s.mode.Disabling? ==> s.mode.n <= |b.ids|)
  }

  // ----- which writers are on -----

  /** A track has enabled its writer number `j`. */
  predicate HasEnabled(t: T.State, j: nat) {
    t.enabled && (t.control.Idle? || t.control.EnableReader? || (t.control.EnableWriters? && j < t.control.k))
  }

  /** A track has disabled its writer number `j`. */
  predicate HasDisabled(t: T.State, j: nat) {
    !t.enabled && (t.control.Idle? || (t.control.DisableWriters? && j < t.control.k))
  }

  ghost predicate EnabledBy(b: Config, s: Bridge, m: nat, j: nat)
    requires m < |b.ids| && s.tracks.Keys == (set p | p in b.ids)
  {
    HasEnabled(s.tracks[b.ids[m]], j)
  }

  /** Track `m` has disabled its writer number `j` since the bridge began to disable. */
  ghost predicate DisabledBy(b: Config, s: Bridge, m: nat, j: nat)
    requires m < |b.ids| && s.mode.Disabling? && s.tracks.Keys == (set p | p in b.ids)
  {
    m < s.mode.n || (m == s.mode.n && HasDisabled(s.tracks[b.ids[m]], j))
  }

  /** Some track that has been disabled since the bridge began to disable shares the writer. */
  ghost predicate SwitchedOff(b: Config, s: Bridge, w: ParticipantId)
    requires s.mode.Disabling? && s.tracks.Keys == (set p | p in b.ids)
  {
    exists m, j :: 0 <= m < |b.ids| && 0 <= j < |Writers(b, m)| && Writers(b, m)[j] == w && DisabledBy(b, s, m, j)
  }

  ghost predicate WritersInv(b: Config, s: Bridge)
    requires s.tracks.Keys == (set p | p in b.ids)
  {
    if s.mode.Disabling? then
      forall m, j :: 0 <= m < |b.ids| && 0 <= j < |Writers(b, m)| ==>
        (Writers(b, m)[j] in s.on <==> !SwitchedOff(b, s, Writers(b, m)[j]))
    else
      forall m, j :: 0 <= m < |b.ids| && 0 <= j < |Writers(b, m)| && EnabledBy(b, s, m, j) ==> Writers(b, m)[j] in s.on
  }

  ghost predicate Inv(b: Config, s: Bridge) {
    TracksInv(b, s) && WritersInv(b, s)
  }

  // ----- one track -----

  lemma {:induction false} LoopKeepsControl(c: T.Config, t: T.State, ok: bool)
    requires I.ControlInv(t) && t.loop != T.Free
    ensures var t' := T.LoopStep(c, t, ok);
            I.ControlInv(t') && t'.enabled == t.enabled && t'.control == t.control && t'.writersOn == t.writersOn
  {
  }

  lemma {:induction false} QuietKeepsControl(c: T.Config, t: T.State, a: T.Action)
    requires I.ControlInv(t) && T.Can(c, t, a) && !a.SwitchWriter? && !Controls(a)
    ensures var t' := T.Do(c, t, a);
            I.ControlInv(t') && t'.enabled == t.enabled && t'.control == t.control && t'.writersOn == t.writersOn
  {
    hide T.LoopStep, T.ControlStep;
    if a.Transmit? {
      LoopKeepsControl(c, t, a.ok);
    }
  }

  lemma {:induction false} ControlKeepsControl(c: T.Config, t: T.State, a: T.Action)
    requires I.ControlInv(t) && T.Can(c, t, a) && Controls(a)
    ensures I.ControlInv(T.Do(c, t, a))
  {
    hide T.LoopStep;
  }

  // ----- the whole bridge -----

  ghost predicate SameControl(s: Bridge, s': Bridge) {
    && s'.tracks.Keys == s.tracks.Keys && s'.mode == s.mode && s'.on == s.on
    && forall p :: p in s.tracks ==>
         s'.tracks[p].enabled == s.tracks[p].enabled && s'.tracks[p].control == s.tracks[p].control
  }

  lemma {:induction false} SameSwitchedOff(b: Config, s: Bridge, s': Bridge, w: ParticipantId)
    requires s.tracks.Keys == s'.tracks.Keys == (set p | p in b.ids) && s.mode.Disabling? && s'.mode.Disabling?
    requires forall m, j :: 0 <= m < |b.ids| && 0 <= j < |Writers(b, m)| ==>
               (DisabledBy(b, s, m, j) <==> DisabledBy(b, s', m, j))
    ensures SwitchedOff(b, s, w) <==> SwitchedOff(b, s', w)
  {
    hide DisabledBy, Writers;
  }

  lemma {:induction false} SameWriters(b: Config, s: Bridge, s': Bridge)
    requires TracksInv(b, s) && WritersInv(b, s) && SameControl(s, s')
    ensures WritersInv(b, s')
  {
    hide Writers;
    if s.mode.Disabling? {
      forall m, j | 0 <= m < |b.ids| && 0 <= j < |Writers(b, m)|
        ensures Writers(b, m)[j] in s'.on <==> !SwitchedOff(b, s', Writers(b, m)[j])
      {
        SameSwitchedOff(b, s, s', Writers(b, m)[j]);
      }
    }
  }

  lemma {:induction false} QuietStep(b: Config, s: Bridge, p: ParticipantId, a: T.Action)
    requires Inv(b, s) && CanStep(b, s, TrackStep(p, a)) && !Controls(a)
    ensures Inv(b, DoStep(b, s, TrackStep(p, a)))
  {
    hide T.Do, T.Can, WritersInv, I.ControlInv;
    var s' := DoStep(b, s, TrackStep(p, a));
    SeenControl(s, p);
    QuietKeepsControl(TrackConfig(b, p), Seen(s, p), a);
    SameWriters(b, s, s');
  }

  lemma {:induction false} SeenControl(s: Bridge, p: ParticipantId)
    requires p in s.tracks && I.ControlInv(s.tracks[p])
    ensures I.ControlInv(Seen(s, p))
  {
  }

  /** The track that the bridge is at takes a step of its own enable or disable. */
  lemma {:induction false} ControlTracks(b: Config, s: Bridge, p: ParticipantId, a: T.Action)
    requires ValidConfig(b) && TracksInv(b, s) && CanStep(b, s, TrackStep(p, a)) && Controls(a)
    ensures TracksInv(b, DoStep(b, s, TrackStep(p, a)))
  {
    var s' := DoStep(b, s, TrackStep(p, a));
    SeenControl(s, p);
    ControlKeepsControl(TrackConfig(b, p), Seen(s, p), a);
    ControlTrackAt(TrackConfig(b, p), Seen(s, p), a, s.mode);
    hide T.Do, T.Can, I.ControlInv;
    forall m | 0 <= m < |b.ids|
      ensures TrackAt(s.mode, m, s'.tracks[b.ids[m]])
    {
      if m != s.mode.n {
        assert b.ids[m] != b.ids[s.mode.n];
      }
    }
  }

  lemma {:induction false} ControlTrackAt(c: T.Config, t: T.State, a: T.Action, mode: Mode)
    requires (mode.Enabling? || mode.Disabling?) && TrackAt(mode, mode.n, t) && T.Can(c, t, a) && Controls(a)
    requires (a.StartEnable? ==> mode.Enabling?) && (a.StartDisable? ==> mode.Disabling?)
    ensures TrackAt(mode, mode.n, T.Do(c, t, a))
  {
  }

  lemma {:induction false} EnablingWriters(b: Config, s: Bridge, p: ParticipantId, a: T.Action)
    requires ValidConfig(b) && Inv(b, s) && CanStep(b, s, TrackStep(p, a)) && Controls(a) && s.mode.Enabling?
    ensures DoStep(b, s, TrackStep(p, a)).tracks.Keys == (set q | q in b.ids)
    ensures WritersInv(b, DoStep(b, s, TrackStep(p, a)))
  {
    var s' := DoStep(b, s, TrackStep(p, a));
    hide I.ControlInv;
    var n := s.mode.n;
    assert Writers(b, n) == TrackConfig(b, p).writers;
    EnablingTrack(TrackConfig(b, p), Seen(s, p), a);
    hide T.Do, T.Can, WritersOf;
    forall m, j | 0 <= m < |b.ids| && 0 <= j < |Writers(b, m)| && EnabledBy(b, s', m, j)
      ensures Writers(b, m)[j] in s'.on
    {
      if m != n {
        assert b.ids[m] != b.ids[n];
        assert EnabledBy(b, s, m, j);
      } else if EnabledBy(b, s, m, j) {
        assert Writers(b, m)[j] in s.on;
      }
    }
  }

  /** What one step of enable adds. */
  lemma {:induction false} EnablingTrack(c: T.Config, t: T.State, a: T.Action)
    requires T.Can(c, t, a) && Controls(a) && !a.StartDisable?
    requires t.control.Idle? || (t.enabled && (t.control.EnableWriters? || t.control.EnableReader?))
    ensures var t' := T.Do(c, t, a);
            && t.writersOn <= t'.writersOn
            && forall j :: 0 <= j < |c.writers| && HasEnabled(t', j) ==>
                 c.writers[j] in t'.writersOn || HasEnabled(t, j)
  {
  }

  /** What one step of disable takes away: at most one writer, which it then counts as disabled. */
  lemma {:induction false} DisablingTrack(c: T.Config, t: T.State, a: T.Action)
    requires T.Can(c, t, a) && Controls(a) && !a.StartEnable?
    requires t.control.Idle? || (!t.enabled && !t.control.EnableWriters? && !t.control.EnableReader?)
    ensures var t' := T.Do(c, t, a);
            if t.control.DisableWriters? && t.control.k < |c.writers| then
              && t'.writersOn == t.writersOn - {c.writers[t.control.k]}
              && forall j :: 0 <= j < |c.writers| ==> (HasDisabled(t', j) <==> HasDisabled(t, j) || j == t.control.k)
            else
              && t'.writersOn == t.writersOn
              && forall j :: 0 <= j < |c.writers| ==> (HasDisabled(t', j) <==> HasDisabled(t, j))
  {
  }

  lemma {:induction false} DisablingWriters(b: Config, s: Bridge, p: ParticipantId, a: T.Action)
    requires ValidConfig(b) && Inv(b, s) && CanStep(b, s, TrackStep(p, a)) && Controls(a) && s.mode.Disabling?
    ensures DoStep(b, s, TrackStep(p, a)).tracks.Keys == (set q | q in b.ids)
    ensures WritersInv(b, DoStep(b, s, TrackStep(p, a)))
  {
    var s', c, t := DoStep(b, s, TrackStep(p, a)), TrackConfig(b, p), Seen(s, p);
    DisablingTrack(c, t, a);
    hide T.Do, T.Can, WritersOf, I.ControlInv, HasDisabled;
    SeenDisabled(s, p);
    var n := s.mode.n;
    var k := if t.control.DisableWriters? then t.control.k else -1;
    forall m, j | 0 <= m < |b.ids| && 0 <= j < |Writers(b, m)|
      ensures DisabledBy(b, s', m, j) <==> DisabledBy(b, s, m, j) || (m == n && j == k)
    {
      if m != n {
        assert b.ids[m] != b.ids[n];
      }
    }
    assert OffAt(b, s, s', n, k);
    forall m, j | 0 <= m < |b.ids| && 0 <= j < |Writers(b, m)|
      ensures Writers(b, m)[j] in s'.on <==> !SwitchedOff(b, s', Writers(b, m)[j])
    {
      DisablingWriter(b, s, s', Writers(b, m)[j]);
    }
  }

  lemma {:induction false} SeenDisabled(s: Bridge, p: ParticipantId)
    requires p in s.tracks
    ensures forall j: nat :: HasDisabled(Seen(s, p), j) == HasDisabled(s.tracks[p], j)
    ensures forall j: nat :: HasEnabled(Seen(s, p), j) == HasEnabled(s.tracks[p], j)
  {
  }

  /** One writer is switched off by the step, or none is. */
  ghost predicate OneOff(b: Config, s: Bridge, s': Bridge)
    requires s.tracks.Keys == s'.tracks.Keys == (set q | q in b.ids) && s.mode == s'.mode && s.mode.Disabling?
  {
    exists n, k :: 0 <= n < |b.ids| && OffAt(b, s, s', n, k)
  }

  ghost predicate OffAt(b: Config, s: Bridge, s': Bridge, n: nat, k: int)
    requires n < |b.ids|
    requires s.tracks.Keys == s'.tracks.Keys == (set q | q in b.ids) && s.mode == s'.mode && s.mode.Disabling?
  {
    && (forall m, j :: 0 <= m < |b.ids| && 0 <= j < |Writers(b, m)| ==>
          (DisabledBy(b, s', m, j) <==> DisabledBy(b, s, m, j) || (m == n && j == k)))
    && s'.on == if 0 <= k < |Writers(b, n)| then s.on - {Writers(b, n)[k]} else s.on
  }

  lemma {:induction false} DisablingWriter(b: Config, s: Bridge, s': Bridge, w: ParticipantId)
    requires s.tracks.Keys == s'.tracks.Keys == (set q | q in b.ids) && s.mode == s'.mode && s.mode.Disabling?
    requires OneOff(b, s, s') && (w in s.on <==> !SwitchedOff(b, s, w))
    ensures w in s'.on <==> !SwitchedOff(b, s', w)
  {
    hide DisabledBy, Writers;
    var n, k :| 0 <= n < |b.ids| && OffAt(b, s, s', n, k);
    if SwitchedOff(b, s', w) {
      var m, j :| 0 <= m < |b.ids| && 0 <= j < |Writers(b, m)| && Writers(b, m)[j] == w && DisabledBy(b, s', m, j);
      assert DisabledBy(b, s, m, j) || (m == n && j == k);
    }
    if SwitchedOff(b, s, w) {
      var m, j :| 0 <= m < |b.ids| && 0 <= j < |Writers(b, m)| && Writers(b, m)[j] == w && DisabledBy(b, s, m, j);
      assert DisabledBy(b, s', m, j);
    }
    if 0 <= k < |Writers(b, n)| && Writers(b, n)[k] == w {
      assert DisabledBy(b, s', n, k);
    }
  }

  // ----- runs -----

  lemma {:induction false} ModeStep(b: Config, s: Bridge, step: Step)
    requires ValidConfig(b) && Inv(b, s) && CanStep(b, s, step) && !step.TrackStep?
    ensures Inv(b, DoStep(b, s, step))
  {
    hide I.ControlInv, Writers;
    var s' := DoStep(b, s, step);
    assert s'.tracks == s.tracks && s'.on == s.on;
    if s'.mode.Disabling? {
      if s.mode.Disabling? {
        NextDisabled(b, s, s');
      } else {
        forall m, j | 0 <= m < |b.ids| && 0 <= j < |Writers(b, m)|
          ensures Writers(b, m)[j] in s'.on && !SwitchedOff(b, s', Writers(b, m)[j])
        {
          assert EnabledBy(b, s, m, j);
          NoneOff(b, s', Writers(b, m)[j]);
        }
      }
    }
  }

  lemma {:induction false} NoneOff(b: Config, s: Bridge, w: ParticipantId)
    requires s.tracks.Keys == (set q | q in b.ids) && s.mode == Disabling(0)
    requires forall m :: 0 <= m < |b.ids| ==> s.tracks[b.ids[m]].enabled
    ensures !SwitchedOff(b, s, w)
  {
    hide Writers;
  }

  lemma {:induction false} NextDisabled(b: Config, s: Bridge, s': Bridge)
    requires ValidConfig(b) && Inv(b, s) && s.mode.Disabling? && CanStep(b, s, NextTrack)
    requires s' == DoStep(b, s, NextTrack) && s'.mode.Disabling?
    ensures WritersInv(b, s')
  {
    hide I.ControlInv, Writers;
    forall m, j | 0 <= m < |b.ids| && 0 <= j < |Writers(b, m)|
      ensures DisabledBy(b, s', m, j) <==> DisabledBy(b, s, m, j)
    {
      assert TrackAt(s.mode, m, s.tracks[b.ids[m]]);
    }
    forall m, j | 0 <= m < |b.ids| && 0 <= j < |Writers(b, m)|
      ensures Writers(b, m)[j] in s'.on <==> !SwitchedOff(b, s', Writers(b, m)[j])
    {
      SameSwitchedOff(b, s, s', Writers(b, m)[j]);
    }
  }

  lemma {:induction false} StepKeeps(b: Config, s: Bridge, step: Step)
    requires ValidConfig(b) && Inv(b, s) && CanStep(b, s, step)
    ensures Inv(b, DoStep(b, s, step))
  {
    if !step.TrackStep? {
      ModeStep(b, s, step);
    } else if !Controls(step.a) {
      QuietStep(b, s, step.p, step.a);
    } else {
      ControlTracks(b, s, step.p, step.a);
      if s.mode.Enabling? {
        EnablingWriters(b, s, step.p, step.a);
      } else {
        DisablingWriters(b, s, step.p, step.a);
      }
    }
    hide T.Do, T.Can, TracksInv, WritersInv;
  }

  lemma {:induction false} RunKeeps(b: Config, steps: seq<Step>)
    requires ValidConfig(b)
    ensures Inv(b, After(b, steps))
  {
    if steps != [] {
      hide Inv, DoStep, CanStep;
      RunKeeps(b, steps[..|steps| - 1]);
      var s, step := After(b, steps[..|steps| - 1]), steps[|steps| - 1];
      if CanStep(b, s, step) {
        StepKeeps(b, s, step);
      }
    }
  }

  /**
   In every run of a whole bridge that alone drives its writers, a track that is writing finds its writer disabled if
   and only if the bridge is being disabled and a track that shares the writer has already switched it off.
   */
  lemma {:induction false} WriterOffOnlyInDisable(b: Config, steps: seq<Step>, m: nat, j: nat)
    requires ValidConfig(b) && m < |b.ids| && j < |Writers(b, m)|
    ensures var s := After(b, steps);
            && s.tracks.Keys == (set p | p in b.ids)
            && (s.tracks[b.ids[m]].loop.Write? ==>
                  (Writers(b, m)[j] !in s.on <==> s.mode.Disabling? && SwitchedOff(b, s, Writers(b, m)[j])))
  {
    RunKeeps(b, steps);
    hide After, Writers;
    var s := After(b, steps);
    if s.tracks[b.ids[m]].loop.Write? && !s.mode.Disabling? {
      assert I.ControlInv(s.tracks[b.ids[m]]);
      assert TrackAt(s.mode, m, s.tracks[b.ids[m]]);
      assert EnabledBy(b, s, m, j);
    }
  }

  // ----- enable and disable end -----

  /** How far the track that the bridge is at is from being enabled or disabled. */
  ghost function TrackRank(c: T.Config, t: T.State, enabling: bool): nat {
    if t.enabled == enabling then TT.ControlRank(c, t.control) else 4 + |c.writers|
  }

  /** The step that the bridge's own enable or disable takes next. */
  ghost function OwnStep(b: Config, s: Bridge): Step
    requires s.mode.Enabling? || s.mode.Disabling?
    requires s.mode.n < |b.ids| ==> b.ids[s.mode.n] in s.tracks
  {
    if s.mode.n >= |b.ids| then NextTrack
    else
      var p := b.ids[s.mode.n];
      if s.tracks[p].enabled != s.mode.Enabling? then
        TrackStep(p, if s.mode.Enabling? then T.StartEnable else T.StartDisable)
      else if !s.tracks[p].control.Idle? then TrackStep(p, T.AdvanceControl)
      else NextTrack
  }

  /**
   While the bridge enables or disables its tracks it can always go on, unless it waits for a transmission to end; and
   each of its steps brings the track at hand nearer to its end, or passes on to the next track, or is the last.
   */
  lemma {:induction false} BridgeGoesOn(b: Config, s: Bridge)
    requires ValidConfig(b) && Inv(b, s) && (s.mode.Enabling? || s.mode.Disabling?)
    ensures s.mode.n < |b.ids| ==> b.ids[s.mode.n] in s.tracks
    ensures var step := OwnStep(b, s);
            CanStep(b, s, step)
            || (s.mode.Disabling? && s.mode.n < |b.ids| && s.tracks[b.ids[s.mode.n]].control.WaitTransmission?
                && s.tracks[b.ids[s.mode.n]].loop != T.Free)
    ensures var step := OwnStep(b, s);
            CanStep(b, s, step) ==>
              var s' := DoStep(b, s, step);
              if step.TrackStep? then
                && s'.mode == s.mode && step.p in s'.tracks
                && TrackRank(TrackConfig(b, step.p), s'.tracks[step.p], s.mode.Enabling?)
                   < TrackRank(TrackConfig(b, step.p), s.tracks[step.p], s.mode.Enabling?)
              else if s.mode.n < |b.ids| then
                s'.mode == if s.mode.Enabling? then Enabling(s.mode.n + 1) else Disabling(s.mode.n + 1)
              else s'.mode == if s.mode.Enabling? then On else Off
  {
    hide WritersInv, I.ControlInv;
    if s.mode.n < |b.ids| {
      var p := b.ids[s.mode.n];
      assert TrackAt(s.mode, s.mode.n, s.tracks[p]);
      hide TracksInv;
      TrackGoesOn(TrackConfig(b, p), Seen(s, p), s.mode.Enabling?);
      hide T.Do, T.Can;
    }
  }

  lemma {:induction false} TrackGoesOn(c: T.Config, t: T.State, enabling: bool)
    requires if enabling then t.control.Idle? || (t.enabled && (t.control.EnableWriters? || t.control.EnableReader?))
             else t.control.Idle? || (!t.enabled && !t.control.EnableWriters? && !t.control.EnableReader?)
    ensures var a := if t.enabled != enabling then (if enabling then T.StartEnable else T.StartDisable)
                     else T.AdvanceControl;
            t.enabled != enabling || !t.control.Idle? ==>
              && (T.Can(c, t, a) || (t.control.WaitTransmission? && t.loop != T.Free))
              && (T.Can(c, t, a) ==> TrackRank(c, T.Do(c, t, a), enabling) < TrackRank(c, t, enabling))
  {
  }
}
