/**
 A DDSBridge: one reader, one writer and one Track per participant, with the tracks of all participants running
 concurrently. The machine is the product of the tracks; a step of the bridge is a step of one track.
 */
module DdsBridge {
  import T = Track
  import A = TrackArrivals

  type ParticipantId = nat

  /** What the constructor gives to one track: the participants whose writers it forwards to. */
  datatype Wiring = Wiring(reader: ParticipantId, writers: seq<ParticipantId>)

  /** `ids` in the order of the participants database. */
  datatype Config = Config(ids: seq<ParticipantId>, repeaters: set<ParticipantId>, reliable: bool, block: nat)

  ghost predicate ValidConfig(b: Config) {
    Distinct(b.ids)
  }

  ghost predicate Distinct(ids: seq<ParticipantId>) {
    forall i, j :: 0 <= i < j < |ids| ==> ids[i] != ids[j]
  }

  /** The writers of all participants except, unless it is a repeater, the track's own. */
  function WritersOf(ids: seq<ParticipantId>, p: ParticipantId, repeater: bool): seq<ParticipantId> {
    if ids == [] then []
    else
      var rest := WritersOf(ids[..|ids| - 1], p, repeater);
      var q := ids[|ids| - 1];
      if q == p && !repeater then rest else rest + [q]
  }

  lemma {:induction false} WritersOfMembers(ids: seq<ParticipantId>, p: ParticipantId, repeater: bool)
    requires Distinct(ids)
    ensures Distinct(WritersOf(ids, p, repeater))
    ensures forall q :: q in WritersOf(ids, p, repeater) <==> q in ids && (q != p || repeater)
  {
    if ids != [] {
      var n := |ids| - 1;
      WritersOfMembers(ids[..n], p, repeater);
      assert ids == ids[..n] + [ids[n]];
      assert ids[n] !in ids[..n];
    }
  }

  /** The wiring loop of the constructor. */
  method WireTracks(b: Config) returns (tracks: map<ParticipantId, Wiring>)
    requires ValidConfig(b)
    ensures tracks.Keys == set p | p in b.ids
    ensures forall p :: p in tracks ==>
              && tracks[p].reader == p && Distinct(tracks[p].writers)
              && (forall q :: q in tracks[p].writers <==> q in b.ids && (q != p || p in b.repeaters))
    ensures forall p :: p in tracks ==> tracks[p].writers == WritersOf(b.ids, p, p in b.repeaters)
  {
    tracks := map[];
    for i := 0 to |b.ids|
      invariant tracks.Keys == set p | p in b.ids[..i]
      invariant forall p :: p in tracks ==>
                  tracks[p] == Wiring(p, WritersOf(b.ids, p, p in b.repeaters))
    {
      var p := b.ids[i];
      var writers := [];
      for k := 0 to |b.ids|
        invariant writers == WritersOf(b.ids[..k], p, p in b.repeaters)
      {
        assert b.ids[..k + 1][..k] == b.ids[..k];
        // the copy of the writer map loses the track's own participant unless it is a repeater
        if b.ids[k] != p || p in b.repeaters {
          writers := writers + [b.ids[k]];
        }
      }
      assert b.ids[..|b.ids|] == b.ids;
      assert b.ids[..i + 1] == b.ids[..i] + [p];
      tracks := tracks[p := Wiring(p, writers)];
    }
    assert b.ids[..|b.ids|] == b.ids;
    forall p | p in tracks
      ensures Distinct(tracks[p].writers)
      ensures forall q :: q in tracks[p].writers <==> q in b.ids && (q != p || p in b.repeaters)
    {
      WritersOfMembers(b.ids, p, p in b.repeaters);
    }
  }

  // ----- the product machine -----

  datatype Attempt = Attempt(source: ParticipantId, target: ParticipantId, d: T.Data)

  /** `log` is the order of all write attempts of the bridge. */
  datatype State = State(tracks: map<ParticipantId, T.State>, log: seq<Attempt>)

  function TrackConfig(b: Config, p: ParticipantId): T.Config {
    T.Config(WritersOf(b.ids, p, p in b.repeaters), b.reliable, b.block)
  }

  ghost predicate Init(b: Config, s: State) {
    && s.tracks.Keys == (set p | p in b.ids)
    && (forall p :: p in s.tracks ==> s.tracks[p] == T.Init(TrackConfig(b, p)))
    && s.log == []
  }

  ghost predicate StepOf(b: Config, s: State, s': State, p: ParticipantId, a: T.Action) {
    && p in s.tracks
    && T.Can(TrackConfig(b, p), s.tracks[p], a)
    && s'.tracks == s.tracks[p := T.Do(TrackConfig(b, p), s.tracks[p], a)]
    && s'.log == s.log + NewAttempts(p, s.tracks[p], s'.tracks[p])
  }

  /** The attempts that the step from `t` to `t'` of the track of `p` adds. */
  ghost function NewAttempts(p: ParticipantId, t: T.State, t': T.State): seq<Attempt> {
    if |t'.h.writes| > |t.h.writes| then
      var (q, d) := t'.h.writes[|t.h.writes|];
      [Attempt(p, q, d)]
    else []
  }

  ghost predicate Next(b: Config, s: State, s': State) {
    exists p, a :: StepOf(b, s, s', p, a)
  }

  ghost predicate IsRun(b: Config, run: seq<State>) {
    && |run| > 0
    && Init(b, run[0])
    && (forall i :: 0 <= i < |run| - 1 ==> Next(b, run[i], run[i + 1]))
  }

  /** The data that `log` tries to write from `source` to `target`, in order. */
  ghost function Between(log: seq<Attempt>, source: ParticipantId, target: ParticipantId): seq<T.Data> {
    if log == [] then []
    else
      var rest, e := Between(log[..|log| - 1], source, target), log[|log| - 1];
      if e.source == source && e.target == target then rest + [e.d] else rest
  }

  // ----- what one track attempts -----

  ghost function To(writes: seq<(ParticipantId, T.Data)>, target: ParticipantId): seq<T.Data> {
    if writes == [] then []
    else
      var rest, e := To(writes[..|writes| - 1], target), writes[|writes| - 1];
      if e.0 == target then rest + [e.1] else rest
  }

  /** What a track must have attempted towards writer number `i`: all it took, the last one maybe still to come. */
  ghost function Attempted(t: T.State, i: nat): seq<T.Data> {
    if t.loop.Write? && t.loop.k <= i && t.h.taken != [] then t.h.taken[..|t.h.taken| - 1] else t.h.taken
  }

  ghost predicate FanOut(c: T.Config, t: T.State) {
    && (t.loop.Write? ==> t.h.taken != [] && t.h.taken[|t.h.taken| - 1] == t.loop.d)
    && (forall i :: 0 <= i < |c.writers| ==> To(t.h.writes, c.writers[i]) == Attempted(t, i))
    && (forall q :: q !in c.writers ==> To(t.h.writes, q) == [])
  }

  lemma {:induction false} OtherStepsKeepFanOut(c: T.Config, t: T.State, a: T.Action)
    requires FanOut(c, t) && T.Can(c, t, a) && !(a.Transmit? && (t.loop.Write? || t.loop.Keep?))
    ensures FanOut(c, T.Do(c, t, a)) && T.Do(c, t, a).h.writes == t.h.writes
  {
    SilentStep(c, t, a);
    hide T.Do;
    hide T.Can;
  }

  lemma {:induction false} SilentStep(c: T.Config, t: T.State, a: T.Action)
    requires T.Can(c, t, a) && !(a.Transmit? && (t.loop.Write? || t.loop.Keep?))
    ensures T.Do(c, t, a).h.taken == t.h.taken && T.Do(c, t, a).h.writes == t.h.writes
    ensures T.Do(c, t, a).loop == t.loop || (!t.loop.Write? && !T.Do(c, t, a).loop.Write?)
  {
    hide T.LoopStep, T.ControlStep;
    if a.Transmit? {
      SilentLoopStep(c, t, a.ok);
    } else if a.AdvanceControl? {
      SilentControlStep(c, t);
    }
  }

  lemma {:induction false} SilentLoopStep(c: T.Config, t: T.State, ok: bool)
    requires t.loop != T.Free && !t.loop.Write? && !t.loop.Keep?
    ensures T.LoopStep(c, t, ok).h.taken == t.h.taken && T.LoopStep(c, t, ok).h.writes == t.h.writes
    ensures !T.LoopStep(c, t, ok).loop.Write?
  {
  }

  lemma {:induction false} SilentControlStep(c: T.Config, t: T.State)
    requires t.control != T.Idle
    ensures T.ControlStep(c, t).h == t.h && T.ControlStep(c, t).loop == t.loop
  {
  }

  lemma {:induction false} KeepKeepsFanOut(c: T.Config, t: T.State, ok: bool)
    requires FanOut(c, t) && t.loop.Keep?
    ensures FanOut(c, T.Do(c, t, T.Transmit(ok))) && T.Do(c, t, T.Transmit(ok)).h.writes == t.h.writes
  {
    var t' := T.Do(c, t, T.Transmit(ok));
    assert t'.h.taken[..|t'.h.taken| - 1] == t.h.taken;
  }

  lemma ToAppend(writes: seq<(ParticipantId, T.Data)>, e: (ParticipantId, T.Data), q: ParticipantId)
    ensures To(writes + [e], q) == if e.0 == q then To(writes, q) + [e.1] else To(writes, q)
  {
    assert (writes + [e])[..|writes + [e]| - 1] == writes;
  }

  lemma BetweenAppend(log: seq<Attempt>, e: Attempt, p: ParticipantId, q: ParticipantId)
    ensures Between(log + [e], p, q) ==
            if e.source == p && e.target == q then Between(log, p, q) + [e.d] else Between(log, p, q)
  {
    assert (log + [e])[..|log + [e]| - 1] == log;
  }

  lemma {:induction false} WriteStep(c: T.Config, t: T.State, ok: bool)
    requires t.loop.Write? && T.Can(c, t, T.Transmit(ok))
    ensures var t' := T.Do(c, t, T.Transmit(ok));
            && t'.h.taken == t.h.taken
            && if t.loop.k < |c.writers| then
                 && t'.loop == T.Write(t.loop.d, t.loop.k + 1)
                 && t'.h.writes == t.h.writes + [(c.writers[t.loop.k], t.loop.d)]
               else t'.loop == T.Release(t.loop.d) && t'.h.writes == t.h.writes
  {
  }

  lemma {:induction false} WriteKeepsFanOut(c: T.Config, t: T.State, ok: bool)
    requires Distinct(c.writers) && FanOut(c, t) && t.loop.Write? && T.Can(c, t, T.Transmit(ok))
    ensures FanOut(c, T.Do(c, t, T.Transmit(ok)))
    ensures var t' := T.Do(c, t, T.Transmit(ok));
            t'.h.writes == t.h.writes || (exists e :: t'.h.writes == t.h.writes + [e])
  {
    hide T.Do;
    hide T.Can;
    WriteStep(c, t, ok);
    var t' := T.Do(c, t, T.Transmit(ok));
    if t.loop.k < |c.writers| {
      var e := (c.writers[t.loop.k], t.loop.d);
      forall q ensures To(t'.h.writes, q) == if e.0 == q then To(t.h.writes, q) + [e.1] else To(t.h.writes, q) {
        ToAppend(t.h.writes, e, q);
      }
      assert t.h.taken == t.h.taken[..|t.h.taken| - 1] + [t.loop.d];
    }
  }

  lemma {:induction false} TrackStepKeepsFanOut(c: T.Config, t: T.State, a: T.Action)
    requires Distinct(c.writers) && FanOut(c, t) && T.Can(c, t, a)
    ensures FanOut(c, T.Do(c, t, a))
    ensures var t' := T.Do(c, t, a);
            t'.h.writes == t.h.writes || (exists e :: t'.h.writes == t.h.writes + [e])
  {
    if a.Transmit? && t.loop.Write? {
      WriteKeepsFanOut(c, t, a.ok);
    } else if a.Transmit? && t.loop.Keep? {
      KeepKeepsFanOut(c, t, a.ok);
    } else {
      OtherStepsKeepFanOut(c, t, a);
    }
  }

  // ----- the whole bridge -----

  ghost predicate BridgeInv(b: Config, s: State) {
    && s.tracks.Keys == (set p | p in b.ids)
    && (forall p :: p in s.tracks ==> FanOut(TrackConfig(b, p), s.tracks[p]))
    && (forall p, q :: p in s.tracks ==> Between(s.log, p, q) == To(s.tracks[p].h.writes, q))
    && (forall p, q :: p !in s.tracks ==> Between(s.log, p, q) == [])
  }

  lemma {:induction false} BridgeStepKeeps(b: Config, s: State, s': State, p: ParticipantId, a: T.Action)
    requires ValidConfig(b) && BridgeInv(b, s) && StepOf(b, s, s', p, a)
    ensures BridgeInv(b, s')
  {
    hide T.Do;
    hide T.Can;
    hide FanOut;
    var t, t' := s.tracks[p], s'.tracks[p];
    WritersOfMembers(b.ids, p, p in b.repeaters);
    TrackStepKeepsFanOut(TrackConfig(b, p), t, a);
    if t'.h.writes != t.h.writes {
      var e :| t'.h.writes == t.h.writes + [e];
      assert s'.log == s.log + [Attempt(p, e.0, e.1)];
      forall r, q ensures Between(s'.log, r, q) ==
                          if r == p && q == e.0 then Between(s.log, r, q) + [e.1] else Between(s.log, r, q)
      {
        BetweenAppend(s.log, Attempt(p, e.0, e.1), r, q);
      }
      forall q ensures To(t'.h.writes, q) == if e.0 == q then To(t.h.writes, q) + [e.1] else To(t.h.writes, q) {
        ToAppend(t.h.writes, e, q);
      }
    } else {
      assert s'.log == s.log;
    }
  }

  lemma {:induction false} BridgeRunKeeps(b: Config, run: seq<State>, i: nat)
    requires ValidConfig(b) && IsRun(b, run) && i < |run|
    ensures BridgeInv(b, run[i])
  {
    if i > 0 {
      BridgeRunKeeps(b, run, i - 1);
      assert Next(b, run[i - 1], run[(i - 1) + 1]);
      var p, a :| StepOf(b, run[i - 1], run[i], p, a);
      BridgeStepKeeps(b, run[i - 1], run[i], p, a);
    } else {
      forall p | p in run[0].tracks ensures FanOut(TrackConfig(b, p), run[0].tracks[p]) {}
    }
  }

  /**
   For any number of participants and any interleaving of their tracks: what is attempted on the writer of `q`
   with source `p` is the data the track of `p` took, in order and without duplicates, with at most the last one
   still to come; and nothing is attempted from `p` to itself unless it is a repeater.
   */
  lemma ForwardedInOrder(b: Config, run: seq<State>, i: nat, p: ParticipantId, q: ParticipantId)
    requires ValidConfig(b) && IsRun(b, run) && i < |run| && p in b.ids
    ensures p in run[i].tracks
    ensures q in b.ids && (q != p || p in b.repeaters) ==>
              var taken := run[i].tracks[p].h.taken;
              var sent := Between(run[i].log, p, q);
              sent == taken || (taken != [] && sent == taken[..|taken| - 1])
    ensures q !in b.ids || (q == p && p !in b.repeaters) ==> Between(run[i].log, p, q) == []
  {
    BridgeRunKeeps(b, run, i);
    WritersOfMembers(b.ids, p, p in b.repeaters);
    var c := TrackConfig(b, p);
    if q in c.writers {
      var j :| 0 <= j < |c.writers| && c.writers[j] == q;
      assert To(run[i].tracks[p].h.writes, q) == Attempted(run[i].tracks[p], j);
    }
  }

  // ----- in terms of what arrived -----

  ghost predicate ArrivalsInv(b: Config, s: State) {
    forall p :: p in s.tracks ==> A.Accounted(TrackConfig(b, p), s.tracks[p]) && A.KeepInv(s.tracks[p])
  }

  lemma {:induction false} ArrivalsKept(b: Config, run: seq<State>, i: nat)
    requires IsRun(b, run) && i < |run|
    ensures ArrivalsInv(b, run[i])
  {
    hide T.Do, T.Can;
    if i > 0 {
      ArrivalsKept(b, run, i - 1);
      hide A.Accounted, A.KeepInv;
      assert Next(b, run[i - 1], run[(i - 1) + 1]);
      var p, a :| StepOf(b, run[i - 1], run[i], p, a);
      A.StepAccounts(TrackConfig(b, p), run[i - 1].tracks[p], a);
    }
  }

  /**
   The attempts on the writer of `q` with source `p` are the correct changes that reached p's reader and were kept, in
   the order of their arrival and each once; those not attempted yet are the correct ones still unread, and at most
   one that is being forwarded.
   */
  lemma {:induction false} ArrivalsForwarded(b: Config, run: seq<State>, i: nat, p: ParticipantId, q: ParticipantId)
    requires ValidConfig(b) && IsRun(b, run) && i < |run| && p in b.ids && q in b.ids && (q != p || p in b.repeaters)
    ensures p in run[i].tracks
    ensures var t, sent := run[i].tracks[p], Between(run[i].log, p, q);
            var arrived, unread := A.Correct(A.Kept(b.reliable, t.h.arrivals)), A.Correct(t.queue);
            sent <= arrived && |sent| + |unread| <= |arrived| <= |sent| + |unread| + 1
    ensures var t := run[i].tracks[p];
            !t.loop.Write? ==>
              A.Correct(A.Kept(b.reliable, t.h.arrivals)) == Between(run[i].log, p, q) + A.Correct(t.queue)
  {
    ForwardedInOrder(b, run, i, p, q);
    ArrivalsKept(b, run, i);
    SentAll(b, run, i, p, q);
    hide A.Correct, A.Kept, IsRun;
  }

  /** Between two data, everything taken has been attempted. */
  lemma {:induction false} SentAll(b: Config, run: seq<State>, i: nat, p: ParticipantId, q: ParticipantId)
    requires ValidConfig(b) && IsRun(b, run) && i < |run| && p in b.ids && q in b.ids && (q != p || p in b.repeaters)
    ensures p in run[i].tracks
    ensures !run[i].tracks[p].loop.Write? ==> Between(run[i].log, p, q) == run[i].tracks[p].h.taken
  {
    BridgeRunKeeps(b, run, i);
    WritersOfMembers(b.ids, p, p in b.repeaters);
    var c := TrackConfig(b, p);
    var j :| 0 <= j < |c.writers| && c.writers[j] == q;
    assert To(run[i].tracks[p].h.writes, q) == Attempted(run[i].tracks[p], j);
  }
}
