/** What every run of a Track keeps, step by step. */
module TrackInvariants {
  import opened Track

  /** Transmit tasks that are about to be emitted, queued or running. */
  ghost function Tokens(s: State): nat {
    s.atEmit + s.queued + if s.loop == Free || s.loop == Leaving then 0 else 1
  }

  /** Callbacks that have not reached their fetch_add yet. */
  ghost function Pending(s: State): nat {
    s.atTrack + s.atAdd
  }

  /** `disable` has passed the transmission mutex and `enable` has not been called since. */
  ghost predicate Stopped(s: State) {
    !s.enabled && s.control != WaitTransmission
  }

  ghost predicate CounterInv(s: State) {
    && 0 <= s.word == s.h.status <= 2 * s.h.sinceStore + 1
    && Tokens(s) <= 1
    && (if s.h.aborted then Tokens(s) == 0 && s.h.status >= 1 else (s.h.status >= 1 <==> Tokens(s) == 1))
    && (s.h.aborted ==> s.h.everDisabled)
    && (!s.enabled && !s.h.everDisabled ==> Pending(s) == 0 && Tokens(s) == 0)
  }

  ghost predicate ControlInv(s: State) {
    && (s.enabled ==> s.control.EnableWriters? || s.control.EnableReader? || s.control.Idle?)
    && (s.readerOn <==> s.control.WaitTransmission? || s.control.DisableReader? || (s.control.Idle? && s.enabled))
    && (!s.enabled ==> !s.control.EnableWriters? && !s.control.EnableReader?)
    && (!s.enabled && !s.h.everDisabled ==> s.control.Idle?)
    && (Stopped(s) ==> s.loop == Free || s.loop == Head || s.loop == Leaving)
    && (s.loop.Keep? || s.loop.Sub? || s.loop.Write? || s.loop.Release? ==> s.readerOn)
  }

  ghost predicate WritersInv(c: Config, s: State) {
    && (s.readerOn || s.control.EnableReader? ==>
          forall j :: 0 <= j < |c.writers| ==> c.writers[j] in s.writersOn)
    && (s.control.EnableWriters? ==>
          forall j :: 0 <= j < |c.writers| && j < s.control.k ==> c.writers[j] in s.writersOn)
  }

  ghost predicate WakeInv(c: Config, s: State) {
    && ((c.reliable ==> s.enabled && s.readerOn) && s.queue != [] && !s.h.aborted && !s.h.missed ==>
          Pending(s) > 0 || Tokens(s) == 1)
    && (s.loop == Sub && s.queue != [] && s.h.status == 1 ==> Pending(s) > 0 || s.h.missed)
    && (s.h.missed ==> s.h.everDisabled)
    && (s.enabled && s.h.missed ==> s.h.status == 0)
    && (s.enabled && s.readerOn && c.reliable && s.h.missed ==> Pending(s) > 0)
  }

  ghost function QueueRefs(c: Config, q: seq<Data>): nat {
    if q == [] then 0 else Ref(c, q[0]) + QueueRefs(c, q[1..])
  }

  /** References to the followed block that the track itself holds. */
  ghost function OwnRefs(c: Config, s: State): nat {
    match s.loop
    case Keep(d) => Ref(c, d)
    case Write(d, _) => Ref(c, d)
    case Release(d) => Ref(c, d)
    case _ => 0
  }

  ghost predicate PoolInv(c: Config, s: State) {
    && s.writerRefs >= 0
    && s.refs == QueueRefs(c, s.queue) + s.writerRefs + OwnRefs(c, s)
    && (s.loop.Keep? ==> s.queue != [] && s.queue[0] == s.loop.d)
  }

  ghost predicate Inv(c: Config, s: State) {
    && CounterInv(s) && ControlInv(s) && (s.h.alone ==> WritersInv(c, s))
    && WakeInv(c, s) && PoolInv(c, s)
  }

  lemma {:induction false} QueueRefsAppend(c: Config, q: seq<Data>, d: Data)
    ensures QueueRefs(c, q + [d]) == QueueRefs(c, q) + Ref(c, d)
  {
    if q == [] {
      assert q + [d] == [d];
    } else {
      QueueRefsAppend(c, q[1..], d);
      assert (q + [d])[1..] == q[1..] + [d];
    }
  }

  lemma {:induction false} CallbackKeeps(c: Config, s: State, a: Action)
    requires Inv(c, s) && Can(c, s, a) && s.h.sinceStore < CALLBACK_LIMIT
    requires a.Arrive? || a.TestTrack? || a.FetchAdd? || a.Emit? || a.Start? || a.SwitchWriter? || a.DropWriterRef?
    ensures Inv(c, Do(c, s, a))
  {
    if a.Arrive? { QueueRefsAppend(c, s.queue, a.d); }
  }

  lemma {:induction false} SwitchKeeps(c: Config, s: State, a: Action)
    requires Inv(c, s) && Can(c, s, a)
    requires a.StartEnable? || a.StartDisable?
    ensures Inv(c, Do(c, s, a))
  {
  }

  lemma {:induction false} EnablingKeeps(c: Config, s: State)
    requires Inv(c, s) && (s.control.EnableWriters? || s.control.EnableReader?)
    ensures Inv(c, Do(c, s, AdvanceControl))
  {
  }

  lemma {:induction false} DisablingKeeps(c: Config, s: State)
    requires Inv(c, s) && Can(c, s, AdvanceControl) && !s.control.EnableWriters? && !s.control.EnableReader?
    ensures Inv(c, Do(c, s, AdvanceControl))
  {
  }

  lemma {:induction false} HeadKeeps(c: Config, s: State, ok: bool)
    requires Inv(c, s) && Can(c, s, Transmit(ok))
    requires s.loop.Head? || s.loop.Store? || s.loop.Leaving?
    ensures Inv(c, Do(c, s, Transmit(ok)))
  {
  }

  lemma {:induction false} TakeKeeps(c: Config, s: State, ok: bool)
    requires Inv(c, s) && Can(c, s, Transmit(ok)) && s.loop.Take?
    ensures Inv(c, Do(c, s, Transmit(ok)))
  {
  }

  lemma {:induction false} SubKeeps(c: Config, s: State, ok: bool)
    requires Inv(c, s) && Can(c, s, Transmit(ok)) && s.loop.Sub? && s.h.sinceStore < CALLBACK_LIMIT
    ensures Inv(c, Do(c, s, Transmit(ok)))
  {
  }

  lemma {:induction false} ForwardKeeps(c: Config, s: State, ok: bool)
    requires Inv(c, s) && Can(c, s, Transmit(ok))
    requires s.loop.Keep? || s.loop.Write? || s.loop.Release?
    ensures Inv(c, Do(c, s, Transmit(ok)))
  {
  }

  lemma StepKeeps(c: Config, s: State, a: Action)
    requires Inv(c, s) && Can(c, s, a) && s.h.sinceStore < CALLBACK_LIMIT
    ensures Inv(c, Do(c, s, a))
  {
    match a
    case Transmit(ok) =>
      match s.loop {
        case Sub => SubKeeps(c, s, ok);
        case Take => TakeKeeps(c, s, ok);
        case Keep(_) => ForwardKeeps(c, s, ok);
        case Write(_, _) => ForwardKeeps(c, s, ok);
        case Release(_) => ForwardKeeps(c, s, ok);
        case _ => HeadKeeps(c, s, ok);
      }
    case AdvanceControl =>
      if s.enabled { EnablingKeeps(c, s); } else { DisablingKeeps(c, s); }
    case StartEnable => SwitchKeeps(c, s, a);
    case StartDisable => SwitchKeeps(c, s, a);
    case _ => CallbackKeeps(c, s, a);
  }

  lemma {:induction false} RunKeeps(c: Config, run: seq<State>, i: nat)
    requires IsRun(c, run) && i < |run|
    ensures Inv(c, run[i])
  {
    if i > 0 {
      RunKeeps(c, run, i - 1);
      assert Next(c, run[i - 1], run[(i - 1) + 1]);
      var a :| Can(c, run[i - 1], a) && run[i] == Do(c, run[i - 1], a);
      StepKeeps(c, run[i - 1], a);
    }
  }
}
