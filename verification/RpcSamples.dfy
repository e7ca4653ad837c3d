/** Where the events of an RPCBridge come from: samples that arrived at its readers. */
module RpcSamples {
  import opened ServiceRegistry
  import opened RpcBridge
  import opened RpcTasks
  import F = RpcFanOut

  // ----- samples -----

  /** In step `m` sample `x` arrives at reader `r`. */
  ghost predicate ArrivedAt(run: seq<State>, m: nat, r: ReaderId, x: Sample) {
    && m + 1 < |run| && r in run[m].readers && r in run[m + 1].readers
    && run[m + 1].readers[r].unread == run[m].readers[r].unread + [x]
  }

  lemma {:induction false} ReaderUnread(c: Config, enabled: bool, on: bool, r: ReaderId, rd: Reader, k: nat)
    requires k < |rd.tasks|
    ensures var unread := ReaderStep(c, enabled, on, r, rd, k).unread;
            unread == rd.unread || (rd.unread != [] && unread == rd.unread[1..])
  {
  }

  lemma {:induction false} ControlUnread(c: Config, s: State, r: ReaderId)
    requires Shaped(c, s) && CanAdvance(c, s)
    ensures r in ControlStep(c, s).readers <==> r in s.readers
    ensures r in s.readers ==> ControlStep(c, s).readers[r].unread == s.readers[r].unread
  {
  }

  lemma {:induction false} CallbackUnread(enabled: bool, on: bool, rd: Reader)
    ensures CallbackStep(enabled, on, rd).unread == rd.unread
  {
  }

  lemma {:induction false} UnreadStep(c: Config, s: State, a: Action, r: ReaderId)
    requires Can(c, s, a) && r in Do(c, s, a).readers
    ensures r in s.readers
    ensures var was, now := s.readers[r].unread, Do(c, s, a).readers[r].unread;
            || now == was || (was != [] && now == was[1..]) || (a.Arrive? && a.r == r && now == was + [a.x])
  {
    hide ReaderStep, ControlStep, CallbackStep, CanAdvance, ServersAvailable, RoutePc, RouteRegistry, RouteEvents,
      InLoop, RequestsRead, Initialised;
    match a
    case Run(r', k, _, _) =>
      assert HasTask(s, r', k);
      ReaderUnread(c, s.bridge.enabled, r' in s.on.readers, r', s.readers[r'], k);
    case Callback(r') => CallbackUnread(s.bridge.enabled, r' in s.on.readers, s.readers[r']);
    case Advance => ControlUnread(c, s, r);
    case _ =>
  }

  /** Whatever is unread has arrived. */
  lemma {:induction false} UnreadArrived(c: Config, run: seq<State>, j: nat, r: ReaderId, x: Sample) returns (m: nat)
    requires IsRun(c, run) && j < |run| && r in run[j].readers && x in run[j].readers[r].unread
    ensures m < j && ArrivedAt(run, m, r, x)
  {
    hide Do, Can;
    m := 0;
    if j > 0 {
      assert Next(c, run[j - 1], run[(j - 1) + 1]);
      var a :| Can(c, run[j - 1], a) && run[j] == Do(c, run[j - 1], a);
      UnreadStep(c, run[j - 1], a, r);
      if x in run[j - 1].readers[r].unread {
        m := UnreadArrived(c, run, j - 1, r, x);
      } else {
        m := j - 1;
      }
    }
  }

  // ----- replies -----

  /** The task works on a reply. */
  predicate Replies(pc: Pc) {
    pc.ReplyLock? || pc.ReplyGet? || pc.ReplyUnlock? || pc.ReplyWrite? || pc.ReplyErase?
  }

  /** In step `m` a task of `r` takes `x`, which is meant for its participant. */
  ghost predicate TakenAt(c: Config, run: seq<State>, m: nat, r: ReaderId, k: nat, x: Sample) {
    && m + 1 < |run| && HasTask(run[m], r, k) && HasTask(run[m + 1], r, k)
    && PcOf(run[m], r, k).Take? && PcOf(run[m + 1], r, k) == ReplyLock(x) && r in run[m].on.readers
    && run[m].readers[r].unread != [] && run[m].readers[r].unread[0] == x && x.correct
    && r.ReplyReader? && x.identity.writer == c.guids(r.p)
  }

  lemma {:induction false} LoopReplies(c: Config, s: State, r: ReaderId, k: nat)
    requires HasTask(s, r, k) && InLoop(PcOf(s, r, k)) && Replies(LoopStep(c, s, r, k).readers[r].tasks[k])
    ensures PcOf(s, r, k).Take?
  {
  }

  lemma {:induction false} RouteReplies(c: Config, s: State, r: ReaderId, pc: Pc, ok: bool, sn: SequenceNumber)
    requires Shaped(c, s) && r.p in c.ids && !InLoop(pc) && Replies(RoutePc(c, s, r, pc, ok, sn))
    ensures Replies(pc) && RoutePc(c, s, r, pc, ok, sn).x == pc.x
  {
  }

  /** A task on a reply was on it before, or has just taken it. */
  lemma {:induction false} ReplyStep(c: Config, s: State, a: Action, r: ReaderId, k: nat)
    requires Can(c, s, a) && HasTask(Do(c, s, a), r, k) && Replies(PcOf(Do(c, s, a), r, k))
    ensures HasTask(s, r, k)
    ensures var pc, pc' := PcOf(s, r, k), PcOf(Do(c, s, a), r, k);
            || (Replies(pc) && pc.x == pc'.x)
            || (pc.Take? && r in s.on.readers && s.readers[r].unread != []
                && var x := s.readers[r].unread[0];
                   pc' == ReplyLock(x) && x.correct && r.ReplyReader? && x.identity.writer == c.guids(r.p))
  {
    hide Do, Can, LoopStep, RoutePc, InLoop;
    CanIsShaped(c, s, a);
    if a.Run? {
      RunFrame(c, s, a, r, k);
      if a.r == r && a.k == k {
        if InLoop(PcOf(s, r, k)) {
          LoopReplies(c, s, r, k);
          TakeStep(c, s, r, k);
        } else {
          RouteReplies(c, s, r, PcOf(s, r, k), a.ok, a.sn);
        }
      }
    } else {
      QuietTasks(c, s, a, r, k);
    }
  }

  /**
   Over every run, a task that looks up, routes or erases a reply works on a correct sample that it took from a
   participant's enabled reply reader, and whose writer is that very reader.
   */
  lemma {:induction false} ReplyIsOwn(c: Config, run: seq<State>, j: nat, r: ReaderId, k: nat) returns (m: nat)
    requires IsRun(c, run) && j < |run| && HasTask(run[j], r, k) && Replies(PcOf(run[j], r, k))
    ensures m < j && TakenAt(c, run, m, r, k, PcOf(run[j], r, k).x)
  {
    hide Do, Can;
    m := 0;
    if j > 0 {
      assert Next(c, run[j - 1], run[(j - 1) + 1]);
      var a :| Can(c, run[j - 1], a) && run[j] == Do(c, run[j - 1], a);
      ReplyStep(c, run[j - 1], a, r, k);
      if Replies(PcOf(run[j - 1], r, k)) {
        m := ReplyIsOwn(c, run, j - 1, r, k);
      } else {
        m := j - 1;
      }
    }
  }

  // ----- the history -----

  /** What one step adds to the history: nothing, or one event of the task that runs. */
  ghost predicate LogMoves(c: Config, s: State, a: Action, s': State) {
    || s'.log == s.log
    || (a.Run? && HasTask(s, a.r, a.k)
        && var pc := PcOf(s, a.r, a.k);
        || (pc.Take? && a.r.RequestReader? && s.readers[a.r].unread != []
            && var x := s.readers[a.r].unread[0];
               x.correct && s'.log == s.log + [RequestRead(a.r.p, SampleIdentity(x.identity.writer, x.origin))])
        || (pc.ForwardWrite? && pc.i < |c.ids|
            && s'.log == s.log + [Forwarded(c.ids[pc.i], a.sn,
                                            Entry(a.r.p, SampleIdentity(pc.x.identity.writer, pc.x.origin)))])
        || (pc.ReplyWrite? && s'.log == s.log + [Replied(a.r.p, pc.x.identity.sequence, pc.entry)]))
  }

  lemma {:induction false} LoopLog(c: Config, s: State, r: ReaderId, k: nat)
    requires HasTask(s, r, k) && !PcOf(s, r, k).Take?
    ensures LoopStep(c, s, r, k).log == s.log
  {
    assert s.log + [] == s.log;
  }

  lemma {:induction false} RouteLog(c: Config, s: State, r: ReaderId, k: nat, ok: bool, sn: SequenceNumber)
    requires Shaped(c, s) && CanRun(c, s, r, k, ok, sn) && !InLoop(PcOf(s, r, k))
    ensures LogMoves(c, s, Run(r, k, ok, sn), RouteStep(c, s, r, k, ok, sn))
  {
    assert s.log + [] == s.log;
    hide RoutePc, RouteRegistry;
  }

  lemma {:induction false} LogStep(c: Config, s: State, a: Action)
    requires Can(c, s, a)
    ensures LogMoves(c, s, a, Do(c, s, a))
  {
    hide LoopStep, RouteStep, ControlStep, CallbackStep, InLoop, CanRun, CanAdvance, ServersAvailable, Initialised;
    match a
    case Run(r, k, ok, sn) =>
      RunHasTask(c, s, r, k, ok, sn);
      if InLoop(PcOf(s, r, k)) {
        if PcOf(s, r, k).Take? {
          TakeStep(c, s, r, k);
        } else {
          LoopLog(c, s, r, k);
        }
      } else {
        RouteLog(c, s, r, k, ok, sn);
      }
    case Advance => ControlLog(c, s);
    case _ =>
  }

  lemma {:induction false} RunHasTask(c: Config, s: State, r: ReaderId, k: nat, ok: bool, sn: SequenceNumber)
    requires Shaped(c, s) && CanRun(c, s, r, k, ok, sn)
    ensures HasTask(s, r, k)
  {
  }

  lemma {:induction false} ControlLog(c: Config, s: State)
    requires Shaped(c, s) && CanAdvance(c, s)
    ensures ControlStep(c, s).log == s.log
  {
  }

  /** The step that added an event. */
  lemma {:induction false} AddedBy(c: Config, run: seq<State>, i: nat, k: nat) returns (m: nat, a: Action)
    requires IsRun(c, run) && i < |run| && k < |run[i].log|
    ensures m < i && Can(c, run[m], a) && run[m + 1] == Do(c, run[m], a) && LogMoves(c, run[m], a, run[m + 1])
    ensures run[m + 1].log == run[m].log + [run[i].log[k]]
  {
    hide Do, Can, LogMoves;
    m, a := 0, StartEnable;
    if i > 0 {
      assert Next(c, run[i - 1], run[(i - 1) + 1]);
      var b :| Can(c, run[i - 1], b) && run[i] == Do(c, run[i - 1], b);
      LogStep(c, run[i - 1], b);
      LogGrows(c, run[i - 1], b, run[i]);
      if k < |run[i - 1].log| {
        m, a := AddedBy(c, run, i - 1, k);
      } else {
        m, a := i - 1, b;
      }
    }
  }

  lemma {:induction false} LogGrows(c: Config, s: State, a: Action, s': State)
    requires LogMoves(c, s, a, s')
    ensures s'.log == s.log || (|s'.log| == |s.log| + 1 && s'.log == s.log + [s'.log[|s.log|]])
  {
  }

  /**
   Every request read is a correct sample that arrived at the participant's request reader, noted under its writer and
   its own sequence number.
   */
  lemma {:induction false} RequestFromArrival(c: Config, run: seq<State>, i: nat, k: nat) returns (n: nat, x: Sample)
    requires IsRun(c, run) && i < |run| && k < |run[i].log| && run[i].log[k].RequestRead?
    ensures n < i && ArrivedAt(run, n, RequestReader(run[i].log[k].at), x) && x.correct
    ensures run[i].log[k].identity == SampleIdentity(x.identity.writer, x.origin)
  {
    hide Do, Can;
    var m, a := AddedBy(c, run, i, k);
    LastEvent(run[m].log, run[i].log[k]);
    x := run[m].readers[a.r].unread[0];
    n := UnreadArrived(c, run, m, a.r, x);
  }

  lemma {:induction false} LastEvent(log: seq<Event>, e: Event)
    ensures forall e' :: log + [e] == log + [e'] ==> e == e'
    ensures log + [e] != log
  {
    forall e' | log + [e] == log + [e']
      ensures e == e'
    {
      assert (log + [e])[|log|] == (log + [e'])[|log|];
    }
    assert |log + [e]| == |log| + 1;
  }

  /**
   Every reply written goes back to a correct sample that arrived at the reply reader of the participant it came
   through, with that reader as its writer and the reply's sequence number.
   */
  lemma {:induction false} ReplyFromArrival(c: Config, run: seq<State>, i: nat, k: nat) returns (n: nat, x: Sample)
    requires IsRun(c, run) && i < |run| && k < |run[i].log| && run[i].log[k].Replied?
    ensures var e := run[i].log[k];
            && n < i && ArrivedAt(run, n, ReplyReader(e.through), x) && x.correct
            && x.identity == SampleIdentity(c.guids(e.through), e.sn)
  {
    hide Do, Can;
    var m, a := AddedBy(c, run, i, k);
    LastEvent(run[m].log, run[i].log[k]);
    x := PcOf(run[m], a.r, a.k).x;
    var t := ReplyIsOwn(c, run, m, a.r, a.k);
    n := UnreadArrived(c, run, t, a.r, x);
  }

  // ----- where requests go -----

  lemma {:induction false} ControlRegistries(c: Config, s: State)
    requires Shaped(c, s) && CanAdvance(c, s)
    ensures ControlStep(c, s).regs == s.regs
  {
  }

  /** Registries are never disabled. */
  lemma {:induction false} RegistriesStay(c: Config, s: State, a: Action, q: ParticipantId)
    requires Can(c, s, a) && q in s.regs && s.regs[q].enabled
    ensures q in Do(c, s, a).regs && Do(c, s, a).regs[q].enabled
  {
    hide ReaderStep, ControlStep, CallbackStep, CanAdvance, ServersAvailable, RoutePc, InLoop;
    if a.Advance? {
      ControlRegistries(c, s);
    }
  }

  /** A request goes neither back to its source, unless that repeats, nor where no server has been. */
  ghost predicate WellSent(c: Config, s: State) {
    forall e :: e in s.log && e.Forwarded? ==>
      && (e.through != e.entry.participant || e.through in c.repeaters)
      && e.through in s.regs && s.regs[e.through].enabled
  }

  /** A task that writes a request to a participant found it eligible. */
  lemma {:induction false} WritesWhereEligible(c: Config, run: seq<State>, j: nat, r: ReaderId, k: nat)
    requires IsRun(c, run) && j < |run| && HasTask(run[j], r, k)
    requires F.Forwards(PcOf(run[j], r, k)) && !PcOf(run[j], r, k).Forward? && PcOf(run[j], r, k).i < |c.ids|
    ensures var q := c.ids[PcOf(run[j], r, k).i];
            (q != r.p || q in c.repeaters) && q in run[j].regs && run[j].regs[q].enabled
  {
    hide Do, Can, F.Moves;
    if j > 0 {
      assert Next(c, run[j - 1], run[(j - 1) + 1]);
      var a :| Can(c, run[j - 1], a) && run[j] == Do(c, run[j - 1], a);
      CanIsShaped(c, run[j - 1], a);
      F.StepMoves(c, run[j - 1], a, r, k);
      var pc, pc' := PcOf(run[j - 1], r, k), PcOf(run[j], r, k);
      EligibleSource(c, run[j - 1], r, pc, pc');
      if !pc.Forward? {
        WritesWhereEligible(c, run, j - 1, r, k);
      }
      RegistriesStay(c, run[j - 1], a, c.ids[pc'.i]);
    }
  }

  lemma {:induction false} EligibleSource(c: Config, s: State, r: ReaderId, pc: Pc, pc': Pc)
    requires Shaped(c, s) && F.Moves(c, s, r, pc, pc') && F.Forwards(pc') && !pc'.Forward? && pc'.i < |c.ids|
    ensures F.Forwards(pc) && pc.i == pc'.i && c.ids[pc.i] in s.regs
    ensures pc.Forward? ==> (c.ids[pc.i] != r.p || c.ids[pc.i] in c.repeaters) && s.regs[c.ids[pc.i]].enabled
  {
  }

  /** Over every run. */
  lemma {:induction false} SentWhereEligible(c: Config, run: seq<State>, i: nat)
    requires IsRun(c, run) && i < |run|
    ensures WellSent(c, run[i])
  {
    hide Do, Can, LogMoves;
    if i > 0 {
      SentWhereEligible(c, run, i - 1);
      assert Next(c, run[i - 1], run[(i - 1) + 1]);
      var a :| Can(c, run[i - 1], a) && run[i] == Do(c, run[i - 1], a);
      LogStep(c, run[i - 1], a);
      SentStep(c, run, i - 1, a);
    }
  }

  lemma {:induction false} SentStep(c: Config, run: seq<State>, i: nat, a: Action)
    requires IsRun(c, run) && i + 1 < |run| && Can(c, run[i], a) && run[i + 1] == Do(c, run[i], a)
    requires LogMoves(c, run[i], a, run[i + 1]) && WellSent(c, run[i])
    ensures WellSent(c, run[i + 1])
  {
    hide Do, Can, IsRun;
    forall e | e in run[i + 1].log && e.Forwarded?
      ensures (e.through != e.entry.participant || e.through in c.repeaters)
      ensures e.through in run[i + 1].regs && run[i + 1].regs[e.through].enabled
    {
      if e !in run[i].log {
        WritesWhereEligible(c, run, i, a.r, a.k);
      }
      RegistriesStay(c, run[i], a, e.through);
    }
  }
}
