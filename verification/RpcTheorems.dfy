/** Theorems about whole runs of an RPCBridge. */
module RpcTheorems {
  import opened ServiceRegistry
  import opened RpcBridge
  import W = RpcWake
  import R = RpcRouting

  // ----- routing -----

  lemma {:induction false} IndexIn(s: seq<Event>, n: nat, e: Event) returns (j: nat)
    requires n <= |s| && e in s[..n]
    ensures j < n && s[j] == e
  {
    j :| 0 <= j < |s[..n]| && s[..n][j] == e;
  }

  /**
   In every interleaving, a reply written through participant P's reply writer with related identity I comes from
   an earlier request with identity I read at P, which was forwarded, after it was read and before the reply,
   through the participant where the reply arrived and under the sequence number the reply carries.
   */
  lemma ReplyTracesToRequest(c: Config, run: seq<State>, i: nat, k: nat) returns (f: nat, r: nat)
    requires IsRun(c, run) && i < |run| && k < |run[i].log| && run[i].log[k].Replied?
    ensures r < f < k
    ensures var log, e := run[i].log, run[i].log[k].entry;
            && log[f] == Forwarded(log[k].through, log[k].sn, e)
            && log[r] == RequestRead(e.participant, e.identity)
  {
    R.RunKeepsRouting(c, run, i);
    var log := R.ViewOf(run[i]).log;
    assert R.Traced(log);
    f := IndexIn(log, k, Forwarded(log[k].through, log[k].sn, log[k].entry));
    r := IndexIn(log, f, RequestRead(log[f].entry.participant, log[f].entry.identity));
  }

  /** Per participant and sequence number at most one reply is written successfully. */
  lemma AnsweredAtMostOnce(c: Config, run: seq<State>, i: nat, j: nat, k: nat)
    requires IsRun(c, run) && i < |run| && j < k < |run[i].log| && run[i].log[j].Replied? && run[i].log[k].Replied?
    ensures run[i].log[j].through != run[i].log[k].through || run[i].log[j].sn != run[i].log[k].sn
  {
    R.RunKeepsRouting(c, run, i);
    assert R.Traced(R.ViewOf(run[i]).log);
  }

  // ----- the registries -----

  /** The m-th number sent is in the table, answered, or followed by at least 4999 later ones. */
  ghost predicate RecentlyKept(g: Registry, log: seq<Event>, q: ParticipantId, m: nat) {
    m < |g.written| ==>
      g.written[m] in g.table || R.Answered(log, q, g.written[m]) || |g.written| - 1 - m >= 4999
  }

  /**
   Whenever a registry's mutex is free, the numbers sent through that proxy client are in increasing order, the
   table holds fewer than 5000 of them, and each of them is in the table, already answered, or was followed by at
   least 4999 later requests.
   */
  lemma SentIsRegistered(c: Config, run: seq<State>, i: nat, q: ParticipantId, m: nat)
    requires IsRun(c, run) && i < |run| && q in c.ids
    ensures q in run[i].regs
    ensures var g := run[i].regs[q];
            g.owner == None ==>
              && Increasing(g.written)
              && |g.table| < 5000
              && RecentlyKept(g, run[i].log, q, m)
  {
    hide R.Inv, W.Inv, R.TableInv, R.RepliesInv, IsRun, RecentlyKept;
    R.RunKeepsRouting(c, run, i);
    RegistryFacts(c, run[i], q);
    if run[i].regs[q].owner == None {
      RegisteredSince(R.ViewOf(run[i]).cur, run[i].regs[q], run[i].log, q, m);
    }
  }

  lemma RegistryFacts(c: Config, s: State, q: ParticipantId)
    requires R.Inv(c, R.ViewOf(s)) && q in c.ids
    ensures q in s.regs && ReplyReader(q) in R.ViewOf(s).cur
    ensures R.TableInv(R.ViewOf(s).cur, s.regs[q])
    ensures R.RepliesInv(R.ViewOf(s).cur[ReplyReader(q)], s.regs[q], s.log, q)
  {
    hide R.TableInv, R.RepliesInv, R.LocksInv, R.TaskInv, R.Traced;
  }

  lemma RegisteredSince(cur: map<ReaderId, Pc>, g: Registry, log: seq<Event>, q: ParticipantId, m: nat)
    requires R.TableInv(cur, g) && R.Unregistered(cur, g) == [] && ReplyReader(q) in cur
    requires R.RepliesInv(cur[ReplyReader(q)], g, log, q)
    ensures Increasing(g.written) && |g.table| < 5000 && RecentlyKept(g, log, q, m)
  {
    hide R.Answered, After, Adds;
    assert g.written == Adds(g.ops) + [] == Adds(g.ops);
    AlwaysBelowLimit(g.ops);
    if m < |g.written| { KeptUntilEvicted(g.ops, m); }
  }

  /** The history and the registries agree on what was sent. */
  ghost predicate Recorded(s: State) {
    forall q, n, e :: Forwarded(q, n, e) in s.log ==> q in s.regs && n in s.regs[q].written
  }

  lemma {:induction false} RouteRecords(c: Config, s: State, r: ReaderId, k: nat, ok: bool, sn: SequenceNumber)
    requires Shaped(c, s) && CanRun(c, s, r, k, ok, sn) && !InLoop(s.readers[r].tasks[k]) && Recorded(s)
    ensures Recorded(RouteStep(c, s, r, k, ok, sn))
  {
    hide RoutePc, Shaped;
  }

  lemma {:induction false} LoopRecords(c: Config, s: State, r: ReaderId, k: nat)
    requires r in s.readers && k < |s.readers[r].tasks| && Recorded(s)
    ensures Recorded(LoopStep(c, s, r, k))
  {
    hide ReaderStep;
  }

  lemma {:induction false} ControlRecords(c: Config, s: State)
    requires Shaped(c, s) && CanAdvance(c, s)
    ensures ControlStep(c, s).log == s.log && ControlStep(c, s).regs == s.regs
  {
  }

  lemma {:induction false} StepRecords(c: Config, s: State, a: Action)
    requires Can(c, s, a) && Recorded(s)
    ensures Recorded(Do(c, s, a))
  {
    hide RouteStep, LoopStep, ControlStep, CallbackStep, CanRun, InLoop, CanAdvance, ServersAvailable;
    match a
    case Run(r, k, ok, sn) => RunRecords(c, s, r, k, ok, sn);
    case Advance => ControlRecords(c, s);
    case _ =>
  }

  lemma {:induction false} RunRecords(c: Config, s: State, r: ReaderId, k: nat, ok: bool, sn: SequenceNumber)
    requires Shaped(c, s) && CanRun(c, s, r, k, ok, sn) && Recorded(s)
    ensures r in s.readers && k < |s.readers[r].tasks|
    ensures Recorded(if InLoop(s.readers[r].tasks[k]) then LoopStep(c, s, r, k) else RouteStep(c, s, r, k, ok, sn))
  {
    hide Recorded, LoopStep, RouteStep;
    if InLoop(s.readers[r].tasks[k]) {
      LoopRecords(c, s, r, k);
    } else {
      RouteRecords(c, s, r, k, ok, sn);
    }
  }

  /** Every request forwarded through a participant is among the numbers that its registry accounts for. */
  lemma {:induction false} ForwardedIsRecorded(c: Config, run: seq<State>, i: nat)
    requires IsRun(c, run) && i < |run|
    ensures Recorded(run[i])
  {
    hide Do, Can;
    if i > 0 {
      ForwardedIsRecorded(c, run, i - 1);
      assert Next(c, run[i - 1], run[(i - 1) + 1]);
      var a :| Can(c, run[i - 1], a) && run[i] == Do(c, run[i - 1], a);
      StepRecords(c, run[i - 1], a);
    }
  }

  /** At least 4999 later requests were sent through the registry's participant. */
  ghost predicate Outdated(g: Registry, n: SequenceNumber) {
    exists m :: 0 <= m < |g.written| && g.written[m] == n && |g.written| - 1 - m >= 4999
  }

  /** Whenever the mutex is free, a forwarded request is in the table, already answered, or outdated. */
  lemma {:induction false} ForwardedIsRegistered(
    c: Config, run: seq<State>, i: nat, q: ParticipantId, n: SequenceNumber, e: Entry)
    requires IsRun(c, run) && i < |run| && Forwarded(q, n, e) in run[i].log
    ensures q in run[i].regs
    ensures var g := run[i].regs[q];
            g.owner == None ==> n in g.table || R.Answered(run[i].log, q, n) || Outdated(g, n)
  {
    ForwardedIsRecorded(c, run, i);
    KnownRegistry(c, run, i, q);
    hide IsRun, R.Answered;
    var g := run[i].regs[q];
    var m :| 0 <= m < |g.written| && g.written[m] == n;
    SentIsRegistered(c, run, i, q, m);
  }

  /** The numbers forwarded through one participant increase in the order of the history, so none names two requests. */
  ghost predicate Ordered(log: seq<Event>) {
    forall j, k :: 0 <= j < k < |log| && log[j].Forwarded? && log[k].Forwarded? && log[j].through == log[k].through ==>
      log[j].sn < log[k].sn
  }

  lemma {:induction false} RouteOrders(c: Config, s: State, r: ReaderId, k: nat, ok: bool, sn: SequenceNumber)
    requires Shaped(c, s) && CanRun(c, s, r, k, ok, sn) && Recorded(s) && Ordered(s.log)
    ensures Ordered(s.log + RouteEvents(c, r, s.readers[r].tasks[k], ok, sn))
  {
    hide Shaped;
    var ev := RouteEvents(c, r, s.readers[r].tasks[k], ok, sn);
    if ev != [] && ev[0].Forwarded? {
      forall j | 0 <= j < |s.log| && s.log[j].Forwarded? && s.log[j].through == ev[0].through
        ensures s.log[j].sn < sn
      {
        assert Forwarded(s.log[j].through, s.log[j].sn, s.log[j].entry) in s.log;
      }
    }
  }

  lemma {:induction false} StepOrders(c: Config, s: State, a: Action)
    requires Can(c, s, a) && Recorded(s) && Ordered(s.log)
    ensures Ordered(Do(c, s, a).log)
  {
    hide ControlStep, CallbackStep, CanRun, InLoop, CanAdvance, ServersAvailable, Recorded, ReaderStep, RoutePc,
      RouteRegistry, RouteEvents;
    match a
    case Run(r, k, ok, sn) =>
      assert r in s.readers && k < |s.readers[r].tasks| by { RunIsTask(c, s, r, k, ok, sn); }
      RouteOrders(c, s, r, k, ok, sn);
    case Advance => ControlRecords(c, s);
    case _ =>
  }

  lemma {:induction false} RunIsTask(c: Config, s: State, r: ReaderId, k: nat, ok: bool, sn: SequenceNumber)
    requires Shaped(c, s) && CanRun(c, s, r, k, ok, sn)
    ensures r in s.readers && k < |s.readers[r].tasks|
  {
  }

  /** A participant and a number identify one forwarded request. */
  lemma {:induction false} ForwardedInOrder(c: Config, run: seq<State>, i: nat)
    requires IsRun(c, run) && i < |run|
    ensures Ordered(run[i].log)
  {
    hide Do, Can;
    if i > 0 {
      ForwardedInOrder(c, run, i - 1);
      ForwardedIsRecorded(c, run, i - 1);
      assert Next(c, run[i - 1], run[(i - 1) + 1]);
      var a :| Can(c, run[i - 1], a) && run[i] == Do(c, run[i - 1], a);
      StepOrders(c, run[i - 1], a);
    }
  }

  lemma {:induction false} SameRequest(log: seq<Event>, q: ParticipantId, n: SequenceNumber, e1: Entry, e2: Entry)
    requires Ordered(log) && Forwarded(q, n, e1) in log && Forwarded(q, n, e2) in log
    ensures e1 == e2
  {
    var j :| 0 <= j < |log| && log[j] == Forwarded(q, n, e1);
    var k :| 0 <= k < |log| && log[k] == Forwarded(q, n, e2);
    assert j == k;
  }

  /**
   A reply is never looked up between the write of its request and the registry insertion: a task that looks up the
   number of a forwarded request finds that very request, not answered before, or finds nothing because it was
   answered before or is outdated.
   */
  lemma {:induction false} LookupFindsRequest(c: Config, run: seq<State>, i: nat, q: ParticipantId, k: nat, e: Entry)
    requires IsRun(c, run) && i < |run| && q in c.ids && ReplyReader(q) in run[i].readers
    requires k < |run[i].readers[ReplyReader(q)].tasks| && run[i].readers[ReplyReader(q)].tasks[k].ReplyGet?
    requires Forwarded(q, run[i].readers[ReplyReader(q)].tasks[k].x.identity.sequence, e) in run[i].log
    ensures q in run[i].regs
    ensures var g, n := run[i].regs[q], run[i].readers[ReplyReader(q)].tasks[k].x.identity.sequence;
            if Lookup(g.table, n) == Some(e) then !R.Answered(run[i].log, q, n)
            else Lookup(g.table, n) == None && (R.Answered(run[i].log, q, n) || Outdated(g, n))
  {
    hide R.Inv, W.Inv, IsRun, R.Answered, RecentlyKept;
    R.RunKeepsRouting(c, run, i);
    ForwardedInOrder(c, run, i);
    ForwardedIsRecorded(c, run, i);
    var s, rd, r := run[i], run[i].readers[ReplyReader(q)], ReplyReader(q);
    var n := rd.tasks[k].x.identity.sequence;
    ReaderFacts(c, s, r);
    FlagFacts(c, s, r);
    R.RoutingTaskIsNewest(rd, k);
    RegistryFacts(c, s, q);
    LookingUp(c, R.ViewOf(s), q);
    LookupFacts(s.regs[q], s.log, q, n, e, R.ViewOf(s).cur);
  }

  lemma {:induction false} FlagFacts(c: Config, s: State, r: ReaderId)
    requires r in s.readers && W.ReaderInv(c, s.bridge, s.on, s.sharing, r, s.readers[r])
    ensures W.FlagInv(s.readers[r])
  {
  }

  /** While a task looks up, no number is written and not yet added. */
  lemma {:induction false} LookingUp(c: Config, v: R.View, q: ParticipantId)
    requires R.Inv(c, v) && q in c.ids && ReplyReader(q) in v.cur && v.cur[ReplyReader(q)].ReplyGet?
    ensures q in v.regs && R.Unregistered(v.cur, v.regs[q]) == []
  {
    hide R.Traced, R.TableInv, R.RepliesInv, R.TaskInv;
  }

  lemma {:induction false} LookupFacts(
    g: Registry, log: seq<Event>, q: ParticipantId, n: SequenceNumber, e: Entry, cur: map<ReaderId, Pc>)
    requires R.TableInv(cur, g) && R.Unregistered(cur, g) == []
    requires ReplyReader(q) in cur && cur[ReplyReader(q)].ReplyGet? && R.RepliesInv(cur[ReplyReader(q)], g, log, q)
    requires Ordered(log) && Forwarded(q, n, e) in log && n in g.written
    ensures if Lookup(g.table, n) == Some(e) then !R.Answered(log, q, n)
            else Lookup(g.table, n) == None && (R.Answered(log, q, n) || Outdated(g, n))
  {
    hide R.Answered, After, Adds, R.Unregistered;
    var m :| 0 <= m < |g.written| && g.written[m] == n;
    RegisteredSince(cur, g, log, q, m);
    if n in g.table {
      SameRequest(log, q, n, e, g.table[n]);
    }
  }

  lemma {:induction false} KnownRegistry(c: Config, run: seq<State>, i: nat, q: ParticipantId)
    requires IsRun(c, run) && i < |run| && q in run[i].regs
    ensures q in c.ids
  {
    W.RunKeeps(c, run, i);
  }

  // ----- wake-ups -----

  /**
   A reader's task flag is set exactly when one of its tasks is queued or running (not yet past the clearing of
   the flag), and then that task is the only one; a task about to take never finds the reader empty.
   */
  lemma FlagMeansOneTask(c: Config, run: seq<State>, i: nat, r: ReaderId)
    requires IsRun(c, run) && i < |run| && r in run[i].readers
    ensures var rd := run[i].readers[r];
            && (rd.flag <==> exists k :: 0 <= k < |rd.tasks| && W.Active(rd.tasks[k]))
            && (forall j, k :: (0 <= j < |rd.tasks| && 0 <= k < |rd.tasks|
                                && W.Active(rd.tasks[j]) && W.Active(rd.tasks[k])) ==> j == k)
            && (forall k :: 0 <= k < |rd.tasks| && rd.tasks[k].Take? ==> rd.unread != [])
  {
    W.RunKeeps(c, run, i);
    var s := run[i];
    assert W.ReaderInv(c, s.bridge, s.on, s.sharing, r, s.readers[r]);
    hide W.Inv;
  }

  /** Across any enable and disable: an enabled bridge, not in the middle of enable, leaves no data unserved. */
  lemma NoLostWakeup(c: Config, run: seq<State>, i: nat, r: ReaderId)
    requires IsRun(c, run) && i < |run| && r in run[i].readers
    requires run[i].bridge.enabled && run[i].bridge.control.Idle?
    ensures var rd := run[i].readers[r];
            rd.mutex == Free && rd.unread != [] ==>
              exists k :: 0 <= k < |rd.tasks| && W.Active(rd.tasks[k])
  {
    W.RunKeeps(c, run, i);
    var s := run[i];
    assert W.ReaderInv(c, s.bridge, s.on, s.sharing, r, s.readers[r]);
    var j := W.ReaderIndex(c, r);
    hide W.Inv;
    FlagMeansOneTask(c, run, i, r);
  }

  // ----- endpoints -----

  /** Every write finds its writer enabled. */
  lemma WritersEnabled(c: Config, run: seq<State>, i: nat, r: ReaderId, k: nat)
    requires IsRun(c, run) && i < |run| && r in run[i].readers && k < |run[i].readers[r].tasks|
    ensures var s, pc := run[i], run[i].readers[r].tasks[k];
            && (pc.ForwardWrite? && pc.i < |c.ids| ==> RequestWriter(c.ids[pc.i]) in s.on.writers)
            && (pc.ReplyWrite? ==> ReplyWriter(pc.entry.participant) in s.on.writers)
  {
    hide R.Inv, R.TaskInv, W.Inv, IsRun;
    R.RunKeepsRouting(c, run, i);
    var s, rd := run[i], run[i].readers[r];
    var pc := rd.tasks[k];
    ReaderFacts(c, s, r);
    if pc.ForwardWrite? && pc.i < |c.ids| {
      assert WriterAt(c, pc.i) in s.on.writers;
    } else if pc.ReplyWrite? {
      R.RoutingTaskIsNewest(rd, k);
      ReplyTaskFacts(c, s, r);
      KnownParticipant(c, s.regs[r.p], s.log, r, pc);
      var j :| 0 <= j < |c.ids| && c.ids[j] == pc.entry.participant;
      assert WriterAt(c, j + |c.ids|) in s.on.writers;
    }
  }

  lemma ReaderFacts(c: Config, s: State, r: ReaderId)
    requires W.Inv(c, s) && r in s.readers
    ensures W.ReaderInv(c, s.bridge, s.on, s.sharing, r, s.readers[r])
  {
    hide W.ReaderInv, W.ControlInv;
  }

  lemma ReplyTaskFacts(c: Config, s: State, r: ReaderId)
    requires R.Inv(c, R.ViewOf(s)) && r in s.readers
    ensures r.p in s.regs && R.TaskInv(c, s.regs[r.p], s.log, r, R.Newest(s.readers[r]))
    ensures R.Traced(s.log) && R.ReadAtParticipants(c, s.log)
  {
    hide R.TableInv, R.RepliesInv, R.LocksInv, R.TaskInv, R.Traced;
    assert r in R.ViewOf(s).cur;
  }

  lemma KnownParticipant(c: Config, g: Registry, log: seq<Event>, r: ReaderId, pc: Pc)
    requires R.TaskInv(c, g, log, r, pc) && pc.ReplyWrite? && R.Traced(log) && R.ReadAtParticipants(c, log)
    ensures pc.entry.participant in c.ids
  {
    assert log[..|log|] == log;
    var f := IndexIn(log, |log|, Forwarded(r.p, pc.x.identity.sequence, pc.entry));
    assert RequestRead(pc.entry.participant, pc.entry.identity) in log;
  }

  /**
   From the point where disable has passed the transmission lock until the next enable, no task takes or writes,
   although stale tasks may still start and end.
   */
  lemma SilentWhileStopped(c: Config, run: seq<State>, i: nat, r: ReaderId, k: nat)
    requires IsRun(c, run) && i < |run| && r in run[i].readers && k < |run[i].readers[r].tasks|
    requires W.Stopped(run[i].bridge)
    ensures var pc := run[i].readers[r].tasks[k];
            pc.Queued? || pc.Head? || pc.TestEnabled? || pc.ClearFlag? || pc.Retired? || pc.Leaving? || pc.Done?
  {
    W.RunKeeps(c, run, i);
    var s := run[i];
    assert W.ReaderInv(c, s.bridge, s.on, s.sharing, r, s.readers[r]);
  }

  /** A participant that has servers has an enabled registry once initialised; an enabled bridge has a server. */
  lemma ServersHaveRegistries(c: Config, run: seq<State>, i: nat, p: ParticipantId)
    requires IsRun(c, run) && i < |run| && p in c.ids
    ensures p in run[i].regs && p in run[i].bridge.servers
    ensures run[i].bridge.init && run[i].bridge.servers[p] != {} ==> run[i].regs[p].enabled
    ensures run[i].bridge.enabled ==> ServersAvailable(run[i].bridge)
  {
    W.RunKeeps(c, run, i);
  }

  /**
   Outside enable and disable a server may be found at any participant. It is then known beside the others, its
   participant's registry is enabled once the bridge is initialised, and a disabled bridge may be enabled.
   */
  lemma {:induction false} ServerFound(c: Config, run: seq<State>, i: nat, p: ParticipantId, g: Server)
    requires IsRun(c, run) && i < |run| && run[i].bridge.control.Idle? && p in c.ids
    ensures Can(c, run[i], Discover(p, g))
    ensures var s, s' := run[i], Do(c, run[i], Discover(p, g));
            && (forall q, h :: q in c.ids ==>
                  (h in s'.bridge.servers[q] <==> h in s.bridge.servers[q] || (q == p && h == g)))
            && (s.bridge.init ==> s'.regs[p].enabled)
            && (Can(c, s', StartEnable) <==> !s.bridge.enabled)
            && s'.bridge.enabled == s.bridge.enabled && s'.bridge.control == Idle
            && s'.on == s.on && s'.readers == s.readers
  {
    hide IsRun, W.ReaderInv, W.ControlInv;
    W.RunKeeps(c, run, i);
    var s' := Do(c, run[i], Discover(p, g));
    assert g in s'.bridge.servers[p];
  }

  /** It is forgotten when it goes, and the bridge is disabled exactly when it was enabled and knew no other. */
  lemma {:induction false} ServerLost(c: Config, run: seq<State>, i: nat, p: ParticipantId, g: Server)
    requires IsRun(c, run) && i < |run| && run[i].bridge.control.Idle? && p in c.ids
    ensures Can(c, run[i], Remove(p, g)) && Shaped(c, run[i])
    ensures var s, s' := run[i], Do(c, run[i], Remove(p, g));
            && (forall q, h :: q in c.ids ==>
                  (h in s'.bridge.servers[q] <==> h in s.bridge.servers[q] && !(q == p && h == g)))
            && (s'.bridge.control.WaitTransmission? <==>
                  s.bridge.enabled && forall q, h :: q in c.ids && h in s.bridge.servers[q] ==> q == p && h == g)
            && (s'.bridge.enabled <==> s.bridge.enabled && s'.bridge.control.Idle?)
            && s'.on == s.on && s'.readers == s.readers && s'.regs == s.regs
  {
    hide IsRun, W.ReaderInv, W.ControlInv;
    W.RunKeeps(c, run, i);
    var s := run[i];
    var b := s.bridge.(servers := s.bridge.servers[p := s.bridge.servers[p] - {g}]);
    OtherServers(c, s, p, g, b);
  }

  lemma {:induction false} OtherServers(c: Config, s: State, p: ParticipantId, g: Server, b: Bridge)
    requires Shaped(c, s) && p in c.ids && b.servers == s.bridge.servers[p := s.bridge.servers[p] - {g}]
    ensures ServersAvailable(b) <==> exists q, h :: q in c.ids && h in s.bridge.servers[q] && !(q == p && h == g)
  {
    if ServersAvailable(b) {
      var q :| q in b.servers && b.servers[q] != {};
      var h :| h in b.servers[q];
      assert q in c.ids && h in s.bridge.servers[q] && !(q == p && h == g);
    }
    if q, h :| q in c.ids && h in s.bridge.servers[q] && !(q == p && h == g) {
      assert h in b.servers[q];
    }
  }
}
