/** Where requests and replies of an RPCBridge go. */
module RpcRouting {
  import opened ServiceRegistry
  import opened RpcBridge
  import W = RpcWake

  /** What routing depends on: the newest task of each reader, the registries and the history. */
  datatype View = View(cur: map<ReaderId, Pc>, regs: map<ParticipantId, Registry>, log: seq<Event>)

  function Newest(rd: Reader): Pc {
    if rd.tasks == [] then Done else rd.tasks[|rd.tasks| - 1]
  }

  ghost function ViewOf(s: State): View {
    View(map r | r in s.readers :: Newest(s.readers[r]), s.regs, s.log)
  }

  ghost predicate HoldsLock(pc: Pc) {
    pc.ForwardWrite? || pc.ForwardAdd? || pc.ForwardUnlock? || pc.ReplyGet? || pc.ReplyUnlock?
  }

  ghost predicate Answered(log: seq<Event>, q: ParticipantId, n: SequenceNumber) {
    exists e :: Replied(q, n, e) in log
  }

  ghost predicate Answerable(g: Registry, log: seq<Event>, q: ParticipantId, n: SequenceNumber, e: Entry) {
    Forwarded(q, n, e) in log && !Answered(log, q, n) && n in Adds(g.ops)
  }

  // ----- invariants -----

  ghost predicate TaskInv(c: Config, g: Registry, log: seq<Event>, r: ReaderId, pc: Pc) {
    match pc
    case Forward(x, _) => r.RequestReader? && RequestRead(r.p, Identity(x)) in log
    case ForwardLock(x, _) => r.RequestReader? && RequestRead(r.p, Identity(x)) in log
    case ForwardWrite(x, _) => r.RequestReader? && RequestRead(r.p, Identity(x)) in log
    case ForwardAdd(x, _, n) =>
      && r.RequestReader? && RequestRead(r.p, Identity(x)) in log
      && Forwarded(Target(c, r, pc), n, Entry(r.p, Identity(x))) in log
    case ForwardUnlock(x, _) => r.RequestReader? && RequestRead(r.p, Identity(x)) in log
    case ReplyLock(_) => r.ReplyReader?
    case ReplyGet(_) => r.ReplyReader?
    case ReplyUnlock(x, e) =>
      r.ReplyReader? && (e.Some? ==> Answerable(g, log, r.p, x.identity.sequence, e.value))
    case ReplyWrite(x, e) => r.ReplyReader? && Answerable(g, log, r.p, x.identity.sequence, e)
    case ReplyErase(x) => r.ReplyReader? && Answered(log, r.p, x.identity.sequence)
    case _ => true
  }

  /** The number that the owner of the registry's mutex has written and not added yet. */
  ghost function Unregistered(cur: map<ReaderId, Pc>, g: Registry): seq<SequenceNumber> {
    if g.owner.Some? && g.owner.value.r in cur && cur[g.owner.value.r].ForwardAdd?
    then [cur[g.owner.value.r].sn] else []
  }

  /** The table is what its calls made of it, and the numbers sent are the numbers added, in increasing order. */
  ghost predicate TableInv(cur: map<ReaderId, Pc>, g: Registry) {
    && g.table == After(g.ops)
    && Increasing(g.written)
    && g.written == Adds(g.ops) + Unregistered(cur, g)
  }

  ghost predicate RepliesInv(pc: Pc, g: Registry, log: seq<Event>, q: ParticipantId) {
    && (forall n :: n in g.table ==> Forwarded(q, n, g.table[n]) in log)
    && (forall n :: Answered(log, q, n) ==> n in Adds(g.ops))
    && (forall n :: Erase(n) in g.ops ==> Answered(log, q, n))
    && (forall n :: n in g.table && Answered(log, q, n) ==> pc.ReplyErase? && pc.x.identity.sequence == n)
  }

  ghost predicate LocksInv(c: Config, v: View) {
    && (forall r :: r in v.cur && HoldsLock(v.cur[r]) && Target(c, r, v.cur[r]) in v.regs ==>
          var o := v.regs[Target(c, r, v.cur[r])].owner;
          o.Some? && o.value.r == r)
    && (forall q :: q in v.regs && v.regs[q].owner.Some? ==>
          var r := v.regs[q].owner.value.r;
          r in v.cur && HoldsLock(v.cur[r]) && Target(c, r, v.cur[r]) == q)
  }

  /** Replies come from forwarded requests, those from requests that were read, and no request is answered twice. */
  ghost predicate Traced(log: seq<Event>) {
    && (forall i :: 0 <= i < |log| && log[i].Replied? ==>
          Forwarded(log[i].through, log[i].sn, log[i].entry) in log[..i])
    && (forall i :: 0 <= i < |log| && log[i].Forwarded? ==>
          RequestRead(log[i].entry.participant, log[i].entry.identity) in log[..i])
    && (forall i, j :: 0 <= i < j < |log| && log[i].Replied? && log[j].Replied? ==>
          log[i].through != log[j].through || log[i].sn != log[j].sn)
  }

  ghost predicate ReadAtParticipants(c: Config, log: seq<Event>) {
    forall e :: e in log && e.RequestRead? ==> e.at in c.ids
  }

  ghost predicate ViewShaped(c: Config, v: View) {
    && (forall r :: r in v.cur <==> r.p in c.ids)
    && (forall q :: q in v.regs <==> q in c.ids)
  }

  ghost predicate Inv(c: Config, v: View) {
    && ViewShaped(c, v)
    && LocksInv(c, v)
    && Traced(v.log) && ReadAtParticipants(c, v.log)
    && (forall r :: r in v.cur ==> TaskInv(c, v.regs[r.p], v.log, r, v.cur[r]))
    && (forall q :: q in v.regs ==> TableInv(v.cur, v.regs[q]))
    && (forall q :: q in v.regs ==> RepliesInv(v.cur[ReplyReader(q)], v.regs[q], v.log, q))
  }

  // ----- the history grows -----

  lemma {:induction false} TraceGrows(log: seq<Event>, e: Event)
    requires Traced(log)
    requires e.Replied? ==> Forwarded(e.through, e.sn, e.entry) in log && !Answered(log, e.through, e.sn)
    requires e.Forwarded? ==> RequestRead(e.entry.participant, e.entry.identity) in log
    ensures Traced(log + [e])
  {
    var log' := log + [e];
    assert forall i :: 0 <= i <= |log| ==> log'[..i] == log[..i];
    forall i | 0 <= i < |log| && e.Replied? && log[i].Replied?
      ensures log[i].through != e.through || log[i].sn != e.sn
    {
      assert Replied(log[i].through, log[i].sn, log[i].entry) in log;
    }
  }

  lemma AnsweredGrows(log: seq<Event>, e: Event, q: ParticipantId, n: SequenceNumber)
    ensures Answered(log + [e], q, n) <==>
            Answered(log, q, n) || (e.Replied? && e.through == q && e.sn == n)
  {
    if e.Replied? && e.through == q && e.sn == n {
      assert Replied(q, n, e.entry) in log + [e];
    }
    if Answered(log, q, n) {
      var x :| Replied(q, n, x) in log;
      assert Replied(q, n, x) in log + [e];
    }
  }

  // ----- routing steps -----

  /** A step of the newest task of `r`, from `pc`. */
  ghost function Step(c: Config, v: View, t: TaskId, pc': Pc, ok: bool, sn: SequenceNumber): View
    requires ViewShaped(c, v) && t.r in v.cur
  {
    var pc := v.cur[t.r];
    var q := Target(c, t.r, pc);
    View(v.cur[t.r := pc'],
         v.regs[q := RouteRegistry(t, pc, ok, sn, v.regs[q])],
         v.log + RouteEvents(c, t.r, pc, ok, sn))
  }

  /** The guard of CanRun, on the view. */
  ghost predicate Guard(c: Config, v: View, r: ReaderId, ok: bool, sn: SequenceNumber)
    requires ViewShaped(c, v) && r in v.cur
  {
    var pc := v.cur[r];
    var g := v.regs[Target(c, r, pc)];
    && (pc.ForwardLock? || pc.ReplyLock? || pc.ReplyErase? ==> g.owner == None)
    && (pc.ForwardWrite? && ok ==> forall n :: n in g.written ==> n < sn)
  }

  ghost predicate Follows(c: Config, v: View, r: ReaderId, pc': Pc, ok: bool, sn: SequenceNumber)
    requires ViewShaped(c, v) && r in v.cur
  {
    var pc := v.cur[r];
    match pc
    case Forward(x, i) => pc' == Head || pc' == Forward(x, i + 1) || pc' == ForwardLock(x, i)
    case ForwardLock(x, i) => pc' == ForwardWrite(x, i)
    case ForwardWrite(x, i) => pc' == if ok then ForwardAdd(x, i, sn) else ForwardUnlock(x, i)
    case ForwardAdd(x, i, _) => pc' == ForwardUnlock(x, i)
    case ForwardUnlock(x, i) => pc' == Forward(x, i + 1)
    case ReplyLock(x) => pc' == ReplyGet(x)
    case ReplyGet(x) => pc' == ReplyUnlock(x, Lookup(v.regs[r.p].table, x.identity.sequence))
    case ReplyUnlock(x, e) => pc' == if e.Some? then ReplyWrite(x, e.value) else Head
    case ReplyWrite(x, _) => pc' == if ok then ReplyErase(x) else Head
    case ReplyErase(x) => pc' == Head
    case _ => false
  }

  ghost predicate MovesLock(pc: Pc) {
    pc.ForwardLock? || pc.ReplyLock? || pc.ForwardUnlock? || pc.ReplyUnlock?
  }

  lemma {:induction false} LockMoves(c: Config, v: View, t: TaskId, pc': Pc, ok: bool, sn: SequenceNumber)
    requires ViewShaped(c, v) && LocksInv(c, v) && t.r in v.cur && MovesLock(v.cur[t.r])
    requires Guard(c, v, t.r, ok, sn) && Follows(c, v, t.r, pc', ok, sn)
    ensures LocksInv(c, Step(c, v, t, pc', ok, sn))
  {
  }

  lemma {:induction false} SameOwners(c: Config, v: View, v': View, r: ReaderId)
    requires ViewShaped(c, v) && LocksInv(c, v) && r in v.cur && r in v'.cur && v'.cur == v.cur[r := v'.cur[r]]
    requires v'.regs.Keys == v.regs.Keys && forall q :: q in v.regs ==> v'.regs[q].owner == v.regs[q].owner
    requires HoldsLock(v'.cur[r]) <==> HoldsLock(v.cur[r])
    requires HoldsLock(v.cur[r]) ==> Target(c, r, v'.cur[r]) == Target(c, r, v.cur[r])
    ensures LocksInv(c, v')
  {
    hide Target, HoldsLock;
  }

  lemma {:induction false} LockStays(c: Config, v: View, t: TaskId, pc': Pc, ok: bool, sn: SequenceNumber)
    requires ViewShaped(c, v) && t.r in v.cur && !MovesLock(v.cur[t.r]) && Follows(c, v, t.r, pc', ok, sn)
    ensures HoldsLock(pc') <==> HoldsLock(v.cur[t.r])
    ensures HoldsLock(pc') ==> Target(c, t.r, pc') == Target(c, t.r, v.cur[t.r])
    ensures forall g :: RouteRegistry(t, v.cur[t.r], ok, sn, g).owner == g.owner
  {
  }

  lemma {:induction false} LocksKept(c: Config, v: View, t: TaskId, pc': Pc, ok: bool, sn: SequenceNumber)
    requires ViewShaped(c, v) && LocksInv(c, v) && t.r in v.cur
    requires Guard(c, v, t.r, ok, sn) && Follows(c, v, t.r, pc', ok, sn)
    ensures LocksInv(c, Step(c, v, t, pc', ok, sn))
  {
    hide Target, HoldsLock, Follows, Guard, RouteRegistry, RouteEvents, LocksInv;
    if MovesLock(v.cur[t.r]) {
      LockMoves(c, v, t, pc', ok, sn);
    } else {
      LockStays(c, v, t, pc', ok, sn);
      SameOwners(c, v, Step(c, v, t, pc', ok, sn), t.r);
    }
  }

  // the registries

  /** The stepping task owns the registry it works on exactly when its program point says so. */
  ghost predicate OwnedAs(pc: Pc, g: Registry, r: ReaderId) {
    HoldsLock(pc) <==> g.owner.Some? && g.owner.value.r == r
  }

  lemma {:induction false} WriteTable(cur: map<ReaderId, Pc>, g: Registry, t: TaskId, ok: bool, sn: SequenceNumber)
    requires t.r in cur && cur[t.r].ForwardWrite? && TableInv(cur, g) && OwnedAs(cur[t.r], g, t.r)
    requires ok ==> forall n :: n in g.written ==> n < sn
    ensures var pc := cur[t.r];
            TableInv(cur[t.r := if ok then ForwardAdd(pc.x, pc.i, sn) else ForwardUnlock(pc.x, pc.i)],
                     RouteRegistry(t, pc, ok, sn, g))
  {
    assert g.written == Adds(g.ops) + [];
    forall i | 0 <= i < |g.written| ensures ok ==> g.written[i] < sn {
      assert g.written[i] in g.written;
    }
  }

  lemma {:induction false} CallTable(cur: map<ReaderId, Pc>, g: Registry, t: TaskId, op: Op, pc': Pc)
    requires t.r in cur && TableInv(cur, g) && !pc'.ForwardAdd?
    requires op.Add? ==> OwnedAs(cur[t.r], g, t.r) && cur[t.r].ForwardAdd? && cur[t.r].sn == op.idx
    requires op.Erase? ==> g.owner == None
    ensures TableInv(cur[t.r := pc'], WithCall(g, op))
  {
    AddsConcat(g.ops, op);
  }

  lemma {:induction false} LockTable(
    cur: map<ReaderId, Pc>, g: Registry, t: TaskId, pc': Pc, ok: bool, sn: SequenceNumber)
    requires t.r in cur && TableInv(cur, g) && OwnedAs(cur[t.r], g, t.r) && !pc'.ForwardAdd?
    requires !cur[t.r].ForwardWrite? && !cur[t.r].ForwardAdd? && !cur[t.r].ReplyErase?
    requires cur[t.r].ForwardLock? || cur[t.r].ReplyLock? ==> g.owner == None
    ensures TableInv(cur[t.r := pc'], RouteRegistry(t, cur[t.r], ok, sn, g))
  {
  }

  lemma {:induction false} TableKept(c: Config, v: View, t: TaskId, pc': Pc, ok: bool, sn: SequenceNumber)
    requires ViewShaped(c, v) && t.r in v.cur && OwnedAs(v.cur[t.r], v.regs[Target(c, t.r, v.cur[t.r])], t.r)
    requires Guard(c, v, t.r, ok, sn) && Follows(c, v, t.r, pc', ok, sn)
    requires TableInv(v.cur, v.regs[Target(c, t.r, v.cur[t.r])])
    ensures var q := Target(c, t.r, v.cur[t.r]);
            TableInv(v.cur[t.r := pc'], RouteRegistry(t, v.cur[t.r], ok, sn, v.regs[q]))
  {
    hide TableInv, Target, OwnedAs;
    var pc, g := v.cur[t.r], v.regs[Target(c, t.r, v.cur[t.r])];
    match pc
    case ForwardWrite(_, _) => WriteTable(v.cur, g, t, ok, sn);
    case ForwardAdd(x, _, n) => CallTable(v.cur, g, t, Add(n, Entry(t.r.p, Identity(x))), pc');
    case ReplyErase(x) => CallTable(v.cur, g, t, Erase(x.identity.sequence), pc');
    case _ => LockTable(v.cur, g, t, pc', ok, sn);
  }

  // the replies

  /** `ev` holds at most one event. */
  ghost predicate NoReplyThrough(ev: seq<Event>, q: ParticipantId) {
    ev == [] || (|ev| == 1 && !(ev[0].Replied? && ev[0].through == q))
  }

  lemma AnsweredSame(log: seq<Event>, ev: seq<Event>, q: ParticipantId, n: SequenceNumber)
    requires NoReplyThrough(ev, q)
    ensures Answered(log + ev, q, n) <==> Answered(log, q, n)
  {
    if ev == [] {
      assert log + ev == log;
    } else {
      assert log + ev == log + [ev[0]];
      AnsweredGrows(log, ev[0], q, n);
    }
  }

  lemma {:induction false} RepliesSame(
    pc: Pc, pc': Pc, g: Registry, g': Registry, log: seq<Event>, ev: seq<Event>, q: ParticipantId)
    requires RepliesInv(pc, g, log, q) && g'.table == g.table && g'.ops == g.ops && NoReplyThrough(ev, q)
    requires pc' == pc || !pc.ReplyErase?
    ensures RepliesInv(pc', g', log + ev, q)
  {
    forall n ensures Answered(log + ev, q, n) <==> Answered(log, q, n) { AnsweredSame(log, ev, q, n); }
    hide Answered;
  }

  lemma {:induction false} RepliesAfterAdd(
    pc: Pc, g: Registry, log: seq<Event>, q: ParticipantId, n: SequenceNumber, e: Entry)
    requires RepliesInv(pc, g, log, q) && Forwarded(q, n, e) in log
    requires g.table == After(g.ops) && n !in Adds(g.ops)
    ensures RepliesInv(pc, WithCall(g, Add(n, e)), log, q)
  {
    hide Answered, Added, After, Adds;
    AddsConcat(g.ops, Add(n, e));
    AlwaysBelowLimit(g.ops);
    AddedEntries(g.table, n, e);
    forall k | Erase(k) in g.ops + [Add(n, e)] ensures Erase(k) in g.ops {}
  }

  lemma {:induction false} RepliesAfterWrite(
    pc: Pc, x: Sample, g: Registry, log: seq<Event>, q: ParticipantId, e: Entry)
    requires RepliesInv(pc, g, log, q) && !pc.ReplyErase? && x.identity.sequence in Adds(g.ops)
    ensures RepliesInv(ReplyErase(x), g, log + [Replied(q, x.identity.sequence, e)], q)
  {
    var ev := Replied(q, x.identity.sequence, e);
    forall n ensures Answered(log + [ev], q, n) <==> Answered(log, q, n) || n == x.identity.sequence {
      AnsweredGrows(log, ev, q, n);
    }
    hide Answered;
  }

  lemma {:induction false} RepliesAfterErase(x: Sample, g: Registry, log: seq<Event>, q: ParticipantId)
    requires RepliesInv(ReplyErase(x), g, log, q) && Answered(log, q, x.identity.sequence)
    ensures RepliesInv(Head, WithCall(g, Erase(x.identity.sequence)), log, q)
  {
    hide Answered;
    var n := x.identity.sequence;
    AddsConcat(g.ops, Erase(n));
    assert forall k :: Erase(k) in g.ops + [Erase(n)] ==> k == n || Erase(k) in g.ops;
  }

  // the tasks

  lemma {:induction false} TaskGrows(
    c: Config, g: Registry, g': Registry, log: seq<Event>, ev: seq<Event>, r: ReaderId, pc: Pc)
    requires TaskInv(c, g, log, r, pc) && (forall n :: n in Adds(g.ops) ==> n in Adds(g'.ops))
    requires r.ReplyReader? && !pc.ReplyErase? ==> NoReplyThrough(ev, r.p)
    ensures TaskInv(c, g', log + ev, r, pc)
  {
    if pc.ReplyUnlock? || pc.ReplyWrite? { AnsweredSame(log, ev, r.p, pc.x.identity.sequence); }
    if pc.ReplyErase? {
      var e :| Replied(r.p, pc.x.identity.sequence, e) in log;
      assert Replied(r.p, pc.x.identity.sequence, e) in log + ev;
    }
  }

  lemma {:induction false} FoundIsAnswerable(c: Config, g: Registry, log: seq<Event>, q: ParticipantId, x: Sample)
    requires RepliesInv(ReplyGet(x), g, log, q) && g.table == After(g.ops)
    ensures var e := Lookup(g.table, x.identity.sequence);
            e.Some? ==> Answerable(g, log, q, x.identity.sequence, e.value)
  {
    AlwaysBelowLimit(g.ops);
  }

  // ----- a routing step keeps everything -----

  lemma {:induction false} RouteTrace(
    c: Config, g: Registry, log: seq<Event>, r: ReaderId, pc: Pc, ok: bool, sn: SequenceNumber)
    requires Traced(log) && TaskInv(c, g, log, r, pc)
    ensures Traced(log + RouteEvents(c, r, pc, ok, sn))
    ensures forall e :: e in RouteEvents(c, r, pc, ok, sn) ==> !e.RequestRead?
    ensures forall q :: (pc.ReplyWrite? && ok && q == r.p) || NoReplyThrough(RouteEvents(c, r, pc, ok, sn), q)
  {
    var ev := RouteEvents(c, r, pc, ok, sn);
    hide Traced;
    if ev == [] {
      assert log + ev == log;
    } else {
      TraceGrows(log, ev[0]);
    }
  }

  lemma {:induction false} GetTask(c: Config, v: View, r: ReaderId)
    requires Inv(c, v) && r in v.cur && v.cur[r].ReplyGet?
    ensures var e, n := Lookup(v.regs[r.p].table, v.cur[r].x.identity.sequence), v.cur[r].x.identity.sequence;
            e.Some? ==> Answerable(v.regs[r.p], v.log, r.p, n, e.value)
  {
    hide TaskInv, Traced, LocksInv, RepliesInv, TableInv, Answerable, Lookup;
    GetsReply(c, v, r);
    TableIsFold(v.cur, v.regs[r.p]);
    FoundIsAnswerable(c, v.regs[r.p], v.log, r.p, v.cur[r].x);
  }

  /** A task at the lookup belongs to a reply reader, and what is known about that participant's replies holds. */
  lemma {:induction false} GetsReply(c: Config, v: View, r: ReaderId)
    requires Inv(c, v) && r in v.cur && v.cur[r].ReplyGet?
    ensures r.p in v.regs && r == ReplyReader(r.p)
    ensures RepliesInv(v.cur[r], v.regs[r.p], v.log, r.p) && TableInv(v.cur, v.regs[r.p])
  {
    hide Traced, LocksInv, RepliesInv, TableInv;
    assert TaskInv(c, v.regs[r.p], v.log, r, v.cur[r]);
  }

  lemma {:induction false} TableIsFold(cur: map<ReaderId, Pc>, g: Registry)
    requires TableInv(cur, g)
    ensures g.table == After(g.ops)
  {
  }

  lemma {:induction false} RouteTask(c: Config, v: View, t: TaskId, pc': Pc, ok: bool, sn: SequenceNumber)
    requires Inv(c, v) && t.r in v.cur && Follows(c, v, t.r, pc', ok, sn)
    ensures var pc := v.cur[t.r];
            TaskInv(c, v.regs[t.r.p], v.log + RouteEvents(c, t.r, pc, ok, sn), t.r, pc')
  {
    hide Traced, LocksInv, RepliesInv, TableInv, Answered, Answerable, Lookup;
    var r, pc, g, log := t.r, v.cur[t.r], v.regs[t.r.p], v.log;
    assert TaskInv(c, g, log, r, pc);
    assert log + [] == log;
    if pc.ReplyGet? {
      GetTask(c, v, r);
    } else if pc.ReplyWrite? && ok {
      AnsweredGrows(log, Replied(r.p, pc.x.identity.sequence, pc.entry), r.p, pc.x.identity.sequence);
    }
  }

  /** Only ForwardAdd and ReplyErase call the table. */
  lemma {:induction false} RouteOps(t: TaskId, pc: Pc, ok: bool, sn: SequenceNumber, g: Registry)
    ensures var g' := RouteRegistry(t, pc, ok, sn, g);
            && (!pc.ForwardAdd? && !pc.ReplyErase? ==> g'.table == g.table && g'.ops == g.ops)
            && (forall n :: n in Adds(g.ops) ==> n in Adds(g'.ops))
  {
    if pc.ForwardAdd? {
      AddsConcat(g.ops, Add(pc.sn, Entry(t.r.p, Identity(pc.x))));
    } else if pc.ReplyErase? {
      AddsConcat(g.ops, Erase(pc.x.identity.sequence));
    }
  }

  lemma {:induction false} OwnReplies(c: Config, v: View, t: TaskId, pc': Pc, ok: bool, sn: SequenceNumber)
    requires Inv(c, v) && t.r in v.cur && Follows(c, v, t.r, pc', ok, sn)
    requires v.cur[t.r].ReplyErase? || (v.cur[t.r].ReplyWrite? && ok)
    ensures var v' := Step(c, v, t, pc', ok, sn);
            t.r.ReplyReader? && RepliesInv(v'.cur[t.r], v'.regs[t.r.p], v'.log, t.r.p)
  {
    hide Traced, LocksInv, RepliesInv, Answered, TableInv;
    var r, pc, q := t.r, v.cur[t.r], t.r.p;
    assert TaskInv(c, v.regs[q], v.log, r, pc);
    assert RepliesInv(v.cur[ReplyReader(q)], v.regs[q], v.log, q);
    assert v.log + [] == v.log;
    if pc.ReplyErase? {
      RepliesAfterErase(pc.x, v.regs[q], v.log, q);
    } else {
      RepliesAfterWrite(pc, pc.x, v.regs[q], v.log, q, pc.entry);
    }
  }

  lemma {:induction false} AddReplies(c: Config, v: View, t: TaskId, pc': Pc, ok: bool, sn: SequenceNumber)
    requires Inv(c, v) && t.r in v.cur && Follows(c, v, t.r, pc', ok, sn) && v.cur[t.r].ForwardAdd?
    ensures var v', q := Step(c, v, t, pc', ok, sn), Target(c, t.r, v.cur[t.r]);
            RepliesInv(v'.cur[ReplyReader(q)], v'.regs[q], v'.log, q)
  {
    hide Traced, LocksInv, RepliesInv, Answered, TableInv;
    var pc, q := v.cur[t.r], Target(c, t.r, v.cur[t.r]);
    assert TaskInv(c, v.regs[t.r.p], v.log, t.r, pc);
    assert RepliesInv(v.cur[ReplyReader(q)], v.regs[q], v.log, q);
    assert v.log + [] == v.log;
    TableOf(c, v, t.r);
    RepliesAfterAdd(v.cur[ReplyReader(q)], v.regs[q], v.log, q, pc.sn, Entry(t.r.p, Identity(pc.x)));
  }

  lemma {:induction false} RouteReplies(
    c: Config, v: View, t: TaskId, pc': Pc, ok: bool, sn: SequenceNumber, q: ParticipantId)
    requires Inv(c, v) && t.r in v.cur && q in v.regs && Follows(c, v, t.r, pc', ok, sn)
    ensures var v' := Step(c, v, t, pc', ok, sn);
            RepliesInv(v'.cur[ReplyReader(q)], v'.regs[q], v'.log, q)
  {
    hide Traced, LocksInv, RepliesInv, Answered, TableInv, NoReplyThrough, RouteEvents, RouteRegistry, TaskInv, Follows;
    var pc, g := v.cur[t.r], v.regs[q];
    assert TaskInv(c, v.regs[t.r.p], v.log, t.r, pc);
    if pc.ForwardAdd? && q == Target(c, t.r, pc) {
      AddReplies(c, v, t, pc', ok, sn);
    } else if q == t.r.p && (pc.ReplyErase? || (pc.ReplyWrite? && ok)) {
      OwnReplies(c, v, t, pc', ok, sn);
    } else {
      assert RepliesInv(v.cur[ReplyReader(q)], g, v.log, q);
      RouteTrace(c, v.regs[t.r.p], v.log, t.r, pc, ok, sn);
      RouteOps(t, pc, ok, sn, g);
      RepliesSame(v.cur[ReplyReader(q)], Step(c, v, t, pc', ok, sn).cur[ReplyReader(q)],
                  g, Step(c, v, t, pc', ok, sn).regs[q], v.log, RouteEvents(c, t.r, pc, ok, sn), q);
    }
  }

  /** A number that was written and not added yet is new to the table. */
  lemma {:induction false} TableOf(c: Config, v: View, r: ReaderId)
    requires Inv(c, v) && r in v.cur && v.cur[r].ForwardAdd?
    ensures var g := v.regs[Target(c, r, v.cur[r])];
            g.table == After(g.ops) && v.cur[r].sn !in Adds(g.ops)
  {
    hide Traced, RepliesInv, TaskInv;
    var g := v.regs[Target(c, r, v.cur[r])];
    assert TableInv(v.cur, g);
    assert g.owner.Some? && g.owner.value.r == r;
    NewKey(Adds(g.ops), v.cur[r].sn);
  }

  lemma {:induction false} RouteTasks(c: Config, v: View, t: TaskId, pc': Pc, ok: bool, sn: SequenceNumber, r: ReaderId)
    requires Inv(c, v) && t.r in v.cur && r in v.cur && Follows(c, v, t.r, pc', ok, sn)
    ensures var v' := Step(c, v, t, pc', ok, sn);
            TaskInv(c, v'.regs[r.p], v'.log, r, v'.cur[r])
  {
    hide Traced, LocksInv, RepliesInv, TaskInv, TableInv, NoReplyThrough, RouteEvents, RouteRegistry, Follows;
    var pc, v' := v.cur[t.r], Step(c, v, t, pc', ok, sn);
    assert TaskInv(c, v.regs[t.r.p], v.log, t.r, pc) && TaskInv(c, v.regs[r.p], v.log, r, v.cur[r]);
    RouteTrace(c, v.regs[t.r.p], v.log, t.r, pc, ok, sn);
    RouteOps(t, pc, ok, sn, v.regs[r.p]);
    if r == t.r {
      RouteTask(c, v, t, pc', ok, sn);
      RegistryGrows(c, v.regs[r.p], v'.regs[r.p], v'.log, r, pc');
    } else {
      ReplyWriteAtReplyReader(c, v.regs[t.r.p], v.log, t.r, pc);
      TaskGrows(c, v.regs[r.p], v'.regs[r.p], v.log, RouteEvents(c, t.r, pc, ok, sn), r, v.cur[r]);
    }
  }

  lemma ReplyWriteAtReplyReader(c: Config, g: Registry, log: seq<Event>, r: ReaderId, pc: Pc)
    requires TaskInv(c, g, log, r, pc)
    ensures pc.ReplyWrite? ==> r.ReplyReader?
  {
  }

  lemma {:induction false} RegistryGrows(c: Config, g: Registry, g': Registry, log: seq<Event>, r: ReaderId, pc: Pc)
    requires TaskInv(c, g, log, r, pc) && (forall n :: n in Adds(g.ops) ==> n in Adds(g'.ops))
    ensures TaskInv(c, g', log, r, pc)
  {
  }

  lemma {:induction false} OwnerOf(c: Config, v: View, r: ReaderId, q: ParticipantId)
    requires ViewShaped(c, v) && LocksInv(c, v) && r in v.cur && q in v.regs
    ensures q == Target(c, r, v.cur[r]) ==> OwnedAs(v.cur[r], v.regs[q], r)
    ensures q != Target(c, r, v.cur[r]) ==> !(v.regs[q].owner.Some? && v.regs[q].owner.value.r == r)
  {
    hide Target, HoldsLock;
  }

  lemma {:induction false} UnownedTable(cur: map<ReaderId, Pc>, g: Registry, r: ReaderId, pc': Pc)
    requires TableInv(cur, g) && r in cur && !(g.owner.Some? && g.owner.value.r == r)
    ensures TableInv(cur[r := pc'], g)
  {
  }

  lemma {:induction false} RouteTables(
    c: Config, v: View, t: TaskId, pc': Pc, ok: bool, sn: SequenceNumber, q: ParticipantId)
    requires Inv(c, v) && t.r in v.cur && q in v.regs
    requires Follows(c, v, t.r, pc', ok, sn) && Guard(c, v, t.r, ok, sn)
    ensures var v' := Step(c, v, t, pc', ok, sn);
            TableInv(v'.cur, v'.regs[q])
  {
    hide Traced, RepliesInv, TaskInv, RouteEvents, RouteRegistry, Follows, Guard, Target, TableInv, LocksInv, OwnedAs;
    assert TableInv(v.cur, v.regs[q]);
    OwnerOf(c, v, t.r, q);
    if q == Target(c, t.r, v.cur[t.r]) {
      TableKept(c, v, t, pc', ok, sn);
    } else {
      UnownedTable(v.cur, v.regs[q], t.r, pc');
    }
  }

  lemma RouteStepKeeps(c: Config, v: View, t: TaskId, pc': Pc, ok: bool, sn: SequenceNumber)
    requires Inv(c, v) && t.r in v.cur && Follows(c, v, t.r, pc', ok, sn) && Guard(c, v, t.r, ok, sn)
    ensures Inv(c, Step(c, v, t, pc', ok, sn))
  {
    hide Traced, RepliesInv, TaskInv, TableInv, LocksInv, RouteEvents, RouteRegistry, Follows, Guard, Target;
    var v' := Step(c, v, t, pc', ok, sn);
    assert TaskInv(c, v.regs[t.r.p], v.log, t.r, v.cur[t.r]);
    RouteTrace(c, v.regs[t.r.p], v.log, t.r, v.cur[t.r], ok, sn);
    LocksKept(c, v, t, pc', ok, sn);
    forall r | r in v'.cur ensures TaskInv(c, v'.regs[r.p], v'.log, r, v'.cur[r]) {
      RouteTasks(c, v, t, pc', ok, sn, r);
    }
    forall q | q in v'.regs
      ensures TableInv(v'.cur, v'.regs[q]) && RepliesInv(v'.cur[ReplyReader(q)], v'.regs[q], v'.log, q)
    {
      RouteTables(c, v, t, pc', ok, sn, q);
      RouteReplies(c, v, t, pc', ok, sn, q);
    }
  }

  // ----- other steps -----

  /** A step that starts, ends or skips the routing of a sample. */
  ghost predicate QuietMove(r: ReaderId, pc: Pc, pc': Pc, ev: seq<Event>) {
    && (pc' == pc || InLoop(pc))
    && (pc' == pc || InLoop(pc')
        || (pc'.Forward? && r.RequestReader? && ev == [RequestRead(r.p, Identity(pc'.x))])
        || (pc'.ReplyLock? && r.ReplyReader?))
    && (ev == [] || (|ev| == 1 && ev[0].RequestRead? && ev[0].at == r.p))
  }

  lemma QuietFacts(r: ReaderId, pc: Pc, pc': Pc, ev: seq<Event>)
    requires QuietMove(r, pc, pc', ev)
    ensures pc' == pc || (!HoldsLock(pc) && !HoldsLock(pc') && !pc.ForwardAdd? && !pc'.ForwardAdd? && !pc.ReplyErase?)
    ensures forall q :: NoReplyThrough(ev, q)
    ensures forall e :: e in ev ==> e.RequestRead? && e.at == r.p
  {
  }

  lemma QuietTrace(log: seq<Event>, r: ReaderId, pc: Pc, pc': Pc, ev: seq<Event>)
    requires Traced(log) && QuietMove(r, pc, pc', ev)
    ensures Traced(log + ev)
  {
    hide Traced;
    if ev == [] {
      assert log + ev == log;
    } else {
      assert ev == [ev[0]];
      TraceGrows(log, ev[0]);
    }
  }

  lemma {:induction false} QuietTask(c: Config, v: View, v': View, r: ReaderId, ev: seq<Event>, p: ReaderId)
    requires Inv(c, v) && ViewShaped(c, v') && r in v.cur && p in v.cur
    requires v'.cur == v.cur[r := v'.cur[r]] && v'.log == v.log + ev && QuietMove(r, v.cur[r], v'.cur[r], ev)
    requires forall q :: q in v.regs ==> v'.regs[q].ops == v.regs[q].ops
    ensures TaskInv(c, v'.regs[p.p], v'.log, p, v'.cur[p])
  {
    hide RepliesInv, TableInv, TaskInv, LocksInv, Traced, NoReplyThrough;
    assert TaskInv(c, v.regs[p.p], v.log, p, v.cur[p]);
    QuietFacts(r, v.cur[r], v'.cur[r], ev);
    if p != r || v'.cur[r] == v.cur[r] {
      hide QuietMove;
      TaskGrows(c, v.regs[p.p], v'.regs[p.p], v.log, ev, p, v.cur[p]);
    } else {
      FreshTask(c, v'.regs[r.p], v.log, ev, r, v'.cur[r]);
    }
  }

  /** Steps that leave routing program points, tables and owners alone and at most read a request. */
  lemma {:induction false} QuietStepKeeps(c: Config, v: View, v': View, r: ReaderId, ev: seq<Event>)
    requires Inv(c, v) && ViewShaped(c, v') && r in v.cur
    requires v'.cur == v.cur[r := v'.cur[r]] && v'.log == v.log + ev && QuietMove(r, v.cur[r], v'.cur[r], ev)
    requires forall q :: q in v.regs ==> v'.regs[q] == v.regs[q].(enabled := v'.regs[q].enabled)
    ensures Inv(c, v')
  {
    hide RepliesInv, TableInv, TaskInv, LocksInv, Traced, QuietMove, NoReplyThrough, HoldsLock;
    QuietFacts(r, v.cur[r], v'.cur[r], ev);
    QuietTrace(v.log, r, v.cur[r], v'.cur[r], ev);
    OtherLocks(c, v, v', r);
    forall q | q in v'.regs
      ensures TableInv(v'.cur, v'.regs[q]) && RepliesInv(v'.cur[ReplyReader(q)], v'.regs[q], v'.log, q)
    {
      OtherTable(v.cur, v'.cur, v.regs[q], v'.regs[q], r);
      RepliesSame(v.cur[ReplyReader(q)], v'.cur[ReplyReader(q)], v.regs[q], v'.regs[q], v.log, ev, q);
    }
    forall p | p in v'.cur ensures TaskInv(c, v'.regs[p.p], v'.log, p, v'.cur[p]) {
      QuietTask(c, v, v', r, ev, p);
    }
  }

  lemma {:induction false} OtherLocks(c: Config, v: View, v': View, r: ReaderId)
    requires LocksInv(c, v) && ViewShaped(c, v) && ViewShaped(c, v') && r in v.cur && v'.cur == v.cur[r := v'.cur[r]]
    requires v'.cur[r] == v.cur[r] || !(HoldsLock(v.cur[r]) || HoldsLock(v'.cur[r]))
    requires forall q :: q in v.regs ==> v'.regs[q].owner == v.regs[q].owner
    ensures LocksInv(c, v')
  {
    hide Target, HoldsLock;
  }

  lemma {:induction false} OtherTable(
    cur: map<ReaderId, Pc>, cur': map<ReaderId, Pc>, g: Registry, g': Registry, r: ReaderId)
    requires TableInv(cur, g) && r in cur && r in cur' && cur' == cur[r := cur'[r]]
    requires cur'[r] == cur[r] || !(cur[r].ForwardAdd? || cur'[r].ForwardAdd?)
    requires g' == g.(enabled := g'.enabled)
    ensures TableInv(cur', g')
  {
  }

  lemma {:induction false} FreshTask(c: Config, g: Registry, log: seq<Event>, ev: seq<Event>, r: ReaderId, pc: Pc)
    requires InLoop(pc) || (pc.ReplyLock? && r.ReplyReader?)
             || (pc.Forward? && r.RequestReader? && ev == [RequestRead(r.p, Identity(pc.x))])
    ensures TaskInv(c, g, log + ev, r, pc)
  {
  }

  // ----- steps of the machine, seen through the view -----

  lemma {:induction false} SwitchView(c: Config, v: View, v': View)
    requires Inv(c, v) && ViewShaped(c, v') && v'.cur == v.cur && v'.log == v.log
    requires forall q :: q in v.regs ==> v'.regs[q] == v.regs[q].(enabled := v'.regs[q].enabled)
    ensures Inv(c, v')
  {
    hide RepliesInv, TableInv, TaskInv, LocksInv, Traced;
    if v.cur.Keys != {} {
      var r :| r in v.cur.Keys;
      assert v.log + [] == v.log;
      QuietStepKeeps(c, v, v', r, []);
    } else {
      assert forall q :: q in v.regs ==> ReplyReader(q) in v.cur;
      NoReaders(c, v');
    }
  }

  lemma NoReaders(c: Config, v: View)
    requires v.cur.Keys == {} && v.regs.Keys == {}
    ensures LocksInv(c, v)
  {
  }

  /** Nothing that routing depends on but the enabled flags of the registries. */
  ghost predicate SameRouting(s: State, s': State) {
    && s'.log == s.log && s'.regs.Keys == s.regs.Keys && s'.readers.Keys == s.readers.Keys
    && (forall q :: q in s.regs ==> s'.regs[q] == s.regs[q].(enabled := s'.regs[q].enabled))
    && (forall r :: r in s.readers ==> s'.readers[r].tasks == s.readers[r].tasks)
  }

  lemma {:induction false} SwitchRegs(c: Config, s: State, a: Action)
    requires Can(c, s, a) && (a.Arrive? || a.StartEnable? || a.StartDisable? || a.Discover? || a.Remove?)
    ensures SameRouting(s, Do(c, s, a))
  {
  }

  lemma {:induction false} AdvanceRegs(c: Config, s: State)
    requires Shaped(c, s) && CanAdvance(c, s)
    ensures SameRouting(s, ControlStep(c, s))
  {
  }

  lemma {:induction false} SameRoutingKeeps(c: Config, s: State, s': State)
    requires Inv(c, ViewOf(s)) && Shaped(c, s) && SameRouting(s, s')
    ensures Inv(c, ViewOf(s'))
  {
    hide Inv;
    ShapedView(c, s);
    assert ViewOf(s').cur == ViewOf(s).cur;
    SwitchView(c, ViewOf(s), ViewOf(s'));
  }

  lemma {:induction false} NewTask(enabled: bool, on: bool, r: ReaderId, rd: Reader)
    requires W.FlagInv(rd)
    ensures QuietMove(r, Newest(rd), Newest(CallbackStep(enabled, on, rd)), [])
  {
  }

  lemma {:induction false} LoopMove(c: Config, enabled: bool, on: bool, r: ReaderId, rd: Reader, k: nat)
    requires W.FlagInv(rd) && k < |rd.tasks| && InLoop(rd.tasks[k])
    ensures QuietMove(r, Newest(rd), Newest(ReaderStep(c, enabled, on, r, rd, k)), RequestsRead(on, r, rd, rd.tasks[k]))
  {
  }

  lemma {:induction false} RouteMove(c: Config, s: State, r: ReaderId, k: nat, ok: bool, sn: SequenceNumber)
    requires Shaped(c, s) && CanRun(c, s, r, k, ok, sn) && !InLoop(s.readers[r].tasks[k])
    requires k == |s.readers[r].tasks| - 1
    ensures var v, pc := ViewOf(s), s.readers[r].tasks[k];
            && ViewShaped(c, v) && r in v.cur && v.cur[r] == pc
            && Follows(c, v, r, RoutePc(c, s, r, pc, ok, sn), ok, sn) && Guard(c, v, r, ok, sn)
  {
  }

  lemma {:induction false} LoopKeepsRouting(c: Config, s: State, r: ReaderId, k: nat)
    requires Shaped(c, s) && Inv(c, ViewOf(s)) && r in s.readers && W.FlagInv(s.readers[r])
    requires k < |s.readers[r].tasks| && InLoop(s.readers[r].tasks[k])
    ensures Inv(c, ViewOf(LoopStep(c, s, r, k)))
  {
    hide Inv, W.FlagInv, ReaderStep, RequestsRead, QuietMove, InLoop;
    var v, v', rd, on := ViewOf(s), ViewOf(LoopStep(c, s, r, k)), s.readers[r], r in s.on.readers;
    LoopMove(c, s.bridge.enabled, on, r, rd, k);
    ShapedView(c, s);
    assert v'.cur == v.cur[r := v'.cur[r]];
    QuietStepKeeps(c, v, v', r, RequestsRead(on, r, rd, rd.tasks[k]));
  }

  lemma {:induction false} CallbackKeepsRouting(c: Config, s: State, r: ReaderId)
    requires Shaped(c, s) && Inv(c, ViewOf(s)) && r in s.readers && W.FlagInv(s.readers[r])
    ensures var rd := CallbackStep(s.bridge.enabled, r in s.on.readers, s.readers[r]);
            Inv(c, ViewOf(s.(readers := s.readers[r := rd])))
  {
    hide Inv, W.FlagInv, CallbackStep, QuietMove;
    var rd := CallbackStep(s.bridge.enabled, r in s.on.readers, s.readers[r]);
    var v, v' := ViewOf(s), ViewOf(s.(readers := s.readers[r := rd]));
    NewTask(s.bridge.enabled, r in s.on.readers, r, s.readers[r]);
    ShapedView(c, s);
    assert v'.cur == v.cur[r := v'.cur[r]];
    assert v.log + [] == v.log;
    QuietStepKeeps(c, v, v', r, []);
  }

  lemma {:induction false} RouteKeepsRouting(c: Config, s: State, r: ReaderId, k: nat, ok: bool, sn: SequenceNumber)
    requires Shaped(c, s) && Inv(c, ViewOf(s)) && CanRun(c, s, r, k, ok, sn)
    requires !InLoop(s.readers[r].tasks[k]) && W.FlagInv(s.readers[r])
    ensures Inv(c, ViewOf(RouteStep(c, s, r, k, ok, sn)))
  {
    hide Inv, W.FlagInv, RoutePc, RouteRegistry, RouteEvents, InLoop, Follows, Guard, Target;
    RoutingTaskIsNewest(s.readers[r], k);
    RouteMove(c, s, r, k, ok, sn);
    hide CanRun;
    var v, v', pc := ViewOf(s), ViewOf(RouteStep(c, s, r, k, ok, sn)), s.readers[r].tasks[k];
    var pc' := RoutePc(c, s, r, pc, ok, sn);
    RouteStepKeeps(c, v, TaskId(r, k), pc', ok, sn);
    assert v'.cur == v.cur[r := pc'];
    assert v' == Step(c, v, TaskId(r, k), pc', ok, sn);
  }

  lemma RoutingTaskIsNewest(rd: Reader, k: nat)
    requires W.FlagInv(rd) && k < |rd.tasks| && !InLoop(rd.tasks[k])
    ensures k == |rd.tasks| - 1
  {
  }

  lemma ShapedView(c: Config, s: State)
    requires Shaped(c, s)
    ensures ViewShaped(c, ViewOf(s))
  {
  }

  lemma {:induction false} StepKeepsRouting(c: Config, s: State, a: Action)
    requires W.Inv(c, s) && Inv(c, ViewOf(s)) && Can(c, s, a)
    ensures Inv(c, ViewOf(Do(c, s, a)))
  {
    hide Inv;
    if a.Arrive? || a.Callback? || a.Run? {
      assert W.ReaderInv(c, s.bridge, s.on, s.sharing, a.r, s.readers[a.r]);
    }
    hide W.Inv, W.FlagInv;
    match a
    case Callback(r) => CallbackKeepsRouting(c, s, r);
    case Run(r, k, ok, sn) =>
      if InLoop(s.readers[r].tasks[k]) {
        LoopKeepsRouting(c, s, r, k);
      } else {
        RouteKeepsRouting(c, s, r, k, ok, sn);
      }
    case Advance =>
      AdvanceRegs(c, s);
      SameRoutingKeeps(c, s, ControlStep(c, s));
    case _ =>
      SwitchRegs(c, s, a);
      SameRoutingKeeps(c, s, Do(c, s, a));
  }

  lemma NothingRouted(c: Config, cur: map<ReaderId, Pc>, g: Registry, q: ParticipantId)
    requires g == Registry(false, None, map[], [], [])
    ensures TableInv(cur, g) && RepliesInv(Done, g, [], q)
  {
  }

  lemma InitRouting(c: Config, s: State)
    requires Init(c, s)
    ensures Inv(c, ViewOf(s))
  {
    hide TableInv, RepliesInv;
    var v := ViewOf(s);
    forall q | q in v.regs
      ensures TableInv(v.cur, v.regs[q]) && RepliesInv(v.cur[ReplyReader(q)], v.regs[q], v.log, q)
    {
      NothingRouted(c, v.cur, v.regs[q], q);
    }
  }

  lemma {:induction false} RunKeepsRouting(c: Config, run: seq<State>, i: nat)
    requires IsRun(c, run) && i < |run|
    ensures W.Inv(c, run[i]) && Inv(c, ViewOf(run[i]))
  {
    hide Inv, W.Inv, Can, Do, Init;
    W.RunKeeps(c, run, i);
    if i == 0 {
      InitRouting(c, run[0]);
    } else {
      RunKeepsRouting(c, run, i - 1);
      assert Next(c, run[i - 1], run[(i - 1) + 1]);
      var a :| Can(c, run[i - 1], a) && run[i] == Do(c, run[i - 1], a);
      StepKeepsRouting(c, run[i - 1], a);
    }
  }
}
