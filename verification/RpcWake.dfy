/** Task flags, locks and the enable/disable protocol of an RPCBridge. */
module RpcWake {
  import opened ServiceRegistry
  import opened RpcBridge

  // ----- one reader -----

  /** A task that may still take data: queued, or running and not yet past the clearing of its flag. */
  ghost predicate Active(pc: Pc) {
    !pc.Retired? && !pc.Leaving? && !pc.Done?
  }

  ghost predicate HoldsMutex(pc: Pc) {
    pc.TestEnabled? || pc.TestUnread? || pc.ClearFlag? || pc.Retired?
  }

  /** What one reader's mutex, flag and tasks keep. */
  ghost predicate FlagInv(rd: Reader) {
    && (forall j :: 0 <= j < |rd.tasks| - 1 ==> !Active(rd.tasks[j]))
    && (rd.flag <==> rd.tasks != [] && Active(rd.tasks[|rd.tasks| - 1]))
    && (rd.mutex.HeldBy? ==> rd.mutex.k < |rd.tasks| && HoldsMutex(rd.tasks[rd.mutex.k]))
    && (forall j :: 0 <= j < |rd.tasks| && HoldsMutex(rd.tasks[j]) ==> rd.mutex == HeldBy(j))
    && (forall j :: 0 <= j < |rd.tasks| && rd.tasks[j].Take? ==> rd.unread != [])
  }

  ghost predicate InCallback(rd: Reader) {
    rd.mutex.AtReader? || rd.mutex.AtBridge? || rd.mutex.AtFlag?
  }

  ghost predicate Served(rd: Reader) {
    rd.unread == [] || InCallback(rd) || (rd.flag && rd.tasks != [] && !rd.tasks[|rd.tasks| - 1].ClearFlag?)
  }

  /** Program points a task may be at once `disable` has passed the transmission lock. */
  ghost predicate Calm(pc: Pc) {
    InLoop(pc) && !pc.Take? && !pc.TestUnread?
  }

  ghost predicate PcsInv(stopped: bool, writersOn: bool, rd: Reader) {
    && (stopped ==> forall k :: 0 <= k < |rd.tasks| ==> Calm(rd.tasks[k]))
    && (!writersOn ==> forall k :: 0 <= k < |rd.tasks| ==> InLoop(rd.tasks[k]))
  }

  ghost predicate Runs(pc: Pc) {
    !pc.Queued? && !pc.Done?
  }

  ghost predicate SharingInv(sharing: set<TaskId>, r: ReaderId, rd: Reader) {
    && (forall k :: 0 <= k < |rd.tasks| ==> (TaskId(r, k) in sharing <==> Runs(rd.tasks[k])))
    && (forall t :: t in sharing && t.r == r ==> t.k < |rd.tasks|)
  }

  lemma {:induction false} LoopFlag(c: Config, enabled: bool, on: bool, r: ReaderId, rd: Reader, k: nat)
    requires FlagInv(rd) && k < |rd.tasks| && InLoop(rd.tasks[k]) && !rd.tasks[k].Done?
    requires rd.tasks[k].Head? || rd.tasks[k].Take? ==> rd.mutex == Free
    ensures FlagInv(ReaderStep(c, enabled, on, r, rd, k))
    ensures enabled && Served(rd) ==> Served(ReaderStep(c, enabled, on, r, rd, k))
  {
  }

  lemma {:induction false} LoopPcs(
    c: Config, enabled: bool, on: bool, stopped: bool, writersOn: bool, r: ReaderId, rd: Reader, k: nat)
    requires PcsInv(stopped, writersOn, rd) && k < |rd.tasks| && InLoop(rd.tasks[k])
    requires (stopped ==> !enabled) && (on ==> writersOn)
    ensures PcsInv(stopped, writersOn, ReaderStep(c, enabled, on, r, rd, k))
  {
  }

  lemma {:induction false} LoopSharing(c: Config, s: State, r: ReaderId, k: nat)
    requires r in s.readers && k < |s.readers[r].tasks| && InLoop(s.readers[r].tasks[k])
    requires SharingInv(s.sharing, r, s.readers[r])
    ensures SharingInv(LoopStep(c, s, r, k).sharing, r, LoopStep(c, s, r, k).readers[r])
  {
  }

  lemma {:induction false} CallbackFlag(enabled: bool, on: bool, rd: Reader)
    requires FlagInv(rd) && InCallback(rd)
    ensures FlagInv(CallbackStep(enabled, on, rd))
    ensures enabled && on ==> Served(CallbackStep(enabled, on, rd))
  {
  }

  lemma {:induction false} RouteFlag(rd: Reader, k: nat, pc: Pc)
    requires FlagInv(rd) && k < |rd.tasks| && !InLoop(rd.tasks[k]) && (pc.Head? || !InLoop(pc))
    ensures FlagInv(rd.(tasks := rd.tasks[k := pc]))
    ensures Served(rd) ==> Served(rd.(tasks := rd.tasks[k := pc]))
  {
  }

  // ----- the endpoints -----

  /** `disable` has passed the transmission lock and `enable` has not been called since. */
  ghost predicate Stopped(b: Bridge) {
    !b.enabled && !b.control.WaitTransmission?
  }

  ghost predicate AllWritersOn(c: Config, e: Endpoints) {
    forall j :: 0 <= j < 2 * |c.ids| ==> WriterAt(c, j) in e.writers
  }

  ghost predicate AllReadersOn(c: Config, e: Endpoints) {
    forall j :: 0 <= j < 2 * |c.ids| ==> ReaderAt(c, j) in e.readers
  }

  ghost predicate AllReadersOff(c: Config, e: Endpoints) {
    forall j :: 0 <= j < 2 * |c.ids| ==> ReaderAt(c, Swapped(c, j)) !in e.readers
  }

  ghost predicate ControlInv(c: Config, b: Bridge, e: Endpoints) {
    match b.control
    case Idle => if b.enabled then AllReadersOn(c, e) && AllWritersOn(c, e) else AllReadersOff(c, e)
    case EnableWriters(i) =>
      && b.enabled && AllReadersOff(c, e)
      && (forall j :: 0 <= j < 2 * |c.ids| && j < i ==> WriterAt(c, j) in e.writers)
    case EnableReader(i) =>
      && b.enabled && AllWritersOn(c, e)
      && (forall j :: 0 <= j < 2 * |c.ids| && j < i ==> ReaderAt(c, j) in e.readers)
    case NotifyReader(i) =>
      && b.enabled && AllWritersOn(c, e) && i < 2 * |c.ids|
      && (forall j :: 0 <= j < 2 * |c.ids| && j <= i ==> ReaderAt(c, j) in e.readers)
    case WaitTransmission => !b.enabled && AllReadersOn(c, e) && AllWritersOn(c, e)
    case DisableReaders(i) =>
      && !b.enabled && AllWritersOn(c, e)
      && (forall j :: 0 <= j < 2 * |c.ids| && j < i ==> ReaderAt(c, Swapped(c, j)) !in e.readers)
    case DisableWriters(_) => !b.enabled && AllReadersOff(c, e)
  }

  lemma {:induction false} ControlKept(c: Config, s: State)
    requires Shaped(c, s) && CanAdvance(c, s) && ControlInv(c, s.bridge, s.on)
    ensures ControlInv(c, ControlStep(c, s).bridge, ControlStep(c, s).on)
  {
  }

  lemma ReaderIndex(c: Config, r: ReaderId) returns (j: nat)
    requires r.p in c.ids
    ensures j < 2 * |c.ids| && ReaderAt(c, j) == r && ReaderAt(c, Swapped(c, Swapped(c, j))) == r
  {
    var i :| 0 <= i < |c.ids| && c.ids[i] == r.p;
    j := if r.ReplyReader? then i else i + |c.ids|;
  }

  /** A reader is on only while all writers are. */
  lemma WritersOnFirst(c: Config, b: Bridge, e: Endpoints, r: ReaderId)
    requires ControlInv(c, b, e) && r.p in c.ids && r in e.readers
    ensures AllWritersOn(c, e)
  {
    var j := ReaderIndex(c, r);
    assert ReaderAt(c, Swapped(c, Swapped(c, j))) in e.readers;
  }

  // ----- the whole bridge -----

  ghost predicate Notified(c: Config, b: Bridge, r: ReaderId) {
    !(b.control.NotifyReader? && b.control.i < 2 * |c.ids| && ReaderAt(c, b.control.i) == r)
  }

  ghost predicate ReaderInv(c: Config, b: Bridge, on: Endpoints, sharing: set<TaskId>, r: ReaderId, rd: Reader) {
    && FlagInv(rd)
    && (b.enabled && r in on.readers && Notified(c, b, r) ==> Served(rd))
    && PcsInv(Stopped(b), AllWritersOn(c, on), rd)
    && SharingInv(sharing, r, rd)
  }

  ghost predicate ServersInv(b: Bridge, regs: map<ParticipantId, Registry>) {
    && (forall p :: p in regs && p in b.servers && b.init && b.servers[p] != {} ==> regs[p].enabled)
    && (b.enabled ==> b.init && ServersAvailable(b))
  }

  ghost predicate Inv(c: Config, s: State) {
    && Shaped(c, s)
    && ControlInv(c, s.bridge, s.on)
    && ServersInv(s.bridge, s.regs)
    && (forall r :: r in s.readers ==> ReaderInv(c, s.bridge, s.on, s.sharing, r, s.readers[r]))
    && (forall t :: t in s.sharing ==> t.r in s.readers)
  }

  /** Steps that change one reader, and the locks and registries its tasks use, need only be checked there. */
  lemma {:induction false} OneReaderChanges(c: Config, s: State, s': State, r: ReaderId)
    requires Inv(c, s) && r in s.readers && r in s'.readers
    requires s'.bridge == s.bridge && s'.on == s.on
    requires s'.readers == s.readers[r := s'.readers[r]]
    requires s'.regs.Keys == s.regs.Keys && forall p :: p in s.regs ==> s'.regs[p].enabled == s.regs[p].enabled
    requires forall t: TaskId :: t.r != r ==> (t in s'.sharing <==> t in s.sharing)
    requires ReaderInv(c, s'.bridge, s'.on, s'.sharing, r, s'.readers[r])
    ensures Inv(c, s')
  {
    hide FlagInv, Served, PcsInv, ControlInv;
    forall q | q in s'.readers ensures ReaderInv(c, s'.bridge, s'.on, s'.sharing, q, s'.readers[q]) {
      if q != r {
        assert ReaderInv(c, s.bridge, s.on, s.sharing, q, s.readers[q]);
      }
    }
  }

  lemma {:induction false} ArriveKeeps(c: Config, s: State, r: ReaderId, x: Sample)
    requires Inv(c, s) && Can(c, s, Arrive(r, x))
    ensures Inv(c, Do(c, s, Arrive(r, x)))
  {
    hide ControlInv;
    assert ReaderInv(c, s.bridge, s.on, s.sharing, r, s.readers[r]);
    var s' := Do(c, s, Arrive(r, x));
    OneReaderChanges(c, s, s', r);
  }

  lemma {:induction false} CallbackKeeps(c: Config, s: State, r: ReaderId)
    requires Inv(c, s) && Can(c, s, Callback(r))
    ensures Inv(c, Do(c, s, Callback(r)))
  {
    hide ControlInv, FlagInv;
    assert ReaderInv(c, s.bridge, s.on, s.sharing, r, s.readers[r]);
    CallbackFlag(s.bridge.enabled, r in s.on.readers, s.readers[r]);
    OneReaderChanges(c, s, Do(c, s, Callback(r)), r);
  }

  lemma {:induction false} LoopKeeps(c: Config, s: State, r: ReaderId, k: nat)
    requires Inv(c, s) && CanRun(c, s, r, k, false, 0) && InLoop(s.readers[r].tasks[k])
    ensures Inv(c, LoopStep(c, s, r, k))
  {
    hide ControlInv, FlagInv, Served, PcsInv, SharingInv, ReaderStep, AllWritersOn;
    var on := r in s.on.readers;
    assert ReaderInv(c, s.bridge, s.on, s.sharing, r, s.readers[r]);
    if on { WritersOnFirst(c, s.bridge, s.on, r); }
    LoopFlag(c, s.bridge.enabled, on, r, s.readers[r], k);
    LoopPcs(c, s.bridge.enabled, on, Stopped(s.bridge), AllWritersOn(c, s.on), r, s.readers[r], k);
    LoopSharing(c, s, r, k);
    OneReaderChanges(c, s, LoopStep(c, s, r, k), r);
  }

  lemma {:induction false} RouteFrame(c: Config, s: State, r: ReaderId, k: nat, ok: bool, sn: SequenceNumber)
    requires Shaped(c, s) && CanRun(c, s, r, k, ok, sn) && !InLoop(s.readers[r].tasks[k])
    ensures var pc := RoutePc(c, s, r, s.readers[r].tasks[k], ok, sn);
            pc.Head? || !InLoop(pc)
    ensures forall t, pc, g :: RouteRegistry(t, pc, ok, sn, g).enabled == g.enabled
  {
  }

  lemma {:induction false} RouteKeeps(c: Config, s: State, r: ReaderId, k: nat, ok: bool, sn: SequenceNumber)
    requires Inv(c, s) && CanRun(c, s, r, k, ok, sn) && !InLoop(s.readers[r].tasks[k])
    ensures Inv(c, RouteStep(c, s, r, k, ok, sn))
  {
    hide ControlInv, FlagInv, Served, RoutePc, RouteRegistry, RouteEvents;
    var rd, s' := s.readers[r], RouteStep(c, s, r, k, ok, sn);
    RouteFrame(c, s, r, k, ok, sn);
    assert ReaderInv(c, s.bridge, s.on, s.sharing, r, rd);
    RouteFlag(rd, k, RoutePc(c, s, r, rd.tasks[k], ok, sn));
    OneReaderChanges(c, s, s', r);
  }

  lemma {:induction false} EnableKeeps(c: Config, s: State)
    requires Inv(c, s) && Can(c, s, StartEnable)
    ensures Inv(c, Do(c, s, StartEnable))
  {
    hide FlagInv, SharingInv, Served;
    var s' := Do(c, s, StartEnable);
    forall r | r in s'.readers ensures ReaderInv(c, s'.bridge, s'.on, s'.sharing, r, s'.readers[r]) {
      assert ReaderInv(c, s.bridge, s.on, s.sharing, r, s.readers[r]);
      var j := ReaderIndex(c, r);
      assert ReaderAt(c, Swapped(c, Swapped(c, j))) !in s.on.readers;
    }
  }

  /** `disable`, and the removal of the last server, up to the wait for the transmission lock. */
  lemma {:induction false} DisableKeeps(c: Config, s: State, b: Bridge)
    requires Inv(c, s) && s.bridge.control == Idle && s.bridge.enabled
    requires !b.enabled && b.control == WaitTransmission && b.init == s.bridge.init
    requires b.servers.Keys == s.bridge.servers.Keys
    requires forall p :: p in b.servers ==> b.servers[p] <= s.bridge.servers[p]
    ensures Inv(c, s.(bridge := b))
  {
    hide FlagInv, SharingInv, Served;
    forall r | r in s.readers ensures ReaderInv(c, b, s.on, s.sharing, r, s.readers[r]) {
      assert ReaderInv(c, s.bridge, s.on, s.sharing, r, s.readers[r]);
    }
  }

  lemma {:induction false} DiscoverKeeps(c: Config, s: State, p: ParticipantId, g: Server)
    requires Inv(c, s) && Can(c, s, Discover(p, g))
    ensures Inv(c, Do(c, s, Discover(p, g)))
  {
    hide FlagInv, SharingInv, Served, PcsInv;
    var s' := Do(c, s, Discover(p, g));
    assert g in s'.bridge.servers[p];
    forall r | r in s'.readers ensures ReaderInv(c, s'.bridge, s'.on, s'.sharing, r, s'.readers[r]) {
      assert ReaderInv(c, s.bridge, s.on, s.sharing, r, s.readers[r]);
    }
  }

  lemma {:induction false} RemoveKeeps(c: Config, s: State, p: ParticipantId, g: Server)
    requires Inv(c, s) && Can(c, s, Remove(p, g))
    ensures Inv(c, Do(c, s, Remove(p, g)))
  {
    hide FlagInv, SharingInv, Served, PcsInv;
    var b := s.bridge;
    var b' := b.(servers := b.servers[p := b.servers[p] - {g}]);
    if !ServersAvailable(b') && b.enabled {
      DisableKeeps(c, s, b'.(enabled := false, control := WaitTransmission));
    } else {
      forall r | r in s.readers ensures ReaderInv(c, b', s.on, s.sharing, r, s.readers[r]) {
        assert ReaderInv(c, b, s.on, s.sharing, r, s.readers[r]);
      }
    }
  }

  lemma {:induction false} NotifyKeeps(c: Config, s: State)
    requires Inv(c, s) && CanAdvance(c, s) && s.bridge.control.NotifyReader?
    ensures Inv(c, ControlStep(c, s))
  {
    ControlKept(c, s);
    hide ControlInv;
    var s', r0 := ControlStep(c, s), ReaderAt(c, s.bridge.control.i);
    forall r | r in s'.readers ensures ReaderInv(c, s'.bridge, s'.on, s'.sharing, r, s'.readers[r]) {
      assert ReaderInv(c, s.bridge, s.on, s.sharing, r, s.readers[r]);
      hide PcsInv, SharingInv;
    }
  }

  /** Any other step of enable or disable leaves the readers' mutexes, flags and tasks alone. */
  lemma {:induction false} AdvanceReader(c: Config, s: State, r: ReaderId)
    requires Inv(c, s) && CanAdvance(c, s) && !s.bridge.control.NotifyReader? && r in s.readers
    ensures var s' := ControlStep(c, s);
            ReaderInv(c, s'.bridge, s'.on, s'.sharing, r, s.readers[r])
  {
    hide FlagInv, Served;
    assert ReaderInv(c, s.bridge, s.on, s.sharing, r, s.readers[r]);
  }

  lemma {:induction false} AdvanceFrame(c: Config, s: State)
    requires Shaped(c, s) && CanAdvance(c, s) && !s.bridge.control.NotifyReader?
    ensures var s' := ControlStep(c, s);
            && s'.readers == s.readers && s'.regs == s.regs && s'.sharing == s.sharing
            && s'.bridge == s.bridge.(control := s'.bridge.control)
  {
  }

  lemma {:induction false} AdvanceKeeps(c: Config, s: State)
    requires Inv(c, s) && CanAdvance(c, s)
    ensures Inv(c, ControlStep(c, s))
  {
    if s.bridge.control.NotifyReader? {
      NotifyKeeps(c, s);
    } else {
      ControlKept(c, s);
      AdvanceFrame(c, s);
      hide ControlInv, ReaderInv, ControlStep, CanAdvance;
      forall r | r in s.readers ensures var s' := ControlStep(c, s);
                                        ReaderInv(c, s'.bridge, s'.on, s'.sharing, r, s.readers[r])
      {
        AdvanceReader(c, s, r);
      }
    }
  }

  lemma StepKeeps(c: Config, s: State, a: Action)
    requires Inv(c, s) && Can(c, s, a)
    ensures Inv(c, Do(c, s, a))
  {
    hide Inv;
    match a
    case Arrive(r, x) => ArriveKeeps(c, s, r, x);
    case Callback(r) => CallbackKeeps(c, s, r);
    case Run(r, k, ok, sn) =>
      if InLoop(s.readers[r].tasks[k]) { LoopKeeps(c, s, r, k); } else { RouteKeeps(c, s, r, k, ok, sn); }
    case StartEnable => EnableKeeps(c, s);
    case StartDisable => DisableKeeps(c, s, s.bridge.(enabled := false, control := WaitTransmission));
    case Advance => AdvanceKeeps(c, s);
    case Discover(p, g) => DiscoverKeeps(c, s, p, g);
    case Remove(p, g) => RemoveKeeps(c, s, p, g);
  }

  lemma InitHolds(c: Config, s: State)
    requires Init(c, s)
    ensures Inv(c, s)
  {
  }

  lemma {:induction false} RunKeeps(c: Config, run: seq<State>, i: nat)
    requires IsRun(c, run) && i < |run|
    ensures Inv(c, run[i])
  {
    hide Inv, Can, Do, Init;
    if i == 0 {
      InitHolds(c, run[0]);
    } else {
      RunKeeps(c, run, i - 1);
      assert Next(c, run[i - 1], run[(i - 1) + 1]);
      var a :| Can(c, run[i - 1], a) && run[i] == Do(c, run[i - 1], a);
      StepKeeps(c, run[i - 1], a);
    }
  }
}
