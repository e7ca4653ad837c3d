/**
 The request/reply router of one service: a proxy client and a proxy server in every RTPS participant, one
 transmit task per reader, and the router thread that enables, disables and tells it about servers. Locks are
 explicit state, and every lock, test, take, write, add, get and erase is a step of its own.
 */
module RpcBridge {
  import opened ServiceRegistry

  type Server = nat

  datatype ReaderId = RequestReader(p: ParticipantId) | ReplyReader(p: ParticipantId)
  datatype WriterId = RequestWriter(p: ParticipantId) | ReplyWriter(p: ParticipantId)

  /** `ids`: the RTPS participants; `guids`: the guid of each participant's reply reader. */
  datatype Config = Config(ids: seq<ParticipantId>, repeaters: set<ParticipantId>, guids: ParticipantId -> Guid)

  /** A change of a reader: its sample identity, its own sequence number and whether its data is correct. */
  datatype Sample = Sample(identity: SampleIdentity, origin: SequenceNumber, correct: bool)

  const UNKNOWN := SampleIdentity(0, 0)

  /** Program points of a transmit task. Every one but Queued and Done holds the shared transmission lock. */
  datatype Pc =
    | Queued
    | Head                                             // about to lock the reader's RTPS mutex
    | TestEnabled                                      // RTPS mutex held
    | TestUnread                                       // RTPS mutex held
    | ClearFlag                                        // RTPS mutex held
    | Retired                                          // RTPS mutex held, flag cleared
    | Leaving
    | Done
    | Take
    | Forward(x: Sample, i: nat)                       // about to consider participant ids[i]
    | ForwardLock(x: Sample, i: nat)
    | ForwardWrite(x: Sample, i: nat)                  // registry mutex held
    | ForwardAdd(x: Sample, i: nat, sn: SequenceNumber) // registry mutex held
    | ForwardUnlock(x: Sample, i: nat)                 // registry mutex held
    | ReplyLock(x: Sample)
    | ReplyGet(x: Sample)                              // registry mutex held
    | ReplyUnlock(x: Sample, e: Option<Entry>)         // registry mutex held
    | ReplyWrite(x: Sample, entry: Entry)
    | ReplyErase(x: Sample)

  datatype TaskId = TaskId(r: ReaderId, k: nat)

  /** Owner of a reader's RTPS mutex: a callback at some program point, or a task. */
  datatype Mutex = Free | AtReader | AtBridge | AtFlag | HeldBy(k: nat)

  /** `tasks` holds every task ever emitted for the reader, in order; `flag` is its entry of `tasks_map_`. */
  datatype Reader = Reader(mutex: Mutex, unread: seq<Sample>, flag: bool, tasks: seq<Pc>)

  /** `ops` and `written` are history: the calls made on the table, and the numbers sent by the request writer. */
  datatype Registry = Registry(
    enabled: bool, owner: Option<TaskId>, table: Table, ops: seq<Op>, written: seq<SequenceNumber>)

  /** Program points of the router thread inside enable and disable. */
  datatype Control =
    | Idle
    | EnableWriters(i: nat)
    | EnableReader(i: nat)
    | NotifyReader(i: nat)
    | WaitTransmission
    | DisableReaders(i: nat)
    | DisableWriters(i: nat)

  datatype Bridge = Bridge(enabled: bool, init: bool, control: Control, servers: map<ParticipantId, set<Server>>)

  /** The enabled flags of the endpoints. */
  datatype Endpoints = Endpoints(readers: set<ReaderId>, writers: set<WriterId>)

  /** History of the routing decisions, in order. */
  datatype Event =
    | RequestRead(at: ParticipantId, identity: SampleIdentity)
    | Forwarded(through: ParticipantId, sn: SequenceNumber, entry: Entry)
    | Replied(through: ParticipantId, sn: SequenceNumber, entry: Entry)

  datatype State = State(
    bridge: Bridge,
    on: Endpoints,
    sharing: set<TaskId>,                 // holders of the shared transmission lock
    readers: map<ReaderId, Reader>,
    regs: map<ParticipantId, Registry>,
    log: seq<Event>)

  datatype Action =
    | Arrive(r: ReaderId, x: Sample)
    | Callback(r: ReaderId)
    | Run(r: ReaderId, k: nat, ok: bool, sn: SequenceNumber)
    | StartEnable
    | StartDisable
    | Advance
    | Discover(p: ParticipantId, g: Server)
    | Remove(p: ParticipantId, g: Server)

  /** Order in which `enable` visits its endpoints; `disable` visits the two groups the other way round. */
  function ReaderAt(c: Config, i: nat): ReaderId
    requires i < 2 * |c.ids|
  {
    if i < |c.ids| then ReplyReader(c.ids[i]) else RequestReader(c.ids[i - |c.ids|])
  }

  function WriterAt(c: Config, i: nat): WriterId
    requires i < 2 * |c.ids|
  {
    if i < |c.ids| then RequestWriter(c.ids[i]) else ReplyWriter(c.ids[i - |c.ids|])
  }

  function Swapped(c: Config, i: nat): nat
    requires i < 2 * |c.ids|
  {
    if i < |c.ids| then i + |c.ids| else i - |c.ids|
  }

  predicate ServersAvailable(b: Bridge) {
    exists p :: p in b.servers && b.servers[p] != {}
  }

  /** The part of a state that the types alone do not fix. */
  ghost predicate Shaped(c: Config, s: State) {
    && (forall r :: r in s.readers <==> r.p in c.ids)
    && (forall p :: p in s.regs <==> p in c.ids)
    && (forall p :: p in s.bridge.servers <==> p in c.ids)
  }

  ghost predicate Init(c: Config, s: State) {
    && Shaped(c, s)
    && !s.bridge.enabled && !s.bridge.init && s.bridge.control == Idle
    && (forall p :: p in s.bridge.servers ==> s.bridge.servers[p] == {})
    && s.on == Endpoints({}, {}) && s.sharing == {} && s.log == []
    && (forall r :: r in s.readers ==> s.readers[r] == Reader(Free, [], false, []))
    && (forall p :: p in s.regs ==> s.regs[p] == Registry(false, None, map[], [], []))
  }

  function Identity(x: Sample): SampleIdentity {
    SampleIdentity(x.identity.writer, x.origin)
  }

  function PcAfterTake(c: Config, r: ReaderId, x: Sample): Pc {
    if r.RequestReader? then (if Identity(x) == UNKNOWN then Head else Forward(x, 0))
    else if x.identity.writer != c.guids(r.p) then Head   // meant for another client
    else ReplyLock(x)
  }

  /** Participants a request received at `p` is not sent to. */
  predicate Skips(c: Config, s: State, p: ParticipantId, q: ParticipantId)
    requires q in s.regs
  {
    (p == q && q !in c.repeaters) || !s.regs[q].enabled
  }

  // ----- steps of a task -----

  ghost predicate CanRun(c: Config, s: State, r: ReaderId, k: nat, ok: bool, sn: SequenceNumber)
    requires Shaped(c, s)
  {
    && r in s.readers && k < |s.readers[r].tasks|
    && var rd := s.readers[r];
       match rd.tasks[k]
       case Head => rd.mutex == Free
       case Take => rd.mutex == Free
       case Done => false
       case ForwardLock(_, i) => i < |c.ids| && s.regs[c.ids[i]].owner == None
       case ForwardWrite(_, i) =>
         && i < |c.ids|
         && (ok ==> RequestWriter(c.ids[i]) in s.on.writers
                    && forall n :: n in s.regs[c.ids[i]].written ==> n < sn)
       case ForwardAdd(_, i, _) => i < |c.ids|
       case ForwardUnlock(_, i) => i < |c.ids|
       case ReplyLock(_) => s.regs[r.p].owner == None
       case ReplyWrite(_, e) => ok ==> ReplyWriter(e.participant) in s.on.writers
       case ReplyErase(_) => s.regs[r.p].owner == None
       case _ => true
  }

  /** The part of RPCBridge::transmit_ that tests, takes and ends, as seen by its reader. */
  function ReaderStep(c: Config, enabled: bool, on: bool, r: ReaderId, rd: Reader, k: nat): Reader
    requires k < |rd.tasks|
  {
    match rd.tasks[k]
    case Queued => rd.(tasks := rd.tasks[k := Head])
    case Head => rd.(tasks := rd.tasks[k := TestEnabled], mutex := HeldBy(k))
    case TestEnabled => rd.(tasks := rd.tasks[k := if enabled then TestUnread else ClearFlag])
    case TestUnread =>
      if rd.unread == [] then rd.(tasks := rd.tasks[k := ClearFlag])
      else rd.(tasks := rd.tasks[k := Take], mutex := Free)
    case ClearFlag => rd.(tasks := rd.tasks[k := Retired], flag := false)
    case Retired => rd.(tasks := rd.tasks[k := Leaving], mutex := Free)
    case Leaving => rd.(tasks := rd.tasks[k := Done])
    case Take =>
      if !on || rd.unread == [] then rd.(tasks := rd.tasks[k := Head])
      else
        rd.(unread := rd.unread[1..],
            tasks := rd.tasks[k := if rd.unread[0].correct then PcAfterTake(c, r, rd.unread[0]) else Head])
    case _ => rd
  }

  /** The request that the step of a task at Take reads. */
  function RequestsRead(on: bool, r: ReaderId, rd: Reader, pc: Pc): seq<Event> {
    if pc.Take? && on && rd.unread != [] && rd.unread[0].correct && r.RequestReader?
    then [RequestRead(r.p, Identity(rd.unread[0]))] else []
  }

  function LoopStep(c: Config, s: State, r: ReaderId, k: nat): State
    requires r in s.readers && k < |s.readers[r].tasks|
  {
    var rd, on := s.readers[r], r in s.on.readers;
    s.(readers := s.readers[r := ReaderStep(c, s.bridge.enabled, on, r, rd, k)],
       sharing := if rd.tasks[k].Queued? then s.sharing + {TaskId(r, k)}
                  else if rd.tasks[k].Leaving? then s.sharing - {TaskId(r, k)} else s.sharing,
       log := s.log + RequestsRead(on, r, rd, rd.tasks[k]))
  }

  predicate InLoop(pc: Pc) {
    pc.Queued? || pc.Head? || pc.TestEnabled? || pc.TestUnread? || pc.ClearFlag? || pc.Retired? || pc.Leaving?
    || pc.Done? || pc.Take?
  }

  // The part of transmit_ that forwards a request received at `r` or routes a reply received at `r`.

  /** The participant whose registry and writer a task at `pc` works on. */
  function Target(c: Config, r: ReaderId, pc: Pc): (q: ParticipantId)
    ensures q == r.p || q in c.ids
  {
    match pc
    case ForwardLock(_, i) => if i < |c.ids| then c.ids[i] else r.p
    case ForwardWrite(_, i) => if i < |c.ids| then c.ids[i] else r.p
    case ForwardAdd(_, i, _) => if i < |c.ids| then c.ids[i] else r.p
    case ForwardUnlock(_, i) => if i < |c.ids| then c.ids[i] else r.p
    case _ => r.p
  }

  /** Where a routing step leaves the task. */
  ghost function RoutePc(c: Config, s: State, r: ReaderId, pc: Pc, ok: bool, sn: SequenceNumber): Pc
    requires Shaped(c, s) && r.p in c.ids
  {
    match pc
    case Forward(x, i) =>
      if i >= |c.ids| then Head
      else if Skips(c, s, r.p, c.ids[i]) then Forward(x, i + 1)
      else ForwardLock(x, i)
    case ForwardLock(x, i) => ForwardWrite(x, i)
    case ForwardWrite(x, i) => if ok then ForwardAdd(x, i, sn) else ForwardUnlock(x, i)
    case ForwardAdd(x, i, _) => ForwardUnlock(x, i)
    case ForwardUnlock(x, i) => Forward(x, i + 1)
    case ReplyLock(x) => ReplyGet(x)
    case ReplyGet(x) => ReplyUnlock(x, Lookup(s.regs[r.p].table, x.identity.sequence))
    case ReplyUnlock(x, e) => if e.Some? then ReplyWrite(x, e.value) else Head
    case ReplyWrite(x, _) => if ok then ReplyErase(x) else Head
    case ReplyErase(x) => Head
    case _ => pc
  }

  ghost function WithCall(g: Registry, op: Op): Registry {
    g.(table := Apply(g.table, op), ops := g.ops + [op])
  }

  /** What the step does to the registry of its target. */
  ghost function RouteRegistry(t: TaskId, pc: Pc, ok: bool, sn: SequenceNumber, g: Registry): Registry {
    match pc
    case ForwardLock(_, _) => g.(owner := Some(t))
    case ForwardWrite(_, _) => if ok then g.(written := g.written + [sn]) else g
    case ForwardAdd(x, _, n) => WithCall(g, Add(n, Entry(t.r.p, Identity(x))))
    case ForwardUnlock(_, _) => g.(owner := None)
    case ReplyLock(_) => g.(owner := Some(t))
    case ReplyUnlock(_, _) => g.(owner := None)
    case ReplyErase(x) => WithCall(g, Erase(x.identity.sequence))
    case _ => g
  }

  /** The writes that succeed in the step. */
  function RouteEvents(c: Config, r: ReaderId, pc: Pc, ok: bool, sn: SequenceNumber): seq<Event> {
    if !ok then []
    else
      match pc
      case ForwardWrite(x, _) => [Forwarded(Target(c, r, pc), sn, Entry(r.p, Identity(x)))]
      case ReplyWrite(x, e) => [Replied(r.p, x.identity.sequence, e)]
      case _ => []
  }

  ghost function RouteStep(c: Config, s: State, r: ReaderId, k: nat, ok: bool, sn: SequenceNumber): State
    requires Shaped(c, s) && r in s.readers && k < |s.readers[r].tasks|
  {
    var rd, pc := s.readers[r], s.readers[r].tasks[k];
    var q := Target(c, r, pc);
    s.(readers := s.readers[r := rd.(tasks := rd.tasks[k := RoutePc(c, s, r, pc, ok, sn)])],
       regs := s.regs[q := RouteRegistry(TaskId(r, k), pc, ok, sn, s.regs[q])],
       log := s.log + RouteEvents(c, r, pc, ok, sn))
  }

  // ----- steps of callbacks and of the router thread -----

  /** RPCBridge::data_available_, called with the reader's RTPS mutex held. */
  function CallbackStep(enabled: bool, on: bool, rd: Reader): Reader {
    match rd.mutex
    case AtReader => rd.(mutex := if on then AtBridge else Free)   // a reliable reader keeps the change
    case AtBridge => rd.(mutex := if enabled then AtFlag else Free)
    case AtFlag =>
      if rd.flag then rd.(mutex := Free) else rd.(mutex := Free, flag := true, tasks := rd.tasks + [Queued])
    case _ => rd
  }

  ghost predicate CanAdvance(c: Config, s: State)
    requires Shaped(c, s)
  {
    match s.bridge.control
    case Idle => false
    case NotifyReader(i) => i < 2 * |c.ids| && s.readers[ReaderAt(c, i)].mutex == Free
    case WaitTransmission => s.sharing == {}
    case _ => true
  }

  ghost function ControlStep(c: Config, s: State): State
    requires Shaped(c, s) && CanAdvance(c, s)
  {
    var b, n := s.bridge, 2 * |c.ids|;
    match b.control
    case EnableWriters(i) =>
      if i >= n then s.(bridge := b.(control := EnableReader(0)))
      else s.(bridge := b.(control := EnableWriters(i + 1)), on := s.on.(writers := s.on.writers + {WriterAt(c, i)}))
    case EnableReader(i) =>
      if i >= n then s.(bridge := b.(control := Idle))
      else
        var r := ReaderAt(c, i);
        s.(bridge := b.(control := NotifyReader(i)), on := s.on.(readers := s.on.readers + {r}))
    case NotifyReader(i) =>
      var r := ReaderAt(c, i);
      s.(bridge := b.(control := EnableReader(i + 1)), readers := s.readers[r := s.readers[r].(mutex := AtBridge)])
    case WaitTransmission => s.(bridge := b.(control := DisableReaders(0)))
    case DisableReaders(i) =>
      if i >= n then s.(bridge := b.(control := DisableWriters(0)))
      else
        var r := ReaderAt(c, Swapped(c, i));
        s.(bridge := b.(control := DisableReaders(i + 1)), on := s.on.(readers := s.on.readers - {r}))
    case DisableWriters(i) =>
      if i >= n then s.(bridge := b.(control := Idle))
      else
        s.(bridge := b.(control := DisableWriters(i + 1)),
           on := s.on.(writers := s.on.writers - {WriterAt(c, Swapped(c, i))}))
  }

  /** The first enable creates the endpoints and enables the registries of participants that have servers. */
  ghost function Initialised(s: State): map<ParticipantId, Registry>
    requires forall p :: p in s.regs ==> p in s.bridge.servers
  {
    map p | p in s.regs :: s.regs[p].(enabled := s.regs[p].enabled || (!s.bridge.init && s.bridge.servers[p] != {}))
  }

  ghost predicate Can(c: Config, s: State, a: Action) {
    && Shaped(c, s)
    && match a
       case Arrive(r, _) => s.bridge.init && r in s.readers && s.readers[r].mutex == Free
       case Callback(r) => r in s.readers && s.readers[r].mutex in {AtReader, AtBridge, AtFlag}
       case Run(r, k, ok, sn) => CanRun(c, s, r, k, ok, sn)
       case StartEnable => s.bridge.control == Idle && !s.bridge.enabled && ServersAvailable(s.bridge)
       case StartDisable => s.bridge.control == Idle && s.bridge.enabled
       case Advance => CanAdvance(c, s)
       case Discover(p, _) => s.bridge.control == Idle && p in c.ids
       case Remove(p, _) => s.bridge.control == Idle && p in c.ids
  }

  ghost function Do(c: Config, s: State, a: Action): State
    requires Can(c, s, a)
  {
    var b := s.bridge;
    match a
    case Arrive(r, x) =>
      s.(readers := s.readers[r := s.readers[r].(unread := s.readers[r].unread + [x], mutex := AtReader)])
    case Callback(r) => s.(readers := s.readers[r := CallbackStep(b.enabled, r in s.on.readers, s.readers[r])])
    case Run(r, k, ok, sn) =>
      if InLoop(s.readers[r].tasks[k]) then LoopStep(c, s, r, k) else RouteStep(c, s, r, k, ok, sn)
    case StartEnable =>
      s.(bridge := b.(enabled := true, init := true, control := EnableWriters(0)), regs := Initialised(s))
    case StartDisable => s.(bridge := b.(enabled := false, control := WaitTransmission))
    case Advance => ControlStep(c, s)
    case Discover(p, g) =>
      s.(bridge := b.(servers := b.servers[p := b.servers[p] + {g}]),
         regs := if b.init then s.regs[p := s.regs[p].(enabled := true)] else s.regs)
    case Remove(p, g) =>
      var b' := b.(servers := b.servers[p := b.servers[p] - {g}]);
      if !ServersAvailable(b') && b.enabled
      then s.(bridge := b'.(enabled := false, control := WaitTransmission))
      else s.(bridge := b')
  }

  ghost predicate Next(c: Config, s: State, s': State) {
    exists a: Action :: Can(c, s, a) && s' == Do(c, s, a)
  }

  ghost predicate IsRun(c: Config, run: seq<State>) {
    && |run| > 0
    && Init(c, run[0])
    && (forall i :: 0 <= i < |run| - 1 ==> Next(c, run[i], run[i + 1]))
  }
}
