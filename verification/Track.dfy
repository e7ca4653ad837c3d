/**
 The wake-up protocol of a Track: listener callbacks and one consumer task that coordinate through a single
 atomic counter, without a common lock. Every atomic access of the code is one step of the machine, so a run is
 an arbitrary sequentially consistent interleaving of any number of callbacks, queued tasks and one
 enable/disable thread.
 */
module Track {

  type WriterId = nat

  /** A change held by the reader. `payload` is false for the empty payloads of keyed topics. */
  datatype Data = Data(block: nat, payload: bool, correct: bool)

  /**
   `writers` in the order the transmit loop visits them; `reliable` is the QoS of the reader's topic; `block` is
   the payload block whose reference counter is followed (any block, as every theorem is for all configurations).
   */
  datatype Config = Config(writers: seq<WriterId>, reliable: bool, block: nat)

  /** Program points of a transmit task once it holds `on_transmission_mutex_`; `Free` when no task does. */
  datatype Loop =
    | Free
    | Head
    | Store
    | Take
    | Keep(d: Data)
    | Sub
    | Write(d: Data, k: nat)   // about to write through writers[k]
    | Release(d: Data)
    | Leaving

  /** Program points of the thread that holds `track_mutex_`. */
  datatype Control =
    | Idle
    | EnableWriters(k: nat)    // about to enable writers[k]
    | EnableReader
    | WaitTransmission
    | DisableReader
    | DisableWriters(k: nat)

  const WORD := 0x1_0000_0000
  /** The 32-bit counter does not wrap around while fewer callbacks than this fall between two stores. */
  const CALLBACK_LIMIT := 0x7fff_ffff

  /** A change that reaches the reader, and whether the reader was enabled. */
  datatype Arrival = Arrival(d: Data, on: bool)

  /** History of a run; no decision of the code depends on it. */
  datatype History = History(
    status: int,                // the counter as a mathematical integer
    sinceStore: nat,            // fetch_add calls since the last store
    taken: seq<Data>,           // data taken successfully
    writes: seq<(WriterId, Data)>, // write attempts
    everDisabled: bool,
    aborted: bool,              // some task found the track disabled at the loop head
    alone: bool,                // nobody else has switched a writer off
    arrivals: seq<Arrival>,     // changes that reached the reader
    missed: bool)               // a callback was dropped, none got through since, and no task made up for it

  datatype State = State(
    enabled: bool,
    control: Control,
    readerOn: bool,
    writersOn: set<WriterId>,
    word: nat,                  // data_available_status_, 32 bits wide
    queue: seq<Data>,           // unread changes of the reader
    atTrack: nat,               // callbacks about to test the track's enabled_
    atAdd: nat,                 // callbacks about to fetch_add
    atEmit: nat,                // callbacks that read 0 and are about to emit the task
    queued: nat,                // emitted tasks that have not taken on_transmission_mutex_ yet
    loop: Loop,                 // the task that has
    refs: int,                  // reference counter of the followed block
    writerRefs: int,            // those of its references that the writers' histories hold
    h: History)

  datatype Action =
    | Arrive(d: Data)
    | TestTrack
    | FetchAdd
    | Emit
    | Start
    | Transmit(ok: bool)
    | StartEnable
    | StartDisable
    | AdvanceControl
    | SwitchWriter(w: WriterId, on: bool)
    | DropWriterRef

  /** References to the followed block that one change accounts for. */
  function Ref(c: Config, d: Data): nat {
    if d.payload && d.block == c.block then 1 else 0
  }

  function Wrap(x: int): int {
    if x >= WORD then x - WORD else if x < 0 then x + WORD else x
  }

  function Init(c: Config): State {
    State(false, Idle, false, {}, 0, [], 0, 0, 0, 0, Free, 0, 0, History(0, 0, [], [], false, false, true, [], false))
  }

  predicate Can(c: Config, s: State, a: Action) {
    match a
    case Arrive(_) => true
    case TestTrack => s.atTrack > 0
    case FetchAdd => s.atAdd > 0
    case Emit => s.atEmit > 0
    case Start => s.queued > 0 && s.loop == Free
    case Transmit(ok) =>
      && s.loop != Free
      && (s.loop.Write? && s.loop.k < |c.writers| && ok ==> c.writers[s.loop.k] in s.writersOn)
    case StartEnable => s.control == Idle && !s.enabled
    case StartDisable => s.control == Idle && s.enabled
    case AdvanceControl => s.control != Idle && (s.control == WaitTransmission ==> s.loop == Free)
    case SwitchWriter(_, _) => true
    case DropWriterRef => s.writerRefs > 0
  }

  /**
   One step. An arrival is CommonReader::onNewCacheChangeAdded up to its test of the reader's flag: the change is
   added and tested under the reader's RTPS mutex. A callback then runs Track::data_available_.
   */
  function Do(c: Config, s: State, a: Action): State
    requires Can(c, s, a)
  {
    match a
    case Arrive(d) =>
      var s1 := s.(h := s.h.(arrivals := s.h.arrivals + [Arrival(d, s.readerOn)]));
      if s.readerOn then s1.(queue := s.queue + [d], atTrack := s.atTrack + 1, refs := s.refs + Ref(c, d))
      else if c.reliable then s1.(queue := s.queue + [d], refs := s.refs + Ref(c, d))
      else s1
    case TestTrack =>
      if s.enabled then s.(atTrack := s.atTrack - 1, atAdd := s.atAdd + 1)
      else s.(atTrack := s.atTrack - 1, h := s.h.(missed := true))
    case FetchAdd =>
      s.(atAdd := s.atAdd - 1,
         atEmit := if s.word == 0 then s.atEmit + 1 else s.atEmit,
         word := Wrap(s.word + 2),
         h := s.h.(status := s.h.status + 2, sinceStore := s.h.sinceStore + 1, missed := false))
    case Emit => s.(atEmit := s.atEmit - 1, queued := s.queued + 1)
    case Start => s.(queued := s.queued - 1, loop := Head)
    case Transmit(ok) => LoopStep(c, s, ok)
    case StartEnable =>
      s.(enabled := true, control := EnableWriters(0), h := s.h.(missed := s.h.missed && s.word == 0))
    case StartDisable => s.(enabled := false, control := WaitTransmission, h := s.h.(everDisabled := true))
    case AdvanceControl => ControlStep(c, s)
    case SwitchWriter(w, on) =>
      s.(writersOn := if on then s.writersOn + {w} else s.writersOn - {w}, h := s.h.(alone := s.h.alone && on))
    case DropWriterRef => s.(writerRefs := s.writerRefs - 1, refs := s.refs - 1)
  }

  /** One step of Track::transmit_. */
  function LoopStep(c: Config, s: State, ok: bool): State
    requires s.loop != Free
  {
    match s.loop
    case Head =>
      if s.enabled then s.(loop := Store) else s.(loop := Leaving, h := s.h.(aborted := true))
    case Store => s.(loop := Take, word := 1, h := s.h.(status := 1, sinceStore := 0))
    case Take =>
      if !s.readerOn then s.(loop := Head)            // RETCODE_NOT_ENABLED, skipped
      else if s.queue == [] then s.(loop := Sub)      // RETCODE_NO_DATA
      else if !s.queue[0].correct then
        s.(loop := Head, queue := s.queue[1..], refs := s.refs - Ref(c, s.queue[0]))
      else
        s.(loop := Keep(s.queue[0]), refs := s.refs + Ref(c, s.queue[0]))
    case Keep(d) =>
      // the reader's change is removed once the track has its own reference
      var s1 := s.(loop := Write(d, 0), h := s.h.(taken := s.h.taken + [d]));
      if s.queue == [] then s1 else s1.(queue := s.queue[1..], refs := s.refs - Ref(c, s.queue[0]))
    case Sub =>
      s.(loop := if s.word == 1 then Leaving else Head, word := Wrap(s.word - 1),
         h := s.h.(status := s.h.status - 1))
    case Write(d, k) =>
      if k >= |c.writers| then s.(loop := Release(d))
      else
        var s1 := s.(loop := Write(d, k + 1), h := s.h.(writes := s.h.writes + [(c.writers[k], d)]));
        if ok then s1.(writerRefs := s.writerRefs + Ref(c, d), refs := s.refs + Ref(c, d)) else s1
    case Release(d) => s.(loop := Head, refs := s.refs - Ref(c, d))
    case Leaving => s.(loop := Free)
  }

  /** One step of Track::enable or Track::disable. */
  function ControlStep(c: Config, s: State): State
    requires s.control != Idle
  {
    match s.control
    case EnableWriters(k) =>
      if k >= |c.writers| then s.(control := EnableReader)
      else s.(control := EnableWriters(k + 1), writersOn := s.writersOn + {c.writers[k]})
    case EnableReader =>
      s.(control := Idle, readerOn := true, atTrack := if c.reliable then s.atTrack + 1 else s.atTrack)
    case WaitTransmission => s.(control := DisableReader)
    case DisableReader => s.(control := DisableWriters(0), readerOn := false)
    case DisableWriters(k) =>
      if k >= |c.writers| then s.(control := Idle)
      else s.(control := DisableWriters(k + 1), writersOn := s.writersOn - {c.writers[k]})
  }

  ghost predicate Next(c: Config, s: State, s': State) {
    exists a: Action :: Can(c, s, a) && s' == Do(c, s, a)
  }

  /** A run in which fewer than CALLBACK_LIMIT callbacks fall between two stores. */
  ghost predicate IsRun(c: Config, run: seq<State>) {
    && |run| > 0
    && run[0] == Init(c)
    && (forall i :: 0 <= i < |run| - 1 ==> Next(c, run[i], run[i + 1]))
    && (forall i :: 0 <= i < |run| ==> run[i].h.sinceStore < 0x7fff_ffff)
  }
}
