/** The tasks of an RPCBridge, one at a time: which steps move one, and what taking a sample leads to. */
module RpcTasks {
  import opened ServiceRegistry
  import opened RpcBridge

  ghost predicate HasTask(s: State, r: ReaderId, k: nat) {
    r in s.readers && k < |s.readers[r].tasks|
  }

  ghost function PcOf(s: State, r: ReaderId, k: nat): Pc
    requires HasTask(s, r, k)
  {
    s.readers[r].tasks[k]
  }

  lemma {:induction false} ControlTasks(c: Config, s: State, r: ReaderId)
    requires Shaped(c, s) && CanAdvance(c, s)
    ensures r in ControlStep(c, s).readers <==> r in s.readers
    ensures r in s.readers ==> ControlStep(c, s).readers[r].tasks == s.readers[r].tasks
  {
  }

  lemma {:induction false} CallbackTasks(enabled: bool, on: bool, rd: Reader)
    ensures var rd' := CallbackStep(enabled, on, rd);
            rd'.tasks == rd.tasks || rd'.tasks == rd.tasks + [Queued]
  {
  }

  lemma {:induction false} QuietTasks(c: Config, s: State, a: Action, r: ReaderId, k: nat)
    requires Can(c, s, a) && !a.Run? && HasTask(Do(c, s, a), r, k) && !PcOf(Do(c, s, a), r, k).Queued?
    ensures HasTask(s, r, k) && PcOf(s, r, k) == PcOf(Do(c, s, a), r, k)
  {
    hide ControlStep, CallbackStep, CanAdvance, ServersAvailable, Initialised;
    match a
    case Callback(r') =>
      CallbackTasks(s.bridge.enabled, r' in s.on.readers, s.readers[r']);
    case Advance => ControlTasks(c, s, r);
    case _ =>
  }

  lemma {:induction false} ReaderFrame(c: Config, enabled: bool, on: bool, r: ReaderId, rd: Reader, k: nat)
    requires k < |rd.tasks|
    ensures var rd' := ReaderStep(c, enabled, on, r, rd, k);
            |rd'.tasks| == |rd.tasks| && forall j :: 0 <= j < |rd.tasks| && j != k ==> rd'.tasks[j] == rd.tasks[j]
  {
  }

  lemma {:induction false} RunFrame(c: Config, s: State, a: Action, r: ReaderId, k: nat)
    requires Can(c, s, a) && a.Run? && HasTask(Do(c, s, a), r, k)
    ensures HasTask(s, r, k) && HasTask(s, a.r, a.k) && a.r.p in c.ids
    ensures a.r != r || a.k != k ==> PcOf(Do(c, s, a), r, k) == PcOf(s, r, k)
    ensures a.r == r && a.k == k ==>
      PcOf(Do(c, s, a), r, k)
      == if InLoop(PcOf(s, r, k)) then LoopStep(c, s, r, k).readers[r].tasks[k]
         else RoutePc(c, s, r, PcOf(s, r, k), a.ok, a.sn)
  {
    hide RoutePc, RouteRegistry, RouteEvents, InLoop, ReaderStep, RequestsRead;
    assert a.r in s.readers && a.k < |s.readers[a.r].tasks|;
    ReaderFrame(c, s.bridge.enabled, a.r in s.on.readers, a.r, s.readers[a.r], a.k);
  }

  lemma {:induction false} CanIsShaped(c: Config, s: State, a: Action)
    requires Can(c, s, a)
    ensures Shaped(c, s)
  {
  }

  /**
   What a task makes of the first unread sample: one that is not correct is dropped; a correct request is noted under
   its writer and its own sequence number, and forwarded unless that identity is unknown; a correct reply is looked up
   exactly when it is meant for this participant's reply reader.
   */
  lemma {:induction false} TakeStep(c: Config, s: State, r: ReaderId, k: nat)
    requires HasTask(s, r, k) && PcOf(s, r, k).Take?
    ensures var s', unread := LoopStep(c, s, r, k), s.readers[r].unread;
            && HasTask(s', r, k)
            && if r !in s.on.readers || unread == [] then
                 PcOf(s', r, k) == Head && s'.readers[r].unread == unread && s'.log == s.log
               else
                 var x := unread[0];
                 && s'.readers[r].unread == unread[1..]
                 && (!x.correct ==> PcOf(s', r, k) == Head && s'.log == s.log)
                 && (x.correct && r.RequestReader? ==>
                       && s'.log == s.log + [RequestRead(r.p, SampleIdentity(x.identity.writer, x.origin))]
                       && PcOf(s', r, k) == if x.identity.writer == 0 && x.origin == 0 then Head else Forward(x, 0))
                 && (x.correct && r.ReplyReader? ==>
                       && s'.log == s.log
                       && PcOf(s', r, k) == if x.identity.writer == c.guids(r.p) then ReplyLock(x) else Head)
  {
  }
}
