/** What holds of a router after every sequence of operations. */
module RouterTheorems {
  import opened AllowedTopics
  import opened Router

  datatype Op =
    | OpStart
    | OpStop
    | OpReload(allowed: Filter, same: bool, builtin: seq<DdsTopic>)
    | OpTopic(t: DdsTopic)
    | OpService(v: RpcTopic, p: Participant, g: Guid)
    | OpRemove(v: RpcTopic, p: Participant, g: Guid)

  ghost function Apply(s: State, op: Op): State {
    match op
    case OpStart => Started(s).0
    case OpStop => Stopped(s).0
    case OpReload(allowed, same, builtin) => Reload(s, allowed, same, builtin).0
    case OpTopic(t) => DiscoverTopic(s, t)
    case OpService(v, p, g) => DiscoverService(s, v, p, g)
    case OpRemove(v, p, g) => RemoveService(s, v, p, g)
  }

  /** The builtin topics of the initial configuration are discovered first, before the router starts. */
  ghost function After(initial: Filter, ops: seq<Op>): State {
    if ops == [] then Initial(initial) else Apply(After(initial, ops[..|ops| - 1]), ops[|ops| - 1])
  }

  /** The bridge of a topic exists and is enabled. */
  predicate Forwarding(ts: Topics, k: Key) { k in ts.bridges && ts.bridges[k] }

  /** Only whether the router is enabled and what the current list says decides about a topic. */
  ghost predicate TopicsInv(enabled: bool, allowed: Filter, ts: Topics) {
    && (forall k :: k in ts.known ==> KeyOf(ts.known[k].topic) == k)
    && (forall k :: k in ts.known ==> (ts.known[k].active <==> enabled && allowed(ts.known[k].topic)))
    && (forall k :: Forwarding(ts, k) <==> k in ts.known && ts.known[k].active)
  }

  /** The RPC bridge of a service is enabled. */
  predicate Serving(sv: Services, n: string) { n in sv.rpc && sv.rpc[n].enabled }

  /** A server of the service is known. */
  predicate HasServer(sv: Services, n: string) { n in sv.rpc && sv.rpc[n].servers != {} }

  ghost predicate ServicesInv(enabled: bool, allowed: Filter, sv: Services) {
    && sv.known.Keys == sv.rpc.Keys
    && (forall n :: n in sv.known ==> sv.known[n].topic.service == n)
    && (forall n :: n in sv.known ==> (sv.known[n].allowed <==> ServiceAllowed(allowed, sv.known[n].topic)))
    && (forall n :: Serving(sv, n) ==> sv.known[n].allowed && HasServer(sv, n))
    && (forall n :: enabled && HasServer(sv, n) && sv.known[n].allowed ==> Serving(sv, n))
  }

  // ----- topics -----

  lemma {:induction false} SwitchKeeps(
    enabled: bool, allowed: Filter, ts: Topics, on: set<Key>, off: set<Key>, enabled': bool, allowed': Filter)
    requires TopicsInv(enabled, allowed, ts)
    requires on <= ts.known.Keys
    requires forall k :: k in ts.known ==>
      ((ts.known[k].active && k !in off) || k in on <==> enabled' && allowed'(ts.known[k].topic))
    ensures TopicsInv(enabled', allowed', Switch(ts, on, off))
  {
    hide KeyOf;
    var ts' := Switch(ts, on, off);
    forall k
      ensures Forwarding(ts', k) <==> k in ts'.known && ts'.known[k].active
    {
      assert Forwarding(ts, k) <==> k in ts.known && ts.known[k].active;
    }
  }

  lemma {:induction false} ReloadTopicsKeeps(allowed: Filter, ts: Topics, allowed': Filter)
    requires TopicsInv(true, allowed, ts)
    ensures TopicsInv(true, allowed', ReloadTopics(ts, allowed'))
  {
    hide TopicsInv, KeyOf;
    var on, off := AllowedKeys(ts, allowed') - ActiveKeys(ts), ActiveKeys(ts) - AllowedKeys(ts, allowed');
    forall k | k in ts.known
      ensures (ts.known[k].active && k !in off) || k in on <==> allowed'(ts.known[k].topic)
    {
      KeysFacts(ts, allowed', k);
    }
    KeysKnown(ts, allowed');
    SwitchKeeps(true, allowed, ts, on, off, true, allowed');
  }

  lemma {:induction false} DiscoverTopicKeeps(s: State, t: DdsTopic)
    requires TopicsInv(s.enabled, s.allowed, s.topics)
    ensures var s' := DiscoverTopic(s, t);
            TopicsInv(s'.enabled, s'.allowed, s'.topics)
  {
    hide KeyOf;
    var s' := DiscoverTopic(s, t);
    forall k
      ensures Forwarding(s'.topics, k) <==> k in s'.topics.known && s'.topics.known[k].active
    {
      assert Forwarding(s.topics, k) <==> k in s.topics.known && s.topics.known[k].active;
    }
  }

  lemma {:induction false} DiscoverNewKeeps(s: State, builtin: seq<DdsTopic>)
    requires TopicsInv(s.enabled, s.allowed, s.topics)
    ensures var s' := DiscoverNew(s, NewTopics(s.topics.known.Keys, builtin));
            TopicsInv(s'.enabled, s'.allowed, s'.topics)
  {
    hide TopicsInv, DiscoverNew, DiscoverTopic;
    if builtin == [] {
      DiscoverNone(s);
    } else {
      var t := builtin[|builtin| - 1];
      var before := NewTopics(s.topics.known.Keys, builtin[..|builtin| - 1]);
      DiscoverNewKeeps(s, builtin[..|builtin| - 1]);
      if KeyOf(t) !in s.topics.known && KeyOf(t) !in before {
        DiscoverOne(s, before, t);
        DiscoverTopicKeeps(DiscoverNew(s, before), t);
      }
    }
  }

  lemma {:induction false} TopicsKept(s: State, op: Op)
    requires TopicsInv(s.enabled, s.allowed, s.topics)
    ensures var s' := Apply(s, op);
            TopicsInv(s'.enabled, s'.allowed, s'.topics)
  {
    hide TopicsInv, Switch, DiscoverNew, DiscoverTopic, ReloadTopics, ReloadServices, NewTopics;
    match op
    case OpStart =>
      if !s.enabled {
        StartKeeps(s);
      }
    case OpStop =>
      if s.enabled {
        StopKeeps(s);
      }
    case OpReload(allowed, same, builtin) =>
      if Reload(s, allowed, same, builtin).1 == OK {
        var s1 := s.(allowed := allowed, topics := ReloadTopics(s.topics, allowed));
        ReloadTopicsKeeps(s.allowed, s.topics, allowed);
        assert s1.topics.known.Keys == s.topics.known.Keys by { ReloadKeys(s.topics, allowed); }
        DiscoverNewKeeps(s1, builtin);
        DiscoverNewFrame(s1, NewTopics(s.topics.known.Keys, builtin));
      }
    case OpTopic(t) => DiscoverTopicKeeps(s, t);
    case _ =>
  }

  lemma {:induction false} StartKeeps(s: State)
    requires TopicsInv(false, s.allowed, s.topics)
    ensures TopicsInv(true, s.allowed, Switch(s.topics, AllowedKeys(s.topics, s.allowed), {}))
  {
    SwitchKeeps(false, s.allowed, s.topics, AllowedKeys(s.topics, s.allowed), {}, true, s.allowed);
  }

  lemma {:induction false} StopKeeps(s: State)
    requires TopicsInv(true, s.allowed, s.topics)
    ensures TopicsInv(false, s.allowed, Switch(s.topics, {}, s.topics.known.Keys))
  {
    SwitchKeeps(true, s.allowed, s.topics, {}, s.topics.known.Keys, false, s.allowed);
  }

  lemma {:induction false} ReloadKeys(ts: Topics, allowed: Filter)
    ensures ReloadTopics(ts, allowed).known.Keys == ts.known.Keys
  {
  }

  lemma {:induction false} DiscoverNewFrame(s: State, found: map<Key, DdsTopic>)
    ensures var s' := DiscoverNew(s, found);
            s' == s.(topics := s'.topics)
  {
  }

  // ----- services -----

  lemma {:induction false} RpcStep(enabled: bool, allowed: Filter, sv: Services, n: string, r: Rpc)
    requires ServicesInv(enabled, allowed, sv) && n in sv.rpc
    requires r.enabled ==> sv.known[n].allowed && r.servers != {}
    requires enabled && sv.known[n].allowed && r.servers != {} ==> r.enabled
    ensures ServicesInv(enabled, allowed, sv.(rpc := sv.rpc[n := r]))
  {
    hide ServiceAllowed;
    var sv' := sv.(rpc := sv.rpc[n := r]);
    forall m
      ensures Serving(sv', m) ==> sv.known[m].allowed && HasServer(sv', m)
      ensures enabled && HasServer(sv', m) && sv.known[m].allowed ==> Serving(sv', m)
    {
      assert Serving(sv, m) ==> sv.known[m].allowed && HasServer(sv, m);
      assert enabled && HasServer(sv, m) && sv.known[m].allowed ==> Serving(sv, m);
    }
  }

  lemma {:induction false} AddServiceKeeps(enabled: bool, allowed: Filter, sv: Services, v: RpcTopic)
    requires ServicesInv(enabled, allowed, sv)
    ensures ServicesInv(enabled, allowed, AddService(sv, allowed, v))
  {
    hide ServiceAllowed;
    var sv' := AddService(sv, allowed, v);
    forall m
      ensures Serving(sv', m) ==> sv'.known[m].allowed && HasServer(sv', m)
      ensures enabled && HasServer(sv', m) && sv'.known[m].allowed ==> Serving(sv', m)
    {
      assert Serving(sv, m) ==> sv.known[m].allowed && HasServer(sv, m);
      assert enabled && HasServer(sv, m) && sv.known[m].allowed ==> Serving(sv, m);
    }
  }

  lemma {:induction false} InvAt(enabled: bool, allowed: Filter, sv: Services, n: string)
    requires ServicesInv(enabled, allowed, sv) && n in sv.rpc
    ensures n in sv.known
    ensures sv.rpc[n].enabled ==> sv.known[n].allowed && sv.rpc[n].servers != {}
    ensures enabled && sv.known[n].allowed && sv.rpc[n].servers != {} ==> sv.rpc[n].enabled
  {
    assert Serving(sv, n) ==> sv.known[n].allowed && HasServer(sv, n);
    assert enabled && HasServer(sv, n) && sv.known[n].allowed ==> Serving(sv, n);
  }

  lemma {:induction false} DiscoverServiceKeeps(s: State, v: RpcTopic, p: Participant, g: Guid)
    requires ServicesInv(s.enabled, s.allowed, s.services)
    ensures ServicesInv(s.enabled, s.allowed, DiscoverService(s, v, p, g).services)
  {
    var sv, n := AddService(s.services, s.allowed, v), v.service;
    AddServiceKeeps(s.enabled, s.allowed, s.services, v);
    InvAt(s.enabled, s.allowed, sv, n);
    var sv' := DiscoverService(s, v, p, g).services;
    assert (p, g) in sv'.rpc[n].servers;
    hide ServicesInv, AddService;
    RpcStep(s.enabled, s.allowed, sv, n, sv'.rpc[n]);
  }

  lemma {:induction false} RemoveServiceKeeps(s: State, v: RpcTopic, p: Participant, g: Guid)
    requires ServicesInv(s.enabled, s.allowed, s.services)
    ensures ServicesInv(s.enabled, s.allowed, RemoveService(s, v, p, g).services)
  {
    hide ServicesInv;
    var sv, n := s.services, v.service;
    if n in sv.rpc {
      InvAt(s.enabled, s.allowed, sv, n);
      RpcStep(s.enabled, s.allowed, sv, n, RemoveService(s, v, p, g).services.rpc[n]);
    }
  }

  lemma {:induction false} EnableAllowedKeeps(enabled: bool, allowed: Filter, sv: Services)
    requires ServicesInv(enabled, allowed, sv)
    ensures ServicesInv(true, allowed, EnableAllowed(sv, sv.known.Keys))
  {
    hide ServiceAllowed;
    var sv' := EnableAllowed(sv, sv.known.Keys);
    forall m
      ensures Serving(sv', m) ==> sv'.known[m].allowed && HasServer(sv', m)
      ensures HasServer(sv', m) && sv'.known[m].allowed ==> Serving(sv', m)
    {
      if m in sv.rpc {
        assert Serving(sv, m) ==> sv.known[m].allowed && HasServer(sv, m);
      }
    }
  }

  lemma {:induction false} ReloadServicesKeeps(enabled: bool, allowed: Filter, sv: Services, allowed': Filter)
    requires ServicesInv(enabled, allowed, sv)
    ensures ServicesInv(true, allowed', ReloadServices(sv, allowed', sv.known.Keys))
  {
    hide ServiceAllowed;
    var sv' := ReloadServices(sv, allowed', sv.known.Keys);
    forall m
      ensures Serving(sv', m) ==> sv'.known[m].allowed && HasServer(sv', m)
      ensures HasServer(sv', m) && sv'.known[m].allowed ==> Serving(sv', m)
    {
      if m in sv.rpc {
        assert Serving(sv, m) ==> sv.known[m].allowed && HasServer(sv, m);
      }
    }
  }

  lemma {:induction false} ServicesKept(s: State, op: Op)
    requires ServicesInv(s.enabled, s.allowed, s.services)
    ensures var s' := Apply(s, op);
            ServicesInv(s'.enabled, s'.allowed, s'.services)
  {
    hide Switch, DiscoverNew, ReloadTopics, NewTopics;
    match op
    case OpStart =>
      EnableAllowedKeeps(s.enabled, s.allowed, s.services);
      hide ServicesInv, EnableAllowed;
    case OpStop =>
    case OpReload(allowed, same, builtin) =>
      ReloadServicesKeeps(s.enabled, s.allowed, s.services, allowed);
      hide ServicesInv, ReloadServices;
      DiscoverNewFrame(s.(allowed := allowed, topics := ReloadTopics(s.topics, allowed)),
                       NewTopics(s.topics.known.Keys, builtin));
    case OpTopic(t) =>
    case OpService(v, p, g) =>
      hide ServicesInv;
      DiscoverServiceKeeps(s, v, p, g);
    case OpRemove(v, p, g) =>
      hide ServicesInv;
      RemoveServiceKeeps(s, v, p, g);
  }

  // ----- whole runs -----

  lemma {:induction false} RunKeeps(initial: Filter, ops: seq<Op>)
    ensures var s := After(initial, ops);
            TopicsInv(s.enabled, s.allowed, s.topics) && ServicesInv(s.enabled, s.allowed, s.services)
  {
    if ops != [] {
      RunKeeps(initial, ops[..|ops| - 1]);
      hide Apply, TopicsInv, ServicesInv;
      TopicsKept(After(initial, ops[..|ops| - 1]), ops[|ops| - 1]);
      ServicesKept(After(initial, ops[..|ops| - 1]), ops[|ops| - 1]);
    }
  }

  /**
   After every run a known topic is active, and its bridge enabled, exactly when the router is enabled and the
   current list allows the topic; every other bridge is absent or disabled.
   */
  lemma {:induction false} ForwardedIffAllowed(initial: Filter, ops: seq<Op>, k: Key)
    ensures var s := After(initial, ops);
            && (Forwarding(s.topics, k) <==> s.enabled && k in AllowedKeys(s.topics, s.allowed))
            && (k in ActiveKeys(s.topics) <==> Forwarding(s.topics, k))
  {
    RunKeeps(initial, ops);
  }

  /** Two runs that agree on the router, the list and the topics known agree on what is active and forwarded. */
  lemma {:induction false} HistoryIndependent(i1: Filter, run1: seq<Op>, i2: Filter, run2: seq<Op>)
    requires var s1, s2 := After(i1, run1), After(i2, run2);
             && s1.enabled == s2.enabled && s1.topics.known.Keys == s2.topics.known.Keys
             && forall k :: k in s1.topics.known ==>
                  && s1.topics.known[k].topic == s2.topics.known[k].topic
                  && s1.allowed(s1.topics.known[k].topic) == s2.allowed(s1.topics.known[k].topic)
    ensures After(i1, run1).topics.known == After(i2, run2).topics.known
    ensures forall k :: Forwarding(After(i1, run1).topics, k) <==> Forwarding(After(i2, run2).topics, k)
  {
    RunKeeps(i1, run1);
    RunKeeps(i2, run2);
    hide After;
  }

  /**
   After every run an enabled RPC bridge belongs to a service that the current list allows and that has a server;
   and while the router is enabled every such service is served.
   */
  lemma {:induction false} ServedServices(initial: Filter, ops: seq<Op>, n: string)
    ensures var s := After(initial, ops);
            && (n in s.services.known <==> n in s.services.rpc)
            && (Serving(s.services, n) ==>
                  ServiceAllowed(s.allowed, s.services.known[n].topic) && HasServer(s.services, n))
            && (s.enabled && HasServer(s.services, n) && ServiceAllowed(s.allowed, s.services.known[n].topic) ==>
                  Serving(s.services, n))
  {
    RunKeeps(initial, ops);
    hide After;
  }

  // ----- the run itself decides -----

  /** The topics discovered by one operation, in order: a reload of an enabled router brings its builtin topics. */
  ghost function FoundBy(s: State, op: Op): seq<DdsTopic> {
    if op.OpTopic? then [op.t] else if op.OpReload? && s.enabled then op.builtin else []
  }

  ghost function Found(initial: Filter, ops: seq<Op>): seq<DdsTopic> {
    if ops == [] then []
    else
      var before := ops[..|ops| - 1];
      Found(initial, before) + FoundBy(After(initial, before), ops[|ops| - 1])
  }

  /** The first topic of each key. */
  ghost function Firsts(found: seq<DdsTopic>): map<Key, DdsTopic> {
    NewTopics({}, found)
  }

  /** What a router that started from nothing would make of the topics. */
  ghost function Judged(firsts: map<Key, DdsTopic>, enabled: bool, allowed: Filter): map<Key, Topic> {
    map k | k in firsts :: Topic(firsts[k], enabled && allowed(firsts[k]))
  }

  /** The topics a router knows, whether active or not. */
  ghost function Known(ts: Topics): map<Key, DdsTopic> {
    map k | k in ts.known :: ts.known[k].topic
  }

  lemma {:induction false} FirstsConcat(a: seq<DdsTopic>, b: seq<DdsTopic>)
    ensures Firsts(a + b) == Firsts(a) + NewTopics(Firsts(a).Keys, b)
  {
    if b == [] {
      assert a + b == a;
    } else {
      var b', t := b[..|b| - 1], b[|b| - 1];
      assert (a + b)[..|a + b| - 1] == a + b';
      FirstsConcat(a, b');
    }
  }

  lemma {:induction false} DiscoverNewKnown(s: State, found: map<Key, DdsTopic>)
    requires forall k :: k in found ==> k !in s.topics.known
    ensures Known(DiscoverNew(s, found).topics) == Known(s.topics) + found
  {
  }

  lemma {:induction false} SwitchedKnown(ts: Topics, on: set<Key>, off: set<Key>)
    ensures Known(Switch(ts, on, off)) == Known(ts)
  {
  }

  lemma {:induction false} DiscoverTopicKnown(s: State, t: DdsTopic)
    ensures Known(DiscoverTopic(s, t).topics) == Known(s.topics) + NewTopics(Known(s.topics).Keys, [t])
  {
    var a, b := Known(DiscoverTopic(s, t).topics), Known(s.topics) + NewTopics(Known(s.topics).Keys, [t]);
    assert [t][..0] == [];
    assert NewTopics(Known(s.topics).Keys, []) == map[];
    assert NewTopics(Known(s.topics).Keys, [t]) == if KeyOf(t) in s.topics.known then map[] else map[KeyOf(t) := t];
    hide NewTopics, KeyOf;
    assert a == b;
  }

  lemma {:induction false} ReloadKnown(s: State, allowed: Filter, builtin: seq<DdsTopic>)
    ensures Known(Reloaded(s, allowed, builtin).topics) == Known(s.topics) + NewTopics(Known(s.topics).Keys, builtin)
  {
    assert Known(s.topics).Keys == s.topics.known.Keys;
    hide Switch, DiscoverNew, ReloadServices, Known, NewTopics;
    var s1 := s.(allowed := allowed, topics := ReloadTopics(s.topics, allowed));
    assert s1.topics.known.Keys == s.topics.known.Keys by { ReloadKeys(s.topics, allowed); }
    SwitchedKnown(s.topics, AllowedKeys(s.topics, allowed) - ActiveKeys(s.topics),
                  ActiveKeys(s.topics) - AllowedKeys(s.topics, allowed));
    NewTopicsKeyed(s.topics.known.Keys, builtin);
    DiscoverNewKnown(s1, NewTopics(s.topics.known.Keys, builtin));
  }

  lemma {:induction false} StepKnown(s: State, op: Op)
    ensures Known(Apply(s, op).topics) == Known(s.topics) + NewTopics(Known(s.topics).Keys, FoundBy(s, op))
  {
    assert Known(s.topics).Keys == s.topics.known.Keys;
    assert NewTopics(Known(s.topics).Keys, []) == map[];
    hide Switch, Reloaded, Known, NewTopics, DiscoverTopic;
    assert Known(s.topics) + map[] == Known(s.topics);
    match op
    case OpStart => SwitchedKnown(s.topics, AllowedKeys(s.topics, s.allowed), {});
    case OpStop => SwitchedKnown(s.topics, {}, s.topics.known.Keys);
    case OpReload(allowed, same, builtin) => ReloadKnown(s, allowed, builtin);
    case OpTopic(t) => DiscoverTopicKnown(s, t);
    case _ =>
  }

  /** The known topics are the discovered ones, each as it was first found. */
  lemma {:induction false} KnownAreFound(initial: Filter, ops: seq<Op>)
    ensures Known(After(initial, ops).topics) == Firsts(Found(initial, ops))
  {
    if ops != [] {
      var before := ops[..|ops| - 1];
      KnownAreFound(initial, before);
      StepKnown(After(initial, before), ops[|ops| - 1]);
      FirstsConcat(Found(initial, before), FoundBy(After(initial, before), ops[|ops| - 1]));
      hide Apply, Known, Firsts, NewTopics;
    }
  }

  /** The table of topics is a function of the topics found, the switch and the current list: the rest is forgotten. */
  lemma {:induction false} TopicsTable(initial: Filter, ops: seq<Op>)
    ensures var s := After(initial, ops);
            s.topics.known == Judged(Firsts(Found(initial, ops)), s.enabled, s.allowed)
  {
    RunKeeps(initial, ops);
    KnownAreFound(initial, ops);
    var s := After(initial, ops);
    hide After, Firsts, KeyOf;
    assert forall k :: k in Known(s.topics) <==> k in s.topics.known;
  }

  lemma {:induction false} FirstsCover(found: seq<DdsTopic>, i: nat)
    requires i < |found|
    ensures KeyOf(found[i]) in Firsts(found)
  {
    if i < |found| - 1 {
      FirstsCover(found[..|found| - 1], i);
    }
  }

  /**
   A topic found again with another key kind is judged as it was first found: the current list decides about the
   later one as it stands exactly when it gives both the same answer, or the router is stopped.
   */
  lemma {:induction false} JudgedAsFirstFound(initial: Filter, ops: seq<Op>, i: nat)
    requires i < |Found(initial, ops)|
    ensures var s, t := After(initial, ops), Found(initial, ops)[i];
            && KeyOf(t) in Firsts(Found(initial, ops))
            && ((Forwarding(s.topics, KeyOf(t)) <==> s.enabled && s.allowed(t))
                <==> (!s.enabled || s.allowed(t) == s.allowed(Firsts(Found(initial, ops))[KeyOf(t)])))
  {
    FirstsCover(Found(initial, ops), i);
    TopicsTable(initial, ops);
    var k := KeyOf(Found(initial, ops)[i]);
    ForwardedIffAllowed(initial, ops, k);
    KeysFacts(After(initial, ops).topics, After(initial, ops).allowed, k);
    hide After, Firsts, KeyOf, AllowedKeys, ActiveKeys, Forwarding, Found;
  }

  /** Such a topic exists: a list that allows only keyed topics, and a topic first found without a key. */
  lemma {:induction false} KeyedTopicIgnored()
    ensures exists initial: Filter, ops: seq<Op>, t: DdsTopic ::
      var s := After(initial, ops);
      t in Found(initial, ops) && s.enabled && s.allowed(t) && !Forwarding(s.topics, KeyOf(t))
  {
    var f: Filter := (x: DdsTopic) => x.keyed;
    var t, t' := DdsTopic("a", "b", false), DdsTopic("a", "b", true);
    var ops := [OpTopic(t), OpStart, OpTopic(t')];
    var s0, s1 := Initial(f), DiscoverTopic(Initial(f), t);
    assert ops[..2][..1] == [OpTopic(t)] && ops[..2] == [OpTopic(t), OpStart] && [OpTopic(t)][..0] == [];
    assert After(f, []) == s0;
    assert After(f, [OpTopic(t)]) == s1;
    assert After(f, ops[..2]) == Started(s1).0;
    SwitchFacts(s1.topics, AllowedKeys(s1.topics, f), {});
    var s2 := Started(s1).0;
    assert After(f, ops) == DiscoverTopic(s2, t') == s2;
    assert Found(f, ops) == Found(f, ops[..2]) + [t'];
    assert t' in Found(f, ops);
    assert !Forwarding(s2.topics, KeyOf(t'));
  }

  // ----- servers -----

  /** The servers of a service that were discovered and not removed since. */
  function ServersOf(ops: seq<Op>, n: string): set<(Participant, Guid)> {
    if ops == [] then {}
    else
      var before, op := ServersOf(ops[..|ops| - 1], n), ops[|ops| - 1];
      if op.OpService? && op.v.service == n then before + {(op.p, op.g)}
      else if op.OpRemove? && op.v.service == n then before - {(op.p, op.g)}
      else before
  }

  /** The servers a router knows of, none where it has no bridge. */
  ghost function KnownServers(sv: Services, n: string): set<(Participant, Guid)> {
    if n in sv.rpc then sv.rpc[n].servers else {}
  }

  lemma {:induction false} StepServers(s: State, op: Op, n: string)
    requires s.services.known.Keys == s.services.rpc.Keys
    ensures var now := KnownServers(Apply(s, op).services, n);
            var was := KnownServers(s.services, n);
            now == if op.OpService? && op.v.service == n then was + {(op.p, op.g)}
                   else if op.OpRemove? && op.v.service == n then was - {(op.p, op.g)}
                   else was
  {
    hide Switch, NewTopics, ReloadTopics, DiscoverNew;
    match op
    case OpReload(allowed, same, builtin) =>
      DiscoverNewFrame(s.(allowed := allowed, topics := ReloadTopics(s.topics, allowed)),
                       NewTopics(s.topics.known.Keys, builtin));
    case _ =>
  }

  lemma {:induction false} ServersKnown(initial: Filter, ops: seq<Op>, n: string)
    ensures KnownServers(After(initial, ops).services, n) == ServersOf(ops, n)
  {
    if ops != [] {
      var before := ops[..|ops| - 1];
      ServersKnown(initial, before, n);
      RunKeeps(initial, before);
      hide Apply, KnownServers;
      StepServers(After(initial, before), ops[|ops| - 1], n);
    }
  }

  /** While the router is enabled a service is served exactly when the run left it a server and the list allows it. */
  lemma {:induction false} ServedIffServerLeft(initial: Filter, ops: seq<Op>, n: string)
    ensures var s := After(initial, ops);
            && (Serving(s.services, n) ==>
                  && ServersOf(ops, n) != {}
                  && n in s.services.known && ServiceAllowed(s.allowed, s.services.known[n].topic))
            && (s.enabled && ServersOf(ops, n) != {} ==>
                  && n in s.services.known
                  && (Serving(s.services, n) <==> ServiceAllowed(s.allowed, s.services.known[n].topic)))
  {
    ServedServices(initial, ops, n);
    ServersKnown(initial, ops, n);
    hide After, ServiceAllowed;
  }

  /** Stopping a router stops every topic and no service. */
  lemma {:induction false} StopKeepsServices(initial: Filter, ops: seq<Op>, n: string, k: Key)
    ensures var s, s' := After(initial, ops), After(initial, ops + [OpStop]);
            && !s'.enabled && !Forwarding(s'.topics, k)
            && (Serving(s'.services, n) <==> Serving(s.services, n))
  {
    assert (ops + [OpStop])[..|ops|] == ops;
    ForwardedIffAllowed(initial, ops + [OpStop], k);
    hide Switch, Forwarding;
  }

  /** A run after which a stopped router still has an enabled RPC bridge. */
  lemma {:induction false} ServedWhileStopped(v: RpcTopic, p: Participant, g: Guid)
    ensures var s := After((t: DdsTopic) => true, [OpStart, OpService(v, p, g), OpStop]);
            !s.enabled && Serving(s.services, v.service)
  {
    var f: Filter := (t: DdsTopic) => true;
    var ops := [OpStart, OpService(v, p, g)];
    assert ops[..1] == [OpStart] && [OpStart][..0] == [];
    assert ops + [OpStop] == [OpStart, OpService(v, p, g), OpStop];
    StopKeepsServices(f, ops, v.service, Key("", ""));
    ServedIffServerLeft(f, ops, v.service);
  }

  /**
   The exact condition for a stopped router: what was served at the stop is served as long as its servers never all
   leave, and nothing else is, whatever is discovered, removed or reloaded meanwhile.
   */
  lemma {:induction false} ServedSinceStop(initial: Filter, ops: seq<Op>, later: seq<Op>, n: string)
    requires OpStart !in later
    ensures !After(initial, ops + [OpStop] + later).enabled
    ensures Serving(After(initial, ops + [OpStop] + later).services, n)
       <==> && Serving(After(initial, ops).services, n)
            && forall j :: 0 <= j <= |later| ==> ServersOf(ops + [OpStop] + later[..j], n) != {}
    decreases |later|
  {
    hide Apply, Serving;
    if later == [] {
      assert ops + [OpStop] + later == ops + [OpStop];
      assert forall j :: 0 <= j <= |later| ==> ops + [OpStop] + later[..j] == ops + [OpStop];
      StopKeepsServices(initial, ops, n, Key("", ""));
      ServedIffServerLeft(initial, ops + [OpStop], n);
    } else {
      var m := |later| - 1;
      var run, op := ops + [OpStop] + later[..m], later[m];
      ServedSinceStop(initial, ops, later[..m], n);
      assert (run + [op])[..|run|] == run;
      assert ops + [OpStop] + later == run + [op];
      assert forall j :: 0 <= j <= m ==> later[..m][..j] == later[..j];
      assert later[..m + 1] == later;
      assert op in later;
      RunKeeps(initial, run);
      StoppedStep(After(initial, run), op, n);
      ServersKnown(initial, run + [op], n);
    }
  }

  /** A step of a stopped router enables nothing, and disables what loses its last server. */
  lemma {:induction false} StoppedStep(s: State, op: Op, n: string)
    requires ServicesInv(s.enabled, s.allowed, s.services) && !s.enabled && op != OpStart
    ensures !Apply(s, op).enabled
    ensures Serving(Apply(s, op).services, n)
       <==> Serving(s.services, n) && KnownServers(Apply(s, op).services, n) != {}
  {
    hide Switch, NewTopics, ServiceAllowed;
    assert Serving(s.services, n) ==> HasServer(s.services, n);
  }

  /** Before the first start nothing is served. */
  lemma {:induction false} UnservedBeforeStart(initial: Filter, ops: seq<Op>, n: string)
    requires OpStart !in ops
    ensures !After(initial, ops).enabled && !Serving(After(initial, ops).services, n)
  {
    if ops != [] {
      hide Apply;
      var front := ops[..|ops| - 1];
      UnservedBeforeStart(initial, front, n);
      RunKeeps(initial, front);
      assert ops[|ops| - 1] in ops;
      StoppedStep(After(initial, front), ops[|ops| - 1], n);
    }
  }

  // ----- services as first found -----

  /** The services discovered, in order. */
  ghost function ServicesFound(ops: seq<Op>): seq<RpcTopic> {
    if ops == [] then []
    else
      var op := ops[|ops| - 1];
      ServicesFound(ops[..|ops| - 1]) + if op.OpService? then [op.v] else []
  }

  /** The first of each name. */
  ghost function ServiceFirsts(found: seq<RpcTopic>): map<string, RpcTopic> {
    if found == [] then map[]
    else
      var before, v := ServiceFirsts(found[..|found| - 1]), found[|found| - 1];
      if v.service in before then before else before[v.service := v]
  }

  ghost predicate ServiceFirstAt(found: seq<RpcTopic>, n: string, i: nat) {
    i < |found| && found[i].service == n && forall j :: 0 <= j < i ==> found[j].service != n
  }

  lemma {:induction false} ServiceFirstsLeast(found: seq<RpcTopic>, n: string)
    ensures n in ServiceFirsts(found) ==>
              exists i: nat :: ServiceFirstAt(found, n, i) && ServiceFirsts(found)[n] == found[i]
    ensures forall i :: 0 <= i < |found| && found[i].service == n ==> n in ServiceFirsts(found)
  {
    if found != [] {
      var front := found[..|found| - 1];
      ServiceFirstsLeast(front, n);
      if n in ServiceFirsts(front) {
        var i: nat :| ServiceFirstAt(front, n, i) && ServiceFirsts(front)[n] == front[i];
        assert ServiceFirstAt(found, n, i) && ServiceFirsts(found)[n] == found[i];
      } else if n in ServiceFirsts(found) {
        assert ServiceFirstAt(found, n, |found| - 1);
      }
    }
  }

  /** The services a router knows. */
  ghost function KnownServices(sv: Services): map<string, RpcTopic> {
    map n | n in sv.known :: sv.known[n].topic
  }

  lemma {:induction false} StepServices(s: State, op: Op)
    requires s.services.known.Keys == s.services.rpc.Keys
    ensures var now, was := KnownServices(Apply(s, op).services), KnownServices(s.services);
            now == if op.OpService? && op.v.service !in was then was[op.v.service := op.v] else was
  {
    hide Switch, NewTopics, ReloadTopics, DiscoverNew, ServiceAllowed, EnableRpc, ReloadService;
    match op
    case OpReload(allowed, same, builtin) =>
      DiscoverNewFrame(s.(allowed := allowed, topics := ReloadTopics(s.topics, allowed)),
                       NewTopics(s.topics.known.Keys, builtin));
    case _ =>
  }

  /** The known services are the discovered ones, each as it was first found, and each judged by the current list. */
  lemma {:induction false} ServicesTable(initial: Filter, ops: seq<Op>)
    ensures var s, firsts := After(initial, ops), ServiceFirsts(ServicesFound(ops));
            s.services.known == map n | n in firsts :: Service(firsts[n], ServiceAllowed(s.allowed, firsts[n]))
  {
    hide ServiceAllowed, ServiceFirsts;
    ServicesAreFound(initial, ops);
    RunKeeps(initial, ops);
    var s := After(initial, ops);
    hide After, TopicsInv;
    assert forall n :: n in KnownServices(s.services) <==> n in s.services.known;
  }

  lemma {:induction false} ServicesAreFound(initial: Filter, ops: seq<Op>)
    ensures KnownServices(After(initial, ops).services) == ServiceFirsts(ServicesFound(ops))
  {
    if ops != [] {
      hide Apply, KnownServices;
      var before, op := ops[..|ops| - 1], ops[|ops| - 1];
      ServicesAreFound(initial, before);
      RunKeeps(initial, before);
      StepServices(After(initial, before), op);
      var found := ServicesFound(before);
      if op.OpService? {
        assert (found + [op.v])[..|found|] == found;
      } else {
        assert found + [] == found;
      }
    }
  }

  /**
   While the router is enabled a service is served exactly when the run left it a server and the list allows it as it
   was first found; so one found again with other types is judged as it stands exactly when the list gives both the
   same answer.
   */
  lemma {:induction false} ServiceJudgedAsFirstFound(initial: Filter, ops: seq<Op>, v: RpcTopic)
    requires After(initial, ops).enabled && ServersOf(ops, v.service) != {}
    ensures v.service in ServiceFirsts(ServicesFound(ops))
    ensures var s, first := After(initial, ops), ServiceFirsts(ServicesFound(ops))[v.service];
            && (Serving(s.services, v.service) <==> s.allowed(first.request) && s.allowed(first.reply))
            && ((Serving(s.services, v.service) <==> ServiceAllowed(s.allowed, v))
                <==> ServiceAllowed(s.allowed, v) == ServiceAllowed(s.allowed, first))
  {
    hide Serving, ServersOf, ServiceFirsts;
    ServedIffServerLeft(initial, ops, v.service);
    ServicesTable(initial, ops);
    hide After;
  }

  // ----- the switch and the list -----

  /** Whether the router is enabled: what the last start or stop made it. */
  function SwitchedOn(ops: seq<Op>): bool {
    if ops == [] then false
    else
      var op := ops[|ops| - 1];
      if op.OpStart? then true else if op.OpStop? then false else SwitchedOn(ops[..|ops| - 1])
  }

  /**
   The list in force: that of the last reload given while the router was enabled, except one with a list that compares
   equal and no builtin topic of a new name and type.
   */
  ghost function ListInForce(initial: Filter, ops: seq<Op>): Filter {
    if ops == [] then initial
    else
      var front, op := ops[..|ops| - 1], ops[|ops| - 1];
      if op.OpReload? && SwitchedOn(front)
         && !(op.same && forall i :: 0 <= i < |op.builtin| ==> KeyOf(op.builtin[i]) in Firsts(Found(initial, front)))
      then op.allowed else ListInForce(initial, front)
  }

  lemma {:induction false} StepSwitch(s: State, op: Op)
    ensures Apply(s, op).enabled == (op.OpStart? || (s.enabled && !op.OpStop?))
    ensures Apply(s, op).allowed
         == if op.OpReload? && s.enabled && !(op.same && NewTopics(s.topics.known.Keys, op.builtin) == map[])
            then op.allowed else s.allowed
  {
    hide Switch, NewTopics, ReloadTopics, ReloadServices, DiscoverNew;
    if op.OpReload? {
      DiscoverNewFrame(s.(allowed := op.allowed, topics := ReloadTopics(s.topics, op.allowed)),
                       NewTopics(s.topics.known.Keys, op.builtin));
    }
  }

  /** After every run the switch and the list are those of the last operations that set them. */
  lemma {:induction false} SwitchAndList(initial: Filter, ops: seq<Op>)
    ensures After(initial, ops).enabled == SwitchedOn(ops)
    ensures After(initial, ops).allowed == ListInForce(initial, ops)
  {
    if ops != [] {
      var front, op := ops[..|ops| - 1], ops[|ops| - 1];
      SwitchAndList(initial, front);
      var s := After(initial, front);
      hide Apply;
      StepSwitch(s, op);
      KnownAreFound(initial, front);
      assert Known(s.topics).Keys == s.topics.known.Keys;
      if op.OpReload? {
        NothingNew(s.topics.known.Keys, op.builtin);
      }
      hide Known, NewTopics, Firsts, Found, KeyOf;
    }
  }

  /**
   What is forwarded, from the run alone: the topics found, as first found, that the list in force allows, while the
   router is switched on.
   */
  lemma {:induction false} ForwardedByRun(initial: Filter, ops: seq<Op>, k: Key)
    ensures var firsts := Firsts(Found(initial, ops));
            Forwarding(After(initial, ops).topics, k)
            <==> SwitchedOn(ops) && k in firsts && ListInForce(initial, ops)(firsts[k])
  {
    ForwardedIffAllowed(initial, ops, k);
    TopicsTable(initial, ops);
    SwitchAndList(initial, ops);
    hide After, Firsts, Found, ListInForce, SwitchedOn, Forwarding;
  }
}
