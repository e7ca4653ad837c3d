/**
 Which topics and services a router forwards: start, stop, reload, discovery and removal. Each operation is a
 function on router values.
 */
module Router {
  import opened AllowedTopics

  type Participant = nat
  type Guid = nat

  /** Topics are ordered by name and type alone: a map keeps the first topic it was given for a key. */
  datatype Key = Key(name: string, typeName: string)

  function KeyOf(t: DdsTopic): Key { Key(t.name, t.typeName) }

  datatype Topic = Topic(topic: DdsTopic, active: bool)

  /** `bridges`: the bridges created, and whether each is enabled. */
  datatype Topics = Topics(known: map<Key, Topic>, bridges: map<Key, bool>)

  datatype Service = Service(topic: RpcTopic, allowed: bool)

  datatype Rpc = Rpc(enabled: bool, servers: set<(Participant, Guid)>)

  datatype Services = Services(known: map<string, Service>, rpc: map<string, Rpc>)

  /** The decision of an allowed topic list. */
  type Filter = DdsTopic -> bool

  datatype State = State(enabled: bool, allowed: Filter, topics: Topics, services: Services)

  datatype ReturnCode = OK | NO_DATA | NOT_ENABLED | PRECONDITION_NOT_MET

  predicate ServiceAllowed(allowed: Filter, v: RpcTopic) {
    allowed(v.request) && allowed(v.reply)
  }

  // ----- one topic -----

  function Activate(ts: Topics, k: Key): Topics
    requires k in ts.known
  {
    Topics(ts.known[k := ts.known[k].(active := true)], ts.bridges[k := true])
  }

  function Deactivate(ts: Topics, k: Key): Topics
    requires k in ts.known
  {
    Topics(ts.known[k := ts.known[k].(active := false)], if k in ts.bridges then ts.bridges[k := false] else ts.bridges)
  }

  function DiscoverTopic(s: State, t: DdsTopic): State {
    if KeyOf(t) in s.topics.known then s
    else
      var added := s.topics.(known := s.topics.known[KeyOf(t) := Topic(t, false)]);
      s.(topics := if s.enabled && s.allowed(t) then Activate(added, KeyOf(t)) else added)
  }

  // ----- one service -----

  /** An RPC bridge without servers does not become enabled. */
  function EnableRpc(r: Rpc): Rpc {
    if r.servers != {} then r.(enabled := true) else r
  }

  function DisableRpc(r: Rpc): Rpc {
    r.(enabled := false)
  }

  function AddService(sv: Services, allowed: Filter, v: RpcTopic): Services {
    if v.service in sv.rpc then sv
    else Services(sv.known[v.service := Service(v, ServiceAllowed(allowed, v))], sv.rpc[v.service := Rpc(false, {})])
  }

  function AddServer(sv: Services, n: string, p: Participant, g: Guid, enable: bool): Services
    requires n in sv.rpc
  {
    var r := sv.rpc[n].(servers := sv.rpc[n].servers + {(p, g)});
    sv.(rpc := sv.rpc[n := if enable then EnableRpc(r) else r])
  }

  function DiscoverService(s: State, v: RpcTopic, p: Participant, g: Guid): State {
    var sv := AddService(s.services, s.allowed, v);
    s.(services := AddServer(sv, v.service, p, g,
                             s.enabled && v.service in sv.known && sv.known[v.service].allowed))
  }

  function RemoveService(s: State, v: RpcTopic, p: Participant, g: Guid): State {
    if v.service !in s.services.rpc then s
    else
      var r := s.services.rpc[v.service];
      var r' := r.(servers := r.servers - {(p, g)});
      s.(services := s.services.(rpc := s.services.rpc[v.service := if r'.servers == {} then DisableRpc(r') else r']))
  }

  // ----- all of them -----

  ghost function SwitchKnown(known: map<Key, Topic>, on: set<Key>, off: set<Key>): map<Key, Topic> {
    map k | k in known :: Topic(known[k].topic, (known[k].active && k !in off) || k in on)
  }

  ghost function SwitchBridges(bridges: map<Key, bool>, on: set<Key>, off: set<Key>): map<Key, bool> {
    map k | k in bridges.Keys + on :: k in on || (k !in off && bridges[k])
  }

  /** The topics of `on` activated and those of `off` deactivated. */
  ghost function Switch(ts: Topics, on: set<Key>, off: set<Key>): Topics {
    Topics(SwitchKnown(ts.known, on, off), SwitchBridges(ts.bridges, on, off))
  }

  /** The known topics that the list allows. */
  ghost function AllowedKeys(ts: Topics, allowed: Filter): set<Key> {
    set k | k in ts.known && allowed(ts.known[k].topic)
  }

  ghost function ActiveKeys(ts: Topics): set<Key> {
    set k | k in ts.known && ts.known[k].active
  }

  ghost function ReloadTopics(ts: Topics, allowed: Filter): Topics {
    Switch(ts, AllowedKeys(ts, allowed) - ActiveKeys(ts), ActiveKeys(ts) - AllowedKeys(ts, allowed))
  }

  /** The bridges of the services in `names`, enabled where the service is marked as allowed. */
  ghost function EnableAllowed(sv: Services, names: set<string>): Services {
    sv.(rpc := map n | n in sv.rpc ::
                 if n in names && n in sv.known && sv.known[n].allowed then EnableRpc(sv.rpc[n]) else sv.rpc[n])
  }

  ghost function ReloadService(r: Rpc, allowed: bool): Rpc {
    if allowed then EnableRpc(r) else DisableRpc(r)
  }

  /** The services in `names` judged again by a new list. */
  ghost function ReloadServices(sv: Services, allowed: Filter, names: set<string>): Services {
    Services(
      map n | n in sv.known ::
        if n in names then Service(sv.known[n].topic, ServiceAllowed(allowed, sv.known[n].topic)) else sv.known[n],
      map n | n in sv.rpc ::
        if n in names && n in sv.known then ReloadService(sv.rpc[n], ServiceAllowed(allowed, sv.known[n].topic))
        else sv.rpc[n])
  }

  /** The builtin topics not known yet, the first of each key. */
  function NewTopics(known: set<Key>, builtin: seq<DdsTopic>): map<Key, DdsTopic> {
    if builtin == [] then map[]
    else
      var before := NewTopics(known, builtin[..|builtin| - 1]);
      var t := builtin[|builtin| - 1];
      if KeyOf(t) in known || KeyOf(t) in before then before else before[KeyOf(t) := t]
  }

  /** The topics found that become active at once. */
  ghost function FoundOn(enabled: bool, allowed: Filter, found: map<Key, DdsTopic>): set<Key> {
    set k | k in found && enabled && allowed(found[k])
  }

  ghost function FoundKnown(known: map<Key, Topic>, found: map<Key, DdsTopic>, on: set<Key>): map<Key, Topic> {
    map k | k in known.Keys + found.Keys :: if k in known then known[k] else Topic(found[k], k in on)
  }

  ghost function DiscoverNew(s: State, found: map<Key, DdsTopic>): State {
    var on := FoundOn(s.enabled, s.allowed, found);
    s.(topics := Topics(FoundKnown(s.topics.known, found, on), SwitchBridges(s.topics.bridges, on, {})))
  }

  ghost function Started(s: State): (State, ReturnCode) {
    if s.enabled then (s, PRECONDITION_NOT_MET)
    else (s.(enabled := true,
             topics := Switch(s.topics, AllowedKeys(s.topics, s.allowed), {}),
             services := EnableAllowed(s.services, s.services.known.Keys)), OK)
  }

  /** The RPC bridges are left alone. */
  ghost function Stopped(s: State): (State, ReturnCode) {
    if !s.enabled then (s, PRECONDITION_NOT_MET)
    else (s.(enabled := false, topics := Switch(s.topics, {}, s.topics.known.Keys)), OK)
  }

  ghost function Reloaded(s: State, allowed: Filter, builtin: seq<DdsTopic>): State {
    var s1 := s.(allowed := allowed, topics := ReloadTopics(s.topics, allowed));
    var s2 := DiscoverNew(s1, NewTopics(s.topics.known.Keys, builtin));
    s2.(services := ReloadServices(s.services, allowed, s.services.known.Keys))
  }

  /** `same`: the two lists print alike, which is how the program compares them. */
  ghost function Reload(s: State, allowed: Filter, same: bool, builtin: seq<DdsTopic>): (State, ReturnCode) {
    if !s.enabled then (s, NOT_ENABLED)
    else if same && NewTopics(s.topics.known.Keys, builtin) == map[] then (s, NO_DATA)
    else (Reloaded(s, allowed, builtin), OK)
  }

  // ----- one more step of a loop -----

  lemma {:induction false} SwitchFacts(ts: Topics, on: set<Key>, off: set<Key>)
    ensures Switch(ts, on, off).known.Keys == ts.known.Keys
    ensures forall k :: k in ts.known && k !in on && k !in off ==> Switch(ts, on, off).known[k] == ts.known[k]
  {
  }

  lemma {:induction false} KeysFacts(ts: Topics, allowed: Filter, k: Key)
    requires k in ts.known
    ensures k in AllowedKeys(ts, allowed) <==> allowed(ts.known[k].topic)
    ensures k in ActiveKeys(ts) <==> ts.known[k].active
  {
  }

  lemma {:induction false} KeysKnown(ts: Topics, allowed: Filter)
    ensures AllowedKeys(ts, allowed) <= ts.known.Keys && ActiveKeys(ts) <= ts.known.Keys
  {
  }

  lemma {:induction false} SwitchBridgesOne(bridges: map<Key, bool>, on: set<Key>, off: set<Key>, k: Key)
    requires k !in on && k !in off
    ensures SwitchBridges(bridges, on + {k}, off) == SwitchBridges(bridges, on, off)[k := true]
    ensures var b := SwitchBridges(bridges, on, off);
            SwitchBridges(bridges, on, off + {k}) == if k in b then b[k := false] else b
  {
  }

  lemma {:induction false} SwitchOn(ts: Topics, on: set<Key>, off: set<Key>, k: Key)
    requires k in ts.known && k !in on && k !in off
    ensures k in Switch(ts, on, off).known
    ensures Switch(ts, on + {k}, off) == Activate(Switch(ts, on, off), k)
  {
    SwitchBridgesOne(ts.bridges, on, off, k);
    hide SwitchBridges;
    assert SwitchKnown(ts.known, on + {k}, off) == Activate(Switch(ts, on, off), k).known;
  }

  lemma {:induction false} SwitchOff(ts: Topics, on: set<Key>, off: set<Key>, k: Key)
    requires k in ts.known && k !in on && k !in off
    ensures k in Switch(ts, on, off).known
    ensures Switch(ts, on, off + {k}) == Deactivate(Switch(ts, on, off), k)
  {
    SwitchBridgesOne(ts.bridges, on, off, k);
    hide SwitchBridges;
    assert SwitchKnown(ts.known, on, off + {k}) == Deactivate(Switch(ts, on, off), k).known;
  }

  lemma {:induction false} SwitchNone(ts: Topics)
    ensures Switch(ts, {}, {}) == ts
  {
    assert SwitchKnown(ts.known, {}, {}) == ts.known;
    assert SwitchBridges(ts.bridges, {}, {}) == ts.bridges;
  }

  lemma {:induction false} FoundKnownOne(
    known: map<Key, Topic>, found: map<Key, DdsTopic>, on: set<Key>, t: DdsTopic, a: bool)
    requires KeyOf(t) !in found && KeyOf(t) !in known && KeyOf(t) !in on
    ensures FoundKnown(known, found[KeyOf(t) := t], if a then on + {KeyOf(t)} else on)
         == FoundKnown(known, found, on)[KeyOf(t) := Topic(t, a)]
  {
  }

  lemma {:induction false} DiscoverOne(s: State, found: map<Key, DdsTopic>, t: DdsTopic)
    requires KeyOf(t) !in found && KeyOf(t) !in s.topics.known
    ensures DiscoverNew(s, found[KeyOf(t) := t]) == DiscoverTopic(DiscoverNew(s, found), t)
  {
    var on, a := FoundOn(s.enabled, s.allowed, found), s.enabled && s.allowed(t);
    assert FoundOn(s.enabled, s.allowed, found[KeyOf(t) := t]) == if a then on + {KeyOf(t)} else on;
    SwitchBridgesOne(s.topics.bridges, on, {}, KeyOf(t));
    FoundKnownOne(s.topics.known, found, on, t, a);
    assert KeyOf(t) !in FoundKnown(s.topics.known, found, on);
    hide FoundOn, FoundKnown, SwitchBridges;
  }

  lemma {:induction false} DiscoverNone(s: State)
    ensures DiscoverNew(s, map[]) == s
  {
    assert FoundOn(s.enabled, s.allowed, map[]) == {};
    assert FoundKnown(s.topics.known, map[], {}) == s.topics.known;
    assert SwitchBridges(s.topics.bridges, {}, {}) == s.topics.bridges;
  }

  lemma {:induction false} EnableOne(sv: Services, names: set<string>, n: string)
    requires sv.known.Keys == sv.rpc.Keys && n in sv.known && n !in names
    ensures EnableAllowed(sv, names).known == sv.known && EnableAllowed(sv, names).rpc.Keys == sv.rpc.Keys
    ensures var sv' := EnableAllowed(sv, names);
            EnableAllowed(sv, names + {n})
            == if sv.known[n].allowed then sv'.(rpc := sv'.rpc[n := EnableRpc(sv'.rpc[n])]) else sv'
  {
    var sv' := EnableAllowed(sv, names);
    assert EnableAllowed(sv, names + {n}).rpc
        == if sv.known[n].allowed then sv'.rpc[n := EnableRpc(sv'.rpc[n])] else sv'.rpc;
  }

  lemma {:induction false} ReloadOne(sv: Services, allowed: Filter, names: set<string>, n: string)
    requires sv.known.Keys == sv.rpc.Keys && n in sv.known && n !in names
    ensures var sv' := ReloadServices(sv, allowed, names);
            && sv'.known.Keys == sv'.rpc.Keys == sv.known.Keys && sv'.known[n] == sv.known[n]
            && ReloadServices(sv, allowed, names + {n})
            == Services(sv'.known[n := sv.known[n].(allowed := ServiceAllowed(allowed, sv.known[n].topic))],
                        sv'.rpc[n := ReloadService(sv'.rpc[n], ServiceAllowed(allowed, sv.known[n].topic))])
  {
    hide ServiceAllowed, ReloadService;
    var sv', sv'' := ReloadServices(sv, allowed, names), ReloadServices(sv, allowed, names + {n});
    assert sv''.known == sv'.known[n := sv.known[n].(allowed := ServiceAllowed(allowed, sv.known[n].topic))];
    assert sv''.rpc == sv'.rpc[n := ReloadService(sv'.rpc[n], ServiceAllowed(allowed, sv.known[n].topic))];
  }

  /** The topic at `i` is the first of its key. */
  ghost predicate FirstAt(list: seq<DdsTopic>, k: Key, i: nat) {
    i < |list| && KeyOf(list[i]) == k && forall j :: 0 <= j < i ==> KeyOf(list[j]) != k
  }

  /** Exactly the unknown keys of the list get a topic, each the first of the list. */
  lemma {:induction false} NewTopicsFirst(known: set<Key>, list: seq<DdsTopic>, k: Key)
    ensures k in NewTopics(known, list) ==>
              k !in known && exists i: nat :: FirstAt(list, k, i) && NewTopics(known, list)[k] == list[i]
    ensures forall i :: 0 <= i < |list| && KeyOf(list[i]) == k && k !in known ==> k in NewTopics(known, list)
  {
    if list != [] {
      hide KeyOf;
      var front := list[..|list| - 1];
      NewTopicsFirst(known, front, k);
      var before, now := NewTopics(known, front), NewTopics(known, list);
      if k in before {
        var i: nat :| FirstAt(front, k, i) && before[k] == front[i];
        assert FirstAt(list, k, i) && now[k] == list[i];
      } else if k in now {
        assert FirstAt(list, k, |list| - 1);
      }
    }
  }

  /** There is no new topic if and only if every name and type of the list is known. */
  lemma {:induction false} NothingNew(known: set<Key>, list: seq<DdsTopic>)
    ensures NewTopics(known, list) == map[] <==> forall i :: 0 <= i < |list| ==> KeyOf(list[i]) in known
  {
    hide KeyOf, NewTopics;
    forall i | 0 <= i < |list|
      ensures KeyOf(list[i]) !in known ==> KeyOf(list[i]) in NewTopics(known, list)
    {
      NewTopicsFirst(known, list, KeyOf(list[i]));
    }
    if k :| k in NewTopics(known, list) {
      NewTopicsFirst(known, list, k);
    } else {
      assert NewTopics(known, list).Keys == {};
    }
  }

  lemma {:induction false} NewTopicsKeyed(known: set<Key>, builtin: seq<DdsTopic>)
    ensures forall k :: k in NewTopics(known, builtin) ==> k !in known && KeyOf(NewTopics(known, builtin)[k]) == k
  {
    if builtin != [] {
      NewTopicsKeyed(known, builtin[..|builtin| - 1]);
    }
  }

  ghost function Initial(initial: Filter): State {
    State(false, initial, Topics(map[], map[]), Services(map[], map[]))
  }
}
