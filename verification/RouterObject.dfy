/**
 DDSRouterImpl, updated in place by the loops of the program. Its mutex makes every operation one step. Between
 operations it always satisfies what the run theorems state: exactly the allowed topics of an enabled router are
 active and forwarded, and services are served as their list and servers demand.
 */
module RouterObject {
  import opened AllowedTopics
  import opened Router
  import opened RouterTheorems

  /** The builtin topics of a configuration, discovered in order. */
  ghost function Builtins(builtin: seq<DdsTopic>): seq<Op> {
    if builtin == [] then []
    else Builtins(builtin[..|builtin| - 1]) + [OpTopic(builtin[|builtin| - 1])]
  }

  /** Nothing but the topic of key `k` differs. */
  ghost predicate OnlyTopic(was: Topics, now: Topics, k: Key) {
    forall j :: j != k ==>
      && (Forwarding(now, j) <==> Forwarding(was, j)) && (j in now.known <==> j in was.known)
      && (j in was.known ==> now.known[j] == was.known[j])
  }

  /** Nothing but the service `n` differs. */
  ghost predicate OnlyService(was: Services, now: Services, n: string) {
    forall m :: m != n ==>
      && (Serving(now, m) <==> Serving(was, m)) && KnownServers(now, m) == KnownServers(was, m)
      && (m in now.known <==> m in was.known) && (m in was.known ==> now.known[m] == was.known[m])
  }

  lemma {:induction false} DiscoverTopicFacts(s: State, t: DdsTopic)
    ensures DiscoverTopic(s, t) == s.(topics := DiscoverTopic(s, t).topics)
    ensures OnlyTopic(s.topics, DiscoverTopic(s, t).topics, KeyOf(t)) && KeyOf(t) in DiscoverTopic(s, t).topics.known
    ensures DiscoverTopic(s, t).topics.known[KeyOf(t)].topic
         == if KeyOf(t) in s.topics.known then s.topics.known[KeyOf(t)].topic else t
  {
    hide KeyOf;
  }

  lemma {:induction false} DiscoverServiceFacts(s: State, v: RpcTopic, p: Participant, g: Guid)
    requires ServicesInv(s.enabled, s.allowed, s.services)
    ensures var sv := DiscoverService(s, v, p, g).services;
            && OnlyService(s.services, sv, v.service) && v.service in sv.known
            && KnownServers(sv, v.service) == KnownServers(s.services, v.service) + {(p, g)}
            && (Serving(sv, v.service)
                <==> Serving(s.services, v.service) || (s.enabled && sv.known[v.service].allowed))
            && sv.known[v.service].topic
            == if v.service in s.services.known then s.services.known[v.service].topic else v
  {
    hide ServiceAllowed;
  }

  lemma {:induction false} RemoveServiceFacts(s: State, v: RpcTopic, p: Participant, g: Guid)
    requires ServicesInv(s.enabled, s.allowed, s.services)
    ensures var sv := RemoveService(s, v, p, g).services;
            && OnlyService(s.services, sv, v.service) && sv.known == s.services.known
            && KnownServers(sv, v.service) == KnownServers(s.services, v.service) - {(p, g)}
            && (Serving(sv, v.service) <==> Serving(s.services, v.service) && KnownServers(sv, v.service) != {})
  {
    hide ServiceAllowed;
    assert Serving(s.services, v.service) ==> HasServer(s.services, v.service);
  }

  class DDSRouter {
    var enabled: bool
    var allowed: Filter
    var topics: Topics
    var services: Services

    ghost function Value(): State
      reads this
    {
      State(enabled, allowed, topics, services)
    }

    ghost predicate TopicsValid()
      reads this
    {
      TopicsInv(enabled, allowed, topics)
    }

    ghost predicate ServicesValid()
      reads this
    {
      ServicesInv(enabled, allowed, services)
    }

    ghost predicate Valid()
      reads this
    {
      TopicsValid() && ServicesValid()
    }

    /** The builtin topics are discovered before the router can be started. */
    constructor (initial: Filter, builtin: seq<DdsTopic>)
      ensures Valid() && !enabled && Value() == After(initial, Builtins(builtin))
    {
      enabled, allowed, topics, services := false, initial, Topics(map[], map[]), Services(map[], map[]);
      new;
      hide TopicsInv, ServicesInv, Apply;
      RunKeeps(initial, []);
      for i := 0 to |builtin|
        invariant Value() == After(initial, Builtins(builtin[..i])) && TopicsValid() && !enabled
        invariant services == Services(map[], map[]) && allowed == initial
      {
        ghost var ops := Builtins(builtin[..i]);
        DiscoveredTopic(builtin[i]);
        assert builtin[..i + 1][..i] == builtin[..i];
        assert (ops + [OpTopic(builtin[i])])[..|ops|] == ops;
        ApplyTopic(After(initial, ops), builtin[i]);
      }
      assert builtin[..|builtin|] == builtin;
      RunKeeps(initial, Builtins(builtin));
    }

    method ActivateTopic(k: Key)
      requires k in topics.known
      modifies this`topics
      ensures topics == Activate(old(topics), k)
    {
      topics := topics.(known := topics.known[k := topics.known[k].(active := true)]);
      topics := topics.(bridges := topics.bridges[k := true]);
    }

    method DeactivateTopic(k: Key)
      requires k in topics.known
      modifies this`topics
      ensures topics == Deactivate(old(topics), k)
    {
      topics := topics.(known := topics.known[k := topics.known[k].(active := false)]);
      if k in topics.bridges {
        topics := topics.(bridges := topics.bridges[k := false]);
      }
    }

    /** The topic is known, as it was first found, and forwarded exactly when an enabled router allows that one. */
    method DiscoveredTopic(t: DdsTopic)
      requires TopicsValid()
      modifies this`topics
      ensures TopicsValid() && Value() == DiscoverTopic(old(Value()), t)
      ensures KeyOf(t) in topics.known && OnlyTopic(old(topics), topics, KeyOf(t))
      ensures topics.known[KeyOf(t)].topic
           == if KeyOf(t) in old(topics).known then old(topics).known[KeyOf(t)].topic else t
      ensures Forwarding(topics, KeyOf(t)) <==> enabled && allowed(topics.known[KeyOf(t)].topic)
    {
      ghost var s := Value();
      DiscoverTopicKeeps(s, t);
      DiscoverTopicFacts(s, t);
      ForwardingAt(s.enabled, s.allowed, DiscoverTopic(s, t).topics, KeyOf(t));
      hide TopicsInv, OnlyTopic, Forwarding, KeyOf;
      if KeyOf(t) in topics.known {
        return;
      }
      topics := topics.(known := topics.known[KeyOf(t) := Topic(t, false)]);
      if enabled && allowed(t) {
        ActivateTopic(KeyOf(t));
      }
    }

    /** The server is known, even of a service not allowed, and the service served where it may be. */
    method DiscoveredService(v: RpcTopic, p: Participant, g: Guid)
      requires ServicesValid()
      modifies this`services
      ensures ServicesValid() && Value() == DiscoverService(old(Value()), v, p, g)
      ensures OnlyService(old(services), services, v.service) && v.service in services.known
      ensures KnownServers(services, v.service) == KnownServers(old(services), v.service) + {(p, g)}
      ensures Serving(services, v.service)
         <==> Serving(old(services), v.service) || (enabled && ServiceAllowed(allowed, services.known[v.service].topic))
    {
      hide ServicesInv, OnlyService, KnownServers, Serving;
      ghost var s := Value();
      ServicesShape(enabled, allowed, services);
      DiscoverServiceKeeps(s, v, p, g);
      DiscoverServiceFacts(s, v, p, g);
      AllowedAt(s.enabled, s.allowed, DiscoverService(s, v, p, g).services, v.service);
      if v.service !in services.rpc {
        services := services.(rpc := services.rpc[v.service := Rpc(false, {})]);
        services := services.(known := services.known[v.service := Service(v, allowed(v.request) && allowed(v.reply))]);
      }
      var r := services.rpc[v.service];
      services := services.(rpc := services.rpc[v.service := r.(servers := r.servers + {(p, g)})]);
      if enabled && services.known[v.service].allowed {
        services := services.(rpc := services.rpc[v.service := EnableRpc(services.rpc[v.service])]);
      }
      assert services.rpc == DiscoverService(s, v, p, g).services.rpc;
    }

    /** The server is gone, and with the last one the service. */
    method RemovedService(v: RpcTopic, p: Participant, g: Guid)
      requires ServicesValid()
      modifies this`services
      ensures ServicesValid() && Value() == RemoveService(old(Value()), v, p, g)
      ensures OnlyService(old(services), services, v.service) && services.known == old(services).known
      ensures KnownServers(services, v.service) == KnownServers(old(services), v.service) - {(p, g)}
      ensures Serving(services, v.service)
         <==> Serving(old(services), v.service) && KnownServers(services, v.service) != {}
    {
      ghost var s := Value();
      RemoveServiceKeeps(s, v, p, g);
      RemoveServiceFacts(s, v, p, g);
      hide ServicesInv, OnlyService, KnownServers, Serving;
      if v.service in services.rpc {
        var r := services.rpc[v.service];
        r := r.(servers := r.servers - {(p, g)});
        services := services.(rpc := services.rpc[v.service := if r.servers == {} then DisableRpc(r) else r]);
      }
    }

    method ActivateAllTopics()
      modifies this`topics
      ensures topics == Switch(old(topics), AllowedKeys(old(topics), allowed), {})
    {
      hide Switch, Activate, KeyOf;
      ghost var before := topics;
      ghost var on := {};
      var todo := topics.known.Keys;
      SwitchNone(before);
      while todo != {}
        invariant todo <= before.known.Keys
        invariant on == AllowedKeys(before, allowed) - todo
        invariant topics == Switch(before, on, {})
        decreases |todo|
      {
        var k :| k in todo;
        SwitchFacts(before, on, {});
        if allowed(topics.known[k].topic) {
          ActivateTopic(k);
          SwitchOn(before, on, {}, k);
          on := on + {k};
        }
        todo := todo - {k};
      }
      assert on == AllowedKeys(before, allowed);
    }

    method DeactivateAllTopics()
      modifies this`topics
      ensures topics == Switch(old(topics), {}, old(topics).known.Keys)
    {
      hide Switch, Deactivate, KeyOf;
      ghost var before := topics;
      ghost var off := {};
      var todo := topics.known.Keys;
      SwitchNone(before);
      while todo != {}
        invariant todo <= before.known.Keys
        invariant off == before.known.Keys - todo
        invariant topics == Switch(before, {}, off)
        decreases |todo|
      {
        var k :| k in todo;
        SwitchFacts(before, {}, off);
        DeactivateTopic(k);
        SwitchOff(before, {}, off, k);
        off := off + {k};
        todo := todo - {k};
      }
      assert off == before.known.Keys;
    }

    /** Makes the services of a router that has just been started as they must be. */
    method EnableServices()
      requires ServicesInv(false, allowed, services)
      modifies this`services
      ensures ServicesInv(true, allowed, services)
      ensures services == EnableAllowed(old(services), old(services).known.Keys)
    {
      hide ServicesInv, EnableRpc;
      ghost var before := services;
      ServicesShape(false, allowed, services);
      EnableAllowedKeeps(false, allowed, services);
      ghost var done := {};
      var todo := services.known.Keys;
      assert EnableAllowed(before, {}).rpc == before.rpc;
      hide EnableAllowed;
      while todo != {}
        invariant todo <= before.known.Keys && services.known.Keys == services.rpc.Keys
        invariant done == before.known.Keys - todo
        invariant services == EnableAllowed(before, done)
        decreases |todo|
      {
        var n :| n in todo;
        EnableOne(before, done, n);
        if services.known[n].allowed {
          services := services.(rpc := services.rpc[n := EnableRpc(services.rpc[n])]);
        }
        done := done + {n};
        todo := todo - {n};
      }
      assert done == before.known.Keys;
    }

    /** The return code says whether the router was stopped; either way it is enabled and forwards what it allows. */
    method Start() returns (code: ReturnCode)
      requires Valid()
      modifies this
      ensures Valid() && enabled && (Value(), code) == Started(old(Value()))
      ensures code == if old(enabled) then PRECONDITION_NOT_MET else OK
    {
      hide TopicsInv, ServicesInv, Switch, EnableAllowed, AllowedKeys;
      if enabled {
        return PRECONDITION_NOT_MET;
      }
      StartKeeps(Value());
      enabled := true;
      ActivateAllTopics();
      EnableServices();
      code := OK;
    }

    /** Either way the router ends stopped; the services stay as they are. */
    method Stop() returns (code: ReturnCode)
      requires Valid()
      modifies this
      ensures Valid() && !enabled && (Value(), code) == Stopped(old(Value()))
      ensures code == if old(enabled) then OK else PRECONDITION_NOT_MET
      ensures services == old(services)
    {
      hide TopicsInv, Switch, ServiceAllowed;
      if !enabled {
        return PRECONDITION_NOT_MET;
      }
      StopKeeps(Value());
      enabled := false;
      DeactivateAllTopics();
      code := OK;
    }

    method JudgeTopic(k: Key)
      requires k in topics.known
      modifies this`topics
      ensures var t := old(topics).known[k];
              topics == if t.active && !allowed(t.topic) then Deactivate(old(topics), k)
                        else if !t.active && allowed(t.topic) then Activate(old(topics), k) else old(topics)
    {
      if topics.known[k].active {
        if !allowed(topics.known[k].topic) {
          DeactivateTopic(k);
        }
      } else {
        if allowed(topics.known[k].topic) {
          ActivateTopic(k);
        }
      }
    }

    /** Judges the topics by the list that replaced `was`. */
    method ReloadAllTopics(ghost was: Filter)
      requires enabled && TopicsInv(true, was, topics)
      modifies this`topics
      ensures TopicsValid() && topics == ReloadTopics(old(topics), allowed)
    {
      hide TopicsInv, Switch, Activate, Deactivate, KeyOf, AllowedKeys, ActiveKeys;
      ReloadTopicsKeeps(was, topics, allowed);
      ghost var before := topics;
      ghost var on, off := {}, {};
      var todo := topics.known.Keys;
      KeysKnown(before, allowed);
      SwitchNone(before);
      while todo != {}
        invariant todo <= before.known.Keys
        invariant on == AllowedKeys(before, allowed) - ActiveKeys(before) - todo
        invariant off == ActiveKeys(before) - AllowedKeys(before, allowed) - todo
        invariant topics == Switch(before, on, off)
        decreases |todo|
      {
        var k :| k in todo;
        SwitchFacts(before, on, off);
        KeysFacts(before, allowed, k);
        ghost var t := topics.known[k];
        JudgeTopic(k);
        if t.active && !allowed(t.topic) {
          SwitchOff(before, on, off, k);
          off := off + {k};
        } else if !t.active && allowed(t.topic) {
          SwitchOn(before, on, off, k);
          on := on + {k};
        }
        todo := todo - {k};
      }
      assert on == AllowedKeys(before, allowed) - ActiveKeys(before);
      assert off == ActiveKeys(before) - AllowedKeys(before, allowed);
    }

    /** The builtin topics not known yet: of topics with one name and type, the first. */
    method NewBuiltinTopics(builtin: seq<DdsTopic>) returns (found: map<Key, DdsTopic>)
      ensures forall k :: k in found ==>
                k !in topics.known && exists i: nat :: FirstAt(builtin, k, i) && found[k] == builtin[i]
      ensures forall i :: 0 <= i < |builtin| && KeyOf(builtin[i]) !in topics.known ==> KeyOf(builtin[i]) in found
      ensures found == NewTopics(topics.known.Keys, builtin)
    {
      hide KeyOf;
      found := map[];
      for i := 0 to |builtin|
        invariant found == NewTopics(topics.known.Keys, builtin[..i])
      {
        var t := builtin[i];
        assert builtin[..i + 1][..i] == builtin[..i];
        if KeyOf(t) !in topics.known && KeyOf(t) !in found {
          found := found[KeyOf(t) := t];
        }
      }
      assert builtin[..|builtin|] == builtin;
      hide NewTopics;
      forall k
        ensures k in found ==>
                  k !in topics.known && exists i: nat :: FirstAt(builtin, k, i) && found[k] == builtin[i]
        ensures forall i :: 0 <= i < |builtin| && KeyOf(builtin[i]) == k && k !in topics.known ==> k in found
      {
        NewTopicsFirst(topics.known.Keys, builtin, k);
      }
    }

    method DiscoverAll(found: map<Key, DdsTopic>)
      requires TopicsValid()
      requires forall k :: k in found ==> k !in topics.known && KeyOf(found[k]) == k
      modifies this`topics
      ensures TopicsValid() && Value() == DiscoverNew(old(Value()), found)
    {
      hide TopicsInv, OnlyTopic, Forwarding;
      ghost var before := Value();
      var todo := found.Keys;
      ghost var done: map<Key, DdsTopic> := map[];
      DiscoverNone(before);
      hide DiscoverNew, DiscoverTopic;
      while todo != {}
        invariant TopicsValid() && todo <= found.Keys
        invariant done == map k | k in found && k !in todo :: found[k]
        invariant Value() == DiscoverNew(before, done)
        decreases |todo|
      {
        var k :| k in todo;
        DiscoveredTopic(found[k]);
        DiscoverOne(before, done, found[k]);
        done := done[k := found[k]];
        todo := todo - {k};
      }
      assert done == found;
    }

    method JudgeService(n: string)
      requires n in services.known && n in services.rpc
      modifies this`services
      ensures var v := old(services).known[n];
              services == Services(old(services).known[n := v.(allowed := ServiceAllowed(allowed, v.topic))],
                                   old(services).rpc[n := ReloadService(old(services).rpc[n],
                                                                        ServiceAllowed(allowed, v.topic))])
    {
      var v := services.known[n];
      if allowed(v.topic.request) && allowed(v.topic.reply) {
        services := Services(services.known[n := v.(allowed := true)], services.rpc[n := EnableRpc(services.rpc[n])]);
      } else {
        services := Services(services.known[n := v.(allowed := false)], services.rpc[n := DisableRpc(services.rpc[n])]);
      }
    }

    /** Judges the services by the list that replaced `was`. */
    method ReloadAllServices(ghost was: Filter)
      requires enabled && ServicesInv(true, was, services)
      modifies this`services
      ensures ServicesValid() && services == ReloadServices(old(services), allowed, old(services).known.Keys)
    {
      hide ServicesInv, EnableRpc, DisableRpc, ReloadService, ServiceAllowed;
      ghost var before := services;
      ServicesShape(true, was, services);
      ReloadServicesKeeps(true, was, services, allowed);
      ghost var done := {};
      var todo := services.known.Keys;
      assert ReloadServices(before, allowed, {}).rpc == before.rpc;
      assert ReloadServices(before, allowed, {}).known == before.known;
      hide ReloadServices;
      while todo != {}
        invariant todo <= before.known.Keys && services.known.Keys == services.rpc.Keys
        invariant done == before.known.Keys - todo
        invariant services == ReloadServices(before, allowed, done)
        decreases |todo|
      {
        var n :| n in todo;
        ReloadOne(before, allowed, done, n);
        JudgeService(n);
        done := done + {n};
        todo := todo - {n};
      }
      assert done == before.known.Keys;
    }

    /** An accepted reload leaves the router as its new list demands; any other changes nothing. */
    method ReloadConfiguration(newList: Filter, same: bool, builtin: seq<DdsTopic>) returns (code: ReturnCode)
      requires Valid()
      modifies this
      ensures Valid() && (Value(), code) == Reload(old(Value()), newList, same, builtin)
      ensures code == NOT_ENABLED <==> !old(enabled)
      ensures code == NO_DATA <==>
                old(enabled) && same && forall i :: 0 <= i < |builtin| ==> KeyOf(builtin[i]) in old(topics).known
      ensures code in {OK, NO_DATA, NOT_ENABLED}
      ensures code == OK ==> enabled && allowed == newList
      ensures code != OK ==> Value() == old(Value())
    {
      NothingNew(topics.known.Keys, builtin);
      hide TopicsInv, ServicesInv, NewTopics, ReloadTopics, ReloadServices, DiscoverNew, FirstAt;
      if !enabled {
        return NOT_ENABLED;
      }
      var found := NewBuiltinTopics(builtin);
      if same && found == map[] {
        return NO_DATA;
      }
      NewTopicsKeyed(topics.known.Keys, builtin);
      ghost var was := allowed;
      allowed := newList;
      ReloadAllTopics(was);
      ReloadKeys(old(topics), allowed);
      DiscoverNewFrame(Value(), found);
      DiscoverAll(found);
      ReloadAllServices(was);
      code := OK;
    }
  }

  lemma {:induction false} ApplyTopic(s: State, t: DdsTopic)
    ensures Apply(s, OpTopic(t)) == DiscoverTopic(s, t)
  {
  }

  lemma {:induction false} ServicesShape(enabled: bool, allowed: Filter, sv: Services)
    requires ServicesInv(enabled, allowed, sv)
    ensures sv.known.Keys == sv.rpc.Keys
  {
  }

  lemma {:induction false} ForwardingAt(enabled: bool, allowed: Filter, ts: Topics, k: Key)
    requires TopicsInv(enabled, allowed, ts) && k in ts.known
    ensures Forwarding(ts, k) <==> enabled && allowed(ts.known[k].topic)
  {
  }

  lemma {:induction false} AllowedAt(enabled: bool, allowed: Filter, sv: Services, n: string)
    requires ServicesInv(enabled, allowed, sv) && n in sv.known
    ensures sv.known[n].allowed <==> ServiceAllowed(allowed, sv.known[n].topic)
  {
  }
}
