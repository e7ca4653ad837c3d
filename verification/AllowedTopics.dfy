/**
 The topic filter list. A filter is any value with a `matches` and a `contains` relation, so the results hold for
 every kind of filter and, as sets are visited in an arbitrary order, for every processing order.
 */
module AllowedTopics {

  datatype DdsTopic = DdsTopic(name: string, typeName: string, keyed: bool)

  /** A service is allowed when both of its topics are. */
  datatype RpcTopic = RpcTopic(service: string, request: DdsTopic, reply: DdsTopic)

  datatype Filters<!F> = Filters(matches: (F, DdsTopic) -> bool, contains: (F, F) -> bool)

  /** `contains` only holds of a filter that matches everything the other one does. */
  ghost predicate Sound<F(!new)>(fs: Filters<F>) {
    forall f, g, t :: fs.contains(f, g) && fs.matches(g, t) ==> fs.matches(f, t)
  }

  /** Some filter of the list matches the topic. */
  ghost predicate Matched<F>(fs: Filters<F>, list: set<F>, t: DdsTopic) {
    exists f :: f in list && fs.matches(f, t)
  }

  /** The decision on the lists as configured: no allowlist allows everything, the blocklist has the last word. */
  ghost predicate Decision<F>(fs: Filters<F>, allow: set<F>, block: set<F>, t: DdsTopic) {
    (allow == {} || Matched(fs, allow, t)) && !Matched(fs, block, t)
  }

  ghost predicate Irredundant<F>(fs: Filters<F>, list: set<F>) {
    forall f, g :: f in list && g in list && f != g ==> !fs.contains(f, g)
  }

  ghost predicate SameMatches<F(!new)>(fs: Filters<F>, a: set<F>, b: set<F>) {
    forall t :: Matched(fs, a, t) <==> Matched(fs, b, t)
  }

  /** A relation that never holds is sound, and so is one that holds of equal filters only. */
  lemma {:induction false} SimpleContains<F(!new)>(matches: (F, DdsTopic) -> bool)
    ensures Sound(Filters(matches, (f: F, g: F) => false))
    ensures Sound(Filters(matches, (f: F, g: F) => f == g))
  {
  }

  /** get_topic_list_without_repetition_ */
  method WithoutRepetition<F(!new, ==)>(fs: Filters<F>, list: set<F>) returns (result: set<F>)
    requires Sound(fs)
    ensures result <= list && (result == {} <==> list == {})
    ensures SameMatches(fs, list, result)
    ensures Irredundant(fs, result)
  {
    hide SameMatches, Irredundant, Sound;
    result := {};
    var todo := list;
    ghost var seen: set<F> := {};
    NoneMatches(fs);
    while todo != {}
      invariant todo <= list && seen == list - todo && result <= seen
      invariant result == {} <==> seen == {}
      invariant SameMatches(fs, seen, result)
      invariant Irredundant(fs, result)
      decreases |todo|
    {
      var newTopic :| newTopic in todo;
      var addIt, repeated := Redundant(fs, result, newTopic);
      AddKeepsMatches(fs, seen, result, newTopic, addIt, repeated);
      AddKeepsIrredundant(fs, result, newTopic, addIt, repeated);
      assert !addIt ==> result - repeated != {};
      result := if addIt then result - repeated + {newTopic} else result - repeated;
      seen := seen + {newTopic};
      todo := todo - {newTopic};
    }
    assert seen == list;
  }

  lemma {:induction false} NoneMatches<F(!new)>(fs: Filters<F>)
    ensures SameMatches(fs, {}, {}) && Irredundant(fs, {})
  {
  }

  lemma {:induction false} AddKeepsIrredundant<F>(fs: Filters<F>, stored: set<F>, n: F, addIt: bool, repeated: set<F>)
    requires Irredundant(fs, stored)
    requires addIt ==> forall f :: f in stored ==> !fs.contains(f, n)
    requires addIt ==> forall f :: f in stored - repeated ==> !fs.contains(n, f)
    ensures Irredundant(fs, if addIt then stored - repeated + {n} else stored - repeated)
  {
  }

  /** The inner loop: whether `newTopic` must be added, and which stored filters it makes redundant. */
  method Redundant<F(!new, ==)>(fs: Filters<F>, stored: set<F>, newTopic: F) returns (addIt: bool, repeated: set<F>)
    ensures repeated <= stored && forall f :: f in repeated ==> fs.contains(newTopic, f) && !fs.contains(f, newTopic)
    ensures !addIt ==> exists f :: f in stored - repeated && fs.contains(f, newTopic)
    ensures addIt ==> forall f :: f in stored ==> !fs.contains(f, newTopic)
    ensures addIt ==> forall f :: f in stored - repeated ==> !fs.contains(newTopic, f)
  {
    addIt, repeated := true, {};
    var rest := stored;
    while rest != {}
      invariant rest <= stored && repeated <= stored - rest
      invariant forall f :: f in repeated ==> fs.contains(newTopic, f) && !fs.contains(f, newTopic)
      invariant forall f :: f in stored - rest ==> !fs.contains(f, newTopic)
      invariant forall f :: f in stored - rest - repeated ==> !fs.contains(newTopic, f)
      decreases |rest|
    {
      var f :| f in rest;
      if fs.contains(f, newTopic) {
        assert f in stored - repeated;
        return false, repeated;
      } else if fs.contains(newTopic, f) {
        repeated := repeated + {f};
      }
      rest := rest - {f};
    }
  }

  lemma AddKeepsMatches<F(!new)>(
    fs: Filters<F>, seen: set<F>, stored: set<F>, n: F, addIt: bool, repeated: set<F>)
    requires Sound(fs) && SameMatches(fs, seen, stored) && repeated <= stored
    requires forall f :: f in repeated ==> fs.contains(n, f)
    requires !addIt ==> exists f :: f in stored - repeated && fs.contains(f, n)
    ensures SameMatches(fs, seen + {n}, if addIt then stored - repeated + {n} else stored - repeated)
  {
    var stored' := if addIt then stored - repeated + {n} else stored - repeated;
    forall t ensures Matched(fs, seen + {n}, t) <==> Matched(fs, stored', t) {
      if fs.matches(n, t) {
        // the new filter, or the stored one that contains it, matches
        var w :| w in stored' && (w == n || fs.contains(w, n));
        assert fs.matches(w, t);
        assert n in seen + {n};
      } else if Matched(fs, stored, t) {
        var f :| f in stored && fs.matches(f, t);
        assert f !in repeated;
        assert f in stored';
        var g :| g in seen && fs.matches(g, t);
        assert g in seen + {n};
      } else {
        assert forall f :: f in seen ==> !fs.matches(f, t);
      }
    }
  }

  /** AllowedTopicList: both lists are simplified when the object is built. */
  class AllowedTopicList<F(!new, ==)> {
    const fs: Filters<F>
    var allowlist: set<F>
    var blocklist: set<F>
    ghost const rawAllow: set<F>
    ghost const rawBlock: set<F>

    ghost predicate Valid()
      reads this
    {
      && Sound(fs)
      && (allowlist == {} <==> rawAllow == {})
      && SameMatches(fs, rawAllow, allowlist) && SameMatches(fs, rawBlock, blocklist)
    }

    constructor (fs: Filters<F>, allow: set<F>, block: set<F>)
      requires Sound(fs)
      ensures Valid() && this.fs == fs && rawAllow == allow && rawBlock == block
      ensures Irredundant(fs, allowlist) && Irredundant(fs, blocklist)
    {
      var a := WithoutRepetition(fs, allow);
      var b := WithoutRepetition(fs, block);
      this.fs, allowlist, blocklist, rawAllow, rawBlock := fs, a, b, allow, block;
    }

    /** Decides on the simplified lists exactly as the configured lists do. */
    method IsTopicAllowed(topic: DdsTopic) returns (allowed: bool)
      requires Valid()
      ensures allowed <==> Decision(fs, rawAllow, rawBlock, topic)
    {
      var accepted := allowlist == {};
      var rest := allowlist;
      while rest != {}
        invariant rest <= allowlist && (accepted <==> allowlist == {})
        invariant forall f :: f in allowlist - rest ==> !fs.matches(f, topic)
        decreases |rest|
      {
        var f :| f in rest;
        if fs.matches(f, topic) {
          accepted := true;
          assert Matched(fs, allowlist, topic);
          break;
        }
        rest := rest - {f};
      }
      assert accepted <==> allowlist == {} || Matched(fs, allowlist, topic);
      if !accepted {
        return false;
      }
      rest := blocklist;
      while rest != {}
        invariant rest <= blocklist
        invariant forall f :: f in blocklist - rest ==> !fs.matches(f, topic)
        decreases |rest|
      {
        var f :| f in rest;
        if fs.matches(f, topic) {
          assert Matched(fs, blocklist, topic);
          return false;
        }
        rest := rest - {f};
      }
      allowed := true;
    }

    method IsServiceAllowed(topic: RpcTopic) returns (allowed: bool)
      requires Valid()
      ensures allowed <==> Decision(fs, rawAllow, rawBlock, topic.request)
                           && Decision(fs, rawAllow, rawBlock, topic.reply)
    {
      var request := IsTopicAllowed(topic.request);
      if !request {
        return false;
      }
      allowed := IsTopicAllowed(topic.reply);
    }
  }
}
