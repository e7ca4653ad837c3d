/**
 The database of discovered endpoints. Calls only push operations into a two-buffer queue; one thread applies
 them later and tells the callbacks.
 */
module DiscoveryDatabase {

  type Guid = nat

  datatype Endpoint = Endpoint(
    guid: Guid, kind: nat, topic: nat, discoverer: nat, active: bool, specificQos: nat)

  datatype Operation = Add(e: Endpoint) | Update(e: Endpoint) | Erase(e: Endpoint)

  /** A call of the registered callbacks. */
  datatype Notice = Added(e: Endpoint) | Updated(e: Endpoint) | Erased(e: Endpoint)

  /** Endpoint::operator=, which does not copy the specific QoS. */
  function Assign(target: Endpoint, source: Endpoint): Endpoint {
    source.(specificQos := target.specificQos)
  }

  /** The entities and the callback calls so far. */
  datatype Database = Database(entities: map<Guid, Endpoint>, notices: seq<Notice>)

  /** One operation, applied to the database; an InconsistencyException leaves it as it was. */
  function Apply(db: Database, op: Operation): Database {
    var g := op.e.guid;
    match op
    case Add(e) =>
      if g !in db.entities then Database(db.entities[g := e], db.notices + [Added(e)])
      else if db.entities[g].active then db
      else db.(entities := db.entities[g := Assign(db.entities[g], e)])
    case Update(e) =>
      if g !in db.entities then db
      else Database(db.entities[g := Assign(db.entities[g], e)], db.notices + [Updated(e)])
    case Erase(e) =>
      if g !in db.entities then db
      else Database(db.entities - {g}, db.notices + [Erased(e)])
  }

  /** The sequential meaning of a list of operations. */
  function Fold(db: Database, ops: seq<Operation>): Database {
    if ops == [] then db else Apply(Fold(db, ops[..|ops| - 1]), ops[|ops| - 1])
  }

  const EMPTY_DATABASE := Database(map[], [])

  lemma {:induction false} FoldConcat(db: Database, a: seq<Operation>, b: seq<Operation>)
    ensures Fold(db, a + b) == Fold(Fold(db, a), b)
  {
    if b == [] {
      assert a + b == a;
    } else {
      FoldConcat(db, a, b[..|b| - 1]);
      assert (a + b)[..|a + b| - 1] == a + b[..|b| - 1];
    }
  }

  // ----- the object -----

  class DiscoveryDatabase {
    var background: seq<Operation>
    var foreground: seq<Operation>
    var entities: map<Guid, Endpoint>
    var notices: seq<Notice>

    function Value(): Database
      reads this
    {
      Database(entities, notices)
    }

    constructor ()
      ensures Value() == EMPTY_DATABASE && background == [] && foreground == []
    {
      background, foreground, entities, notices := [], [], map[], [];
    }

    method PushItemToQueue(item: Operation)
      modifies this`background
      ensures background == old(background) + [item]
    {
      background := background + [item];
    }

    method AddEndpoint(e: Endpoint) returns (ok: bool)
      modifies this`entities, this`notices
      ensures Value() == Apply(old(Value()), Add(e))
      ensures ok <==> !(e.guid in old(entities) && old(entities)[e.guid].active)
    {
      if e.guid in entities {
        if entities[e.guid].active {
          return false;
        }
        entities := entities[e.guid := Assign(entities[e.guid], e)];
        return true;
      }
      entities := entities[e.guid := e];
      notices := notices + [Added(e)];
      ok := true;
    }

    method UpdateEndpoint(e: Endpoint) returns (ok: bool)
      modifies this`entities, this`notices
      ensures Value() == Apply(old(Value()), Update(e))
      ensures ok <==> e.guid in old(entities)
    {
      if e.guid !in entities {
        return false;
      }
      entities := entities[e.guid := Assign(entities[e.guid], e)];
      notices := notices + [Updated(e)];
      ok := true;
    }

    method EraseEndpoint(e: Endpoint) returns (ok: bool)
      modifies this`entities, this`notices
      ensures Value() == Apply(old(Value()), Erase(e))
      ensures ok <==> e.guid in old(entities)
    {
      if e.guid !in entities {
        return false;
      }
      entities := entities - {e.guid};
      notices := notices + [Erased(e)];
      ok := true;
    }

    /** Without pushes in between, one round applies everything that was queued, in push order. */
    method ProcessQueue()
      requires foreground == []
      modifies this
      ensures foreground == [] && background == []
      ensures Value() == Fold(old(Value()), old(background))
    {
      ghost var start, all := Value(), background;
      foreground, background := background, [];
      while foreground != []
        invariant background == [] && |foreground| <= |all| && foreground == all[|all| - |foreground|..]
        invariant Value() == Fold(start, all[..|all| - |foreground|])
        decreases |foreground|
      {
        ghost var done := |all| - |foreground|;
        var item := foreground[0];
        assert all[..done + 1][..done] == all[..done];
        var ok;
        match item {
          case Add(e) => ok := AddEndpoint(e);
          case Update(e) => ok := UpdateEndpoint(e);
          case Erase(e) => ok := EraseEndpoint(e);
        }
        foreground := foreground[1..];
      }
      assert all[..|all|] == all;
    }
  }

  // ----- interleaved pushes -----

  /** `applied`: the front of the foreground buffer has been applied and not popped yet. */
  datatype State = State(
    background: seq<Operation>, foreground: seq<Operation>, processing: bool, applied: bool, db: Database,
    pushed: seq<Operation>, processed: seq<Operation>)

  datatype Action = Push(op: Operation) | Swap | ApplyFront | Pop | Finish

  predicate Can(s: State, a: Action) {
    match a
    case Push(_) => true
    case Swap => !s.processing && (s.background != [] || s.foreground != [])
    case ApplyFront => s.processing && !s.applied && s.foreground != []
    case Pop => s.processing && s.applied && s.foreground != []
    case Finish => s.processing && s.foreground == []
  }

  function Do(s: State, a: Action): State
    requires Can(s, a)
  {
    match a
    case Push(op) => s.(background := s.background + [op], pushed := s.pushed + [op])
    case Swap => s.(foreground := s.background, background := [], processing := true)  // the old foreground is cleared
    case ApplyFront =>
      s.(db := Apply(s.db, s.foreground[0]), applied := true, processed := s.processed + [s.foreground[0]])
    case Pop => s.(foreground := s.foreground[1..], applied := false)
    case Finish => s.(processing := false)
  }

  const INITIAL := State([], [], false, false, EMPTY_DATABASE, [], [])

  ghost function After(actions: seq<Action>): State {
    if actions == [] then INITIAL
    else
      var s, a := After(actions[..|actions| - 1]), actions[|actions| - 1];
      if Can(s, a) then Do(s, a) else s
  }

  /** Operations that wait, in the order in which they will be applied. */
  ghost function Waiting(s: State): seq<Operation> {
    (if s.applied && s.foreground != [] then s.foreground[1..] else s.foreground) + s.background
  }

  ghost predicate Inv(s: State) {
    && s.processed + Waiting(s) == s.pushed
    && s.db == Fold(EMPTY_DATABASE, s.processed)
    && (!s.processing ==> s.foreground == [])
    && (s.applied ==> s.foreground != [])
  }

  lemma {:induction false} StepKeeps(s: State, a: Action)
    requires Inv(s) && Can(s, a)
    ensures Inv(Do(s, a))
  {
    var s' := Do(s, a);
    match a
    case Push(op) => assert Waiting(s') == Waiting(s) + [op];
    case Swap => assert Waiting(s') == Waiting(s);
    case ApplyFront =>
      assert Waiting(s) == [s.foreground[0]] + Waiting(s');
      assert s'.processed[..|s'.processed| - 1] == s.processed;
    case Pop => assert Waiting(s') == Waiting(s);
    case Finish =>
  }

  /**
   Under any interleaving of pushes with the double-buffered processing, the endpoint map and the callback calls are
   the fold of the operations processed so far, and those are the pushed ones in push order, none lost or repeated.
   */
  lemma {:induction false} ProcessedInPushOrder(actions: seq<Action>)
    ensures var s := After(actions);
            && s.db == Fold(EMPTY_DATABASE, s.processed)
            && s.processed + Waiting(s) == s.pushed
            && Inv(s)
  {
    if actions != [] {
      var s, a := After(actions[..|actions| - 1]), actions[|actions| - 1];
      ProcessedInPushOrder(actions[..|actions| - 1]);
      if Can(s, a) { StepKeeps(s, a); }
    } else {
      assert Inv(INITIAL);
    }
  }

  /** Steps of the processing thread that may still come when nothing more is pushed. */
  ghost function Rank(s: State): int {
    4 * |s.background| + 2 * |s.foreground| + (if s.processing then 1 else 0) - (if s.applied then 1 else 0)
  }

  /** Pushing is always possible, and every other step brings the end nearer. */
  lemma {:induction false} ProcessingEnds(s: State, a: Action)
    requires Inv(s)
    ensures a.Push? ==> Can(s, a)
    ensures Can(s, a) && !a.Push? ==> 0 <= Rank(Do(s, a)) < Rank(s)
  {
  }

  /** When the processing thread has nothing to do, everything pushed has been processed, in push order. */
  lemma {:induction false} IdleIsProcessed(actions: seq<Action>)
    requires var s := After(actions); !Can(s, Swap) && !Can(s, ApplyFront) && !Can(s, Pop) && !Can(s, Finish)
    ensures var s := After(actions);
            s.processed == s.pushed && s.db == Fold(EMPTY_DATABASE, s.pushed) && !s.processing
  {
    ProcessedInPushOrder(actions);
    hide After, Fold;
    var s := After(actions);
    assert s.processed + [] == s.processed;
  }

  // ----- the callbacks -----

  /** The added and erased callbacks for one guid: true for added. */
  ghost function Calls(notices: seq<Notice>, g: Guid): seq<bool> {
    if notices == [] then []
    else
      var rest, n := Calls(notices[..|notices| - 1], g), notices[|notices| - 1];
      if n.e.guid == g && !n.Updated? then rest + [n.Added?] else rest
  }

  /** Strict alternation that starts with added. */
  ghost predicate Alternating(calls: seq<bool>) {
    forall i :: 0 <= i < |calls| ==> (calls[i] <==> i % 2 == 0)
  }

  lemma CallsAppend(notices: seq<Notice>, n: Notice, g: Guid)
    ensures Calls(notices + [n], g) ==
            if n.e.guid == g && !n.Updated? then Calls(notices, g) + [n.Added?] else Calls(notices, g)
  {
    assert (notices + [n])[..|notices + [n]| - 1] == notices;
  }

  lemma {:induction false} ApplyAlternates(db: Database, op: Operation, g: Guid)
    requires Alternating(Calls(db.notices, g)) && (g in db.entities <==> |Calls(db.notices, g)| % 2 == 1)
    ensures var db' := Apply(db, op);
            Alternating(Calls(db'.notices, g)) && (g in db'.entities <==> |Calls(db'.notices, g)| % 2 == 1)
  {
    hide Calls, Alternating, Assign;
    match op
    case Add(e) =>
      CallsAppend(db.notices, Added(e), g);
      if e.guid == g && g !in db.entities {
        Alternates(Calls(db.notices, g), true);
      }
    case Update(e) => CallsAppend(db.notices, Updated(e), g);
    case Erase(e) =>
      CallsAppend(db.notices, Erased(e), g);
      if e.guid == g && g in db.entities {
        Alternates(Calls(db.notices, g), false);
      }
  }

  lemma {:induction false} Alternates(calls: seq<bool>, call: bool)
    requires Alternating(calls) && (call <==> |calls| % 2 == 0)
    ensures Alternating(calls + [call])
  {
  }

  /**
   For every list of operations and every guid, the added and erased callbacks strictly alternate, starting with
   added, and the guid is in the map exactly when the last of them was added.
   */
  lemma {:induction false} CallbacksAlternate(ops: seq<Operation>, g: Guid)
    ensures var db := Fold(EMPTY_DATABASE, ops);
            && Alternating(Calls(db.notices, g))
            && (g in db.entities <==> |Calls(db.notices, g)| % 2 == 1)
  {
    if ops != [] {
      CallbacksAlternate(ops[..|ops| - 1], g);
      ApplyAlternates(Fold(EMPTY_DATABASE, ops[..|ops| - 1]), ops[|ops| - 1], g);
    }
  }

  /** The specific QoS of the last endpoint announced as added for `g`. */
  ghost function InsertedQos(notices: seq<Notice>, g: Guid): nat {
    if notices == [] then 0
    else
      var n := notices[|notices| - 1];
      if n.Added? && n.e.guid == g then n.e.specificQos else InsertedQos(notices[..|notices| - 1], g)
  }

  /** A stored endpoint keeps the specific QoS it was inserted with, whatever later operations carry. */
  lemma {:induction false} QosIsFirstInserted(ops: seq<Operation>, g: Guid)
    ensures var db := Fold(EMPTY_DATABASE, ops);
            g in db.entities ==> db.entities[g].specificQos == InsertedQos(db.notices, g)
  {
    if ops != [] {
      QosIsFirstInserted(ops[..|ops| - 1], g);
      var front, op := Fold(EMPTY_DATABASE, ops[..|ops| - 1]), ops[|ops| - 1];
      var db := Apply(front, op);
      if |db.notices| > |front.notices| {
        assert db.notices[..|db.notices| - 1] == front.notices;
      }
    }
  }

  lemma {:induction false} FoldOne(db: Database, ops: seq<Operation>, op: Operation)
    ensures Fold(db, ops + [op]) == Apply(Fold(db, ops), op)
  {
    assert (ops + [op])[..|ops|] == ops;
  }

  /**
   After every run, an update of a stored endpoint, and an endpoint added again over an inactive one, are stored as
   they were given if and only if they carry the specific QoS of the insertion.
   */
  lemma {:induction false} StoredAsGivenIff(ops: seq<Operation>, op: Operation)
    requires var db := Fold(EMPTY_DATABASE, ops);
             op.e.guid in db.entities && (op.Update? || (op.Add? && !db.entities[op.e.guid].active))
    ensures var db, db' := Fold(EMPTY_DATABASE, ops), Fold(EMPTY_DATABASE, ops + [op]);
            && op.e.guid in db'.entities
            && (db'.entities[op.e.guid] == op.e <==> op.e.specificQos == InsertedQos(db.notices, op.e.guid))
  {
    QosIsFirstInserted(ops, op.e.guid);
    FoldOne(EMPTY_DATABASE, ops, op);
    hide Fold, InsertedQos;
  }

  /** An endpoint added again over an active one changes nothing. */
  lemma {:induction false} AddedOverActive(ops: seq<Operation>, e: Endpoint)
    requires var db := Fold(EMPTY_DATABASE, ops); e.guid in db.entities && db.entities[e.guid].active
    ensures Fold(EMPTY_DATABASE, ops + [Add(e)]) == Fold(EMPTY_DATABASE, ops)
  {
    FoldOne(EMPTY_DATABASE, ops, Add(e));
    hide Fold;
  }

  /** An endpoint added under an unknown guid is stored and announced as it was given. */
  lemma {:induction false} AddedNew(ops: seq<Operation>, e: Endpoint)
    requires e.guid !in Fold(EMPTY_DATABASE, ops).entities
    ensures var db, db' := Fold(EMPTY_DATABASE, ops), Fold(EMPTY_DATABASE, ops + [Add(e)]);
            db'.entities == db.entities[e.guid := e] && db'.notices == db.notices + [Added(e)]
  {
    FoldOne(EMPTY_DATABASE, ops, Add(e));
    hide Fold;
  }

  /** Operations on an unknown guid other than adding it change nothing. */
  lemma {:induction false} UnknownIgnored(ops: seq<Operation>, op: Operation)
    requires !op.Add? && op.e.guid !in Fold(EMPTY_DATABASE, ops).entities
    ensures Fold(EMPTY_DATABASE, ops + [op]) == Fold(EMPTY_DATABASE, ops)
  {
    FoldOne(EMPTY_DATABASE, ops, op);
    hide Fold;
  }

  /** An update of a stored endpoint is announced as given, and takes over everything but the specific QoS. */
  lemma {:induction false} UpdatedKnown(ops: seq<Operation>, e: Endpoint)
    requires e.guid in Fold(EMPTY_DATABASE, ops).entities
    ensures var db, db' := Fold(EMPTY_DATABASE, ops), Fold(EMPTY_DATABASE, ops + [Update(e)]);
            && db'.entities == db.entities[e.guid := e.(specificQos := db.entities[e.guid].specificQos)]
            && db'.notices == db.notices + [Updated(e)]
  {
    FoldOne(EMPTY_DATABASE, ops, Update(e));
    hide Fold;
  }

  /** An inactive endpoint that is added again takes over everything but the specific QoS, silently. */
  lemma {:induction false} AddedOverInactive(ops: seq<Operation>, e: Endpoint)
    requires var db := Fold(EMPTY_DATABASE, ops); e.guid in db.entities && !db.entities[e.guid].active
    ensures var db, db' := Fold(EMPTY_DATABASE, ops), Fold(EMPTY_DATABASE, ops + [Add(e)]);
            && db'.entities == db.entities[e.guid := e.(specificQos := db.entities[e.guid].specificQos)]
            && db'.notices == db.notices
  {
    FoldOne(EMPTY_DATABASE, ops, Add(e));
    hide Fold;
  }

  /** An erased endpoint is gone, and announced as the operation gave it. */
  lemma {:induction false} ErasedKnown(ops: seq<Operation>, e: Endpoint)
    requires e.guid in Fold(EMPTY_DATABASE, ops).entities
    ensures var db, db' := Fold(EMPTY_DATABASE, ops), Fold(EMPTY_DATABASE, ops + [Erase(e)]);
            db'.entities == db.entities - {e.guid} && db'.notices == db.notices + [Erased(e)]
  {
    FoldOne(EMPTY_DATABASE, ops, Erase(e));
    hide Fold;
  }
}
