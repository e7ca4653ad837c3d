/** What a Track takes is what arrived: the correct changes, in order, none lost and none twice. */
module TrackArrivals {
  import opened Track
  import opened TrackInvariants

  /** The changes that the reader keeps: all of them while it is enabled, and those of a reliable topic otherwise. */
  ghost function Kept(reliable: bool, arrivals: seq<Arrival>): seq<Data> {
    if arrivals == [] then []
    else
      var a := arrivals[|arrivals| - 1];
      Kept(reliable, arrivals[..|arrivals| - 1]) + if a.on || reliable then [a.d] else []
  }

  /** The correct changes among them, in order. */
  ghost function Correct(ds: seq<Data>): seq<Data> {
    if ds == [] then [] else Correct(ds[..|ds| - 1]) + if ds[|ds| - 1].correct then [ds[|ds| - 1]] else []
  }

  lemma {:induction false} KeptAppend(reliable: bool, arrivals: seq<Arrival>, a: Arrival)
    ensures Kept(reliable, arrivals + [a]) == Kept(reliable, arrivals) + if a.on || reliable then [a.d] else []
  {
    assert (arrivals + [a])[..|arrivals|] == arrivals;
  }

  lemma {:induction false} CorrectConcat(a: seq<Data>, b: seq<Data>)
    ensures Correct(a + b) == Correct(a) + Correct(b)
  {
    if b == [] {
      assert a + b == a;
    } else {
      assert (a + b)[..|a + b| - 1] == a + b[..|b| - 1];
      CorrectConcat(a, b[..|b| - 1]);
    }
  }

  /** Of the correct changes kept, some are taken and the others still wait. */
  ghost predicate Accounted(c: Config, s: State) {
    Correct(Kept(c.reliable, s.h.arrivals)) == s.h.taken + Correct(s.queue)
  }

  lemma {:induction false} HeadOfQueue(q: seq<Data>)
    requires q != []
    ensures Correct(q) == (if q[0].correct then [q[0]] else []) + Correct(q[1..])
  {
    assert q == [q[0]] + q[1..];
    CorrectConcat([q[0]], q[1..]);
    assert Correct([q[0]]) == if q[0].correct then [q[0]] else [] by { assert [q[0]][..0] == []; }
  }

  lemma {:induction false} ArriveAccounts(c: Config, s: State, d: Data)
    requires Accounted(c, s)
    ensures Accounted(c, Do(c, s, Arrive(d)))
  {
    hide Kept, Correct;
    KeptAppend(c.reliable, s.h.arrivals, Arrival(d, s.readerOn));
    CorrectConcat(Kept(c.reliable, s.h.arrivals), [d]);
    CorrectConcat(s.queue, [d]);
    assert Kept(c.reliable, s.h.arrivals) + [] == Kept(c.reliable, s.h.arrivals);
  }

  /** The datum at Keep is the correct one at the head of the queue, not yet taken. */
  lemma {:induction false} LoopAccounts(c: Config, s: State, ok: bool)
    requires Accounted(c, s) && s.loop != Free
    requires s.loop.Keep? ==> s.queue != [] && s.queue[0] == s.loop.d && s.loop.d.correct
    ensures Accounted(c, LoopStep(c, s, ok))
    ensures var s' := LoopStep(c, s, ok);
            s'.loop.Keep? ==> s'.queue != [] && s'.queue[0] == s'.loop.d && s'.loop.d.correct
  {
    hide Kept, Correct;
    if s.queue != [] {
      HeadOfQueue(s.queue);
    }
  }

  ghost predicate KeepInv(s: State) {
    s.loop.Keep? ==> s.queue != [] && s.queue[0] == s.loop.d && s.loop.d.correct
  }

  lemma {:induction false} StepAccounts(c: Config, s: State, a: Action)
    requires Accounted(c, s) && KeepInv(s) && Can(c, s, a)
    ensures Accounted(c, Do(c, s, a)) && KeepInv(Do(c, s, a))
  {
    hide Kept, Correct, LoopStep, ControlStep;
    if a.Arrive? {
      ArriveAccounts(c, s, a.d);
    } else if a.Transmit? {
      LoopAccounts(c, s, a.ok);
    } else if a.AdvanceControl? {
      ControlKeepsQueue(c, s);
    }
  }

  lemma {:induction false} ControlKeepsQueue(c: Config, s: State)
    requires s.control != Idle
    ensures var s' := ControlStep(c, s); s'.queue == s.queue && s'.loop == s.loop && s'.h == s.h
  {
  }

  /**
   Over every run: the correct changes that the reader kept, in the order of their arrival, are the data taken
   followed by the correct ones still unread.
   */
  lemma {:induction false} TakenAreArrivals(c: Config, run: seq<State>, i: nat)
    requires |run| > 0 && run[0] == Init(c) && i < |run|
    requires forall j :: 0 <= j < |run| - 1 ==> Next(c, run[j], run[j + 1])
    ensures Correct(Kept(c.reliable, run[i].h.arrivals)) == run[i].h.taken + Correct(run[i].queue)
    ensures KeepInv(run[i])
  {
    hide Do, Can;
    if i > 0 {
      TakenAreArrivals(c, run, i - 1);
      hide Correct, Kept, KeepInv;
      assert Next(c, run[i - 1], run[(i - 1) + 1]);
      var a :| Can(c, run[i - 1], a) && run[i] == Do(c, run[i - 1], a);
      StepAccounts(c, run[i - 1], a);
    }
  }
}
