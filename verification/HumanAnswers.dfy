/** Which question an answer was given for: the protocol of the pause gate with every question
    counted, every resumer marked with the question it took its worker for, and every answer
    in a response channel with the question it answers. The code records none of this. */
module HumanAnswers {
  import opened HumanGate

  datatype Tagged = Tagged(s: State, asked: map<string, nat>, takenFor: map<nat, nat>, heldFor: map<string, nat>)

  const BEGIN := Tagged(START, map[], map[], map[])

  /** How many questions a worker has asked. */
  function AskedBy(x: Tagged, t: string): nat {
    if t in x.asked then x.asked[t] else 0
  }

  function Mark(x: Tagged, r: nat): nat {
    if r in x.takenFor then x.takenFor[r] else 0
  }

  function Step(x: Tagged, e: Event): Tagged {
    if !Enabled(x.s, e) then x
    else
      var y := x.(s := Apply(x.s, e));
      match e
      case Register(t) => y.(asked := x.asked[t := AskedBy(x, t) + 1])
      case Take(r, t) => y.(takenFor := x.takenFor[r := AskedBy(x, t)])
      case Send(r) => y.(heldFor := x.heldFor[x.s.resumers[r].target := Mark(x, r)])
      case _ => y
  }

  function Walk(x: Tagged, events: seq<Event>): Tagged {
    if events == [] then x else Step(Walk(x, events[..|events| - 1]), events[|events| - 1])
  }

  /** The marks change nothing about the protocol. */
  lemma {:induction false} WalkIsRun(x: Tagged, events: seq<Event>)
    ensures Walk(x, events).s == Run(x.s, events)
  {
    hide Enabled, Apply;
    if events != [] { WalkIsRun(x, events[..|events| - 1]); }
  }

  lemma {:induction false} WalksCompose(x: Tagged, first: seq<Event>, second: seq<Event>)
    ensures Walk(Walk(x, first), second) == Walk(x, first + second)
  {
    hide Step;
    if second == [] {
      assert first + second == first;
    } else {
      var front := second[..|second| - 1];
      WalksCompose(x, first, front);
      assert (first + second)[..|first + second| - 1] == first + front;
    }
  }

  lemma OneWalk(x: Tagged, a: Event)
    ensures Walk(x, [a]) == Step(x, a)
  {
    assert [a][..0] == [];
  }

  lemma FourWalks(x: Tagged, a: Event, b: Event, c: Event, d: Event)
    ensures Walk(x, [a, b, c, d]) == Step(Step(Step(Step(x, a), b), c), d)
  {
    hide Step;
    OneWalk(x, a);
    assert [a, b][..1] == [a] && [a, b, c][..2] == [a, b] && [a, b, c, d][..3] == [a, b, c];
    assert Walk(x, [a, b]) == Step(Step(x, a), b);
    assert Walk(x, [a, b, c]) == Step(Step(Step(x, a), b), c);
  }

  /** The answer in a worker's channel was given for the question it asked last. */
  predicate Belongs(x: Tagged, t: string) {
    t in x.heldFor && x.heldFor[t] == AskedBy(x, t)
  }

  /** A waiting worker can receive an answer that was given for an earlier question. */
  predicate Misdelivers(x: Tagged, t: string) {
    Enabled(x.s, Receive(t)) && !Belongs(x, t)
  }

  // ---- Exactly when an answer belongs ----

  /** The n-th event of the run asks a question for t. */
  predicate AsksAt(events: seq<Event>, n: nat, t: string)
    requires n < |events|
  {
    events[n] == Register(t) && Enabled(Run(START, events[..n]), events[n])
  }

  function Asked(events: seq<Event>, t: string): nat {
    if events == [] then 0
    else Asked(events[..|events| - 1], t) + if AsksAt(events, |events| - 1, t) then 1 else 0
  }

  /** The position at which a resumer last took a worker. */
  function TookAt(events: seq<Event>, r: nat): (k: nat)
    ensures k <= |events|
  {
    if events == [] then 0
    else
      var front, e := events[..|events| - 1], events[|events| - 1];
      if e.Take? && e.r == r && Enabled(Run(START, front), e) then |front| else TookAt(front, r)
  }

  predicate SendsTo(s: State, e: Event, t: string) {
    e.Send? && Enabled(s, e) && s.resumers[e.r].target == t
  }

  /** The position at which the resumer of the answer last sent to a worker took that worker. */
  function GivenAt(events: seq<Event>, t: string): (k: nat)
    ensures k <= |events|
  {
    if events == [] then 0
    else
      var front, e := events[..|events| - 1], events[|events| - 1];
      if SendsTo(Run(START, front), e, t) then TookAt(front, e.r) else GivenAt(front, t)
  }

  lemma {:induction false} AskedIs(events: seq<Event>, t: string)
    ensures AskedBy(Walk(BEGIN, events), t) == Asked(events, t)
  {
    if events != [] {
      var front, e := events[..|events| - 1], events[|events| - 1];
      AskedIs(front, t);
      WalkIsRun(BEGIN, front);
      hide Run, Enabled, Apply;
    }
  }

  lemma {:induction false} TakenForIs(events: seq<Event>, r: nat)
    requires r in Run(START, events).resumers
    ensures var x := Walk(BEGIN, events);
            r in x.takenFor && x.takenFor[r] == Asked(events[..TookAt(events, r)], Run(START, events).resumers[r].target)
  {
    WalkIsRun(BEGIN, events);
    if events != [] {
      var front, e := events[..|events| - 1], events[|events| - 1];
      WalkIsRun(BEGIN, front);
      TakenStep(Walk(BEGIN, front), e, r);
      if e.Take? && e.r == r && Enabled(Run(START, front), e) {
        AskedIs(front, e.t);
        assert events[..|front|] == front;
      } else {
        hide Run, Enabled, Apply, Step;
        TakenForIs(front, r);
        assert events[..TookAt(front, r)] == front[..TookAt(front, r)];
      }
    }
  }

  lemma TakenStep(x: Tagged, e: Event, r: nat)
    requires r in Step(x, e).s.resumers
    ensures var y := Step(x, e);
            if e.Take? && e.r == r && Enabled(x.s, e) then
              r in y.takenFor && y.takenFor[r] == AskedBy(x, e.t) && y.s.resumers[r].target == e.t
            else
              r in x.s.resumers && y.s.resumers[r].target == x.s.resumers[r].target
              && (r in x.takenFor ==> r in y.takenFor && y.takenFor[r] == x.takenFor[r])
  {
  }

  lemma {:induction false} HeldForIs(events: seq<Event>, t: string)
    requires t in Run(START, events).inbox
    ensures var x := Walk(BEGIN, events);
            t in x.heldFor && x.heldFor[t] == Asked(events[..GivenAt(events, t)], t)
  {
    WalkIsRun(BEGIN, events);
    if events != [] {
      var front, e := events[..|events| - 1], events[|events| - 1];
      WalkIsRun(BEGIN, front);
      HeldStep(Walk(BEGIN, front), e, t);
      if SendsTo(Run(START, front), e, t) {
        TakenForIs(front, e.r);
        assert events[..TookAt(front, e.r)] == front[..TookAt(front, e.r)];
      } else {
        hide Run, Enabled, Apply, Step, SendsTo;
        HeldForIs(front, t);
        assert events[..GivenAt(front, t)] == front[..GivenAt(front, t)];
      }
    }
  }

  lemma HeldStep(x: Tagged, e: Event, t: string)
    requires t in Step(x, e).s.inbox
    ensures var y := Step(x, e);
            if SendsTo(x.s, e, t) then t in y.heldFor && y.heldFor[t] == Mark(x, e.r)
            else t in x.s.inbox && (t in x.heldFor ==> t in y.heldFor && y.heldFor[t] == x.heldFor[t])
  {
  }

  lemma {:induction false} AskedSince(events: seq<Event>, k: nat, t: string)
    requires k <= |events|
    ensures Asked(events[..k], t) <= Asked(events, t)
    ensures Asked(events[..k], t) == Asked(events, t) <==> forall n :: k <= n < |events| ==> !AsksAt(events, n, t)
    decreases |events|
  {
    if k == |events| {
      assert events[..k] == events;
    } else {
      var front := events[..|events| - 1];
      AskedSince(front, k, t);
      assert front[..k] == events[..k];
      forall n | k <= n < |front| ensures AsksAt(front, n, t) <==> AsksAt(events, n, t) {
        assert front[..n] == events[..n];
      }
      hide AsksAt;
    }
  }

  /** In every run: an answer a waiting worker can receive belongs to its question if and only
      if the worker has asked no other since the answer's resumer took it. */
  lemma BelongsIff(events: seq<Event>, t: string)
    requires Enabled(Run(START, events), Receive(t))
    ensures Belongs(Walk(BEGIN, events), t) <==> forall n :: GivenAt(events, t) <= n < |events| ==> !AsksAt(events, n, t)
  {
    HeldForIs(events, t);
    AskedIs(events, t);
    AskedSince(events, GivenAt(events, t), t);
  }

  // ---- What makes an answer cross ----

  /** An answer for t is in its channel or about to be sent. */
  ghost predicate UnderWay(s: State, t: string) {
    t in s.inbox || exists r :: r in s.resumers && Sends(s.resumers[r], t)
  }

  /** The step that lets an answer cross its question: the wait is cancelled while an answer is
      under way, or a worker is taken that has already left its wait. */
  ghost predicate Crosses(s: State, e: Event, t: string) {
    Enabled(s, e) && ((e == CancelWait(t) && UnderWay(s, t)) || (e.Take? && e.t == t && PhaseOf(s, t).Leaving?))
  }

  ghost predicate Uncrossed(events: seq<Event>, t: string) {
    forall n :: 0 <= n < |events| ==> !Crosses(Run(START, events[..n]), events[n], t)
  }

  /** At most one answer is under way, to a worker that waits for it. */
  ghost predicate Orderly(x: Tagged, t: string) {
    && (UnderWay(x.s, t) ==> PhaseOf(x.s, t).Waiting? && t !in x.s.agents)
    && (t in x.s.inbox ==> Belongs(x, t))
    && (forall r :: r in x.s.resumers && Sends(x.s.resumers[r], t) ==>
          t !in x.s.inbox && r in x.takenFor && x.takenFor[r] == AskedBy(x, t))
    && (forall q, r :: q in x.s.resumers && r in x.s.resumers && Sends(x.s.resumers[q], t) && Sends(x.s.resumers[r], t) ==> q == r)
  }

  lemma StepIsOrderly(x: Tagged, e: Event, t: string)
    requires Orderly(x, t) && !Crosses(x.s, e, t)
    ensures Orderly(Step(x, e), t)
  {
    hide Orderly, Apply, Step, UnderWay;
    if !Enabled(x.s, e) {
      NothingHappens(x, e);
    } else {
      match e
      case Take(_, w) => if w == t { TakeIsOrderly(x, e, t); } else { OthersAreOrderly(x, e, t); }
      case CheckWaiting(_) => ResumerIsOrderly(x, e, t);
      case Send(_) => SendIsOrderly(x, e, t);
      case GiveUp(_) => ResumerIsOrderly(x, e, t);
      case Resume(_) => ResumerIsOrderly(x, e, t);
      case _ => if e.t == t { OwnStepIsOrderly(x, e, t); } else { OthersAreOrderly(x, e, t); }
    }
  }

  lemma NothingHappens(x: Tagged, e: Event)
    requires !Enabled(x.s, e)
    ensures Step(x, e) == x
  {
  }

  lemma OwnStepIsOrderly(x: Tagged, e: Event, t: string)
    requires Orderly(x, t) && Enabled(x.s, e) && !Crosses(x.s, e, t)
    requires !IsResumers(e) && !e.Send? && e.t == t
    ensures Orderly(Step(x, e), t)
  {
    assert Step(x, e).s.resumers == x.s.resumers && Step(x, e).takenFor == x.takenFor;
  }

  lemma OthersAreOrderly(x: Tagged, e: Event, t: string)
    requires Orderly(x, t) && Enabled(x.s, e)
    requires (!IsResumers(e) || e.Take?) && !e.Send? && e.t != t
    ensures Orderly(Step(x, e), t)
  {
    var y := Step(x, e);
    assert PhaseOf(y.s, t) == PhaseOf(x.s, t) && (t in y.s.agents <==> t in x.s.agents) && AskedBy(y, t) == AskedBy(x, t);
    assert forall r :: r in y.s.resumers && Sends(y.s.resumers[r], t) ==> r in x.s.resumers && y.s.resumers[r] == x.s.resumers[r];
  }

  lemma ResumerIsOrderly(x: Tagged, e: Event, t: string)
    requires Orderly(x, t) && Enabled(x.s, e) && (e.CheckWaiting? || e.GiveUp? || e.Resume?)
    ensures Orderly(Step(x, e), t)
  {
    var y := Step(x, e);
    assert forall r :: r in y.s.resumers && Sends(y.s.resumers[r], t) ==> r in x.s.resumers && Sends(x.s.resumers[r], t);
  }

  lemma SendIsOrderly(x: Tagged, e: Event, t: string)
    requires Orderly(x, t) && Enabled(x.s, e) && e.Send?
    ensures Orderly(Step(x, e), t)
  {
    var y := Step(x, e);
    assert forall r :: r in y.s.resumers && Sends(y.s.resumers[r], t) ==> r in x.s.resumers && r != e.r && Sends(x.s.resumers[r], t);
    if x.s.resumers[e.r].target == t { assert Sends(x.s.resumers[e.r], t); }
  }

  lemma TakeIsOrderly(x: Tagged, e: Event, t: string)
    requires Orderly(x, t) && Enabled(x.s, e) && !Crosses(x.s, e, t) && e.Take? && e.t == t
    ensures Orderly(Step(x, e), t)
  {
    assert !UnderWay(x.s, t);
  }

  /** In a run in which no step lets one cross, every answer received belongs. */
  lemma {:induction false} UncrossedIsOrderly(events: seq<Event>, t: string)
    requires Uncrossed(events, t)
    ensures Orderly(Walk(BEGIN, events), t)
    ensures !Misdelivers(Walk(BEGIN, events), t)
  {
    if events != [] {
      hide Orderly, Crosses, Step, Run;
      var front, e := events[..|events| - 1], events[|events| - 1];
      assert Uncrossed(front, t) by {
        forall n | 0 <= n < |front| ensures !Crosses(Run(START, front[..n]), front[n], t) {
          assert front[..n] == events[..n];
        }
      }
      UncrossedIsOrderly(front, t);
      WalkIsRun(BEGIN, front);
      StepIsOrderly(Walk(BEGIN, front), e, t);
      OrderlyDelivers(Walk(BEGIN, events), t);
    }
  }

  lemma OrderlyDelivers(x: Tagged, t: string)
    requires Orderly(x, t)
    ensures !Misdelivers(x, t)
  {
  }

  /** A worker has left its wait, is not in the registry, and an answer is under way to it. */
  ghost predicate Crossed(s: State, t: string) {
    PhaseOf(s, t).Leaving? && t !in s.agents && UnderWay(s, t)
  }

  /** That is what the first crossing step of a run brings about. */
  lemma CrossingCrosses(x: Tagged, e: Event, t: string)
    requires Orderly(x, t) && Crosses(x.s, e, t)
    ensures Crossed(Step(x, e).s, t)
  {
    if e.Take? { assert Sends(Step(x, e).s.resumers[e.r], t); }
  }

  // ---- Whether a crossed answer can be taken for another ----

  /** Marks are those of questions asked. */
  ghost predicate Tidy(x: Tagged) {
    && (forall t :: t in x.s.inbox ==> t in x.heldFor && x.heldFor[t] <= AskedBy(x, t))
    && (forall r :: r in x.s.resumers ==> r in x.takenFor && x.takenFor[r] <= AskedBy(x, x.s.resumers[r].target))
  }

  lemma WalksAreTidy(events: seq<Event>)
    ensures Tidy(Walk(BEGIN, events))
  {
    var x := Walk(BEGIN, events);
    WalkIsRun(BEGIN, events);
    hide Run, Asked, GivenAt, TookAt;
    forall t | t in x.s.inbox ensures t in x.heldFor && x.heldFor[t] <= AskedBy(x, t) {
      HeldForIs(events, t);
      AskedIs(events, t);
      AskedSince(events, GivenAt(events, t), t);
    }
    forall r | r in x.s.resumers ensures r in x.takenFor && x.takenFor[r] <= AskedBy(x, x.s.resumers[r].target) {
      TakenForIs(events, r);
      AskedIs(events, x.s.resumers[r].target);
      AskedSince(events, TookAt(events, r), x.s.resumers[r].target);
    }
  }

  /** An old answer lies in the channel of a worker that is free to go on. */
  predicate Holds(x: Tagged, t: string) {
    t in x.s.inbox && t !in x.s.agents && t in x.heldFor && x.heldFor[t] <= AskedBy(x, t)
  }

  ghost predicate Sane(x: Tagged) {
    Good(x.s) && NobodyAbandoned(x.s)
  }

  /** The answer under way arrives after all: its resumer saw the flag of a worker about to
      leave. */
  lemma AnswerArrivesLate(x: Tagged, t: string) returns (es: seq<Event>)
    requires Sane(x) && Tidy(x) && Crossed(x.s, t)
    ensures var y := Walk(x, es); Sane(y) && Holds(y, t) && PhaseOf(y.s, t).Leaving?
  {
    es := [];
    if t !in x.s.inbox {
      var r :| r in x.s.resumers && Sends(x.s.resumers[r], t);
      if x.s.resumers[r].stage.Taken? {
        var y := Step(x, CheckWaiting(r));
        CheckedLate(x, t, r);
        SentLate(y, t, r);
        OneWalk(x, CheckWaiting(r));
        OneWalk(y, Send(r));
        WalksCompose(x, [CheckWaiting(r)], [Send(r)]);
        es := [CheckWaiting(r)] + [Send(r)];
      } else {
        SentLate(x, t, r);
        OneWalk(x, Send(r));
        es := [Send(r)];
      }
    }
  }

  lemma CheckedLate(x: Tagged, t: string, r: nat)
    requires Sane(x) && Tidy(x) && PhaseOf(x.s, t).Leaving? && t !in x.s.agents && t !in x.s.inbox
    requires r in x.s.resumers && x.s.resumers[r] == Resumer(t, Taken)
    ensures var y := Step(x, CheckWaiting(r));
            && Sane(y) && Tidy(y) && PhaseOf(y.s, t).Leaving? && t !in y.s.agents && t !in y.s.inbox
            && r in y.s.resumers && y.s.resumers[r] == Resumer(t, Sending)
  {
    NobodyNewlyAbandoned(x.s, CheckWaiting(r));
    hide Good, NobodyAbandoned;
  }

  lemma SentLate(x: Tagged, t: string, r: nat)
    requires Sane(x) && Tidy(x) && PhaseOf(x.s, t).Leaving? && t !in x.s.agents && t !in x.s.inbox
    requires r in x.s.resumers && x.s.resumers[r] == Resumer(t, Sending)
    ensures var y := Step(x, Send(r)); Sane(y) && Holds(y, t) && PhaseOf(y.s, t).Leaving?
  {
    StepKeepsGood(x.s, Send(r));
    SendAbandonsNobody(x.s, r);
    hide Good, NobodyAbandoned;
  }

  lemma SendAbandonsNobody(s: State, r: nat)
    requires NobodyAbandoned(s) && Enabled(s, Send(r))
    ensures NobodyAbandoned(Apply(s, Send(r)))
  {
    forall w ensures !Abandoned(Apply(s, Send(r)), w) { assert !Abandoned(s, w); }
  }

  lemma LeavesWithIt(x: Tagged, t: string)
    requires Sane(x) && Holds(x, t) && PhaseOf(x.s, t).Leaving?
    ensures var y := Step(x, StopWaiting(t)); Sane(y) && Holds(y, t) && PhaseOf(y.s, t).Working?
  {
    var y := Step(x, StopWaiting(t));
    StepKeepsGood(x.s, StopWaiting(t));
    hide Good;
    forall w ensures !Abandoned(y.s, w) { assert !Abandoned(x.s, w); }
  }

  lemma {:induction false} DrainsKeepIt(x: Tagged, t: string, es: seq<Event>)
    requires Holds(x, t) && PhaseOf(x.s, t).Working? && forall i :: 0 <= i < |es| ==> Drains(es[i])
    ensures var y := Walk(x, es); Holds(y, t) && PhaseOf(y.s, t).Working?
  {
    if es != [] {
      DrainsKeepIt(x, t, es[..|es| - 1]);
      hide Walk;
      DrainKeepsIt(Walk(x, es[..|es| - 1]), t, es[|es| - 1]);
    }
  }

  lemma DrainKeepsIt(x: Tagged, t: string, e: Event)
    requires Holds(x, t) && PhaseOf(x.s, t).Working? && Drains(e)
    ensures Holds(Step(x, e), t) && PhaseOf(Step(x, e).s, t).Working?
  {
  }

  lemma AsksAgain(x: Tagged, t: string)
    requires Holds(x, t) && PhaseOf(x.s, t).Working? && x.s.paused == 0
    ensures Misdelivers(Walk(x, [Enter(t), Register(t), Pause(t), StartWaiting(t)]), t)
  {
    FourWalks(x, Enter(t), Register(t), Pause(t), StartWaiting(t));
  }

  /** When no wait was abandoned, the gate can open, and the worker's next question meets the
      old answer. */
  lemma CrossedIsMisdelivered(x: Tagged, t: string) returns (es: seq<Event>)
    requires Sane(x) && Tidy(x) && Crossed(x.s, t)
    ensures Misdelivers(Walk(x, es), t)
  {
    var first := AnswerArrivesLate(x, t);
    var y := Walk(x, first);
    LeavesWithIt(y, t);
    OneWalk(y, StopWaiting(t));
    var z := Walk(y, [StopWaiting(t)]);
    var rest := GateCanOpen(z.s);
    DrainsKeepIt(z, t, rest);
    WalkIsRun(z, rest);
    hide *;
    var again := [Enter(t), Register(t), Pause(t), StartWaiting(t)];
    AsksAgain(Walk(z, rest), t);
    WalksCompose(z, rest, again);
    WalksCompose(y, [StopWaiting(t)], rest + again);
    WalksCompose(x, first, [StopWaiting(t)] + (rest + again));
    es := first + ([StopWaiting(t)] + (rest + again));
  }

  /** Short of the gate. */
  predicate Outside(s: State, t: string) {
    PhaseOf(s, t).Leaving? || PhaseOf(s, t).Working? || PhaseOf(s, t).Asleep? || PhaseOf(s, t).Woken?
  }

  lemma {:induction false} StaysOutside(s: State, w: string, t: string, es: seq<Event>)
    requires Good(s) && Abandoned(s, w) && Outside(s, t)
    ensures Outside(Run(s, es), t)
  {
    if es != [] {
      var front, e := es[..|es| - 1], es[|es| - 1];
      StaysOutside(s, w, t, front);
      AbandonedWaitClosesTheGate(s, w, es);
      hide Good, Abandoned;
      if Enabled(Run(s, front), e) { OutsideStep(Run(s, front), e, t); }
    }
  }

  lemma OutsideStep(s: State, e: Event, t: string)
    requires Outside(s, t) && Enabled(s, e)
    ensures Outside(Apply(s, e), t) || PhaseOf(Apply(s, e), t).Through?
  {
  }

  /** A crossed answer can come to be taken for the answer to another question if and only if
      no wait was abandoned: otherwise the gate keeps the worker from asking again. */
  lemma CrossedIff(x: Tagged, t: string)
    requires Good(x.s) && Tidy(x) && Crossed(x.s, t)
    ensures (exists es :: Misdelivers(Walk(x, es), t)) <==> NobodyAbandoned(x.s)
  {
    if NobodyAbandoned(x.s) {
      var es := CrossedIsMisdelivered(x, t);
    } else {
      var w :| Abandoned(x.s, w);
      forall es ensures !Misdelivers(Walk(x, es), t) {
        WalkIsRun(x, es);
        StaysOutside(x.s, w, t, es);
      }
    }
  }

  /** So of the first step of a run that lets an answer cross: the answer can come to be taken
      for another question's if and only if no wait is abandoned after that step. */
  lemma FirstCrossingIff(events: seq<Event>, e: Event, t: string)
    requires Uncrossed(events, t) && Crosses(Run(START, events), e, t)
    ensures (exists es :: Misdelivers(Walk(Walk(BEGIN, events + [e]), es), t)) <==>
              NobodyAbandoned(Run(START, events + [e]))
  {
    var x, y := Walk(BEGIN, events), Walk(BEGIN, events + [e]);
    WalkIsRun(BEGIN, events);
    WalkIsRun(BEGIN, events + [e]);
    StartIsGood();
    RunsAreGood(START, events + [e]);
    WalksAreTidy(events + [e]);
    UncrossedIsOrderly(events, t);
    assert (events + [e])[..|events|] == events;
    hide Run, Orderly, Crosses, Tidy, Good, Step, Misdelivers, NobodyAbandoned;
    CrossingCrosses(x, e, t);
    CrossedIff(y, t);
  }

  // ---- It happens ----

  /** From the start: one worker asks, is taken, and its wait is cancelled just before the
      answer is sent. The answer waits in the channel for the worker's second question; and
      since nobody has taken the worker for that one, receiving it abandons the wait. */
  lemma SecondQuestionGetsFirstAnswer(t: string, r: nat)
    ensures var x := Walk(BEGIN, [Enter(t), Register(t), Pause(t), StartWaiting(t)]
                                 + [Take(r, t), CheckWaiting(r), CancelWait(t), Send(r)]
                                 + [StopWaiting(t), Resume(r), Enter(t), Register(t)]);
            var y := Walk(x, [Pause(t), StartWaiting(t)]);
            && Misdelivers(y, t) && y.s.resumers == map[] && y.heldFor == map[t := 1] && AskedBy(y, t) == 2
            && Abandoned(Walk(y, [Receive(t), StopWaiting(t)]).s, t)
  {
    var a, b, c := [Enter(t), Register(t), Pause(t), StartWaiting(t)],
                   [Take(r, t), CheckWaiting(r), CancelWait(t), Send(r)],
                   [StopWaiting(t), Resume(r), Enter(t), Register(t)];
    AsksFirst(t);
    AnswerComesLate(t, r);
    AsksSecond(t, r);
    WalksCompose(BEGIN, a, b);
    WalksCompose(BEGIN, a + b, c);
    hide *;
    ReceivesFirst(t, r);
  }

  lemma AsksFirst(t: string)
    ensures Walk(BEGIN, [Enter(t), Register(t), Pause(t), StartWaiting(t)]) ==
              Tagged(State(1, map[t := true], map[t := Waiting], {}, map[]), map[t := 1], map[], map[])
  {
    FourWalks(BEGIN, Enter(t), Register(t), Pause(t), StartWaiting(t));
  }

  lemma AnswerComesLate(t: string, r: nat)
    ensures var x := Tagged(State(1, map[t := true], map[t := Waiting], {}, map[]), map[t := 1], map[], map[]);
            Walk(x, [Take(r, t), CheckWaiting(r), CancelWait(t), Send(r)]) ==
              Tagged(State(1, map[], map[t := Leaving], {t}, map[r := Resumer(t, Sent)]), map[t := 1], map[r := 1], map[t := 1])
  {
    var x := Tagged(State(1, map[t := true], map[t := Waiting], {}, map[]), map[t := 1], map[], map[]);
    TakenAndChecked(t, r);
    CancelledAndSent(t, r);
    hide Step;
    FourWalks(x, Take(r, t), CheckWaiting(r), CancelWait(t), Send(r));
  }

  lemma TakenAndChecked(t: string, r: nat)
    ensures var x := Tagged(State(1, map[t := true], map[t := Waiting], {}, map[]), map[t := 1], map[], map[]);
            Step(Step(x, Take(r, t)), CheckWaiting(r)) ==
              Tagged(State(1, map[], map[t := Waiting], {}, map[r := Resumer(t, Sending)]), map[t := 1], map[r := 1], map[])
  {
    var x := Tagged(State(1, map[t := true], map[t := Waiting], {}, map[]), map[t := 1], map[], map[]);
    assert map[t := true] - {t} == map[];
    assert Step(x, Take(r, t)) ==
           Tagged(State(1, map[], map[t := Waiting], {}, map[r := Resumer(t, Taken)]), map[t := 1], map[r := 1], map[]);
  }

  lemma CancelledAndSent(t: string, r: nat)
    ensures var x := Tagged(State(1, map[], map[t := Waiting], {}, map[r := Resumer(t, Sending)]), map[t := 1], map[r := 1], map[]);
            Step(Step(x, CancelWait(t)), Send(r)) ==
              Tagged(State(1, map[], map[t := Leaving], {t}, map[r := Resumer(t, Sent)]), map[t := 1], map[r := 1], map[t := 1])
  {
  }

  lemma AsksSecond(t: string, r: nat)
    ensures var x := Tagged(State(1, map[], map[t := Leaving], {t}, map[r := Resumer(t, Sent)]), map[t := 1], map[r := 1], map[t := 1]);
            Walk(x, [StopWaiting(t), Resume(r), Enter(t), Register(t)]) ==
              Tagged(State(0, map[t := false], map[t := Registered], {t}, map[]), map[t := 2], map[r := 1], map[t := 1])
  {
    var x := Tagged(State(1, map[], map[t := Leaving], {t}, map[r := Resumer(t, Sent)]), map[t := 1], map[r := 1], map[t := 1]);
    LeftAndResumed(t, r);
    EnteredAndRegistered(t, r);
    hide Step;
    FourWalks(x, StopWaiting(t), Resume(r), Enter(t), Register(t));
  }

  lemma LeftAndResumed(t: string, r: nat)
    ensures var x := Tagged(State(1, map[], map[t := Leaving], {t}, map[r := Resumer(t, Sent)]), map[t := 1], map[r := 1], map[t := 1]);
            Step(Step(x, StopWaiting(t)), Resume(r)) ==
              Tagged(State(0, map[], map[t := Working], {t}, map[]), map[t := 1], map[r := 1], map[t := 1])
  {
    assert map[r := Resumer(t, Sent)] - {r} == map[];
  }

  lemma EnteredAndRegistered(t: string, r: nat)
    ensures var x := Tagged(State(0, map[], map[t := Working], {t}, map[]), map[t := 1], map[r := 1], map[t := 1]);
            Step(Step(x, Enter(t)), Register(t)) ==
              Tagged(State(0, map[t := false], map[t := Registered], {t}, map[]), map[t := 2], map[r := 1], map[t := 1])
  {
  }

  lemma ReceivesFirst(t: string, r: nat)
    ensures var x := Tagged(State(0, map[t := false], map[t := Registered], {t}, map[]), map[t := 2], map[r := 1], map[t := 1]);
            var y := Walk(x, [Pause(t), StartWaiting(t)]);
            && Misdelivers(y, t) && y.s.resumers == map[] && y.heldFor == map[t := 1] && AskedBy(y, t) == 2
            && Abandoned(Walk(y, [Receive(t), StopWaiting(t)]).s, t)
  {
    var x := Tagged(State(0, map[t := false], map[t := Registered], {t}, map[]), map[t := 2], map[r := 1], map[t := 1]);
    var y := Tagged(State(1, map[t := true], map[t := Waiting], {t}, map[]), map[t := 2], map[r := 1], map[t := 1]);
    WaitsAgain(t, r);
    TakesTheOldOne(t, r);
    hide Step, Misdelivers, Abandoned;
    TwoWalks(x, Pause(t), StartWaiting(t));
    TwoWalks(y, Receive(t), StopWaiting(t));
  }

  lemma WaitsAgain(t: string, r: nat)
    ensures var x := Tagged(State(0, map[t := false], map[t := Registered], {t}, map[]), map[t := 2], map[r := 1], map[t := 1]);
            Step(Step(x, Pause(t)), StartWaiting(t)) ==
              Tagged(State(1, map[t := true], map[t := Waiting], {t}, map[]), map[t := 2], map[r := 1], map[t := 1])
  {
  }

  lemma TakesTheOldOne(t: string, r: nat)
    ensures var y := Tagged(State(1, map[t := true], map[t := Waiting], {t}, map[]), map[t := 2], map[r := 1], map[t := 1]);
            Misdelivers(y, t) && Abandoned(Step(Step(y, Receive(t)), StopWaiting(t)).s, t)
  {
  }

  lemma TwoWalks(x: Tagged, a: Event, b: Event)
    ensures Walk(x, [a, b]) == Step(Step(x, a), b)
  {
    hide Step;
    OneWalk(x, a);
    assert [a, b][..1] == [a];
  }
}
