/** Human-in-the-loop pausing: a reference-counted gate before every tool call, a registry of
    workers waiting for a human, and a resume path in several steps. Every interleaving of
    the steps is a run of the machine below. */
module HumanGate {
  import opened Options

  /** Where a worker is. A worker is named by its task. */
  datatype Phase =
    | Working      // thinking or done, outside any tool call
    | Asleep       // in WaitIfPaused, on the condition variable
    | Woken        // in WaitIfPaused, after a broadcast, about to look again
    | Through      // past the gate, in a tool call
    | Registered   // in the registry, before Pause
    | Paused       // past Pause, before it counts as waiting
    | Waiting      // blocked on the response channel
    | Leaving      // answered or cancelled, still marked as waiting

  datatype Stage = Taken | Sending | Sent

  /** A call of ResumeAnyWorkerWithHumanResponse that has taken a worker out of the registry. */
  datatype Resumer = Resumer(target: string, stage: Stage)

  /** agents is the registry; it also records whether the worker has called Pause. inbox holds
      the workers whose response channel, of capacity one, is full. */
  datatype State = State(paused: nat, agents: map<string, bool>, phase: map<string, Phase>,
                         inbox: set<string>, resumers: map<nat, Resumer>)

  datatype Event =
    | Enter(t: string)          // a tool call looks at the gate
    | FinishTool(t: string)
    | Register(t: string)
    | Pause(t: string)
    | StartWaiting(t: string)
    | Receive(t: string)
    | CancelWait(t: string)
    | StopWaiting(t: string)
    | Take(r: nat, t: string)
    | CheckWaiting(r: nat)
    | Send(r: nat)
    | GiveUp(r: nat)
    | Resume(r: nat)

  const START := State(0, map[], map[], {}, map[])

  function PhaseOf(s: State, t: string): Phase {
    if t in s.phase then s.phase[t] else Working
  }

  /** The atomic flag isWaiting. */
  predicate IsWaiting(s: State, t: string) {
    PhaseOf(s, t).Waiting? || PhaseOf(s, t).Leaving?
  }

  predicate Enabled(s: State, e: Event) {
    match e
    case Enter(t) => PhaseOf(s, t).Working? || PhaseOf(s, t).Woken?
    case FinishTool(t) => PhaseOf(s, t).Through?
    case Register(t) => PhaseOf(s, t).Through?
    case Pause(t) => PhaseOf(s, t).Registered?
    case StartWaiting(t) => PhaseOf(s, t).Paused?
    case Receive(t) => PhaseOf(s, t).Waiting? && t in s.inbox
    case CancelWait(t) => PhaseOf(s, t).Waiting?
    case StopWaiting(t) => PhaseOf(s, t).Leaving?
    case Take(r, t) => r !in s.resumers && t in s.agents && IsWaiting(s, t)
    case CheckWaiting(r) => r in s.resumers && s.resumers[r].stage.Taken?
    case Send(r) => r in s.resumers && s.resumers[r].stage.Sending? && s.resumers[r].target !in s.inbox
    case GiveUp(r) => r in s.resumers && s.resumers[r].stage.Sending?
    case Resume(r) => r in s.resumers && s.resumers[r].stage.Sent?
  }

  function At(s: State, t: string, p: Phase): State {
    s.(phase := s.phase[t := p])
  }

  function Stepped(s: State, r: nat, stage: Stage): State
    requires r in s.resumers
  {
    s.(resumers := s.resumers[r := s.resumers[r].(stage := stage)])
  }

  /** A broadcast on the gate's condition variable. */
  function Broadcast(s: State): State {
    s.(phase := map t | t in s.phase :: if s.phase[t].Asleep? then Woken else s.phase[t])
  }

  function Apply(s: State, e: Event): State
    requires Enabled(s, e)
  {
    match e
    case Enter(t) => At(s, t, if s.paused > 0 then Asleep else Through)
    case FinishTool(t) => At(s, t, Working)
    case Register(t) => At(s, t, Registered).(agents := s.agents[t := false])
    case Pause(t) =>
      At(s, t, Phase.Paused).(agents := if t in s.agents then s.agents[t := true] else s.agents, paused := s.paused + 1)
    case StartWaiting(t) => At(s, t, Waiting)
    case Receive(t) => At(s, t, Leaving).(inbox := s.inbox - {t})
    case CancelWait(t) => At(s, t, Leaving)
    case StopWaiting(t) => At(s, t, Working)
    case Take(r, t) => s.(agents := s.agents - {t}, resumers := s.resumers[r := Resumer(t, Taken)])
    case CheckWaiting(r) => Stepped(s, r, if IsWaiting(s, s.resumers[r].target) then Sending else Sent)
    case Send(r) => Stepped(s, r, Sent).(inbox := s.inbox + {s.resumers[r].target})
    case GiveUp(r) => Stepped(s, r, Sent)
    case Resume(r) =>
      Broadcast(s).(paused := if s.paused > 0 then s.paused - 1 else 0, resumers := s.resumers - {r})
  }

  /** The state after a run; steps that are not enabled are skipped. */
  function Run(s: State, events: seq<Event>): State {
    if events == [] then s
    else
      var t, e := Run(s, events[..|events| - 1]), events[|events| - 1];
      if Enabled(t, e) then Apply(t, e) else t
  }

  // ---- The accounting ----

  /** The registered workers past Pause. */
  function Counted(s: State): set<string> {
    set t | t in s.agents && s.agents[t]
  }

  /** A worker's registration and the gate agree with its phase. */
  ghost predicate Placed(s: State, t: string) {
    match PhaseOf(s, t)
    case Registered => t in s.agents && !s.agents[t]
    case Paused => t in s.agents && s.agents[t]
    case Asleep => s.paused > 0 && (t in s.agents ==> s.agents[t])
    case Through => t !in s.agents
    case _ => t in s.agents ==> s.agents[t]
  }

  /** The pause count is the registered workers past Pause plus the resumers on their way. */
  ghost predicate Accounted(s: State) {
    s.paused == |Counted(s)| + |s.resumers|
  }

  ghost predicate Good(s: State) {
    Accounted(s) && forall t :: Placed(s, t)
  }

  lemma SameCount(s: State, e: Event)
    requires Enabled(s, e) && Accounted(s)
    requires !(e.Register? || e.Pause? || e.Take? || e.Resume?)
    ensures Accounted(Apply(s, e)) && Apply(s, e).paused == s.paused && Apply(s, e).agents == s.agents
  {
    assert Counted(Apply(s, e)) == Counted(s);
    if e.CheckWaiting? || e.Send? || e.GiveUp? {
      var r := e.r;
      var x := Apply(s, e).resumers[r];
      assert s.resumers[r := x].Keys == s.resumers.Keys;
      SameKeysSameSize(s.resumers, s.resumers[r := x]);
    }
  }

  lemma SameKeysSameSize<K, V>(m: map<K, V>, n: map<K, V>)
    requires m.Keys == n.Keys
    ensures |m| == |n|
  {
    assert |m| == |m.Keys| && |n| == |n.Keys|;
  }

  lemma RegisterCounts(s: State, t: string)
    requires Good(s) && Enabled(s, Register(t))
    ensures Accounted(Apply(s, Register(t)))
  {
    assert Placed(s, t);
    assert Counted(Apply(s, Register(t))) == Counted(s);
  }

  lemma PauseCounts(s: State, t: string)
    requires Good(s) && Enabled(s, Pause(t))
    ensures Accounted(Apply(s, Pause(t)))
  {
    assert Placed(s, t);
    assert Counted(Apply(s, Pause(t))) == Counted(s) + {t};
  }

  lemma TakeCounts(s: State, r: nat, t: string)
    requires Good(s) && Enabled(s, Take(r, t))
    ensures Accounted(Apply(s, Take(r, t)))
  {
    assert Placed(s, t);
    var u := Apply(s, Take(r, t));
    assert Counted(u) == Counted(s) - {t};
    assert u.resumers.Keys == s.resumers.Keys + {r};
    assert |u.resumers| == |u.resumers.Keys| && |s.resumers| == |s.resumers.Keys|;
  }

  lemma ResumeCounts(s: State, r: nat)
    requires Accounted(s) && Enabled(s, Resume(r))
    ensures s.paused > 0 && Accounted(Apply(s, Resume(r)))
  {
    var u := Apply(s, Resume(r));
    assert Counted(u) == Counted(s);
    assert u.resumers.Keys == s.resumers.Keys - {r};
    assert |u.resumers| == |u.resumers.Keys| && |s.resumers| == |s.resumers.Keys|;
  }

  /** Every step keeps the accounts, whoever takes it. */
  lemma StepKeepsAccount(s: State, e: Event)
    requires Good(s) && Enabled(s, e)
    ensures Accounted(Apply(s, e))
  {
    hide Apply, Accounted, Enabled, Placed;
    match e
    case Register(t) => RegisterCounts(s, t);
    case Pause(t) => PauseCounts(s, t);
    case Take(r, t) => TakeCounts(s, r, t);
    case Resume(r) => ResumeCounts(s, r);
    case _ => SameCount(s, e);
  }

  /** A worker with a counted registration or a resumer keeps the gate closed. */
  lemma ClosedBy(s: State, t: string)
    requires Accounted(s) && t in s.agents && s.agents[t]
    ensures s.paused > 0
  {
    assert t in Counted(s);
  }

  lemma StepKeepsPlaces(s: State, e: Event, t: string)
    requires Good(s) && Enabled(s, e)
    ensures Placed(Apply(s, e), t)
  {
    GoodIsPlaced(s, t);
    GoodIsAccounted(s);
    hide Good, Accounted, Apply, Enabled, Placed;
    match e
    case Take(_, _) => TakeKeepsPlace(s, e, t);
    case CheckWaiting(_) => ResumerKeepsPlace(s, e, t);
    case Send(_) => ResumerKeepsPlace(s, e, t);
    case GiveUp(_) => ResumerKeepsPlace(s, e, t);
    case Resume(_) => ResumeKeepsPlace(s, e, t);
    case _ => if e.t == t { OwnStepKeepsPlace(s, e); } else { OthersStepKeepsPlace(s, e, t); }
  }

  lemma OwnStepKeepsPlace(s: State, e: Event)
    requires !IsResumers(e) && Enabled(s, e) && Placed(s, e.t) && Accounted(s)
    ensures Placed(Apply(s, e), e.t)
  {
    hide Accounted;
    if e.Enter? && e.t in s.agents { ClosedBy(s, e.t); }
  }

  lemma OthersStepKeepsPlace(s: State, e: Event, t: string)
    requires !IsResumers(e) && Enabled(s, e) && e.t != t && Placed(s, t)
    ensures Placed(Apply(s, e), t)
  {
    assert PhaseOf(Apply(s, e), t) == PhaseOf(s, t);
  }

  lemma TakeKeepsPlace(s: State, e: Event, t: string)
    requires e.Take? && Enabled(s, e) && Placed(s, t)
    ensures Placed(Apply(s, e), t)
  {
  }

  lemma ResumerKeepsPlace(s: State, e: Event, t: string)
    requires (e.CheckWaiting? || e.Send? || e.GiveUp?) && Enabled(s, e) && Placed(s, t)
    ensures Placed(Apply(s, e), t)
  {
  }

  lemma ResumeKeepsPlace(s: State, e: Event, t: string)
    requires e.Resume? && Enabled(s, e) && Placed(s, t)
    ensures Placed(Apply(s, e), t)
  {
  }

  /** The steps of the resume path. */
  predicate IsResumers(e: Event) {
    e.Take? || e.CheckWaiting? || e.Send? || e.GiveUp? || e.Resume?
  }

  lemma GoodIsPlaced(s: State, t: string)
    requires Good(s)
    ensures Placed(s, t)
  {
  }

  lemma StepKeepsGood(s: State, e: Event)
    requires Good(s) && Enabled(s, e)
    ensures Good(Apply(s, e))
  {
    StepKeepsAccount(s, e);
    forall t ensures Placed(Apply(s, e), t) {
      StepKeepsPlaces(s, e, t);
    }
  }

  lemma {:induction false} RunsAreGood(s: State, events: seq<Event>)
    requires Good(s)
    ensures Good(Run(s, events))
  {
    hide Good, Apply, Enabled;
    if events != [] {
      RunsAreGood(s, events[..|events| - 1]);
      var t, e := Run(s, events[..|events| - 1]), events[|events| - 1];
      if Enabled(t, e) { StepKeepsGood(t, e); }
    }
  }

  lemma StartIsGood()
    ensures Good(START)
  {
  }

  /** In every interleaving: when the gate is open nobody is registered past Pause, no
      resumer is under way and nobody sleeps at the gate. */
  lemma OpenGateMeansNobodyWaits(events: seq<Event>)
    requires Run(START, events).paused == 0
    ensures var s := Run(START, events);
            && s.resumers == map[]
            && (forall t :: t in s.agents ==> !s.agents[t])
            && (forall t :: !PhaseOf(s, t).Asleep? && !PhaseOf(s, t).Paused?)
  {
    StartIsGood();
    RunsAreGood(START, events);
    var s := Run(START, events);
    hide Run;
    if t :| t in s.agents && s.agents[t] { ClosedBy(s, t); }
    forall t ensures !PhaseOf(s, t).Asleep? && !PhaseOf(s, t).Paused? {
      assert Placed(s, t);
    }
  }

  /** In every interleaving the executor's Resume finds a count to take away: the clamp at
      zero is never reached. */
  lemma ResumeNeverClamps(events: seq<Event>, r: nat)
    requires Enabled(Run(START, events), Resume(r))
    ensures Run(START, events).paused > 0
    ensures Apply(Run(START, events), Resume(r)).paused == Run(START, events).paused - 1
  {
    StartIsGood();
    RunsAreGood(START, events);
    hide Run;
    ResumeCounts(Run(START, events), r);
  }

  /** The answers sent to a worker in a run. */
  function DeliveredTo(events: seq<Event>, t: string): nat {
    if events == [] then 0
    else
      var front, e := events[..|events| - 1], events[|events| - 1];
      var s := Run(START, front);
      DeliveredTo(front, t) + if e.Send? && Enabled(s, e) && s.resumers[e.r].target == t then 1 else 0
  }

  /** The answers a worker received. */
  function ReceivedBy(events: seq<Event>, t: string): nat {
    if events == [] then 0
    else
      var front, e := events[..|events| - 1], events[|events| - 1];
      ReceivedBy(front, t) + if e == Receive(t) && Enabled(Run(START, front), e) then 1 else 0
  }

  /** No answer is lost, doubled or overwritten: in every interleaving each answer sent to a
      worker was received or is the one in its channel. */
  lemma {:induction false} AnswersAreConserved(events: seq<Event>, t: string)
    ensures DeliveredTo(events, t) == ReceivedBy(events, t) + if t in Run(START, events).inbox then 1 else 0
  {
    if events != [] {
      var front, e := events[..|events| - 1], events[|events| - 1];
      AnswersAreConserved(front, t);
      var s := Run(START, front);
      if Enabled(s, e) { InboxStep(s, e, t); }
      hide Apply;
    }
  }

  lemma InboxStep(s: State, e: Event, t: string)
    requires Enabled(s, e)
    ensures e.Send? && s.resumers[e.r].target == t ==> t !in s.inbox && t in Apply(s, e).inbox
    ensures e == Receive(t) ==> t in s.inbox && t !in Apply(s, e).inbox
    ensures !(e.Send? && s.resumers[e.r].target == t) && e != Receive(t) ==> (t in Apply(s, e).inbox <==> t in s.inbox)
  {
    hide Broadcast, PhaseOf, IsWaiting;
    if e.Resume? { BroadcastKeepsInbox(s); }
  }

  lemma BroadcastKeepsInbox(s: State)
    ensures Broadcast(s).inbox == s.inbox
  {
  }

  /** A resumer about to send has looked before, and found its worker marked as waiting. */
  lemma {:induction false} SenderHasLooked(events: seq<Event>, r: nat) returns (k: nat)
    requires r in Run(START, events).resumers && Run(START, events).resumers[r].stage.Sending?
    ensures k < |events| && events[k] == CheckWaiting(r)
    ensures var s := Run(START, events[..k]);
            && Enabled(s, CheckWaiting(r)) && s.resumers[r].target == Run(START, events).resumers[r].target
            && (PhaseOf(s, s.resumers[r].target) == Waiting || PhaseOf(s, s.resumers[r].target) == Leaving)
  {
    var n := |events| - 1;
    var s, e := Run(START, events[..n]), events[n];
    if Enabled(s, e) { SendingStep(s, e, r); }
    hide Apply, Enabled, PhaseOf;
    if e == CheckWaiting(r) && !(r in s.resumers && s.resumers[r].stage.Sending?) {
      k := n;
    } else {
      k := SenderHasLooked(events[..n], r);
      assert events[..n][..k] == events[..k];
    }
  }

  lemma SendingStep(s: State, e: Event, r: nat)
    requires Enabled(s, e) && r in Apply(s, e).resumers && Apply(s, e).resumers[r].stage.Sending?
    ensures r in s.resumers && s.resumers[r].target == Apply(s, e).resumers[r].target
    ensures s.resumers[r].stage.Sending? ||
            (e == CheckWaiting(r)
             && (PhaseOf(s, s.resumers[r].target) == Waiting || PhaseOf(s, s.resumers[r].target) == Leaving))
  {
    hide PhaseOf;
  }

  // ---- A cancelled wait ----

  /** A worker left its wait without anyone having taken it out of the registry. */
  predicate Abandoned(s: State, t: string) {
    t in s.agents && s.agents[t] && (PhaseOf(s, t).Working? || PhaseOf(s, t).Asleep? || PhaseOf(s, t).Woken?)
  }

  lemma StaysAbandoned(s: State, e: Event, t: string)
    requires Good(s) && Enabled(s, e) && Abandoned(s, t)
    ensures Abandoned(Apply(s, e), t)
    ensures e.Enter? ==> PhaseOf(Apply(s, e), e.t).Asleep?
  {
    ClosedBy(s, t);
  }

  /** From then on the gate is closed in every continuation, and no tool call of any worker
      gets past it. */
  lemma {:induction false} AbandonedWaitClosesTheGate(s: State, t: string, events: seq<Event>)
    requires Good(s) && Abandoned(s, t)
    ensures Abandoned(Run(s, events), t) && Run(s, events).paused > 0
    ensures forall w :: PhaseOf(Run(s, events), w).Through? ==> PhaseOf(s, w).Through?
  {
    hide Good, Enabled;
    RunsAreGood(s, events);
    if events != [] {
      var front := events[..|events| - 1];
      AbandonedWaitClosesTheGate(s, t, front);
      RunsAreGood(s, front);
      var u, e := Run(s, front), events[|events| - 1];
      if Enabled(u, e) {
        StaysAbandoned(u, e, t);
        NobodyGetsThrough(u, e);
      }
    }
    hide Run;
    GoodIsAccounted(Run(s, events));
    ClosedBy(Run(s, events), t);
  }

  lemma GoodIsAccounted(s: State)
    requires Good(s)
    ensures Accounted(s)
  {
  }

  lemma NobodyGetsThrough(s: State, e: Event)
    requires Enabled(s, e) && (e.Enter? ==> PhaseOf(Apply(s, e), e.t).Asleep?)
    ensures forall w :: PhaseOf(Apply(s, e), w).Through? ==> PhaseOf(s, w).Through?
  {
  }

  /** Cancelling the wait of a registered worker is all it takes. */
  lemma CancelledWaitIsAbandoned(s: State, t: string)
    requires Good(s) && PhaseOf(s, t).Waiting? && t in s.agents
    ensures Abandoned(Run(s, [CancelWait(t), StopWaiting(t)]), t)
  {
    assert Placed(s, t);
    var es := [CancelWait(t), StopWaiting(t)];
    assert es[..1] == [CancelWait(t)] && es[..1][..0] == [];
    assert Run(s, es[..1]) == Apply(s, CancelWait(t));
  }

  /** And it does happen: one worker asks and its context is cancelled. */
  lemma CancelledWaitHappens(t: string)
    ensures Abandoned(Run(START, [Enter(t), Register(t), Pause(t), StartWaiting(t), CancelWait(t), StopWaiting(t)]), t)
  {
    var es := [Enter(t), Register(t), Pause(t), StartWaiting(t), CancelWait(t), StopWaiting(t)];
    RunStep(es, 0);
    RunStep(es, 1);
    RunStep(es, 2);
    RunStep(es, 3);
    RunStep(es, 4);
    RunStep(es, 5);
    assert es[..6] == es;
  }

  // ---- When the gate can open ----

  lemma {:induction false} RunsCompose(s: State, first: seq<Event>, second: seq<Event>)
    ensures Run(Run(s, first), second) == Run(s, first + second)
  {
    hide Apply, Enabled;
    if second == [] {
      assert first + second == first;
    } else {
      var front := second[..|second| - 1];
      RunsCompose(s, first, front);
      assert (first + second)[..|first + second| - 1] == first + front;
    }
  }

  ghost predicate NobodyAbandoned(s: State) {
    forall t :: !Abandoned(s, t)
  }

  /** A step that brings waits to an end: of a resumer, a wait begun, or a worker taken. */
  predicate Drains(e: Event) {
    e.StartWaiting? || e.Take? || e.CheckWaiting? || e.GiveUp? || e.Resume?
  }

  /** None of them abandons a wait. */
  lemma NobodyNewlyAbandoned(s: State, e: Event)
    requires Good(s) && NobodyAbandoned(s) && Enabled(s, e)
    requires Drains(e)
    ensures Good(Apply(s, e)) && NobodyAbandoned(Apply(s, e))
  {
    StepKeepsGood(s, e);
    hide Good, Accounted;
    forall t ensures !Abandoned(Apply(s, e), t) {
      assert !Abandoned(s, t);
    }
  }

  /** One enabled step, as a run. */
  lemma Steps(s: State, e: Event)
    requires Enabled(s, e)
    ensures Run(s, [e]) == Apply(s, e)
  {
    OneStep(s, e);
  }

  /** A resumer can always come to its end, and takes one pause away. */
  lemma ResumerEnds(s: State, r: nat) returns (es: seq<Event>)
    requires Good(s) && NobodyAbandoned(s) && r in s.resumers
    ensures var t := Run(s, es); Good(t) && NobodyAbandoned(t) && t.paused + 1 == s.paused
    ensures forall i :: 0 <= i < |es| ==> Drains(es[i])
    decreases match s.resumers[r].stage case Taken => 2 case Sending => 1 case Sent => 0
  {
    hide Good, NobodyAbandoned, Run;
    var e := match s.resumers[r].stage case Taken => CheckWaiting(r) case Sending => GiveUp(r) case Sent => Resume(r);
    NobodyNewlyAbandoned(s, e);
    Steps(s, e);
    if e.Resume? {
      GoodIsAccounted(s);
      ResumeCounts(s, r);
      es := [e];
    } else {
      var rest := ResumerEnds(Apply(s, e), r);
      RunsCompose(s, [e], rest);
      es := [e] + rest;
    }
  }

  /** With no resumer about, a closed gate has a counted worker, which can be taken. */
  lemma WorkerIsTaken(s: State) returns (es: seq<Event>)
    requires Good(s) && NobodyAbandoned(s) && s.paused > 0 && s.resumers == map[]
    ensures var t := Run(s, es); Good(t) && NobodyAbandoned(t) && t.paused == s.paused && 0 in t.resumers
    ensures forall i :: 0 <= i < |es| ==> Drains(es[i])
  {
    GoodIsAccounted(s);
    var t := SomeCounted(s);
    CountedIsHere(s, t);
    hide Good, NobodyAbandoned, Run;
    if PhaseOf(s, t).Paused? {
      var u := Apply(s, StartWaiting(t));
      NobodyNewlyAbandoned(s, StartWaiting(t));
      NobodyNewlyAbandoned(u, Take(0, t));
      Steps(s, StartWaiting(t));
      Steps(u, Take(0, t));
      RunsCompose(s, [StartWaiting(t)], [Take(0, t)]);
      es := [StartWaiting(t)] + [Take(0, t)];
    } else {
      NobodyNewlyAbandoned(s, Take(0, t));
      Steps(s, Take(0, t));
      es := [Take(0, t)];
    }
  }

  lemma CountedIsHere(s: State, t: string)
    requires Good(s) && NobodyAbandoned(s) && t in s.agents && s.agents[t]
    ensures PhaseOf(s, t).Paused? || IsWaiting(s, t)
  {
    assert Placed(s, t) && !Abandoned(s, t);
  }

  lemma SomeCounted(s: State) returns (t: string)
    requires Accounted(s) && s.paused > 0 && s.resumers == map[]
    ensures t in s.agents && s.agents[t]
  {
    assert Counted(s) != {};
    t :| t in Counted(s);
  }

  /** Unless a wait was abandoned, the gate can come to be open. */
  lemma {:induction false} GateCanOpen(s: State) returns (es: seq<Event>)
    requires Good(s) && NobodyAbandoned(s)
    ensures Run(s, es).paused == 0
    ensures forall i :: 0 <= i < |es| ==> Drains(es[i])
    decreases s.paused, |s.resumers| == 0
  {
    hide Good, NobodyAbandoned;
    if s.paused == 0 {
      es := [];
    } else {
      var first;
      if s.resumers == map[] {
        first := WorkerIsTaken(s);
      } else {
        var r :| r in s.resumers;
        first := ResumerEnds(s, r);
      }
      SomeResumer(Run(s, first));
      var rest := GateCanOpen(Run(s, first));
      hide Run;
      RunsCompose(s, first, rest);
      es := first + rest;
    }
  }

  lemma SomeResumer(s: State)
    ensures |s.resumers| == 0 <==> s.resumers == map[]
  {
  }

  /** A closed gate can open again if and only if no wait was abandoned. */
  lemma GateOpensAgainIff(s: State)
    requires Good(s)
    ensures (exists es :: Run(s, es).paused == 0) <==> forall t :: !Abandoned(s, t)
  {
    hide Good, Run, Abandoned;
    if t :| Abandoned(s, t) {
      forall es ensures Run(s, es).paused > 0 {
        AbandonedWaitClosesTheGate(s, t, es);
      }
    } else {
      var es := GateCanOpen(s);
    }
  }

  // ---- A resume that gives up ----

  /** Something under way can answer a waiting worker: it can still be taken, an answer is
      in its channel, or a resumer is about to send one. */
  ghost predicate Answerable(s: State, t: string) {
    t in s.agents || t in s.inbox || exists r :: r in s.resumers && Sends(s.resumers[r], t)
  }

  predicate Sends(x: Resumer, t: string) {
    x.target == t && !x.stage.Sent?
  }

  /** A worker waits, but nothing under way will ever answer it. */
  ghost predicate Stranded(s: State, t: string) {
    PhaseOf(s, t).Waiting? && !Answerable(s, t)
  }

  /** Such a worker waits in every continuation in which its own context is not cancelled. */
  lemma {:induction false} StrandedStays(s: State, t: string, events: seq<Event>)
    requires Stranded(s, t) && CancelWait(t) !in events
    ensures Stranded(Run(s, events), t)
  {
    if events != [] {
      var front, e := events[..|events| - 1], events[|events| - 1];
      assert e in events && forall x :: x in front ==> x in events;
      StrandedStays(s, t, front);
      hide Run;
      StrandedStep(Run(s, front), t, e);
    }
  }

  lemma StrandedStep(s: State, t: string, e: Event)
    requires Stranded(s, t) && e != CancelWait(t)
    ensures Stranded(if Enabled(s, e) then Apply(s, e) else s, t)
  {
  }

  /** A resumer takes the worker out of the registry before it delivers, so one that gives
      up in between leaves the worker stranded, with the gate open again. */
  lemma GivingUpStrands(s: State, t: string, r: nat)
    requires Good(s) && PhaseOf(s, t).Waiting? && t in s.agents && t !in s.inbox && s.resumers == map[]
    ensures var u := Run(s, [Take(r, t), CheckWaiting(r), GiveUp(r), Resume(r)]);
            Stranded(u, t) && u.paused == s.paused - 1
  {
    assert Placed(s, t);
    ClosedBy(s, t);
    hide Run, Good, Accounted, Placed, Apply, Enabled, Stranded;
    var a := s.(agents := s.agents - {t}, resumers := map[r := Resumer(t, Taken)]);
    TakesOnly(s, t, r);
    GivesUp(a, t, r);
    FourSteps(s, Take(r, t), CheckWaiting(r), GiveUp(r), Resume(r));
  }

  /** Before its own context is cancelled, a waiting worker can come to be answered if and
      only if it is answerable. */
  lemma AnsweredIff(s: State, t: string)
    requires PhaseOf(s, t).Waiting?
    ensures (exists es :: CancelWait(t) !in es && Enabled(Run(s, es), Receive(t))) <==> Answerable(s, t)
  {
    hide Run, Enabled, Apply;
    if Answerable(s, t) {
      var es := AnswerArrives(s, t);
    } else {
      forall es | CancelWait(t) !in es ensures !Enabled(Run(s, es), Receive(t)) {
        StrandedStays(s, t, es);
        StrandedReceivesNothing(Run(s, es), t);
      }
    }
  }

  lemma StrandedReceivesNothing(s: State, t: string)
    requires Stranded(s, t)
    ensures !Enabled(s, Receive(t))
  {
  }

  /** The rest of the way to an answer. */
  lemma AnswerArrives(s: State, t: string) returns (es: seq<Event>)
    requires PhaseOf(s, t).Waiting? && Answerable(s, t)
    ensures CancelWait(t) !in es && Enabled(Run(s, es), Receive(t))
    decreases if t in s.inbox then 0 else if exists r :: r in s.resumers && Sends(s.resumers[r], t) then 1 else 2
  {
    es := [];
    if t !in s.inbox {
      if r :| r in s.resumers && Sends(s.resumers[r], t) {
        es := SenderSends(s, t, r);
      } else {
        var r := FreshResumer(s.resumers.Keys);
        var u := Apply(s, Take(r, t));
        Steps(s, Take(r, t));
        assert Sends(u.resumers[r], t);
        hide Run;
        var rest := SenderSends(u, t, r);
        RunsCompose(s, [Take(r, t)], rest);
        es := [Take(r, t)] + rest;
      }
    }
  }

  lemma SenderSends(s: State, t: string, r: nat) returns (es: seq<Event>)
    requires PhaseOf(s, t).Waiting? && t !in s.inbox && r in s.resumers && Sends(s.resumers[r], t)
    ensures CancelWait(t) !in es && Enabled(Run(s, es), Receive(t))
  {
    if s.resumers[r].stage.Sending? {
      Steps(s, Send(r));
      es := [Send(r)];
    } else {
      var u := Apply(s, CheckWaiting(r));
      Steps(s, CheckWaiting(r));
      Steps(u, Send(r));
      hide Run;
      RunsCompose(s, [CheckWaiting(r)], [Send(r)]);
      es := [CheckWaiting(r)] + [Send(r)];
    }
  }

  lemma FreshResumer(taken: set<nat>) returns (r: nat)
    ensures r !in taken
  {
    var bound := Bound(taken);
    r := bound;
  }

  lemma {:induction false} Bound(taken: set<nat>) returns (b: nat)
    ensures forall x :: x in taken ==> x < b
  {
    if taken == {} {
      b := 0;
    } else {
      var x :| x in taken;
      var c := Bound(taken - {x});
      b := if x < c then c else x + 1;
      assert taken == (taken - {x}) + {x};
    }
  }

  /** And it does happen: from the start, one worker asks, is taken, and the resumer gives
      up. The gate is open again, and the worker waits for ever. */
  lemma GivingUpHappens(t: string, r: nat)
    ensures var u := Run(START, [Enter(t), Register(t), Pause(t), StartWaiting(t)]
                                + [Take(r, t), CheckWaiting(r), GiveUp(r), Resume(r)]);
            Stranded(u, t) && u.paused == 0
  {
    var es := [Enter(t), Register(t), Pause(t), StartWaiting(t)];
    FourSteps(START, Enter(t), Register(t), Pause(t), StartWaiting(t));
    var s := Run(START, es);
    assert s == State(1, map[t := true], map[t := Waiting], {}, map[]);
    StartIsGood();
    RunsAreGood(START, es);
    hide *;
    WaitingIn(s, t);
    GivingUpStrands(s, t, r);
    RunsCompose(START, es, [Take(r, t), CheckWaiting(r), GiveUp(r), Resume(r)]);
  }

  lemma WaitingIn(s: State, t: string)
    requires s == State(1, map[t := true], map[t := Waiting], {}, map[])
    ensures PhaseOf(s, t).Waiting?
  {
  }

  lemma TakesOnly(s: State, t: string, r: nat)
    requires PhaseOf(s, t).Waiting? && t in s.agents && s.resumers == map[]
    ensures Enabled(s, Take(r, t))
    ensures Apply(s, Take(r, t)) == s.(agents := s.agents - {t}, resumers := map[r := Resumer(t, Taken)])
  {
    assert s.resumers[r := Resumer(t, Taken)] == map[r := Resumer(t, Taken)];
  }

  lemma GivesUp(s: State, t: string, r: nat)
    requires PhaseOf(s, t).Waiting? && t !in s.agents && t !in s.inbox && s.paused > 0
    requires s.resumers == map[r := Resumer(t, Taken)]
    ensures Enabled(s, CheckWaiting(r))
    ensures var b := Apply(s, CheckWaiting(r));
            && Enabled(b, GiveUp(r))
            && var c := Apply(b, GiveUp(r));
               && Enabled(c, Resume(r))
               && Stranded(Apply(c, Resume(r)), t) && Apply(c, Resume(r)).paused == s.paused - 1
  {
    var b := Apply(s, CheckWaiting(r));
    assert b == s.(resumers := s.resumers[r := Resumer(t, Sending)]);
    var c := Apply(b, GiveUp(r));
    assert c == s.(resumers := b.resumers[r := Resumer(t, Sent)]);
  }

  lemma RunStep(events: seq<Event>, n: nat)
    requires n < |events|
    ensures var s := Run(START, events[..n]);
            Run(START, events[..n + 1]) == if Enabled(s, events[n]) then Apply(s, events[n]) else s
    ensures Run(START, events[..0]) == START
  {
    hide Apply, Enabled;
    assert events[..n + 1][..n] == events[..n];
  }

  // ---- The coordinator's steps ----

  /** The gate, the registry and the channels as the workers and resumers update them. */
  class Coordinator {
    var paused: nat
    var agents: map<string, bool>
    var phase: map<string, Phase>
    var inbox: set<string>
    var resumers: map<nat, Resumer>

    ghost function Value(): State
      reads this
    {
      State(paused, agents, phase, inbox, resumers)
    }

    constructor ()
      ensures Value() == START
    {
      paused, agents, phase, inbox, resumers := 0, map[], map[], {}, map[];
    }

    /** WaitIfPaused, up to the condition variable. */
    method EnterGate(t: string) returns (through: bool)
      requires Enabled(Value(), Enter(t))
      modifies this
      ensures Value() == Apply(old(Value()), Enter(t)) && through == (old(paused) == 0)
    {
      if paused > 0 {
        phase := phase[t := Asleep];
        return false;
      }
      phase := phase[t := Through];
      return true;
    }

    /** The executor's callback, in its two halves. */
    method RegisterAgent(t: string)
      requires Enabled(Value(), Register(t))
      modifies this
      ensures Value() == Apply(old(Value()), Register(t))
    {
      agents := agents[t := false];
      phase := phase[t := Registered];
    }

    method PauseGate(t: string)
      requires Enabled(Value(), Pause(t))
      modifies this
      ensures Value() == Apply(old(Value()), Pause(t))
    {
      paused := paused + 1;
      if t in agents { agents := agents[t := true]; }
      phase := phase[t := Phase.Paused];
    }

    /** The rest of WaitForHuman: an answer, or cancellation of the worker's context. */
    method AwaitAnswer(t: string) returns (answered: bool)
      requires Enabled(Value(), StartWaiting(t))
      modifies this
      ensures Value() == Run(old(Value()), [StartWaiting(t), if answered then Receive(t) else CancelWait(t), StopWaiting(t)])
      ensures answered ==> t in old(inbox)
    {
      ghost var s := Value();
      phase := phase[t := Waiting];
      answered := *;
      if answered && t in inbox {
        inbox := inbox - {t};
      } else {
        answered := false;
      }
      phase := phase[t := Leaving];
      phase := phase[t := Working];
      ThreeSteps(s, StartWaiting(t), if answered then Receive(t) else CancelWait(t), StopWaiting(t));
    }

    /** Takes the first waiting worker out of the registry, in any order of the map. */
    method TakeWaiting(r: nat) returns (target: Option<string>)
      requires r !in resumers
      modifies this
      ensures target.Some? ==> Enabled(old(Value()), Take(r, target.value))
                               && Value() == Apply(old(Value()), Take(r, target.value))
      ensures target.None? ==> Value() == old(Value()) && forall t :: t in agents ==> !IsWaiting(Value(), t)
    {
      var todo := agents.Keys;
      while todo != {}
        invariant todo <= agents.Keys && Value() == old(Value())
        invariant forall t :: t in agents && t !in todo ==> !IsWaiting(Value(), t)
      {
        var id :| id in todo;
        var p := if id in phase then phase[id] else Working;
        if p.Waiting? || p.Leaving? {
          agents := agents - {id};
          resumers := resumers[r := Resumer(id, Taken)];
          return Some(id);
        }
        todo := todo - {id};
      }
      return None;
    }

    /** Delivers the response, unless the worker stopped waiting or the resumer's context
        is cancelled. */
    method Deliver(r: nat) returns (sent: bool)
      requires Enabled(Value(), CheckWaiting(r))
      modifies this
      ensures Value() == Run(old(Value()), if !IsWaiting(old(Value()), old(resumers)[r].target) then [CheckWaiting(r)]
                                           else [CheckWaiting(r), if sent then Send(r) else GiveUp(r)])
      ensures sent ==> IsWaiting(old(Value()), old(resumers)[r].target) && old(resumers)[r].target !in old(inbox)
    {
      ghost var s := Value();
      var t := resumers[r].target;
      var p := if t in phase then phase[t] else Working;
      if !(p.Waiting? || p.Leaving?) {
        resumers := resumers[r := Resumer(t, Sent)];
        OneStep(s, CheckWaiting(r));
        return false;
      }
      resumers := resumers[r := Resumer(t, Sending)];
      sent := *;
      if sent && t !in inbox {
        inbox := inbox + {t};
      } else {
        sent := false;
      }
      resumers := resumers[r := Resumer(t, Sent)];
      TwoSteps(s, CheckWaiting(r), if sent then Send(r) else GiveUp(r));
    }

    method ResumeGate(r: nat)
      requires Enabled(Value(), Resume(r))
      modifies this
      ensures Value() == Apply(old(Value()), Resume(r))
    {
      if paused > 0 { paused := paused - 1; }
      phase := map t | t in phase :: if phase[t].Asleep? then Woken else phase[t];
      resumers := resumers - {r};
    }
  }

  lemma OneStep(s: State, e: Event)
    ensures Run(s, [e]) == if Enabled(s, e) then Apply(s, e) else s
  {
    assert [e][..0] == [];
  }

  lemma TwoSteps(s: State, a: Event, b: Event)
    ensures var t := if Enabled(s, a) then Apply(s, a) else s;
            Run(s, [a, b]) == if Enabled(t, b) then Apply(t, b) else t
  {
    OneStep(s, a);
    hide Apply, Enabled;
    assert [a, b][..1] == [a];
  }

  lemma ThreeSteps(s: State, a: Event, b: Event, c: Event)
    ensures var t := if Enabled(s, a) then Apply(s, a) else s;
            var u := if Enabled(t, b) then Apply(t, b) else t;
            Run(s, [a, b, c]) == if Enabled(u, c) then Apply(u, c) else u
  {
    TwoSteps(s, a, b);
    hide Apply, Enabled;
    assert [a, b, c][..2] == [a, b];
  }

  lemma FourSteps(s: State, a: Event, b: Event, c: Event, d: Event)
    ensures var t := if Enabled(s, a) then Apply(s, a) else s;
            var u := if Enabled(t, b) then Apply(t, b) else t;
            var v := if Enabled(u, c) then Apply(u, c) else u;
            Run(s, [a, b, c, d]) == if Enabled(v, d) then Apply(v, d) else v
  {
    ThreeSteps(s, a, b, c);
    hide Apply, Enabled;
    assert [a, b, c, d][..3] == [a, b, c];
  }
}
