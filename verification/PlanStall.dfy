/** A run of the planner that reports Done with work left over. */
module PlanStall {
  import opened GoStrings
  import opened Options
  import opened PlanModel
  import opened PlanStore
  import opened DagExecution
  import opened PlanExecution
  import opened PlanMachine

  /** The planner is told to plan and has no reviewer. */
  const CFG := Config(10, "plan", false, 0, 0)

  const A := Task("a", "", "collect", TaskStatus.Pending, "", "")
  const B := Task("b", "a", "report", TaskStatus.Pending, "", "")

  /** Two tasks, the second after the first. */
  ghost predicate IsPair(tasks: seq<Task>) {
    SameShape(tasks, [A, B])
  }

  lemma ParentsOfPair()
    ensures SplitParentIDs("") == [] && SplitParentIDs("a") == ["a"]
  {
    ParentListRoundTrip(["a"]);
    assert Join(["a"], ',') == "a";
    assert Split("", ',') == [""];
    assert TrimSpace("") == "";
    assert Kept([""]) == [] by { assert [""][1..] == []; }
  }

  lemma PairIsWellFormed(tasks: seq<Task>)
    requires IsPair(tasks)
    ensures WellFormed(tasks) && UniqueIDs(tasks)
  {
    ParentsOfPair();
    hide SplitParentIDs;
    assert tasks[0].id == "a" && tasks[1].id == "b" && tasks[0].parentTaskID == "" && tasks[1].parentTaskID == "a";
    forall id, pid | DependsOn(tasks, id, pid) ensures id == "b" && pid == "a" {}
    assert IsTask(tasks, "a");
    forall c ensures !IsCycle(tasks, c) {
      assert |c| > 2 && DependsOn(tasks, c[0], c[0 + 1]) ==> !DependsOn(tasks, c[1], c[1 + 1]);
    }
  }

  lemma PairReady(tasks: seq<Task>)
    requires IsPair(tasks)
    ensures ReadySet(tasks, [TaskStatus.Pending, TaskStatus.Pending]) == {0}
    ensures ReadySet(tasks, [TaskStatus.Failed, TaskStatus.Pending]) == {}
  {
    ParentsOfPair();
    hide SplitParentIDs;
    assert tasks[..1] == [tasks[0]];
    forall st: TaskStatus ensures StatusOf(tasks, [st, TaskStatus.Pending], "a") == Some(st) {
      assert [st, TaskStatus.Pending][..1] == [st];
    }
    assert "a" in SplitParentIDs(tasks[1].parentTaskID);
  }

  // ---- Two calls of the executor ----

  const FIRST_CALL := [MarkReady({0}), Start(0), Finish(0, false), Review(0, None), Persist(0), Return]

  const CALM := Effect(true, false, "")

  function Calm(n: nat): (r: seq<Effect>)
    ensures |r| == n
  {
    seq(n, i => CALM)
  }

  /** The first task's worker fails. */
  lemma FirstCall(tasks: seq<Task>)
    requires IsPair(tasks)
    ensures var status0 := [TaskStatus.Pending, TaskStatus.Pending];
            && IsTrace(tasks, status0, FIRST_CALL) && Run(status0, FIRST_CALL).stopped && Run(status0, FIRST_CALL).hasFailed
            && Run(status0, FIRST_CALL).status == [TaskStatus.Failed, TaskStatus.Pending]
  {
    var status0 := [TaskStatus.Pending, TaskStatus.Pending];
    var s1 := Entry(status0).(status := [TaskStatus.Doing, TaskStatus.Pending], spawned := {0}, batches := [{0}]);
    var s2 := s1.(spawned := {}, running := {0}, started := {0});
    var s3 := s2.(status := [TaskStatus.Failed, TaskStatus.Pending], running := {}, reporting := {0}, failCount := 1);
    var s4 := s3.(reporting := {}, storing := {0});
    BeforeTheFailure(tasks);
    AfterTheFailure(tasks);
    PairLength(tasks);
    hide *;
    EmptyTrace(tasks, status0);
    var l1, l2 := [] + [MarkReady({0})], [] + [MarkReady({0})] + [Start(0)];
    var l3, l4 := l2 + [Finish(0, false)], l2 + [Finish(0, false)] + [Review(0, None)];
    TraceExtends(tasks, status0, [], MarkReady({0}));
    TraceExtends(tasks, status0, l1, Start(0));
    TraceExtends(tasks, status0, l2, Finish(0, false));
    TraceExtends(tasks, status0, l3, Review(0, None));
    TraceExtends(tasks, status0, l4, Persist(0));
    TraceExtends(tasks, status0, l4 + [Persist(0)], Return);
    TheFirstCall(l4 + [Persist(0)] + [Return]);
  }

  lemma TheFirstCall(log: seq<Event>)
    requires log == [] + [MarkReady({0})] + [Start(0)] + [Finish(0, false)] + [Review(0, None)] + [Persist(0)] + [Return]
    ensures log == FIRST_CALL
  {
  }

  lemma BeforeTheFailure(tasks: seq<Task>)
    requires IsPair(tasks)
    ensures var s0 := Entry([TaskStatus.Pending, TaskStatus.Pending]);
            var s1 := s0.(status := [TaskStatus.Doing, TaskStatus.Pending], spawned := {0}, batches := [{0}]);
            var s2 := s1.(spawned := {}, running := {0}, started := {0});
            && Enabled(tasks, s0, MarkReady({0})) && Apply(s0, MarkReady({0})) == s1
            && Enabled(tasks, s1, Start(0)) && Apply(s1, Start(0)) == s2
            && Enabled(tasks, s2, Finish(0, false))
  {
    PairReady(tasks);
    SetPair();
    PairLength(tasks);
    hide ReadySet, SetAll, IsPair;
  }

  lemma AfterTheFailure(tasks: seq<Task>)
    requires IsPair(tasks)
    ensures var s0 := Entry([TaskStatus.Pending, TaskStatus.Pending]);
            var s2 := s0.(status := [TaskStatus.Doing, TaskStatus.Pending], batches := [{0}], running := {0}, started := {0});
            var s3 := s2.(status := [TaskStatus.Failed, TaskStatus.Pending], running := {}, reporting := {0}, failCount := 1);
            var s4 := s3.(reporting := {}, storing := {0});
            var s5 := s4.(storing := {});
            && Apply(s2, Finish(0, false)) == s3
            && Enabled(tasks, s3, Review(0, None)) && Apply(s3, Review(0, None)) == s4
            && Enabled(tasks, s4, Persist(0)) && Apply(s4, Persist(0)) == s5
            && Enabled(tasks, s5, Return) && Apply(s5, Return) == s5.(stopped := true, hasFailed := true)
  {
    SetPair();
    PairLength(tasks);
    hide ReadySet, SetAll, IsPair;
  }

  lemma PairLength(tasks: seq<Task>)
    requires IsPair(tasks)
    ensures |tasks| == 2
  {
  }

  lemma SetPair()
    ensures SetAll([TaskStatus.Pending, TaskStatus.Pending], {0}, TaskStatus.Doing) == [TaskStatus.Doing, TaskStatus.Pending]
    ensures SetAll([TaskStatus.Doing, TaskStatus.Pending], {0}, TaskStatus.Failed) == [TaskStatus.Failed, TaskStatus.Pending]
  {
  }

  /** Later nothing is ready, and no failure is reported. */
  lemma SecondCall(tasks: seq<Task>)
    requires IsPair(tasks)
    ensures var status0 := [TaskStatus.Failed, TaskStatus.Pending];
            && IsTrace(tasks, status0, [Return]) && Run(status0, [Return]) == Entry(status0).(stopped := true)
  {
    var status0 := [TaskStatus.Failed, TaskStatus.Pending];
    PairReady(tasks);
    PairLength(tasks);
    hide ReadySet, IsTrace, IsPair;
    EmptyTrace(tasks, status0);
    TraceExtends(tasks, status0, [], Return);
    assert [] + [Return] == [Return];
  }

  /** Without a reviewer nothing is rolled back. */
  lemma NothingDrifts(id: string, d0: PlanRun, log: seq<Event>)
    requires forall n :: 0 <= n < |log| && log[n].Review? ==> log[n].rollback == None
    ensures Fits(CFG, id, d0, log, Calm(|log|))
  {
    hide RunStore;
  }

  // ---- The visits ----

  /** The run stands in a state with the pair planned and these statuses. */
  ghost predicate Standing(h: Head, state: PlanState, status: seq<TaskStatus>) {
    Sound(h) && h.state == state && h.ctx.plan == Some("p") && h.ctx.planID == "p" && IsPair(PlanTasks(h)) && EntryStatuses(h) == status
  }

  const QUIET := Visit("", [], [], false, [], [], true)

  /** The plan is made. */
  lemma Planned() returns (v: Visit, next: Head)
    ensures VisitAllowed(CFG, Head(Init, Context(None, "", 0), EMPTY), v)
    ensures Cycle(CFG, Head(Init, Context(None, "", 0), EMPTY), v) == Continue(next)
    ensures Standing(next, Confirmed, [TaskStatus.Pending, TaskStatus.Pending])
  {
    var h := Head(Init, Context(None, "", 0), EMPTY);
    v := QUIET.(calls := [PlanCreate("p", "", true), TaskInsert("p", A, true), TaskInsert("p", B, true)]);
    EmptyIsSound();
    MakesPair();
    hide Sound, ApplyCalls, AllFresh, WellFormed, StoreState, IsPair, Logged, AllUnique, Settled, Executed, RunStore, Run;
    assert v.lost + v.calls == v.calls;
    var s := ApplyCalls(EMPTY, v.calls);
    PairIsWellFormed(s.plans["p"].subTasks);
    next := Head(Confirmed, Context(Some("p"), "p", 0), StoreState(s, Some("p"), Confirmed, true));
    assert ExecuteState(CFG, h, v) == Exec(Confirmed, false, Context(Some("p"), "p", 0), s);
    CycleKeepsSound(CFG, h, v);
    CallsKeepLog(EMPTY, v.calls);
    CallsKeepUnique(EMPTY, v.calls);
    StoreStateIs(s, "p", Confirmed, true);
  }

  lemma EmptyIsSound()
    ensures Logged(EMPTY) && AllUnique(EMPTY) && Sound(Head(Init, Context(None, "", 0), EMPTY))
  {
  }

  lemma MakesPair()
    ensures var calls := [PlanCreate("p", "", true), TaskInsert("p", A, true), TaskInsert("p", B, true)];
            && AllFresh(EMPTY, calls) && CreatedID(calls) == "p"
            && "p" in ApplyCalls(EMPTY, calls).plans && IsPair(ApplyCalls(EMPTY, calls).plans["p"].subTasks)
            && Statuses(ApplyCalls(EMPTY, calls).plans["p"].subTasks) == [TaskStatus.Pending, TaskStatus.Pending]
  {
    var create, first, second := PlanCreate("p", "", true), TaskInsert("p", A, true), TaskInsert("p", B, true);
    ThreeCalls(EMPTY, create, first, second);
    hide ApplyCalls, AllFresh;
    var s1 := ApplyCall(EMPTY, create);
    assert s1.plans["p"] == Plan("p", "", [], [], Init, "", 1);
    var s2 := ApplyCall(s1, first);
    assert s2.plans["p"].subTasks == [A] && s2.plans["p"].id == "p";
    var s3 := ApplyCall(s2, second);
    assert s3.plans["p"].subTasks == [A, B];
    assert FindTaskIdx([A], "b") == -1;
  }

  lemma ThreeCalls(s: Store, a: Call, b: Call, c: Call)
    ensures ApplyCalls(s, [a, b, c]) == ApplyCall(ApplyCall(ApplyCall(s, a), b), c)
    ensures Fresh(s, a) && Fresh(ApplyCall(s, a), b) && Fresh(ApplyCall(ApplyCall(s, a), b), c) ==> AllFresh(s, [a, b, c])
  {
    hide ApplyCall, Fresh;
    var calls := [a, b, c];
    assert calls[..0] == [] && calls[..1] == [a] && calls[..2] == [a, b] && calls[..3] == calls;
    assert [a][..0] == [] && [a, b][..1] == [a];
    assert ApplyCalls(s, [a]) == ApplyCall(s, a) && ApplyCalls(s, [a, b]) == ApplyCall(ApplyCall(s, a), b);
  }

  /** The plan is confirmed. */
  lemma ConfirmedOnce(h: Head, status: seq<TaskStatus>) returns (v: Visit, next: Head)
    requires Standing(h, Confirmed, status)
    ensures VisitAllowed(CFG, h, v) && Cycle(CFG, h, v) == Continue(next) && Standing(next, PlanState.Doing, status)
  {
    var c := ConfirmPlan("p", "doing", "", true);
    v := QUIET.(calls := [c]);
    assert v.lost + v.calls == [c] && [c][..|[c]| - 1] == [];
    var s := ApplyCalls(h.store, [c]);
    assert ApplyCalls(h.store, []) == h.store;
    assert s == ApplyCall(h.store, c);
    PlanOwnsID(h.store, "p");
    assert AllFresh(h.store, [c]);
    assert "p" in s.plans && s.plans["p"].state == PlanState.Doing && s.plans["p"].subTasks == PlanTasks(h);
    CallsKeepLog(h.store, [c]);
    CallsKeepUnique(h.store, [c]);
    hide ApplyCalls, ApplyCall, AllFresh, Logged, AllUnique, Settled, WellFormed, StoreState, IsPair;
    next := Head(PlanState.Doing, h.ctx, StoreState(s, Some("p"), PlanState.Doing, true));
    CycleKeepsSound(CFG, h, v);
    StoreStateIs(s, "p", PlanState.Doing, true);
  }

  /** The plan is executed. */
  lemma ExecutedOnce(h: Head, status: seq<TaskStatus>, log: seq<Event>) returns (v: Visit, next: Head)
    requires Standing(h, PlanState.Doing, status)
    requires forall n :: 0 <= n < |log| && log[n].Review? ==> log[n].rollback == None
    requires IsTrace(PlanTasks(h), status, log) && Run(status, log).stopped
    ensures VisitAllowed(CFG, h, v) && Cycle(CFG, h, v) == Continue(next) && v.log == log
    ensures Standing(next, if Run(status, log).hasFailed then Updating else PlanState.Done, Run(status, log).status)
  {
    v := QUIET.(log := log, effects := Calm(|log|));
    ExecutionIsAllowed(h, log);
    hide IsTrace, Run, IsPair, VisitAllowed, Cycle, Sound;
    DoingGoesOn(CFG, h, v);
    next := Cycle(CFG, h, v).head;
    CycleKeepsSound(CFG, h, v);
    DoingCycle(CFG, h, v);
    PairHasShape(PlanTasks(h), PlanTasks(next));
  }

  lemma ExecutionIsAllowed(h: Head, log: seq<Event>)
    requires h.state == PlanState.Doing && h.ctx.planID == "p"
    requires forall n :: 0 <= n < |log| && log[n].Review? ==> log[n].rollback == None
    requires IsTrace(PlanTasks(h), EntryStatuses(h), log) && Run(EntryStatuses(h), log).stopped
    ensures VisitAllowed(CFG, h, QUIET.(log := log, effects := Calm(|log|)))
  {
    NothingDrifts("p", RunOf(h), log);
    assert AllFresh(h.store, []);
    hide IsTrace, Run, Fits, AllFresh;
  }

  lemma PairHasShape(a: seq<Task>, b: seq<Task>)
    requires IsPair(a) && SameShape(b, a)
    ensures IsPair(b)
  {
  }

  /** Nobody changes the plan. */
  lemma UpdatedOnce(h: Head, status: seq<TaskStatus>) returns (v: Visit, next: Head)
    requires Standing(h, Updating, status)
    ensures VisitAllowed(CFG, h, v) && Cycle(CFG, h, v) == Continue(next) && Standing(next, Confirmed, status)
  {
    v := QUIET;
    assert v.lost + v.calls == [];
    assert AllFresh(h.store, []) && ApplyCalls(h.store, []) == h.store;
    PairIsWellFormed(PlanTasks(h));
    hide Logged, AllUnique, Settled, WellFormed, StoreState, IsPair, UniqueIDs;
    next := Head(Confirmed, h.ctx, StoreState(h.store, Some("p"), Confirmed, true));
    CycleKeepsSound(CFG, h, v);
    StoreStateIs(h.store, "p", Confirmed, true);
  }

  /** The planner goes on to Done with a failed task and one that was never executed: from
      an empty store, a worker fails, the plan is confirmed again unchanged, and the executor
      finds nothing to do and no failure to report. */
  lemma DoneWithPendingTasks() returns (heads: seq<Head>, visits: seq<Visit>)
    ensures IsRun(CFG, EMPTY, heads, visits) && |visits| == 6 && |heads| == 7
    ensures heads[6].state == PlanState.Done && EntryStatuses(heads[6]) == [TaskStatus.Failed, TaskStatus.Pending]
    ensures visits[5].log == [Return]
  {
    hide *;
    var v0, h1 := Planned();
    StartsInInit();
    var h0 := Head(Init, Context(None, "", 0), EMPTY);
    StandingIs(h1, Confirmed, [TaskStatus.Pending, TaskStatus.Pending]);
    var v1, h2 := ConfirmedOnce(h1, [TaskStatus.Pending, TaskStatus.Pending]);
    StandingIs(h2, PlanState.Doing, [TaskStatus.Pending, TaskStatus.Pending]);
    FirstCall(PlanTasks(h2));
    ReviewsNothing();
    var v2, h3 := ExecutedOnce(h2, [TaskStatus.Pending, TaskStatus.Pending], FIRST_CALL);
    var v3, h4 := UpdatedOnce(h3, [TaskStatus.Failed, TaskStatus.Pending]);
    var v4, h5 := ConfirmedOnce(h4, [TaskStatus.Failed, TaskStatus.Pending]);
    StandingIs(h5, PlanState.Doing, [TaskStatus.Failed, TaskStatus.Pending]);
    SecondCall(PlanTasks(h5));
    var v5, h6 := ExecutedOnce(h5, [TaskStatus.Failed, TaskStatus.Pending], [Return]);
    FreshEntry([TaskStatus.Failed, TaskStatus.Pending]);
    StandingIs(h6, PlanState.Done, [TaskStatus.Failed, TaskStatus.Pending]);
    heads, visits := [h0], [];
    heads, visits := Longer(heads, visits, v0, h1);
    heads, visits := Longer(heads, visits, v1, h2);
    heads, visits := Longer(heads, visits, v2, h3);
    heads, visits := Longer(heads, visits, v3, h4);
    heads, visits := Longer(heads, visits, v4, h5);
    heads, visits := Longer(heads, visits, v5, h6);
  }

  lemma Longer(heads: seq<Head>, visits: seq<Visit>, v: Visit, next: Head) returns (hs: seq<Head>, vs: seq<Visit>)
    requires IsRun(CFG, EMPTY, heads, visits) && |heads| == |visits| + 1
    requires VisitAllowed(CFG, heads[|visits|], v) && Cycle(CFG, heads[|visits|], v) == Continue(next)
    ensures IsRun(CFG, EMPTY, hs, vs) && |hs| == |vs| + 1 && |vs| == |visits| + 1
    ensures hs[|vs|] == next && vs[|visits|] == v
  {
    hide *;
    RunExtends(CFG, EMPTY, heads, visits, v, next);
    hs, vs := heads + [next], visits + [v];
  }

  lemma StartsInInit()
    ensures IsRun(CFG, EMPTY, [Head(Init, Context(None, "", 0), EMPTY)], [])
  {
    RunStarts(CFG, EMPTY);
  }

  lemma StandingIs(h: Head, state: PlanState, status: seq<TaskStatus>)
    requires Standing(h, state, status)
    ensures IsPair(PlanTasks(h)) && h.state == state && EntryStatuses(h) == status
  {
  }

  lemma ReviewsNothing()
    ensures forall n :: 0 <= n < |FIRST_CALL| && FIRST_CALL[n].Review? ==> FIRST_CALL[n].rollback == None
  {
  }

  lemma FreshEntry(status: seq<TaskStatus>)
    ensures var s := Entry(status).(stopped := true); s.stopped && !s.hasFailed && s.status == status
  {
  }
}
