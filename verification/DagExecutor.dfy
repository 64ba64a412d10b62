/** The executor itself: ExecuteBatch over a plan in the store, whose tasks it updates in
    place. The scheduler is arbitrary; whether a worker succeeds, what the reviewer says, if the
    disk cooperates and when the context is cancelled is the script's to say. */
module DagExecutor {
  import opened Options
  import opened PlanModel
  import opened DagExecution
  import opened DagCompleteness
  import opened PlanStore
  import opened PlanExecution

  lemma {:induction false} ShapeGivesStatusOf(a: seq<Task>, b: seq<Task>, status: seq<TaskStatus>, id: string)
    requires SameShape(a, b) && |status| == |a|
    ensures StatusOf(a, status, id) == StatusOf(b, status, id)
  {
    if a != [] {
      ShapeGivesStatusOf(a[..|a| - 1], b[..|b| - 1], status[..|a| - 1], id);
    }
  }

  lemma ShapeGivesReadySet(a: seq<Task>, b: seq<Task>, status: seq<TaskStatus>)
    requires SameShape(a, b) && |status| == |a|
    ensures ReadySet(a, status) == ReadySet(b, status)
  {
    hide StatusOf;
    forall id { ShapeGivesStatusOf(a, b, status, id); }
  }

  // ---- ReadyTasks ----

  function MapGet(m: map<string, TaskStatus>, id: string): Option<TaskStatus> {
    if id in m then Some(m[id]) else None
  }

  method BuildStatusMap(tasks: seq<Task>) returns (statusMap: map<string, TaskStatus>)
    ensures forall id :: MapGet(statusMap, id) == StatusOf(tasks, Statuses(tasks), id)
  {
    statusMap := map[];
    ghost var status := Statuses(tasks);
    for i := 0 to |tasks|
      invariant forall id :: MapGet(statusMap, id) == StatusOf(tasks[..i], status[..i], id)
    {
      assert tasks[..i + 1][..i] == tasks[..i] && status[..i + 1][..i] == status[..i];
      statusMap := statusMap[tasks[i].id := tasks[i].status];
    }
    assert tasks[..|tasks|] == tasks && status[..|tasks|] == status;
  }

  method AllParentsDone(parentIDs: seq<string>, statusMap: map<string, TaskStatus>) returns (done: bool)
    ensures done <==> forall pid :: pid in parentIDs ==> MapGet(statusMap, pid) == Some(TaskStatus.Done)
  {
    for i := 0 to |parentIDs|
      invariant forall j :: 0 <= j < i ==> MapGet(statusMap, parentIDs[j]) == Some(TaskStatus.Done)
    {
      if parentIDs[i] !in statusMap || statusMap[parentIDs[i]] != TaskStatus.Done {
        assert MapGet(statusMap, parentIDs[i]) != Some(TaskStatus.Done);
        return false;
      }
    }
    return true;
  }

  /** The pending tasks whose parents are all done, in plan order. */
  method ReadyTasks(tasks: seq<Task>) returns (ready: seq<nat>)
    ensures forall i :: i in ready <==> i in ReadySet(tasks, Statuses(tasks))
    ensures forall a, b :: 0 <= a < b < |ready| ==> ready[a] < ready[b]
  {
    hide StatusOf;
    var statusMap := BuildStatusMap(tasks);
    ready := [];
    for i := 0 to |tasks|
      invariant forall j :: j in ready <==> j < i && j in ReadySet(tasks, Statuses(tasks))
      invariant forall a, b :: 0 <= a < b < |ready| ==> ready[a] < ready[b]
    {
      if tasks[i].status == Pending {
        var parents := SplitParents(tasks[i].parentTaskID);
        var done := AllParentsDone(parents, statusMap);
        if done {
          assert forall a :: 0 <= a < |ready| ==> ready[a] in ready;
          ready := ready + [i];
        }
      }
    }
  }

  // ---- ExecuteBatch ----

  function ToSet(ready: seq<nat>): set<nat> {
    set k | 0 <= k < |ready| :: ready[k]
  }

  // ---- Writing statuses ----

  lemma OneStatus(tasks: seq<Task>, i: nat, st: TaskStatus)
    requires i < |tasks|
    ensures tasks[i := tasks[i].(status := st)] == WithStatuses(tasks, SetAll(Statuses(tasks), {i}, st))
  {
  }

  lemma SetNone(tasks: seq<Task>, st: TaskStatus)
    ensures WithStatuses(tasks, SetAll(Statuses(tasks), {}, st)) == tasks
  {
  }

  lemma SetOneMore(tasks: seq<Task>, batch: set<nat>, i: nat, st: TaskStatus)
    requires i < |tasks|
    ensures WithStatuses(WithStatuses(tasks, SetAll(Statuses(tasks), batch, st)),
                         SetAll(SetAll(Statuses(tasks), batch, st), {i}, st)) ==
              WithStatuses(tasks, SetAll(Statuses(tasks), batch + {i}, st))
  {
  }

  lemma FindsItself(tasks: seq<Task>, i: nat)
    requires UniqueIDs(tasks) && i < |tasks|
    ensures FindTaskIdx(tasks, tasks[i].id) == i
  {
  }

  // ---- A call in progress ----

  /** The log is a trace from the entry statuses, its rollbacks are those the store calls
      for, the store is where the log leads, and the rest is the script's. */
  ghost predicate Tracked(cfg: Config, script: Script, id: string, d0: PlanRun, log: seq<Event>, effects: seq<Effect>, d: PlanRun) {
    && Begun(id, d0) && d0.store.plans[id].id == id && UniqueIDs(d0.store.plans[id].subTasks)
    && IsTrace(d0.store.plans[id].subTasks, Statuses(d0.store.plans[id].subTasks), log)
    && Fits(cfg, id, d0, log, effects)
    && d == RunStore(cfg, id, d0, log, effects)
    && Plays(script, log, effects)
  }

  ghost function TasksOf(id: string, d0: PlanRun): seq<Task> {
    if id in d0.store.plans then d0.store.plans[id].subTasks else []
  }

  ghost function StateOf(id: string, d0: PlanRun, log: seq<Event>): State {
    Run(Statuses(TasksOf(id, d0)), log)
  }

  lemma Advances(cfg: Config, script: Script, id: string, d0: PlanRun, log: seq<Event>, effects: seq<Effect>, d: PlanRun, e: Event, x: Effect)
    requires Tracked(cfg, script, id, d0, log, effects, d) && Enabled(TasksOf(id, d0), StateOf(id, d0, log), e)
    requires e.Review? ==> e.rollback == Rollback(cfg, id, d, x)
    requires PlaysAt(script, e, x, |log|)
    ensures Tracked(cfg, script, id, d0, log + [e], effects + [x], StoreStep(cfg, id, d, e, x))
    ensures StateOf(id, d0, log + [e]) == Apply(StateOf(id, d0, log), e)
  {
    PlaysOn(script, log, effects, e, x);
    hide Begun, UniqueIDs, IsTrace, Fits, RunStore, StoreStep, Rollback, Run, Enabled, Apply, Plays;
    BegunIs(id, d0);
    TraceExtends(TasksOf(id, d0), Statuses(TasksOf(id, d0)), log, e);
    FitsExtends(cfg, id, d0, log, effects, e, x);
  }

  lemma PlaysOn(script: Script, log: seq<Event>, effects: seq<Effect>, e: Event, x: Effect)
    requires Plays(script, log, effects) && PlaysAt(script, e, x, |log|)
    ensures Plays(script, log + [e], effects + [x])
  {
    hide PlaysAt;
  }

  lemma TrackedIsInStep(cfg: Config, script: Script, id: string, d0: PlanRun, log: seq<Event>, effects: seq<Effect>, d: PlanRun)
    requires Tracked(cfg, script, id, d0, log, effects, d)
    ensures id in d.store.plans && SameShape(d.store.plans[id].subTasks, TasksOf(id, d0))
    ensures Statuses(d.store.plans[id].subTasks) == StateOf(id, d0, log).status
    ensures UniqueIDs(d.store.plans[id].subTasks)
    ensures Consistent(TasksOf(id, d0), Statuses(TasksOf(id, d0)), StateOf(id, d0, log))
  {
    hide IsTrace, Fits, RunStore, Run, Consistent, Plays;
    StoreFollows(cfg, id, d0, log, effects);
    TraceIsConsistent(TasksOf(id, d0), Statuses(TasksOf(id, d0)), log);
  }

  lemma WorkersAreTasks(tasks: seq<Task>, status0: seq<TaskStatus>, s: State)
    requires Consistent(tasks, status0, s)
    ensures forall i :: i in s.spawned || i in s.running || i in s.reporting ==> i < |tasks|
    ensures s.spawned !! s.running
  {
  }

  /** ready, as a loop over the current plan finds it, is what the executor's state has
      ready. */
  lemma ReadyOfShape(now: seq<Task>, tasks: seq<Task>, ready: seq<nat>)
    requires SameShape(now, tasks) && forall i :: i in ready <==> i in ReadySet(now, Statuses(now))
    ensures |now| == |tasks| && ToSet(ready) == ReadySet(tasks, Statuses(now))
    ensures ToSet(ready) == {} <==> |ready| == 0
    ensures forall k :: 0 <= k < |ready| ==> ready[k] < |tasks|
  {
    ShapeGivesReadySet(now, tasks, Statuses(now));
    assert forall k :: 0 <= k < |ready| ==> ready[k] in ready;
    ReadySetIs(now, Statuses(now));
    hide ReadySet;
    assert |ready| > 0 ==> ready[0] in ToSet(ready);
  }

  class Executor {
    const cfg: Config
    const script: Script
    const tools: PlanTools
    const id: string
    ghost const d0: PlanRun
    var taskFails: nat
    var cancelled: bool
    var steps: nat
    ghost var log: seq<Event>
    ghost var effects: seq<Effect>

    ghost function Here(): PlanRun
      reads this, tools
    {
      PlanRun(tools.Value(), taskFails)
    }

    ghost function Now(): State
      reads this
    {
      StateOf(id, d0, log)
    }

    ghost predicate Valid()
      reads this, tools
    {
      Tracked(cfg, script, id, d0, log, effects, Here()) && cancelled == Now().cancelled && steps == |log|
    }

    /** The script has the context cancelled now. */
    predicate Due()
      reads this
    {
      script.cancelAt == Some(steps)
    }

    constructor (cfg: Config, script: Script, tools: PlanTools, id: string, taskFails: nat)
      requires Begun(id, PlanRun(tools.Value(), taskFails))
      requires tools.plans[id].id == id && UniqueIDs(tools.plans[id].subTasks)
      ensures this.cfg == cfg && this.script == script && this.tools == tools && this.id == id
      ensures d0 == PlanRun(tools.Value(), taskFails) && Valid() && log == [] && effects == []
    {
      this.cfg, this.script, this.tools, this.id, this.taskFails := cfg, script, tools, id, taskFails;
      cancelled, steps, log, effects := false, 0, [], [];
      d0 := PlanRun(tools.Value(), taskFails);
      new;
      EmptyTrace(TasksOf(id, d0), Statuses(TasksOf(id, d0)));
    }

    /** Finds the task again by its id and writes its status, as a goroutine does. */
    method UpdateTask(i: nat, st: TaskStatus)
      requires id in tools.plans && UniqueIDs(tools.plans[id].subTasks) && i < |tools.plans[id].subTasks|
      modifies tools
      ensures tools.Value() == SetStatuses(old(tools.Value()), id, SetAll(Statuses(old(tools.plans)[id].subTasks), {i}, st))
    {
      var tasks := tools.plans[id].subTasks;
      var j := FindIndex(tasks, tasks[i].id);
      FindsItself(tasks, i);
      OneStatus(tasks, i, st);
      tools.plans := tools.plans[id := tools.plans[id].(subTasks := tasks[j := tasks[j].(status := st)])];
    }

    method SetBatch(ready: seq<nat>, st: TaskStatus)
      requires id in tools.plans && forall k :: 0 <= k < |ready| ==> ready[k] < |tools.plans[id].subTasks|
      modifies tools
      ensures tools.Value() == SetStatuses(old(tools.Value()), id, SetAll(Statuses(old(tools.plans)[id].subTasks), ToSet(ready), st))
    {
      var tasks := tools.plans[id].subTasks;
      ghost var tasks0 := tasks;
      SetNone(tasks, st);
      for k := 0 to |ready|
        invariant tools.Value() == old(tools.Value())
        invariant tasks == WithStatuses(tasks0, SetAll(Statuses(tasks0), ToSet(ready[..k]), st))
      {
        assert ready[..k + 1] == ready[..k] + [ready[k]];
        assert ToSet(ready[..k + 1]) == ToSet(ready[..k]) + {ready[k]};
        SetOneMore(tasks0, ToSet(ready[..k]), ready[k], st);
        OneStatus(tasks, ready[k], st);
        tasks := tasks[ready[k] := tasks[ready[k]].(status := st)];
      }
      assert ready[..|ready|] == ready;
      tools.plans := tools.plans[id := tools.plans[id].(subTasks := tasks)];
    }

    method PutCurrent(saved: bool)
      modifies tools
      ensures tools.Value() == PutByID(old(tools.Value()), id, saved)
    {
      if id in tools.plans { tools.PutPlan(tools.plans[id], saved); }
    }

    /** The context is cancelled when the script says so. */
    method CancelIfDue()
      requires Valid() && !Now().stopped
      modifies this
      ensures Valid() && !Due() && SameBatch(old(Now()), Now()) && Now() == old(Now()).(cancelled := Now().cancelled)
    {
      hide Tracked, StateOf;
      if Due() {
        CancelStep(Now());
        CancelContext();
      }
    }

    method CancelContext()
      requires Valid() && !Now().stopped && Due()
      modifies this
      ensures Valid() && log == old(log) + [Cancel] && Now() == Apply(old(Now()), Cancel)
    {
      hide Tracked;
      ghost var x := script.around(steps);
      TrackedIsInStep(cfg, script, id, d0, log, effects, Here());
      Advances(cfg, script, id, d0, log, effects, Here(), Cancel, x);
      SilentStep(cfg, id, Here(), Cancel, x);
      cancelled, steps := true, steps + 1;
      log, effects := log + [Cancel], effects + [x];
    }

    /** A goroutine finds its context alive and runs its worker. */
    method StartWorker(i: nat)
      requires Valid() && !Due() && Enabled(TasksOf(id, d0), Now(), Start(i))
      modifies this
      ensures Valid() && log == old(log) + [Start(i)] && Now() == Apply(old(Now()), Start(i))
    {
      hide Tracked, Enabled, StateOf;
      ghost var x := script.around(steps);
      Advances(cfg, script, id, d0, log, effects, Here(), Start(i), x);
      SilentStep(cfg, id, Here(), Start(i), x);
      steps := steps + 1;
      log, effects := log + [Start(i)], effects + [x];
    }

    method Finished()
      requires Valid() && !Due() && Enabled(TasksOf(id, d0), Now(), Return)
      modifies this
      ensures Valid() && log == old(log) + [Return] && Now() == Apply(old(Now()), Return)
    {
      hide Tracked, Enabled, StateOf;
      ghost var x := script.around(steps);
      Advances(cfg, script, id, d0, log, effects, Here(), Return, x);
      SilentStep(cfg, id, Here(), Return, x);
      steps := steps + 1;
      log, effects := log + [Return], effects + [x];
    }

    /** A goroutine finds its context cancelled. */
    method AbandonWorker(i: nat)
      requires Valid() && !Due() && Enabled(TasksOf(id, d0), Now(), Abandon(i))
      modifies this, tools
      ensures Valid() && log == old(log) + [Abandon(i)] && Now() == Apply(old(Now()), Abandon(i))
    {
      WriteStatus(i, TaskStatus.Failed, Abandon(i));
    }

    /** A worker returns as the script has it. */
    method FinishWorker(i: nat) returns (ok: bool)
      requires Valid() && !Due() && Enabled(TasksOf(id, d0), Now(), Finish(i, script.succeeds(i)))
      modifies this, tools
      ensures ok == script.succeeds(i)
      ensures Valid() && log == old(log) + [Finish(i, ok)] && Now() == Apply(old(Now()), Finish(i, ok))
    {
      ok := script.succeeds(i);
      WriteStatus(i, if ok then TaskStatus.Done else TaskStatus.Failed, Finish(i, ok));
    }

    /** A goroutine writes its task's status, in memory. */
    method WriteStatus(i: nat, st: TaskStatus, ghost e: Event)
      requires Valid() && !Due() && Enabled(TasksOf(id, d0), Now(), e)
      requires (e == Abandon(i) && st == TaskStatus.Failed) || (e == Finish(i, st == TaskStatus.Done) && st in {TaskStatus.Done, TaskStatus.Failed})
      requires e.Finish? ==> e.ok == script.succeeds(i)
      modifies this, tools
      ensures Valid() && log == old(log) + [e] && Now() == Apply(old(Now()), e)
    {
      hide Tracked, Enabled, StateOf, SetStatuses, Apply;
      ghost var d, x := Here(), script.around(steps);
      TrackedIsInStep(cfg, script, id, d0, log, effects, d);
      WorkersAreTasks(TasksOf(id, d0), Statuses(TasksOf(id, d0)), Now());
      EventTasks(TasksOf(id, d0), Now(), e);
      UpdateTask(i, st);
      WritingStep(cfg, id, d, e, x);
      Advances(cfg, script, id, d0, log, effects, d, e, x);
      KeepsContext(Now(), e);
      steps := steps + 1;
      log, effects := log + [e], effects + [x];
    }

    /** The callback of a failed worker: counts, may have the reviewer look, and may roll the
        plan back, which cancels the context. */
    method ReviewFailure(i: nat)
      requires Valid() && !Due() && i in Now().reporting && !Now().stopped
      modifies this, tools
      ensures Valid() && |log| == |old(log)| + 1 && log[..|old(log)|] == old(log)
      ensures log[|old(log)|].Review? && log[|old(log)|].i == i && Now() == Apply(old(Now()), log[|old(log)|])
    {
      hide Tracked, StateOf, Apply, ShouldReview, Drift, DriftPlan, StoreStep, Rollback;
      var x := script.around(steps);
      ghost var d := Here();
      ghost var e := Review(i, Rollback(cfg, id, d, x));
      TrackedIsInStep(cfg, script, id, d0, log, effects, d);
      RollbackEnabled(cfg, script, id, d0, log, effects, d, i, x);
      Advances(cfg, script, id, d0, log, effects, d, e, x);
      taskFails := taskFails + 1;
      if ShouldReview(cfg, taskFails) && x.drifts {
        var rolledBack := tools.HandleDrift(id, x.reason);
        if rolledBack { cancelled := true; }
      }
      DriftOrNot(d.store, id, x.reason);
      ReviewStep(cfg, id, d, i, x);
      ReviewContext(cfg, id, d, Now(), i, x);
      steps := steps + 1;
      log, effects := log + [e], effects + [x];
    }

    /** A goroutine stores the plan and ends. */
    method PersistPlan(i: nat)
      requires Valid() && !Due() && i in Now().storing && !Now().stopped
      modifies this, tools
      ensures Valid() && log == old(log) + [Persist(i)] && Now() == Apply(old(Now()), Persist(i))
    {
      hide Tracked, StateOf, PutByID;
      var x := script.around(steps);
      ghost var d := Here();
      TrackedIsInStep(cfg, script, id, d0, log, effects, d);
      StatusLength(TasksOf(id, d0), Now(), Statuses(TasksOf(id, d0)));
      Advances(cfg, script, id, d0, log, effects, d, Persist(i), x);
      PersistStep(cfg, id, d, i, x);
      PutCurrent(x.saved);
      steps := steps + 1;
      log, effects := log + [Persist(i)], effects + [x];
    }

    method MarkBatch(ready: seq<nat>)
      requires Valid() && !Due() && Enabled(TasksOf(id, d0), Now(), MarkReady(ToSet(ready)))
      requires forall k :: 0 <= k < |ready| ==> ready[k] < |TasksOf(id, d0)|
      modifies this, tools
      ensures Valid() && log == old(log) + [MarkReady(ToSet(ready))] && Now() == Apply(old(Now()), MarkReady(ToSet(ready)))
    {
      WriteBatch(ready, TaskStatus.Doing, MarkReady(ToSet(ready)));
    }

    method CancelBatch(ready: seq<nat>)
      requires Valid() && !Due() && Enabled(TasksOf(id, d0), Now(), CancelAtHead(ToSet(ready)))
      requires forall k :: 0 <= k < |ready| ==> ready[k] < |TasksOf(id, d0)|
      modifies this, tools
      ensures Valid() && log == old(log) + [CancelAtHead(ToSet(ready))] && Now() == Apply(old(Now()), CancelAtHead(ToSet(ready)))
    {
      WriteBatch(ready, TaskStatus.Failed, CancelAtHead(ToSet(ready)));
    }

    /** The loop head writes the statuses of a batch and stores the plan. */
    method WriteBatch(ready: seq<nat>, st: TaskStatus, ghost e: Event)
      requires Valid() && !Due() && Enabled(TasksOf(id, d0), Now(), e)
      requires (e == MarkReady(ToSet(ready)) && st == TaskStatus.Doing) || (e == CancelAtHead(ToSet(ready)) && st == TaskStatus.Failed)
      requires forall k :: 0 <= k < |ready| ==> ready[k] < |TasksOf(id, d0)|
      modifies this, tools
      ensures Valid() && log == old(log) + [e] && Now() == Apply(old(Now()), e)
    {
      hide Tracked, Enabled, StateOf, SetStatuses, PutByID, Apply;
      var x := script.around(steps);
      ghost var d := Here();
      TrackedIsInStep(cfg, script, id, d0, log, effects, d);
      SetBatch(ready, st);
      PutCurrent(x.saved);
      WritingStep(cfg, id, d, e, x);
      Advances(cfg, script, id, d0, log, effects, d, e, x);
      KeepsContext(Now(), e);
      steps := steps + 1;
      log, effects := log + [e], effects + [x];
    }

    /** A spawned goroutine looks at its context. */
    method StepSpawned(g0: Crew, i: nat) returns (g: Crew)
      requires Valid() && !Due() && !Now().stopped && i in g0.spawned && g0 == CrewOf(Now())
      modifies this, tools
      ensures Valid() && SameBatch(old(Now()), Now()) && Now().failCount == old(Now().failCount)
      ensures g == CrewOf(Now()) && g.Left() < g0.Left()
    {
      hide Tracked, StateOf, Crew.Left;
      TrackedIsInStep(cfg, script, id, d0, log, effects, Here());
      StatusLength(TasksOf(id, d0), Now(), Statuses(TasksOf(id, d0)));
      hide Consistent, SameShape, UniqueIDs;
      SpawnedLeave(g0, i);
      if cancelled {
        AbandonWorker(i);
        return g0.(spawned := g0.spawned - {i}, storing := g0.storing + {i});
      }
      StartWorker(i);
      return g0.(spawned := g0.spawned - {i}, running := g0.running + {i});
    }

    /** A worker returns. */
    method StepRunning(g0: Crew, i: nat) returns (g: Crew, failed: nat)
      requires Valid() && !Due() && !Now().stopped && i in g0.running && g0 == CrewOf(Now())
      modifies this, tools
      ensures Valid() && SameBatch(old(Now()), Now()) && Now().failCount == old(Now().failCount) + failed
      ensures g == CrewOf(Now()) && g.Left() < g0.Left()
    {
      hide Tracked, StateOf, Crew.Left;
      TrackedIsInStep(cfg, script, id, d0, log, effects, Here());
      StatusLength(TasksOf(id, d0), Now(), Statuses(TasksOf(id, d0)));
      hide Consistent, SameShape, UniqueIDs;
      RunningLeave(g0, i);
      var ok := FinishWorker(i);
      if ok { return g0.(running := g0.running - {i}, storing := g0.storing + {i}), 0; }
      return g0.(running := g0.running - {i}, reporting := g0.reporting + {i}), 1;
    }

    /** A failed worker's callback runs. */
    method StepReporting(g0: Crew, i: nat) returns (g: Crew)
      requires Valid() && !Due() && !Now().stopped && i in g0.reporting && g0 == CrewOf(Now())
      modifies this, tools
      ensures Valid() && SameBatch(old(Now()), Now()) && Now().failCount == old(Now().failCount)
      ensures g == CrewOf(Now()) && g.Left() < g0.Left()
    {
      hide Tracked, StateOf, Crew.Left;
      ReportingLeave(g0, i);
      ReviewFailure(i);
      g := g0.(reporting := g0.reporting - {i}, storing := g0.storing + {i});
    }

    /** A goroutine stores the plan. */
    method StepStoring(g0: Crew, i: nat) returns (g: Crew)
      requires Valid() && !Due() && !Now().stopped && i in g0.storing && g0 == CrewOf(Now())
      modifies this, tools
      ensures Valid() && SameBatch(old(Now()), Now()) && Now().failCount == old(Now().failCount)
      ensures g == CrewOf(Now()) && g.Left() < g0.Left()
    {
      hide Tracked, StateOf, Crew.Left;
      StoringLeave(g0, i);
      PersistPlan(i);
      g := g0.(storing := g0.storing - {i});
    }

    /** One step of one goroutine of the batch, whichever the scheduler picks; the context
        may be cancelled just before. */
    method RunGoroutine(g0: Crew) returns (g: Crew, failed: nat)
      requires Valid() && !Now().stopped && !g0.Idle() && g0 == CrewOf(Now())
      modifies this, tools
      ensures Valid() && SameBatch(old(Now()), Now()) && Now().failCount == old(Now().failCount) + failed
      ensures g == CrewOf(Now()) && g.Left() < g0.Left()
    {
      hide Tracked, StateOf, Apply, Enabled, Crew.Left;
      failed := 0;
      CancelIfDue();
      var pick: int := *;
      if g0.spawned != {} && (pick == 0 || g0.running == g0.reporting == g0.storing == {}) {
        var i :| i in g0.spawned;
        g := StepSpawned(g0, i);
      } else if g0.running != {} && (pick == 1 || g0.reporting == g0.storing == {}) {
        var i :| i in g0.running;
        g, failed := StepRunning(g0, i);
      } else if g0.reporting != {} && (pick == 2 || g0.storing == {}) {
        var i :| i in g0.reporting;
        g := StepReporting(g0, i);
      } else {
        var i :| i in g0.storing;
        g := StepStoring(g0, i);
      }
    }

    /** Marks the ready tasks, spawns them and waits at the barrier. */
    method RunBatch(ready: seq<nat>) returns (failCount: nat)
      requires Valid() && !Due() && Enabled(TasksOf(id, d0), Now(), MarkReady(ToSet(ready)))
      requires forall k :: 0 <= k < |ready| ==> ready[k] < |TasksOf(id, d0)|
      modifies this, tools
      ensures Valid() && AtBarrier(Now()) && !Now().stopped && Now().failCount == failCount
      ensures Now().batches == old(Now().batches) + [ToSet(ready)]
    {
      BatchBegins(TasksOf(id, d0), Now(), ToSet(ready));
      hide Tracked, StateOf, SetAll, ReadySet, Apply, Enabled, Crew.Left, Crew.Idle, CrewOf, AtBarrier, ToSet;
      MarkBatch(ready);
      var g := Crew(ToSet(ready), {}, {}, {});
      ghost var batches := Now().batches;
      failCount := 0;
      while !g.Idle()
        invariant Valid() && !Now().stopped && g == CrewOf(Now())
        invariant Now().failCount == failCount && Now().batches == batches
        decreases g.Left()
      {
        var failed;
        g, failed := RunGoroutine(g);
        failCount := failCount + failed;
      }
      IdleAtBarrier(Now());
    }

    /** A call of the executor against its script. Where nobody cancels and every worker
        succeeds, it carries out everything that nothing blocked. */
    method ExecuteBatch() returns (r: BatchResult)
      requires Valid() && log == []
      modifies this, tools
      ensures Valid() && Now().stopped && Plays(script, log, effects)
      ensures r == BatchResult(|Now().batches| > 0, Now().hasFailed, AllDone(Now().status))
      ensures Smooth(script, |TasksOf(id, d0)|) && WellFormed(TasksOf(id, d0)) ==>
                !r.hasFailed && RunnableAreDone(id, d0, tools.Value())
                && (AllOpenOrDone(TasksOf(id, d0)) ==> r.allDone && AllAreDone(id, tools.Value()))
    {
      r := RunBatches();
      TrackedIsTrace(cfg, script, id, d0, log, effects, Here());
      if Smooth(script, |TasksOf(id, d0)|) && WellFormed(TasksOf(id, d0)) {
        SmoothCall(cfg, script, id, d0, log, effects, Here());
      }
    }

    /** Runs batch after batch until nothing is ready, a worker has failed or the context
        is cancelled. */
    method RunBatches() returns (r: BatchResult)
      requires Valid() && log == []
      modifies this, tools
      ensures Valid() && Now().stopped
      ensures r == BatchResult(|Now().batches| > 0, Now().hasFailed, AllDone(Now().status))
    {
      ghost var tasks := TasksOf(id, d0);
      ghost var status0 := Statuses(tasks);
      var anyBatch := false;
      AtStart(id, d0);
      hide Tracked, StateOf, SetAll, StatusOf, Apply, AllDone, PendingSet, ReadySet, Consistent, UniqueIDs, SameShape, DagExecution.Run;
      while true
        invariant Valid() && AtBarrier(Now()) && !Now().stopped && Now().failCount == 0 && anyBatch == (|Now().batches| > 0)
        decreases |PendingSet(status0)| - |Now().batches|
      {
        CancelIfDue();
        Bounded(cfg, script, id, d0, log, effects, Here());
        TrackedIsInStep(cfg, script, id, d0, log, effects, Here());
        StatusLength(tasks, Now(), status0);
        var ready := ReadyTasks(tools.plans[id].subTasks);
        ReadyOfShape(tools.plans[id].subTasks, tasks, ready);
        if |ready| == 0 {
          var done := IsDAGDone(tools.plans[id].subTasks);
          StopStep(Now(), Return);
          Finished();
          return BatchResult(anyBatch, false, done);
        }
        if cancelled {
          StopStep(Now(), CancelAtHead(ToSet(ready)));
          CancelBatch(ready);
          TrackedIsInStep(cfg, script, id, d0, log, effects, Here());
          var done := IsDAGDone(tools.plans[id].subTasks);
          return BatchResult(anyBatch, true, done);
        }
        var failCount := RunBatch(ready);
        Bounded(cfg, script, id, d0, log, effects, Here());
        if failCount > 0 {
          CancelIfDue();
          TrackedIsInStep(cfg, script, id, d0, log, effects, Here());
          StatusLength(tasks, Now(), status0);
          var done := IsDAGDone(tools.plans[id].subTasks);
          StopStep(Now(), Return);
          Finished();
          return BatchResult(true, true, done);
        }
        anyBatch := true;
      }
    }
  }

  // ---- A call nothing disturbs ----

  ghost predicate AllOpenOrDone(tasks: seq<Task>) {
    forall t :: t in tasks ==> t.status == Pending || t.status == TaskStatus.Done
  }

  ghost predicate AllAreDone(id: string, s: Store) {
    id in s.plans && forall t :: t in s.plans[id].subTasks ==> t.status == TaskStatus.Done
  }

  /** Every task that nothing blocked at entry is stored as done, the others as they were. */
  ghost predicate RunnableAreDone(id: string, d0: PlanRun, s: Store) {
    var tasks := TasksOf(id, d0);
    && id in s.plans && |s.plans[id].subTasks| == |tasks|
    && forall i: nat :: i < |tasks| ==>
         s.plans[id].subTasks[i].status == if Runnable(tasks, Statuses(tasks), i) then TaskStatus.Done else tasks[i].status
  }

  /** Without a cancellation or a failing worker, the executor carries the plan out. */
  lemma SmoothCall(cfg: Config, script: Script, id: string, d0: PlanRun, log: seq<Event>, effects: seq<Effect>, d: PlanRun)
    requires Tracked(cfg, script, id, d0, log, effects, d) && StateOf(id, d0, log).stopped
    requires Smooth(script, |TasksOf(id, d0)|) && WellFormed(TasksOf(id, d0))
    ensures !StateOf(id, d0, log).hasFailed && RunnableAreDone(id, d0, d.store)
    ensures AllOpenOrDone(TasksOf(id, d0)) ==> AllDone(StateOf(id, d0, log).status) && AllAreDone(id, d.store)
  {
    var tasks := TasksOf(id, d0);
    TrackedIsTrace(cfg, script, id, d0, log, effects, d);
    TrackedIsInStep(cfg, script, id, d0, log, effects, d);
    SmoothTrace(tasks, script, log, effects);
    hide Tracked, WellFormed, IsTrace, Plays, UniqueIDs, DagExecution.Run, Consistent, Runnable, Smooth;
    var now := d.store.plans[id].subTasks;
    assert forall i :: 0 <= i < |now| ==> Statuses(now)[i] == now[i].status;
  }

  lemma SmoothTrace(tasks: seq<Task>, script: Script, log: seq<Event>, effects: seq<Effect>)
    requires WellFormed(tasks) && UniqueIDs(tasks) && IsTrace(tasks, Statuses(tasks), log)
    requires DagExecution.Run(Statuses(tasks), log).stopped && Plays(script, log, effects) && Smooth(script, |tasks|)
    ensures var s, status0 := DagExecution.Run(Statuses(tasks), log), Statuses(tasks);
            && !s.hasFailed && |s.status| == |tasks|
            && (forall i: nat :: i < |tasks| ==> s.status[i] == if Runnable(tasks, status0, i) then TaskStatus.Done else status0[i])
            && (AllOpenOrDone(tasks) ==> AllDone(s.status) && forall i :: 0 <= i < |tasks| ==> s.status[i] == TaskStatus.Done)
  {
    var status0 := Statuses(tasks);
    SmoothIsUntroubled(tasks, status0, script, log, effects);
    UntroubledIsClean(tasks, status0, log);
    hide WellFormed, UniqueIDs, IsTrace, Plays, Smooth, Untroubled, DagExecution.Run, Runnable;
    CleanCallRunsTheLevels(tasks, status0, log);
    UnfailedCallCompletesIff(tasks, status0, log);
    if AllOpenOrDone(tasks) {
      assert forall i :: 0 <= i < |tasks| ==> status0[i] == tasks[i].status && tasks[i] in tasks;
    }
  }

  lemma TrackedIsTrace(cfg: Config, script: Script, id: string, d0: PlanRun, log: seq<Event>, effects: seq<Effect>, d: PlanRun)
    requires Tracked(cfg, script, id, d0, log, effects, d)
    ensures UniqueIDs(TasksOf(id, d0)) && IsTrace(TasksOf(id, d0), Statuses(TasksOf(id, d0)), log)
    ensures Plays(script, log, effects)
  {
    hide IsTrace, Fits, RunStore, Plays, UniqueIDs;
  }

  // ---- Steps, as the methods take them ----

  /** The goroutines of a batch, by what they have before them. */
  datatype Crew = Crew(spawned: set<nat>, running: set<nat>, reporting: set<nat>, storing: set<nat>) {
    predicate Idle() { spawned == running == reporting == storing == {} }

    /** How many steps they have before them, at most. */
    function Left(): nat { 4 * |spawned| + 3 * |running| + 2 * |reporting| + |storing| }
  }

  ghost function CrewOf(s: State): Crew {
    Crew(s.spawned, s.running, s.reporting, s.storing)
  }

  lemma IdleAtBarrier(s: State)
    ensures CrewOf(s).Idle() ==> AtBarrier(s)
  {
  }

  lemma SpawnedLeave(g: Crew, i: nat)
    requires i in g.spawned
    ensures g.(spawned := g.spawned - {i}, running := g.running + {i}).Left() < g.Left()
    ensures g.(spawned := g.spawned - {i}, storing := g.storing + {i}).Left() < g.Left()
  {
    AtMostOneMore(g.running, i);
    AtMostOneMore(g.storing, i);
  }

  lemma RunningLeave(g: Crew, i: nat)
    requires i in g.running
    ensures g.(running := g.running - {i}, storing := g.storing + {i}).Left() < g.Left()
    ensures g.(running := g.running - {i}, reporting := g.reporting + {i}).Left() < g.Left()
  {
    AtMostOneMore(g.storing, i);
    AtMostOneMore(g.reporting, i);
  }

  lemma ReportingLeave(g: Crew, i: nat)
    requires i in g.reporting
    ensures g.(reporting := g.reporting - {i}, storing := g.storing + {i}).Left() < g.Left()
  {
    AtMostOneMore(g.storing, i);
  }

  lemma StoringLeave(g: Crew, i: nat)
    requires i in g.storing
    ensures g.(storing := g.storing - {i}).Left() < g.Left()
  {
  }

  lemma AtMostOneMore(s: set<nat>, i: nat)
    ensures |s + {i}| <= |s| + 1
  {
    if i in s { assert s + {i} == s; }
  }

  /** No batch begins and the call goes on. */
  predicate SameBatch(s: State, t: State) {
    s.batches == t.batches && !t.stopped
  }

  lemma BatchBegins(tasks: seq<Task>, s: State, batch: set<nat>)
    requires Enabled(tasks, s, MarkReady(batch))
    ensures var t := Apply(s, MarkReady(batch));
            CrewOf(t) == Crew(batch, {}, {}, {}) && t.failCount == 0 && t.batches == s.batches + [batch] && !t.stopped
  {
  }

  lemma SilentStep(cfg: Config, id: string, d: PlanRun, e: Event, x: Effect)
    requires e.Start? || e.Cancel? || e.Return?
    ensures StoreStep(cfg, id, d, e, x) == d
  {
  }

  /** A step that writes statuses: in memory, and at the loop head to the disk. */
  lemma WritingStep(cfg: Config, id: string, d: PlanRun, e: Event, x: Effect)
    requires id in d.store.plans && (e.MarkReady? || e.CancelAtHead? || e.Abandon? || e.Finish?)
    ensures var s := SetStatuses(d.store, id, After(Statuses(d.store.plans[id].subTasks), e));
            StoreStep(cfg, id, d, e, x) == d.(store := if e.Finish? || e.Abandon? then s else PutByID(s, id, x.saved))
  {
  }

  lemma KeepsContext(s: State, e: Event)
    requires e.MarkReady? || e.CancelAtHead? || e.Abandon? || e.Finish?
    ensures Apply(s, e).cancelled == s.cancelled
  {
  }

  lemma EventTasks(tasks: seq<Task>, s: State, e: Event)
    requires Enabled(tasks, s, e)
    ensures |s.status| == |tasks|
    ensures e.Abandon? ==> e.i in s.spawned
    ensures e.Finish? ==> e.i in s.running
  {
  }

  lemma DriftOrNot(s: Store, id: string, reason: string)
    ensures DriftPlan(s, id, reason).None? ==> Drift(s, id, reason) == s
  {
  }

  lemma ReviewStep(cfg: Config, id: string, d: PlanRun, i: nat, x: Effect)
    requires id in d.store.plans
    ensures StoreStep(cfg, id, d, Review(i, Rollback(cfg, id, d, x)), x) ==
              PlanRun(if Drifts(cfg, id, d, x) then Drift(d.store, id, x.reason) else d.store, d.taskFails + 1)
  {
  }

  lemma PersistStep(cfg: Config, id: string, d: PlanRun, i: nat, x: Effect)
    ensures StoreStep(cfg, id, d, Persist(i), x) == d.(store := PutByID(d.store, id, x.saved))
  {
  }

  lemma ReviewContext(cfg: Config, id: string, d: PlanRun, s: State, i: nat, x: Effect)
    ensures Apply(s, Review(i, Rollback(cfg, id, d, x))).cancelled == (s.cancelled || Drifts(cfg, id, d, x))
  {
  }

  /** A rollback brings back as many statuses as there are tasks. */
  lemma RollbackEnabled(cfg: Config, script: Script, id: string, d0: PlanRun, log: seq<Event>, effects: seq<Effect>, d: PlanRun, i: nat, x: Effect)
    requires Tracked(cfg, script, id, d0, log, effects, d)
    requires i in StateOf(id, d0, log).reporting && !StateOf(id, d0, log).stopped
    ensures Enabled(TasksOf(id, d0), StateOf(id, d0, log), Review(i, Rollback(cfg, id, d, x)))
  {
    hide IsTrace, Fits, RunStore, Run, DriftPlan, ShouldReview, Plays;
    StoreFollows(cfg, id, d0, log, effects);
    TraceIsConsistent(TasksOf(id, d0), Statuses(TasksOf(id, d0)), log);
    if Drifts(cfg, id, d, x) { DriftInStep(id, d0, d.store, x.reason); }
  }

  lemma StatusLength(tasks: seq<Task>, s: State, status0: seq<TaskStatus>)
    requires Consistent(tasks, status0, s)
    ensures |s.status| == |tasks|
  {
  }

  lemma CancelStep(s: State)
    ensures Apply(s, Cancel) == s.(cancelled := true)
  {
  }

  lemma AtStart(id: string, d0: PlanRun)
    ensures AtBarrier(StateOf(id, d0, [])) && !StateOf(id, d0, []).stopped
    ensures StateOf(id, d0, []).failCount == 0 && StateOf(id, d0, []).batches == []
  {
  }

  lemma Bounded(cfg: Config, script: Script, id: string, d0: PlanRun, log: seq<Event>, effects: seq<Effect>, d: PlanRun)
    requires Tracked(cfg, script, id, d0, log, effects, d)
    ensures |StateOf(id, d0, log).batches| <= |PendingSet(Statuses(TasksOf(id, d0)))|
  {
    hide IsTrace, Fits, RunStore, Run, PendingSet, Plays;
    BatchesAreBounded(TasksOf(id, d0), Statuses(TasksOf(id, d0)), log);
  }

  lemma StopStep(s: State, e: Event)
    requires e.Return? || e.CancelAtHead?
    ensures var t := Apply(s, e);
            && t.stopped && t.batches == s.batches && t.hasFailed == (e.CancelAtHead? || s.failCount > 0)
            && (e.Return? ==> t.status == s.status)
  {
  }

  method IsDAGDone(tasks: seq<Task>) returns (done: bool)
    ensures done == AllDone(Statuses(tasks))
  {
    for i := 0 to |tasks|
      invariant forall j :: 0 <= j < i ==> tasks[j].status != Pending && tasks[j].status != TaskStatus.Doing
    {
      if tasks[i].status == Pending || tasks[i].status == TaskStatus.Doing {
        assert Statuses(tasks)[i] == tasks[i].status;
        return false;
      }
    }
    return true;
  }
}
