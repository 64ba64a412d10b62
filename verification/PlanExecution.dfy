/** What the batch executor does to the plan store: statuses are written as they change, and
    the callback of a failed worker is counted, possibly reviewed, and may have the plan
    rolled back. */
module PlanExecution {
  import opened Options
  import opened PlanModel
  import opened PlanStore
  import opened DagExecution
  import opened DagCompleteness

  datatype Config = Config(maxCycles: nat, forceMode: string, hasReviewer: bool,
                           reviewInterval: int, maxFailuresBeforeReview: int)

  predicate ShouldReview(cfg: Config, taskFails: nat) {
    && cfg.hasReviewer
    && ((cfg.reviewInterval > 0 && taskFails % cfg.reviewInterval == 0) ||
        (cfg.maxFailuresBeforeReview > 0 && taskFails >= cfg.maxFailuresBeforeReview))
  }

  // ---- Tasks and their statuses ----

  function Statuses(tasks: seq<Task>): (status: seq<TaskStatus>)
    ensures |status| == |tasks|
    ensures forall i :: 0 <= i < |tasks| ==> status[i] == tasks[i].status
  {
    seq(|tasks|, i requires 0 <= i < |tasks| => tasks[i].status)
  }

  function WithStatuses(tasks: seq<Task>, status: seq<TaskStatus>): (r: seq<Task>)
    ensures |status| == |tasks| ==> Statuses(r) == status && SameShape(r, tasks)
  {
    if |status| != |tasks| then tasks
    else
      var r := seq(|tasks|, i requires 0 <= i < |tasks| => tasks[i].(status := status[i]));
      assert Statuses(r) == status;
      r
  }

  /** Only statuses and reasons may differ. */
  ghost predicate SameShape(a: seq<Task>, b: seq<Task>) {
    |a| == |b| && forall i :: 0 <= i < |a| ==> SameTask(a[i], b[i])
  }

  predicate SameTask(a: Task, b: Task) {
    a.id == b.id && a.parentTaskID == b.parentTaskID && a.goal == b.goal && a.action == b.action
  }

  // ---- Steps on the store ----

  /** What surrounds an event: whether PutPlan reaches the disk, the reviewer's verdict, and
      the reason of a failure. */
  datatype Effect = Effect(saved: bool, drifts: bool, reason: string)

  /** What the world does in one call of the executor: whose worker succeeds, before which
      step the context is cancelled from outside, if at all, and what surrounds each step. */
  datatype Script = Script(succeeds: nat -> bool, cancelAt: Option<nat>, around: nat -> Effect)

  /** The n-th step is one the script allows. */
  predicate PlaysAt(script: Script, e: Event, x: Effect, n: nat) {
    x == script.around(n) && (e.Cancel? <==> script.cancelAt == Some(n)) && (e.Finish? ==> e.ok == script.succeeds(e.i))
  }

  /** Cancellations, outcomes, verdicts and the disk are those of the script. */
  ghost predicate Plays(script: Script, log: seq<Event>, effects: seq<Effect>) {
    |effects| == |log| && forall n :: 0 <= n < |log| ==> PlaysAt(script, log[n], effects[n], n)
  }

  /** Nobody cancels, and every worker succeeds. */
  ghost predicate Smooth(script: Script, n: nat) {
    script.cancelAt.None? && forall i: nat :: i < n ==> script.succeeds(i)
  }

  /** The store and the run's failure counter. */
  datatype PlanRun = PlanRun(store: Store, taskFails: nat)

  function SetStatuses(s: Store, id: string, status: seq<TaskStatus>): Store {
    if id !in s.plans then s
    else s.(plans := s.plans[id := s.plans[id].(subTasks := WithStatuses(s.plans[id].subTasks, status))])
  }

  function PutByID(s: Store, id: string, saved: bool): Store {
    if id !in s.plans then s else Put(s, s.plans[id], saved)
  }

  /** Whether the callback rolls the plan back. */
  predicate Drifts(cfg: Config, id: string, d: PlanRun, x: Effect) {
    ShouldReview(cfg, d.taskFails + 1) && x.drifts && DriftPlan(d.store, id, x.reason).Some?
  }

  /** The statuses the callback brings back, if it rolls back. */
  function Rollback(cfg: Config, id: string, d: PlanRun, x: Effect): Option<seq<TaskStatus>> {
    if Drifts(cfg, id, d, x) then Some(Statuses(DriftPlan(d.store, id, x.reason).value.subTasks)) else None
  }

  function StoreStep(cfg: Config, id: string, d: PlanRun, e: Event, x: Effect): PlanRun {
    if id !in d.store.plans then d
    else
      var changed := SetStatuses(d.store, id, After(Statuses(d.store.plans[id].subTasks), e));
      match e
      case Start(_) => d
      case Cancel => d
      case Return => d
      case Abandon(_) => d.(store := changed)
      case Finish(_, _) => d.(store := changed)
      case Review(_, _) =>
        PlanRun(if Drifts(cfg, id, d, x) then Drift(d.store, id, x.reason) else d.store, d.taskFails + 1)
      case Persist(_) => d.(store := PutByID(d.store, id, x.saved))
      case _ => d.(store := PutByID(changed, id, x.saved))
  }

  function RunStore(cfg: Config, id: string, d0: PlanRun, log: seq<Event>, effects: seq<Effect>): PlanRun
    requires |effects| == |log|
  {
    if log == [] then d0
    else
      var n := |log| - 1;
      StoreStep(cfg, id, RunStore(cfg, id, d0, log[..n], effects[..n]), log[n], effects[n])
  }

  /** A rollback in the log is the one the store and the reviewer's verdict call for. */
  ghost predicate Fits(cfg: Config, id: string, d0: PlanRun, log: seq<Event>, effects: seq<Effect>) {
    && |effects| == |log|
    && forall n :: 0 <= n < |log| && log[n].Review? ==>
         log[n].rollback == Rollback(cfg, id, RunStore(cfg, id, d0, log[..n], effects[..n]), effects[n])
  }

  lemma FitsFront(cfg: Config, id: string, d0: PlanRun, log: seq<Event>, effects: seq<Effect>)
    requires Fits(cfg, id, d0, log, effects) && log != []
    ensures var n := |log| - 1;
            && Fits(cfg, id, d0, log[..n], effects[..n])
            && RunStore(cfg, id, d0, log, effects) ==
                 StoreStep(cfg, id, RunStore(cfg, id, d0, log[..n], effects[..n]), log[n], effects[n])
            && (log[n].Review? ==> log[n].rollback == Rollback(cfg, id, RunStore(cfg, id, d0, log[..n], effects[..n]), effects[n]))
  {
    hide StoreStep, Rollback;
    var n := |log| - 1;
    forall m | 0 <= m < n ensures log[..n][..m] == log[..m] && effects[..n][..m] == effects[..m] {}
  }

  lemma FitsExtends(cfg: Config, id: string, d0: PlanRun, log: seq<Event>, effects: seq<Effect>, e: Event, x: Effect)
    requires Fits(cfg, id, d0, log, effects)
    requires e.Review? ==> e.rollback == Rollback(cfg, id, RunStore(cfg, id, d0, log, effects), x)
    ensures Fits(cfg, id, d0, log + [e], effects + [x])
    ensures RunStore(cfg, id, d0, log + [e], effects + [x]) == StoreStep(cfg, id, RunStore(cfg, id, d0, log, effects), e, x)
  {
    hide StoreStep, Rollback;
    var longer, more := log + [e], effects + [x];
    assert longer[..|log|] == log && more[..|log|] == effects;
    forall m | 0 <= m < |longer| ensures m < |log| ==> longer[..m] == log[..m] && more[..m] == effects[..m] {}
  }

  // ---- A call nothing disturbs ----

  lemma SmoothIsUntroubled(tasks: seq<Task>, status0: seq<TaskStatus>, script: Script, log: seq<Event>, effects: seq<Effect>)
    requires IsTrace(tasks, status0, log) && Plays(script, log, effects) && Smooth(script, |tasks|)
    ensures Untroubled(log)
  {
    hide Enabled, Run;
    forall e | e in log ensures !e.Cancel? && (e.Finish? ==> e.ok) {
      var n :| 0 <= n < |log| && log[n] == e;
      assert PlaysAt(script, log[n], effects[n], n);
      TracePrefix(tasks, status0, log, n);
      TraceIsConsistent(tasks, status0, log[..n]);
      EnabledAt(tasks, status0, log, n);
      if e.Finish? { FinisherIsTask(tasks, status0, Run(status0, log[..n]), e); }
    }
  }

  lemma FinisherIsTask(tasks: seq<Task>, status0: seq<TaskStatus>, s: State, e: Event)
    requires Consistent(tasks, status0, s) && Enabled(tasks, s, e) && e.Finish?
    ensures e.i < |tasks|
  {
  }

  // ---- The store follows the executor ----

  /** The situation in which the executor is called: from the plan's current version on,
      checkpoints hold the same tasks. */
  ghost predicate Begun(id: string, d0: PlanRun) {
    id in d0.store.plans && SavedShape(id, d0, d0.store)
  }

  ghost predicate SavedShape(id: string, d0: PlanRun, s: Store)
    requires id in d0.store.plans
  {
    forall v: nat :: v >= d0.store.plans[id].version && (id, v) in s.checkpoints ==>
      SameShape(s.checkpoints[(id, v)].subTasks, d0.store.plans[id].subTasks)
  }

  /** The stored plan has the tasks of the call and the statuses of the executor's state. */
  ghost predicate InStep(id: string, d0: PlanRun, s: State, d: PlanRun)
    requires id in d0.store.plans
  {
    && id in d.store.plans && d.store.plans[id].id == id
    && SameShape(d.store.plans[id].subTasks, d0.store.plans[id].subTasks)
    && Statuses(d.store.plans[id].subTasks) == s.status
    && d.store.plans[id].version >= d0.store.plans[id].version
    && (s.batches != [] ==> d.store.plans[id].version > d0.store.plans[id].version)
    && SavedShape(id, d0, d.store)
  }

  lemma PutInStep(id: string, d0: PlanRun, s: Store, saved: bool)
    requires id in d0.store.plans && id in s.plans && s.plans[id].id == id && SavedShape(id, d0, s)
    requires SameShape(s.plans[id].subTasks, d0.store.plans[id].subTasks)
    ensures var t := PutByID(s, id, saved);
            && id in t.plans && t.plans[id] == s.plans[id].(version := s.plans[id].version + 1) && SavedShape(id, d0, t)
  {
    hide SameShape;
  }

  lemma SetInStep(id: string, d0: PlanRun, s: Store, status: seq<TaskStatus>)
    requires id in d0.store.plans && id in s.plans && SavedShape(id, d0, s)
    requires SameShape(s.plans[id].subTasks, d0.store.plans[id].subTasks) && |status| == |s.plans[id].subTasks|
    ensures var t := SetStatuses(s, id, status);
            && id in t.plans && t.plans[id] == s.plans[id].(subTasks := t.plans[id].subTasks)
            && SameShape(t.plans[id].subTasks, d0.store.plans[id].subTasks)
            && Statuses(t.plans[id].subTasks) == status && SavedShape(id, d0, t)
  {
  }

  lemma DriftInStep(id: string, d0: PlanRun, s: Store, reason: string)
    requires id in d0.store.plans && id in s.plans && SavedShape(id, d0, s)
    requires s.plans[id].version > d0.store.plans[id].version && DriftPlan(s, id, reason).Some?
    ensures var p, t := DriftPlan(s, id, reason).value, Drift(s, id, reason);
            && t == s.(plans := s.plans[id := p]) && p.id == s.plans[id].id && p.version == s.plans[id].version
            && SameShape(p.subTasks, d0.store.plans[id].subTasks) && SavedShape(id, d0, t)
  {
    hide SameShape;
  }

  /** Every step of the executor is matched by its step on the store. */
  lemma StepInStep(cfg: Config, id: string, d0: PlanRun, status0: seq<TaskStatus>, s: State, d: PlanRun, e: Event, x: Effect)
    requires id in d0.store.plans && InStep(id, d0, s, d) && Consistent(d0.store.plans[id].subTasks, status0, s)
    requires Enabled(d0.store.plans[id].subTasks, s, e)
    requires e.Review? ==> e.rollback == Rollback(cfg, id, d, x)
    ensures InStep(id, d0, Apply(s, e), StoreStep(cfg, id, d, e, x))
  {
    hide SameShape, ShouldReview, SavedShape, Put, WithStatuses, DriftPlan, Drift, SetStatuses, PutByID;
    AfterKeepsLength(d0.store.plans[id].subTasks, s, e);
    ReviewComesLate(d0.store.plans[id].subTasks, status0, s, e);
    hide Enabled, Consistent, After;
    StatusIsAfter(s, e);
    if e.Review? {
      if Drifts(cfg, id, d, x) { DriftInStep(id, d0, d.store, x.reason); }
    } else if e.Persist? {
      PutInStep(id, d0, d.store, x.saved);
    } else if !e.Start? && !e.Cancel? && !e.Return? {
      var status := After(s.status, e);
      SetInStep(id, d0, d.store, status);
      PutInStep(id, d0, SetStatuses(d.store, id, status), x.saved);
    }
  }

  lemma AfterKeepsLength(tasks: seq<Task>, s: State, e: Event)
    requires Enabled(tasks, s, e)
    ensures |After(s.status, e)| == |tasks|
  {
  }

  lemma ReviewComesLate(tasks: seq<Task>, status0: seq<TaskStatus>, s: State, e: Event)
    requires Enabled(tasks, s, e) && Consistent(tasks, status0, s)
    ensures e.Review? ==> s.batches != []
  {
  }

  lemma StatusIsAfter(s: State, e: Event)
    ensures Apply(s, e).status == After(s.status, e)
    ensures e.Start? || e.Persist? || e.Cancel? || e.Return? ==> After(s.status, e) == s.status
    ensures e.Review? ==> After(s.status, e) == if e.rollback.Some? then e.rollback.value else s.status
    ensures !e.MarkReady? ==> Apply(s, e).batches == s.batches
  {
  }

  /** So after a whole call the stored plan has the executor's final statuses. */
  lemma {:induction false} StoreFollows(cfg: Config, id: string, d0: PlanRun, log: seq<Event>, effects: seq<Effect>)
    requires Begun(id, d0) && d0.store.plans[id].id == id && Fits(cfg, id, d0, log, effects)
    requires IsTrace(d0.store.plans[id].subTasks, Statuses(d0.store.plans[id].subTasks), log)
    ensures InStep(id, d0, Run(Statuses(d0.store.plans[id].subTasks), log), RunStore(cfg, id, d0, log, effects))
  {
    var tasks := d0.store.plans[id].subTasks;
    var status0 := Statuses(tasks);
    if log != [] {
      hide *;
      var n := |log| - 1;
      LastStep(tasks, status0, log);
      BegunIs(id, d0);
      FitsFront(cfg, id, d0, log, effects);
      StoreFollows(cfg, id, d0, log[..n], effects[..n]);
      TraceIsConsistent(tasks, status0, log[..n]);
      StepInStep(cfg, id, d0, status0, Run(status0, log[..n]), RunStore(cfg, id, d0, log[..n], effects[..n]), log[n], effects[n]);
    }
  }

  lemma BegunIs(id: string, d0: PlanRun)
    requires Begun(id, d0)
    ensures id in d0.store.plans
  {
  }

  // ---- The log of versions and the task ids ----

  lemma PutByIDKeepsLog(s: Store, id: string, saved: bool)
    requires Logged(s)
    ensures Logged(PutByID(s, id, saved))
  {
    hide LogOf, Put;
    if id in s.plans {
      PlanOwnsID(s, id);
      PutKeepsLog(s, s.plans[id], saved);
    }
  }

  /** Changing a plan's tasks in memory does not touch the log. */
  lemma EditInMemory(s: Store, id: string, p: Plan)
    requires Logged(s) && id in s.plans && p.id == id && p.version == s.plans[id].version
    ensures Logged(s.(plans := s.plans[id := p]))
  {
    hide PutsOf;
    var t := s.(plans := s.plans[id := p]);
    forall k ensures LogOf(t, k) { assert LogOf(s, k); }
  }

  lemma StepKeepsLog(cfg: Config, id: string, d: PlanRun, e: Event, x: Effect)
    requires Logged(d.store)
    ensures Logged(StoreStep(cfg, id, d, e, x).store)
  {
    hide Logged, PutByID, Drift, DriftPlan, WithStatuses, ShouldReview;
    if id in d.store.plans {
      PlanOwnsID(d.store, id);
      var status := After(Statuses(d.store.plans[id].subTasks), e);
      EditInMemory(d.store, id, d.store.plans[id].(subTasks := WithStatuses(d.store.plans[id].subTasks, status)));
      PutByIDKeepsLog(SetStatuses(d.store, id, status), id, x.saved);
      DriftKeepsLog(d.store, id, x.reason);
      PutByIDKeepsLog(d.store, id, x.saved);
    }
  }

  lemma {:induction false} RunKeepsLog(cfg: Config, id: string, d0: PlanRun, log: seq<Event>, effects: seq<Effect>)
    requires |effects| == |log| && Logged(d0.store)
    ensures Logged(RunStore(cfg, id, d0, log, effects).store)
  {
    hide Logged, StoreStep;
    if log != [] {
      var n := |log| - 1;
      RunKeepsLog(cfg, id, d0, log[..n], effects[..n]);
      StepKeepsLog(cfg, id, RunStore(cfg, id, d0, log[..n], effects[..n]), log[n], effects[n]);
    }
  }

  lemma PutByIDKeepsUnique(s: Store, id: string, saved: bool)
    requires AllUnique(s)
    ensures AllUnique(PutByID(s, id, saved))
  {
    hide Put, UniqueIDs;
    if id in s.plans {
      assert HasUnique(s, id);
      PutKeepsUnique(s, s.plans[id], saved);
    }
  }

  lemma EditKeepsAllUnique(s: Store, id: string, p: Plan)
    requires AllUnique(s) && UniqueIDs(p.subTasks)
    ensures AllUnique(s.(plans := s.plans[id := p]))
  {
    hide UniqueIDs;
    var t := s.(plans := s.plans[id := p]);
    forall k ensures HasUnique(t, k) { assert HasUnique(s, k); }
    forall k ensures SavedUnique(t, k) { assert SavedUnique(s, k); }
  }

  lemma DriftKeepsUnique(s: Store, id: string, reason: string)
    requires AllUnique(s)
    ensures AllUnique(Drift(s, id, reason))
  {
    hide AllUnique;
    var p := DriftPlan(s, id, reason);
    if p.Some? {
      SavedIsUnique(s, (id, s.plans[id].version - 1));
      EditKeepsAllUnique(s, id, p.value);
    }
  }

  lemma SavedIsUnique(s: Store, k: (string, nat))
    requires AllUnique(s) && k in s.checkpoints
    ensures UniqueIDs(s.checkpoints[k].subTasks)
  {
    assert SavedUnique(s, k);
  }

  lemma PlanIsUnique(s: Store, id: string)
    requires AllUnique(s) && id in s.plans
    ensures UniqueIDs(s.plans[id].subTasks)
  {
    assert HasUnique(s, id);
  }

  lemma ShapeKeepsUnique(tasks: seq<Task>, status: seq<TaskStatus>)
    requires UniqueIDs(tasks)
    ensures UniqueIDs(WithStatuses(tasks, status))
  {
  }

  lemma StepKeepsUnique(cfg: Config, id: string, d: PlanRun, e: Event, x: Effect)
    requires AllUnique(d.store)
    ensures AllUnique(StoreStep(cfg, id, d, e, x).store)
  {
    hide AllUnique, PutByID, Drift, DriftPlan, WithStatuses, ShouldReview, UniqueIDs;
    if id in d.store.plans {
      var p, status := d.store.plans[id], After(Statuses(d.store.plans[id].subTasks), e);
      PlanIsUnique(d.store, id);
      ShapeKeepsUnique(p.subTasks, status);
      EditKeepsAllUnique(d.store, id, p.(subTasks := WithStatuses(p.subTasks, status)));
      PutByIDKeepsUnique(SetStatuses(d.store, id, status), id, x.saved);
      DriftKeepsUnique(d.store, id, x.reason);
      PutByIDKeepsUnique(d.store, id, x.saved);
    }
  }

  lemma {:induction false} RunKeepsUnique(cfg: Config, id: string, d0: PlanRun, log: seq<Event>, effects: seq<Effect>)
    requires |effects| == |log| && AllUnique(d0.store)
    ensures AllUnique(RunStore(cfg, id, d0, log, effects).store)
  {
    hide AllUnique, StoreStep;
    if log != [] {
      var n := |log| - 1;
      RunKeepsUnique(cfg, id, d0, log[..n], effects[..n]);
      StepKeepsUnique(cfg, id, RunStore(cfg, id, d0, log[..n], effects[..n]), log[n], effects[n]);
    }
  }

  // ---- When a failure is reviewed, and what a rollback brings back ----

  /** The failure callbacks of a log. */
  function Reviews(log: seq<Event>): nat {
    if log == [] then 0
    else Reviews(log[..|log| - 1]) + if log[|log| - 1].Review? then 1 else 0
  }

  /** The times a log stores the plan: when a batch is marked or given up, and when a
      goroutine ends. */
  function Puts(log: seq<Event>): nat {
    if log == [] then 0
    else
      var e := log[|log| - 1];
      Puts(log[..|log| - 1]) + if e.MarkReady? || e.CancelAtHead? || e.Persist? then 1 else 0
  }

  lemma StepCounts(cfg: Config, id: string, d: PlanRun, e: Event, x: Effect)
    requires id in d.store.plans && d.store.plans[id].id == id
    ensures var t := StoreStep(cfg, id, d, e, x);
            && id in t.store.plans && t.store.plans[id].id == id
            && t.taskFails == d.taskFails + (if e.Review? then 1 else 0)
            && t.store.plans[id].version ==
                 d.store.plans[id].version + if e.MarkReady? || e.CancelAtHead? || e.Persist? then 1 else 0
  {
    hide ShouldReview, WithStatuses, After, Statuses;
  }

  /** A call counts its failures on the run's counter, and stores the plan once for each
      batch and once for each goroutine that ended. */
  lemma {:induction false} RunCounts(cfg: Config, id: string, d0: PlanRun, log: seq<Event>, effects: seq<Effect>)
    requires id in d0.store.plans && d0.store.plans[id].id == id && |effects| == |log|
    ensures var d := RunStore(cfg, id, d0, log, effects);
            && id in d.store.plans && d.store.plans[id].id == id
            && d.taskFails == d0.taskFails + Reviews(log)
            && d.store.plans[id].version == d0.store.plans[id].version + Puts(log)
  {
    hide StoreStep;
    if log != [] {
      var n := |log| - 1;
      RunCounts(cfg, id, d0, log[..n], effects[..n]);
      StepCounts(cfg, id, RunStore(cfg, id, d0, log[..n], effects[..n]), log[n], effects[n]);
    }
  }

  /** So many failures are a multiple of the interval, or the limit or more. */
  predicate IsDue(cfg: Config, fails: nat) {
    || (cfg.reviewInterval > 0 && fails % cfg.reviewInterval == 0)
    || (cfg.maxFailuresBeforeReview > 0 && cfg.maxFailuresBeforeReview <= fails)
  }

  /** The failure callback rolls the plan back exactly when there is a reviewer, the failures
      counted over the whole run have reached a multiple of the interval or the limit, the
      reviewer reports drift, and the store of the plan before the last reached the disk. It
      then brings back the statuses of that store. */
  lemma RollbackHappensIff(cfg: Config, id: string, d0: PlanRun, log: seq<Event>, effects: seq<Effect>, m: nat)
    requires id in d0.store.plans && d0.store.plans[id].id == id && Logged(d0.store)
    requires Fits(cfg, id, d0, log, effects) && m < |log| && log[m].Review?
    ensures |effects| == |log|
    ensures var fails := d0.taskFails + Reviews(log[..m]) + 1;
            var puts := PutsOf(RunStore(cfg, id, d0, log[..m], effects[..m]).store.puts, id);
            && (log[m].rollback.Some? <==>
                  && cfg.hasReviewer && effects[m].drifts && IsDue(cfg, fails)
                  && |puts| > 1 && puts[|puts| - 2].saved)
            && (log[m].rollback.Some? ==>
                  |puts| > 1 && log[m].rollback.value == Statuses(puts[|puts| - 2].plan.subTasks))
            && |puts| == d0.store.plans[id].version + Puts(log[..m])
  {
    hide *;
    FitsAt(cfg, id, d0, log, effects, m);
    RunCounts(cfg, id, d0, log[..m], effects[..m]);
    RunKeepsLog(cfg, id, d0, log[..m], effects[..m]);
    RollbackIff(cfg, id, RunStore(cfg, id, d0, log[..m], effects[..m]), effects[m]);
  }

  lemma RollbackIff(cfg: Config, id: string, d: PlanRun, x: Effect)
    requires id in d.store.plans && Logged(d.store)
    ensures var fails, puts, r := d.taskFails + 1, PutsOf(d.store.puts, id), Rollback(cfg, id, d, x);
            && (r.Some? <==>
                  && cfg.hasReviewer && x.drifts && IsDue(cfg, fails)
                  && |puts| > 1 && puts[|puts| - 2].saved)
            && (r.Some? ==> |puts| > 1 && r.value == Statuses(puts[|puts| - 2].plan.subTasks))
            && |puts| == d.store.plans[id].version
  {
    DriftRestores(d.store, id, x.reason);
    DriftTakesOver(d.store, id, x.reason);
    hide Logged, PutsOf, DriftPlan, Drift, Statuses;
  }

  lemma DriftTakesOver(s: Store, id: string, reason: string)
    ensures DriftPlan(s, id, reason).Some? ==>
              id in Drift(s, id, reason).plans && Drift(s, id, reason).plans[id] == DriftPlan(s, id, reason).value
  {
  }

  lemma FitsAt(cfg: Config, id: string, d0: PlanRun, log: seq<Event>, effects: seq<Effect>, m: nat)
    requires Fits(cfg, id, d0, log, effects) && m < |log| && log[m].Review?
    ensures |effects| == |log|
    ensures log[m].rollback == Rollback(cfg, id, RunStore(cfg, id, d0, log[..m], effects[..m]), effects[m])
  {
    hide Rollback, RunStore;
  }

  /** With a reviewer and an interval or a limit, some failure is reviewed; without, none. */
  lemma FailuresAreReviewedIff(cfg: Config, sofar: nat)
    ensures (exists n: nat :: n > sofar && ShouldReview(cfg, n)) <==>
              cfg.hasReviewer && (cfg.reviewInterval > 0 || cfg.maxFailuresBeforeReview > 0)
  {
    if cfg.hasReviewer && cfg.maxFailuresBeforeReview > 0 {
      assert ShouldReview(cfg, sofar + 1 + cfg.maxFailuresBeforeReview);
    } else if cfg.hasReviewer && cfg.reviewInterval > 0 {
      var d := cfg.reviewInterval;
      var n := sofar + d - sofar % d;
      MultipleAhead(sofar, d);
      assert ShouldReview(cfg, n);
    }
  }

  lemma MultipleAhead(n: nat, d: nat)
    requires d > 0
    ensures n < n + d - n % d && (n + d - n % d) % d == 0
  {
    assert n + d - n % d == (n / d + 1) * d;
    MultipleDivides(n / d + 1, d);
  }

  lemma MultipleDivides(k: nat, d: nat)
    requires d > 0
    ensures (k * d) % d == 0
  {
    var q, r := (k * d) / d, (k * d) % d;
    assert (k - q) * d == r;
    NoMultipleBetween(k - q, d, r);
  }

  lemma NoMultipleBetween(m: int, d: nat, r: nat)
    requires m * d == r < d
    ensures r == 0
  {
    FarMultiples(m, d);
  }

  lemma FarMultiples(m: int, d: nat)
    requires d > 0
    ensures m > 0 ==> m * d >= d
    ensures m < 0 ==> m * d < 0
  {
    assert m * d == d + (m - 1) * d;
  }
}
