/** The batch executor as a labelled transition system: every interleaving of worker starts,
    completions, failure reviews, rollbacks and cancellations of one ExecuteBatch call is a
    trace. */
module DagExecution {
  import opened Options
  import opened PlanModel

  datatype Event =
    | MarkReady(batch: set<nat>)     // statuses set to doing, one goroutine spawned each
    | Start(i: nat)                  // the goroutine found its context alive and runs the worker
    | Abandon(i: nat)                // the goroutine found its context cancelled
    | Finish(i: nat, ok: bool)       // the worker returned
    | Review(i: nat, rollback: Option<seq<TaskStatus>>)  // the failure callback, which may roll the plan back
    | Persist(i: nat)                // the goroutine stores the plan and ends
    | Cancel                         // the context is cancelled from outside
    | CancelAtHead(batch: set<nat>)  // the loop head found the context cancelled
    | Return                         // the call returned after a barrier

  /** reporting holds the failed workers whose callback is still due, storing the goroutines
      that have only to store the plan. batches, started and restored are history; the rest
      is what the call keeps in memory. */
  datatype State = State(status: seq<TaskStatus>, spawned: set<nat>, running: set<nat>, reporting: set<nat>,
                         storing: set<nat>, failCount: nat, cancelled: bool, stopped: bool, hasFailed: bool,
                         batches: seq<set<nat>>, started: set<nat>, restored: bool)

  datatype BatchResult = BatchResult(batched: bool, hasFailed: bool, allDone: bool)

  function Entry(status: seq<TaskStatus>): State {
    State(status, {}, {}, {}, {}, 0, false, false, false, [], {}, false)
  }

  // ---- Readiness ----

  /** The entry the status map ends up with for an id: the last task wins. */
  function StatusOf(tasks: seq<Task>, status: seq<TaskStatus>, id: string): Option<TaskStatus>
    requires |status| == |tasks|
  {
    if tasks == [] then None
    else if tasks[|tasks| - 1].id == id then Some(status[|tasks| - 1])
    else StatusOf(tasks[..|tasks| - 1], status[..|tasks| - 1], id)
  }

  predicate ParentsDone(tasks: seq<Task>, status: seq<TaskStatus>, i: nat)
    requires |status| == |tasks| && i < |tasks|
  {
    forall pid :: pid in SplitParentIDs(tasks[i].parentTaskID) ==> StatusOf(tasks, status, pid) == Some(Done)
  }

  ghost function ReadySet(tasks: seq<Task>, status: seq<TaskStatus>): set<nat>
    requires |status| == |tasks|
  {
    set i: nat | i < |tasks| && status[i] == Pending && ParentsDone(tasks, status, i)
  }

  function SetAll(status: seq<TaskStatus>, batch: set<nat>, st: TaskStatus): (after: seq<TaskStatus>)
    ensures |after| == |status|
    ensures forall i :: 0 <= i < |status| ==> after[i] == if i in batch then st else status[i]
  {
    seq(|status|, i requires 0 <= i < |status| => if i in batch then st else status[i])
  }

  // ---- Steps ----

  /** Every goroutine of the batch has ended. */
  predicate AtBarrier(s: State) {
    s.spawned == s.running == s.reporting == s.storing == {}
  }

  ghost predicate Enabled(tasks: seq<Task>, s: State, e: Event) {
    && |s.status| == |tasks| && !s.stopped
    && match e
       case Start(i) => i in s.spawned && !s.cancelled
       case Abandon(i) => i in s.spawned && s.cancelled
       case Finish(i, _) => i in s.running
       case Review(i, rollback) => i in s.reporting && (rollback.Some? ==> |rollback.value| == |tasks|)
       case Persist(i) => i in s.storing
       case Cancel => true
       case MarkReady(batch) =>
         AtBarrier(s) && s.failCount == 0 && !s.cancelled && batch == ReadySet(tasks, s.status) && batch != {}
       case CancelAtHead(batch) =>
         AtBarrier(s) && s.failCount == 0 && s.cancelled && batch == ReadySet(tasks, s.status) && batch != {}
       case Return =>
         AtBarrier(s) && (s.failCount > 0 || ReadySet(tasks, s.status) == {})
  }

  /** The statuses after an event. */
  function After(status: seq<TaskStatus>, e: Event): seq<TaskStatus> {
    match e
    case MarkReady(batch) => SetAll(status, batch, Doing)
    case Abandon(i) => SetAll(status, {i}, Failed)
    case Finish(i, ok) => SetAll(status, {i}, if ok then Done else Failed)
    case Review(_, rollback) => if rollback.Some? then rollback.value else status
    case CancelAtHead(batch) => SetAll(status, batch, Failed)
    case _ => status
  }

  /** A rollback also cancels the context. */
  ghost function Apply(s: State, e: Event): State {
    var t := s.(status := After(s.status, e));
    match e
    case MarkReady(batch) => t.(spawned := batch, batches := s.batches + [batch])
    case Start(i) => t.(spawned := s.spawned - {i}, running := s.running + {i}, started := s.started + {i})
    case Abandon(i) => t.(spawned := s.spawned - {i}, storing := s.storing + {i})
    case Finish(i, ok) =>
      if ok then t.(running := s.running - {i}, storing := s.storing + {i})
      else t.(running := s.running - {i}, reporting := s.reporting + {i}, failCount := s.failCount + 1)
    case Review(i, rollback) =>
      t.(reporting := s.reporting - {i}, storing := s.storing + {i},
         cancelled := s.cancelled || rollback.Some?, restored := s.restored || rollback.Some?)
    case Persist(i) => t.(storing := s.storing - {i})
    case Cancel => t.(cancelled := true)
    case CancelAtHead(batch) => t.(stopped := true, hasFailed := true)
    case Return => t.(stopped := true, hasFailed := s.failCount > 0)
  }

  ghost function Run(status: seq<TaskStatus>, log: seq<Event>): State {
    if log == [] then Entry(status) else Apply(Run(status, log[..|log| - 1]), log[|log| - 1])
  }

  /** Every event was enabled when it happened. */
  ghost predicate IsTrace(tasks: seq<Task>, status: seq<TaskStatus>, log: seq<Event>) {
    && |status| == |tasks|
    && forall n :: 0 <= n < |log| ==> Enabled(tasks, Run(status, log[..n]), log[n])
  }

  lemma TracePrefix(tasks: seq<Task>, status: seq<TaskStatus>, log: seq<Event>, n: nat)
    requires IsTrace(tasks, status, log) && n <= |log|
    ensures IsTrace(tasks, status, log[..n])
  {
    forall m | 0 <= m < n ensures Enabled(tasks, Run(status, log[..n][..m]), log[..n][m]) {
      assert log[..n][..m] == log[..m];
    }
  }

  /** The step from which an induction over traces proceeds. */
  lemma LastStep(tasks: seq<Task>, status: seq<TaskStatus>, log: seq<Event>)
    requires IsTrace(tasks, status, log) && log != []
    ensures var front, e := log[..|log| - 1], log[|log| - 1];
            && IsTrace(tasks, status, front) && Enabled(tasks, Run(status, front), e)
            && Run(status, log) == Apply(Run(status, front), e)
            && forall x :: x in log <==> x in front || x == e
  {
    hide Apply, Enabled;
    TracePrefix(tasks, status, log, |log| - 1);
    assert log == log[..|log| - 1] + [log[|log| - 1]];
  }

  lemma TraceExtends(tasks: seq<Task>, status: seq<TaskStatus>, log: seq<Event>, e: Event)
    requires IsTrace(tasks, status, log) && Enabled(tasks, Run(status, log), e)
    ensures IsTrace(tasks, status, log + [e]) && Run(status, log + [e]) == Apply(Run(status, log), e)
  {
    var longer := log + [e];
    assert longer[..|log|] == log;
    forall m | 0 <= m < |longer| ensures Enabled(tasks, Run(status, longer[..m]), longer[m]) {
      assert m < |log| ==> longer[..m] == log[..m];
    }
  }

  // ---- What every reachable state satisfies ----

  /** The goroutines are those of tasks that were pending at entry; a rollback happens only
      after a failure, and cancels; until there is one, the statuses tell who is at work. */
  ghost predicate Consistent(tasks: seq<Task>, status0: seq<TaskStatus>, s: State) {
    && |s.status| == |tasks| == |status0|
    && s.spawned !! s.running && s.spawned !! s.started && s.reporting <= s.started && s.running <= s.started
    && (forall i :: i in s.spawned || i in s.started ==> i < |tasks| && status0[i] == Pending)
    && (s.spawned != {} || s.started != {} ==> s.batches != [])
    && (s.reporting != {} ==> s.failCount > 0)
    && (s.restored ==> s.failCount > 0 && s.cancelled)
    && (!s.restored ==> Undisturbed(tasks, status0, s))
  }

  ghost predicate Undisturbed(tasks: seq<Task>, status0: seq<TaskStatus>, s: State)
    requires |s.status| == |tasks| == |status0|
  {
    && (forall i :: i in s.spawned || i in s.running ==> AtWork(tasks, status0, s.status, i))
    && (forall i :: i in s.started ==> i < |tasks| && s.status[i] != Pending)
    && (forall i :: 0 <= i < |tasks| ==> Evolved(status0[i], s.status[i]))
    && (forall i :: 0 <= i < |tasks| && status0[i] == Pending && s.status[i] == Doing ==> i in s.spawned || i in s.running)
  }

  ghost predicate AtWork(tasks: seq<Task>, status0: seq<TaskStatus>, status: seq<TaskStatus>, i: nat)
    requires |status| == |tasks| == |status0|
  {
    i < |tasks| && status0[i] == Pending && status[i] == Doing && ParentsDone(tasks, status, i)
  }

  /** Only pending tasks ever change. */
  predicate Evolved(before: TaskStatus, after: TaskStatus) {
    before == after || before == Pending
  }

  lemma {:induction false} StatusOfMonotone(tasks: seq<Task>, s: seq<TaskStatus>, t: seq<TaskStatus>, id: string)
    requires |s| == |t| == |tasks|
    requires forall i :: 0 <= i < |s| && s[i] == Done ==> t[i] == Done
    requires StatusOf(tasks, s, id) == Some(Done)
    ensures StatusOf(tasks, t, id) == Some(Done)
  {
    if tasks[|tasks| - 1].id != id {
      StatusOfMonotone(tasks[..|tasks| - 1], s[..|tasks| - 1], t[..|tasks| - 1], id);
    }
  }

  lemma ParentsStayDone(tasks: seq<Task>, s: seq<TaskStatus>, t: seq<TaskStatus>)
    requires |s| == |t| == |tasks|
    requires forall i :: 0 <= i < |s| && s[i] == Done ==> t[i] == Done
    ensures forall i :: 0 <= i < |tasks| && ParentsDone(tasks, s, i) ==> ParentsDone(tasks, t, i)
  {
    forall i, pid | 0 <= i < |tasks| && ParentsDone(tasks, s, i) && pid in SplitParentIDs(tasks[i].parentTaskID)
      ensures StatusOf(tasks, t, pid) == Some(Done)
    {
      StatusOfMonotone(tasks, s, t, pid);
    }
  }

  lemma StepKeepsConsistent(tasks: seq<Task>, status0: seq<TaskStatus>, s: State, e: Event)
    requires Consistent(tasks, status0, s) && Enabled(tasks, s, e)
    ensures Consistent(tasks, status0, Apply(s, e))
  {
    hide ParentsDone, SetAll, ReadySet, Undisturbed;
    if e.MarkReady? { BatchIsNew(tasks, status0, s, e); }
    if !Apply(s, e).restored { StepKeepsUndisturbed(tasks, status0, s, e); }
  }

  /** A batch is made of tasks that were pending at entry and never started. */
  lemma BatchIsNew(tasks: seq<Task>, status0: seq<TaskStatus>, s: State, e: Event)
    requires Consistent(tasks, status0, s) && Enabled(tasks, s, e) && e.MarkReady?
    ensures forall i :: i in e.batch ==> i < |tasks| && status0[i] == Pending && i !in s.started
  {
    hide ParentsDone;
  }

  lemma StepKeepsUndisturbed(tasks: seq<Task>, status0: seq<TaskStatus>, s: State, e: Event)
    requires Consistent(tasks, status0, s) && Enabled(tasks, s, e) && !Apply(s, e).restored
    ensures |Apply(s, e).status| == |tasks| && Undisturbed(tasks, status0, Apply(s, e))
  {
    hide ParentsDone, SetAll, ReadySet, AtWork;
    if e.MarkReady? || e.CancelAtHead? { ReadySetIs(tasks, s.status); }
    StepKeepsWorkers(tasks, status0, s, e);
    assert forall i :: i in s.spawned || i in s.running ==> s.status[i] == Doing by {
      WorkersAreDoing(tasks, status0, s);
    }
  }

  lemma WorkersAreDoing(tasks: seq<Task>, status0: seq<TaskStatus>, s: State)
    requires |s.status| == |tasks| == |status0| && Undisturbed(tasks, status0, s)
    ensures forall i :: i in s.spawned || i in s.running ==> i < |tasks| && s.status[i] == Doing && status0[i] == Pending
  {
    hide ParentsDone;
  }

  lemma StepKeepsWorkers(tasks: seq<Task>, status0: seq<TaskStatus>, s: State, e: Event)
    requires Consistent(tasks, status0, s) && Enabled(tasks, s, e) && !Apply(s, e).restored
    ensures |Apply(s, e).status| == |tasks|
    ensures forall i :: i in Apply(s, e).spawned || i in Apply(s, e).running ==> AtWork(tasks, status0, Apply(s, e).status, i)
  {
    hide ParentsDone, SetAll, ReadySet;
    var t := Apply(s, e);
    if e.MarkReady? || e.CancelAtHead? { ReadySetIs(tasks, s.status); }
    DoneStays(tasks, status0, s, e);
    ParentsStayDone(tasks, s.status, t.status);
  }

  lemma DoneStays(tasks: seq<Task>, status0: seq<TaskStatus>, s: State, e: Event)
    requires Consistent(tasks, status0, s) && Enabled(tasks, s, e) && !Apply(s, e).restored
    ensures |Apply(s, e).status| == |tasks|
    ensures forall i :: 0 <= i < |tasks| && s.status[i] == Done ==> Apply(s, e).status[i] == Done
  {
    hide ParentsDone, SetAll, ReadySet;
    if e.MarkReady? || e.CancelAtHead? { ReadySetIs(tasks, s.status); }
  }

  lemma ReadySetIs(tasks: seq<Task>, status: seq<TaskStatus>)
    requires |status| == |tasks|
    ensures forall i: nat :: i in ReadySet(tasks, status) <==>
              i < |tasks| && status[i] == Pending && ParentsDone(tasks, status, i)
  {
  }

  lemma {:induction false} TraceIsConsistent(tasks: seq<Task>, status0: seq<TaskStatus>, log: seq<Event>)
    requires IsTrace(tasks, status0, log)
    ensures Consistent(tasks, status0, Run(status0, log))
  {
    if log != [] {
      hide Consistent, Apply, Enabled, IsTrace, Run;
      LastStep(tasks, status0, log);
      TraceIsConsistent(tasks, status0, log[..|log| - 1]);
      StepKeepsConsistent(tasks, status0, Run(status0, log[..|log| - 1]), log[|log| - 1]);
    }
  }

  lemma DoneStep(tasks: seq<Task>, s: State, e: Event, j: nat)
    requires Enabled(tasks, s, e) && j < |tasks| && Apply(s, e).status[j] == Done && !Apply(s, e).restored
    ensures |s.status| == |tasks| && !s.restored && (s.status[j] == Done || e == Finish(j, true))
  {
  }

  /** Without a rollback, done is reached only through a successful worker. */
  lemma {:induction false} DoneHasACause(tasks: seq<Task>, status0: seq<TaskStatus>, log: seq<Event>, j: nat)
    requires IsTrace(tasks, status0, log) && j < |tasks| && |Run(status0, log).status| == |tasks|
    requires Run(status0, log).status[j] == Done && !Run(status0, log).restored
    ensures status0[j] == Done || Finish(j, true) in log
  {
    if log != [] {
      hide Consistent, Enabled, Apply, IsTrace, Run;
      var before := log[..|log| - 1];
      LastStep(tasks, status0, log);
      DoneStep(tasks, Run(status0, before), log[|log| - 1], j);
      if Run(status0, before).status[j] == Done {
        DoneHasACause(tasks, status0, before, j);
      }
    }
  }

  lemma {:induction false} DoneParentIsTask(tasks: seq<Task>, status: seq<TaskStatus>, id: string)
    requires |status| == |tasks| && StatusOf(tasks, status, id) == Some(Done)
    ensures exists j :: 0 <= j < |tasks| && tasks[j].id == id && status[j] == Done
  {
    if tasks[|tasks| - 1].id != id {
      DoneParentIsTask(tasks[..|tasks| - 1], status[..|tasks| - 1], id);
      var j :| 0 <= j < |tasks| - 1 && tasks[..|tasks| - 1][j].id == id && status[..|tasks| - 1][j] == Done;
      assert tasks[j].id == id;
    }
  }

  /** A worker starts only after each parent of its task was done at entry or has been
      finished by a successful worker. */
  lemma WorkersStartAfterParents(tasks: seq<Task>, status0: seq<TaskStatus>, log: seq<Event>, n: nat, pid: string)
    requires IsTrace(tasks, status0, log) && n < |log| && log[n].Start?
    ensures log[n].i < |tasks|
    ensures pid in SplitParentIDs(tasks[log[n].i].parentTaskID) ==>
              exists j :: 0 <= j < |tasks| && tasks[j].id == pid && (status0[j] == Done || Finish(j, true) in log[..n])
  {
    var before := log[..n];
    TracePrefix(tasks, status0, log, n);
    TraceIsConsistent(tasks, status0, before);
    assert Enabled(tasks, Run(status0, before), log[n]);
    if pid in SplitParentIDs(tasks[log[n].i].parentTaskID) {
      var status := Run(status0, before).status;
      DoneParentIsTask(tasks, status, pid);
      var j :| 0 <= j < |tasks| && tasks[j].id == pid && status[j] == Done;
      DoneHasACause(tasks, status0, before, j);
    }
  }

  ghost predicate Later(s: State, t: State) {
    && s.started <= t.started && s.batches <= t.batches && s.failCount <= t.failCount
    && (s.failCount > 0 ==> s.batches == t.batches)
    && (s.cancelled ==> t.cancelled && s.batches == t.batches && s.started == t.started)
  }

  lemma StepIsLater(tasks: seq<Task>, s: State, t: State, e: Event)
    requires Later(s, t) && Enabled(tasks, t, e)
    ensures Later(s, Apply(t, e))
  {
    hide ReadySet, SetAll;
  }

  /** History only grows, and after a worker failure no batch is started. */
  lemma {:induction false} HistoryGrows(tasks: seq<Task>, status0: seq<TaskStatus>, log: seq<Event>, m: nat)
    requires IsTrace(tasks, status0, log) && m <= |log|
    ensures Later(Run(status0, log[..m]), Run(status0, log))
    decreases |log|
  {
    if m == |log| {
      assert log[..m] == log;
      hide Run;
    } else {
      hide Later, Enabled, Apply, IsTrace, Run;
      var before := log[..|log| - 1];
      LastStep(tasks, status0, log);
      HistoryGrows(tasks, status0, before, m);
      assert before[..m] == log[..m];
      StepIsLater(tasks, Run(status0, log[..m]), Run(status0, before), log[|log| - 1]);
    }
  }

  /** No task is started twice in one call. */
  lemma EachTaskStartsOnce(tasks: seq<Task>, status0: seq<TaskStatus>, log: seq<Event>, m: nat, n: nat)
    requires IsTrace(tasks, status0, log) && m < n < |log| && log[m].Start? && log[n].Start?
    ensures log[m].i != log[n].i
  {
    hide *;
    TracePrefix(tasks, status0, log, n);
    TraceIsConsistent(tasks, status0, log[..n]);
    HistoryGrows(tasks, status0, log[..n], m + 1);
    assert log[..n][..m + 1] == log[..m + 1];
    EnabledAt(tasks, status0, log, n);
    RunSteps(status0, log, m);
    StartIsRecorded(Run(status0, log[..m]), log[m].i);
    StartsAreNew(tasks, status0, Run(status0, log[..m + 1]), Run(status0, log[..n]), log[n].i);
  }

  lemma EnabledAt(tasks: seq<Task>, status: seq<TaskStatus>, log: seq<Event>, n: nat)
    requires IsTrace(tasks, status, log) && n < |log|
    ensures Enabled(tasks, Run(status, log[..n]), log[n])
  {
  }

  lemma RunSteps(status: seq<TaskStatus>, log: seq<Event>, n: nat)
    requires n < |log|
    ensures Run(status, log[..n + 1]) == Apply(Run(status, log[..n]), log[n])
  {
    assert log[..n + 1][..n] == log[..n];
  }

  lemma StartIsRecorded(s: State, i: nat)
    ensures i in Apply(s, Start(i)).started
  {
  }

  lemma StartsAreNew(tasks: seq<Task>, status0: seq<TaskStatus>, s: State, t: State, i: nat)
    requires Consistent(tasks, status0, t) && Later(s, t) && Enabled(tasks, t, Start(i))
    ensures i !in s.started
  {
    hide Undisturbed, ReadySet;
  }

  lemma FailureIsCounted(s: State, i: nat)
    ensures Apply(s, Finish(i, false)).failCount > 0 && Apply(s, Finish(i, false)).batches == s.batches
  {
  }

  lemma FailureStopsBatches(tasks: seq<Task>, s: State, e: Event)
    requires Enabled(tasks, s, e) && s.failCount > 0
    ensures !e.MarkReady? && !e.CancelAtHead? && Apply(s, e).batches == s.batches
  {
  }

  /** After a worker has failed, workers still start, but only of the batch at hand. */
  lemma NoBatchAfterAFailure(tasks: seq<Task>, status0: seq<TaskStatus>, log: seq<Event>, m: nat, n: nat)
    requires IsTrace(tasks, status0, log) && m < n < |log| && log[m].Finish? && !log[m].ok
    ensures !log[n].MarkReady? && !log[n].CancelAtHead?
    ensures Run(status0, log[..n + 1]).batches == Run(status0, log[..m]).batches
  {
    hide Enabled, Apply;
    TracePrefix(tasks, status0, log, n);
    assert log[..m + 1][..m] == log[..m] && log[..n][..m + 1] == log[..m + 1] && log[..n + 1][..n] == log[..n];
    FailureIsCounted(Run(status0, log[..m]), log[m].i);
    HistoryGrows(tasks, status0, log[..n], m + 1);
    assert Enabled(tasks, Run(status0, log[..n]), log[n]);
    FailureStopsBatches(tasks, Run(status0, log[..n]), log[n]);
  }

  /** Once the context is cancelled, from outside or by a rollback, no worker and no batch
      is started any more. */
  lemma NothingStartsAfterCancellation(tasks: seq<Task>, status0: seq<TaskStatus>, log: seq<Event>, m: nat, n: nat)
    requires IsTrace(tasks, status0, log) && m < n < |log|
    requires log[m].Cancel? || log[m].Abandon? || (log[m].Review? && log[m].rollback.Some?)
    ensures !log[n].Start? && !log[n].MarkReady?
  {
    hide *;
    TracePrefix(tasks, status0, log, n);
    HistoryGrows(tasks, status0, log[..n], m + 1);
    assert log[..n][..m + 1] == log[..m + 1];
    EnabledAt(tasks, status0, log, m);
    EnabledAt(tasks, status0, log, n);
    RunSteps(status0, log, m);
    CancelsHere(tasks, Run(status0, log[..m]), log[m]);
    CancelledStartsNothing(tasks, Run(status0, log[..m + 1]), Run(status0, log[..n]), log[n]);
  }

  lemma CancelsHere(tasks: seq<Task>, s: State, e: Event)
    requires Enabled(tasks, s, e) && (e.Cancel? || e.Abandon? || (e.Review? && e.rollback.Some?))
    ensures Apply(s, e).cancelled
  {
  }

  lemma CancelledStartsNothing(tasks: seq<Task>, s: State, t: State, e: Event)
    requires s.cancelled && Later(s, t) && Enabled(tasks, t, e)
    ensures !e.Start? && !e.MarkReady?
  {
  }

  /** When the call has returned, and no rollback took place, whatever it marked doing is
      done or failed, and every task that was not pending at entry is untouched. */
  lemma ReturnLeavesNothingDoing(tasks: seq<Task>, status0: seq<TaskStatus>, log: seq<Event>, i: nat)
    requires IsTrace(tasks, status0, log) && Run(status0, log).stopped && i < |tasks|
    ensures |Run(status0, log).status| == |tasks|
    ensures !Run(status0, log).restored && status0[i] == Pending ==> Run(status0, log).status[i] != Doing
    ensures !Run(status0, log).restored && status0[i] != Pending ==> Run(status0, log).status[i] == status0[i]
  {
    TraceIsConsistent(tasks, status0, log);
    StoppedIsIdle(tasks, status0, log);
  }

  lemma {:induction false} StoppedIsIdle(tasks: seq<Task>, status0: seq<TaskStatus>, log: seq<Event>)
    requires IsTrace(tasks, status0, log) && Run(status0, log).stopped
    ensures AtBarrier(Run(status0, log))
    ensures |log| > 0 && (log[|log| - 1].Return? || log[|log| - 1].CancelAtHead?)
  {
    assert Enabled(tasks, Run(status0, log[..|log| - 1]), log[|log| - 1]);
  }

  // ---- Which failures the result reports ----

  predicate Reports(e: Event) {
    e.CancelAtHead? || (e.Finish? && !e.ok)
  }

  predicate Fails(e: Event, i: nat) {
    e == Finish(i, false) || e == Abandon(i) || (e.CancelAtHead? && i in e.batch)
  }

  /** The failure callback rolled the plan back. */
  predicate RollsBack(e: Event) {
    e.Review? && e.rollback.Some?
  }

  /** What the call would report if it stopped now, or did report. */
  predicate Reported(s: State) {
    if s.stopped then s.hasFailed else s.failCount > 0
  }

  lemma ReportStep(tasks: seq<Task>, s: State, e: Event)
    requires Enabled(tasks, s, e) && (s.stopped || !s.hasFailed)
    ensures Reported(Apply(s, e)) <==> Reported(s) || Reports(e)
    ensures var t := Apply(s, e); t.stopped || !t.hasFailed
  {
  }

  /** HasFailed is true exactly when a worker returned an error or the loop head saw the
      cancellation. */
  lemma {:induction false} HasFailedIff(tasks: seq<Task>, status0: seq<TaskStatus>, log: seq<Event>)
    requires IsTrace(tasks, status0, log)
    ensures var s := Run(status0, log); s.stopped || !s.hasFailed
    ensures Reported(Run(status0, log)) <==> exists e :: e in log && Reports(e)
  {
    if log != [] {
      hide Apply, Enabled, Reported, IsTrace, Run;
      var before, e := log[..|log| - 1], log[|log| - 1];
      LastStep(tasks, status0, log);
      HasFailedIff(tasks, status0, before);
      ReportStep(tasks, Run(status0, before), e);
    } else {
      NothingReported(status0);
    }
  }

  lemma NothingReported(status0: seq<TaskStatus>)
    ensures !Reported(Entry(status0)) && !Entry(status0).hasFailed
  {
  }

  /** The statuses the last rollback brought back, or those at entry. */
  function Base(status0: seq<TaskStatus>, log: seq<Event>): seq<TaskStatus> {
    if log == [] then status0
    else
      var e := log[|log| - 1];
      if RollsBack(e) then e.rollback.value else Base(status0, log[..|log| - 1])
  }

  /** What happened since. */
  function Since(log: seq<Event>): seq<Event> {
    if log == [] || RollsBack(log[|log| - 1]) then [] else Since(log[..|log| - 1]) + [log[|log| - 1]]
  }

  /** A task is failed at the end exactly when an event since the last rollback, or since
      entry, failed it, or it was failed then and no worker completed it after all. */
  lemma {:induction false} FailedIff(tasks: seq<Task>, status0: seq<TaskStatus>, log: seq<Event>, i: nat)
    requires IsTrace(tasks, status0, log) && i < |tasks|
    ensures |Run(status0, log).status| == |Base(status0, log)| == |tasks|
    ensures Run(status0, log).status[i] == Failed <==>
              (exists e :: e in Since(log) && Fails(e, i)) || (Base(status0, log)[i] == Failed && Finish(i, true) !in Since(log))
  {
    if log != [] {
      hide AtWork, Apply, Enabled, IsTrace, Run, Consistent;
      var before, e := log[..|log| - 1], log[|log| - 1];
      LastStep(tasks, status0, log);
      TraceIsConsistent(tasks, status0, before);
      FailedIff(tasks, status0, before, i);
      FailStep(tasks, status0, Run(status0, before), e, i);
      FinishedOnce(tasks, status0, before, e, i);
      assert forall x :: x in Since(log) <==> !RollsBack(e) && (x in Since(before) || x == e);
    }
  }

  /** What one event does to a task's being failed. */
  lemma FailStep(tasks: seq<Task>, status0: seq<TaskStatus>, s: State, e: Event, i: nat)
    requires Consistent(tasks, status0, s) && Enabled(tasks, s, e) && i < |tasks|
    ensures |Apply(s, e).status| == |tasks|
    ensures RollsBack(e) ==> Apply(s, e).status == e.rollback.value
    ensures !RollsBack(e) ==>
              (Apply(s, e).status[i] == Failed <==> Fails(e, i) || (s.status[i] == Failed && e != Finish(i, true)))
  {
    hide ParentsDone;
  }

  /** A worker returns once, and not after its goroutine gave up. */
  lemma FinishedOnce(tasks: seq<Task>, status0: seq<TaskStatus>, before: seq<Event>, e: Event, i: nat)
    requires IsTrace(tasks, status0, before) && Enabled(tasks, Run(status0, before), e)
    ensures e == Finish(i, true) ==> forall x :: x in Since(before) ==> !Fails(x, i)
  {
    hide IsTrace, Run, Apply;
    SinceIsRecent(before);
    forall x | x in before && Fails(x, i) ensures i !in Run(status0, before).running {
      FailedIsOver(tasks, status0, before, x, i);
    }
  }

  lemma {:induction false} SinceIsRecent(log: seq<Event>)
    ensures forall x :: x in Since(log) ==> x in log && !RollsBack(x)
  {
    if log != [] {
      SinceIsRecent(log[..|log| - 1]);
      assert log == log[..|log| - 1] + [log[|log| - 1]];
    }
  }

  /** A task that an event failed is not picked up again. */
  lemma {:induction false} FailedIsOver(tasks: seq<Task>, status0: seq<TaskStatus>, log: seq<Event>, x: Event, i: nat)
    requires IsTrace(tasks, status0, log) && x in log && Fails(x, i)
    ensures Over(Run(status0, log), i)
  {
    hide IsTrace, Run, Apply, Enabled, Fails, Consistent, Over;
    var before, e := log[..|log| - 1], log[|log| - 1];
    LastStep(tasks, status0, log);
    TraceIsConsistent(tasks, status0, before);
    if x in before {
      FailedIsOver(tasks, status0, before, x, i);
      StaysOver(tasks, status0, Run(status0, before), e, i);
    } else {
      NowOver(tasks, status0, Run(status0, before), e, i);
    }
  }

  predicate Over(s: State, i: nat) {
    i !in s.spawned && i !in s.running && (!s.restored && i < |s.status| ==> s.status[i] == Failed)
  }

  lemma StaysOver(tasks: seq<Task>, status0: seq<TaskStatus>, s: State, e: Event, i: nat)
    requires Consistent(tasks, status0, s) && Enabled(tasks, s, e) && Over(s, i)
    ensures Over(Apply(s, e), i)
  {
    hide ParentsDone, AtWork;
  }

  lemma NowOver(tasks: seq<Task>, status0: seq<TaskStatus>, s: State, e: Event, i: nat)
    requires Consistent(tasks, status0, s) && Enabled(tasks, s, e) && Fails(e, i)
    ensures Over(Apply(s, e), i)
  {
    hide ParentsDone, AtWork;
  }

  lemma RestoredStep(s: State, e: Event)
    ensures Apply(s, e).restored <==> s.restored || RollsBack(e)
  {
  }

  ghost predicate SomeRollback(log: seq<Event>) {
    exists e :: e in log && RollsBack(e)
  }

  lemma RollbackLast(log: seq<Event>)
    requires log != []
    ensures SomeRollback(log) <==> SomeRollback(log[..|log| - 1]) || RollsBack(log[|log| - 1])
  {
    hide RollsBack;
    assert log == log[..|log| - 1] + [log[|log| - 1]];
  }

  /** Without a rollback the statuses at entry are the base, and everything counts. */
  lemma {:induction false} NothingRestored(tasks: seq<Task>, status0: seq<TaskStatus>, log: seq<Event>)
    requires IsTrace(tasks, status0, log)
    ensures Run(status0, log).restored <==> SomeRollback(log)
    ensures !Run(status0, log).restored ==> Base(status0, log) == status0 && Since(log) == log
  {
    hide IsTrace, Enabled, Run, Apply, SomeRollback, RollsBack, Base, Since;
    if log == [] {
      AtEntry(status0);
    } else {
      var front, e := log[..|log| - 1], log[|log| - 1];
      LastStep(tasks, status0, log);
      NothingRestored(tasks, status0, front);
      RestoredStep(Run(status0, front), e);
      RollbackLast(log);
      if !RollsBack(e) { BaseStep(status0, log); }
      assert log == front + [e];
    }
  }

  lemma AtEntry(status0: seq<TaskStatus>)
    ensures !Run(status0, []).restored && !SomeRollback([]) && Base(status0, []) == status0 && Since([]) == []
  {
  }

  lemma BaseStep(status0: seq<TaskStatus>, log: seq<Event>)
    requires log != [] && !RollsBack(log[|log| - 1])
    ensures Base(status0, log) == Base(status0, log[..|log| - 1])
    ensures Since(log) == Since(log[..|log| - 1]) + [log[|log| - 1]]
  {
  }

  lemma FailingEventHitsATask(tasks: seq<Task>, status0: seq<TaskStatus>, log: seq<Event>, e: Event)
    requires IsTrace(tasks, status0, log) && e in log && (Reports(e) || e.Abandon?)
    ensures exists i :: 0 <= i < |tasks| && status0[i] == Pending && Fails(e, i)
  {
    var n :| 0 <= n < |log| && log[n] == e;
    TracePrefix(tasks, status0, log, n);
    TraceIsConsistent(tasks, status0, log[..n]);
    EnabledFailureHits(tasks, status0, Run(status0, log[..n]), e);
  }

  lemma EnabledFailureHits(tasks: seq<Task>, status0: seq<TaskStatus>, s: State, e: Event)
    requires Consistent(tasks, status0, s) && Enabled(tasks, s, e) && (Reports(e) || e.Abandon?)
    ensures exists i :: 0 <= i < |tasks| && status0[i] == Pending && Fails(e, i)
  {
    match e
    case Finish(i, _) => assert Fails(e, i);
    case Abandon(i) => assert Fails(e, i);
    case CancelAtHead(batch) =>
      var i :| i in batch;
      assert Fails(e, i);
  }

  ghost predicate SomeTaskFailed(status0: seq<TaskStatus>, s: State) {
    exists i :: 0 <= i < |status0| && i < |s.status| && status0[i] == Pending && s.status[i] == Failed
  }

  /** HasFailed tells the truth about the tasks of this call, as long as nothing was rolled
      back, exactly when it is not the case that goroutines gave up on a cancelled context
      and nothing else went wrong. After a rollback it is true. */
  lemma HasFailedIsTruthfulIff(tasks: seq<Task>, status0: seq<TaskStatus>, log: seq<Event>)
    requires IsTrace(tasks, status0, log) && Run(status0, log).stopped
    ensures !Run(status0, log).restored ==>
              ((Run(status0, log).hasFailed <==> SomeTaskFailed(status0, Run(status0, log))) <==>
               ((exists e :: e in log && e.Abandon?) ==> exists e :: e in log && Reports(e)))
    ensures Run(status0, log).restored ==> Run(status0, log).hasFailed
  {
    HasFailedIff(tasks, status0, log);
    TraceIsConsistent(tasks, status0, log);
    NothingRestored(tasks, status0, log);
    var s := Run(status0, log);
    if s.restored {
      RollbackIsReported(tasks, status0, log);
    } else {
      hide Consistent, Apply, Enabled, IsTrace, Run;
      if SomeTaskFailed(status0, s) {
        var i :| 0 <= i < |status0| && i < |s.status| && status0[i] == Pending && s.status[i] == Failed;
        FailedIff(tasks, status0, log, i);
      }
      forall e | e in log && (Reports(e) || e.Abandon?) ensures SomeTaskFailed(status0, s) {
        FailingEventHitsATask(tasks, status0, log, e);
        var i :| 0 <= i < |tasks| && status0[i] == Pending && Fails(e, i);
        FailedIff(tasks, status0, log, i);
      }
    }
  }

  /** A rollback happens only in the callback of a failed worker, so it is reported. */
  lemma {:induction false} RollbackIsReported(tasks: seq<Task>, status0: seq<TaskStatus>, log: seq<Event>)
    requires IsTrace(tasks, status0, log) && SomeRollback(log)
    ensures exists e :: e in log && Reports(e)
    ensures Run(status0, log).stopped ==> Run(status0, log).hasFailed
  {
    hide Consistent, Apply, Enabled, IsTrace, Run;
    var e :| e in log && RollsBack(e);
    var n :| 0 <= n < |log| && log[n] == e;
    TracePrefix(tasks, status0, log, n);
    TraceIsConsistent(tasks, status0, log[..n]);
    HasFailedIff(tasks, status0, log[..n]);
    HasFailedIff(tasks, status0, log);
    ReviewsFollowFailures(tasks, status0, log, n);
    assert exists x :: x in log[..n] && Reports(x);
  }

  lemma ReviewsFollowFailures(tasks: seq<Task>, status0: seq<TaskStatus>, log: seq<Event>, n: nat)
    requires IsTrace(tasks, status0, log) && n < |log| && log[n].Review? && Consistent(tasks, status0, Run(status0, log[..n]))
    ensures Reported(Run(status0, log[..n]))
  {
    assert Enabled(tasks, Run(status0, log[..n]), log[n]);
  }

  /** The failing family is not empty: one task, cancelled before its goroutine ran. */
  lemma CancelledTaskGoesUnreported(t: Task)
    requires t.parentTaskID == ""
    ensures var log := [MarkReady({0}), Cancel, Abandon(0), Persist(0), Return];
            && IsTrace([t], [Pending], log)
            && Run([Pending], log).stopped && !Run([Pending], log).hasFailed
            && Run([Pending], log).status == [Failed]
  {
    var tasks, status0 := [t], [Pending];
    LoneTaskIsCancelled(t);
    LoneLog();
    hide *;
    EmptyTrace(tasks, status0);
    var log1, log2 := [] + [MarkReady({0})], [] + [MarkReady({0})] + [Cancel];
    TraceExtends(tasks, status0, [], MarkReady({0}));
    TraceExtends(tasks, status0, log1, Cancel);
    TraceExtends(tasks, status0, log2, Abandon(0));
    TraceExtends(tasks, status0, log2 + [Abandon(0)], Persist(0));
    TraceExtends(tasks, status0, log2 + [Abandon(0)] + [Persist(0)], Return);
  }

  lemma LoneLog()
    ensures [] + [MarkReady({0})] + [Cancel] + [Abandon(0)] + [Persist(0)] + [Return] ==
              [MarkReady({0}), Cancel, Abandon(0), Persist(0), Return]
  {
  }

  lemma LoneTaskIsCancelled(t: Task)
    requires t.parentTaskID == ""
    ensures var s0 := Entry([Pending]);
            var s1 := s0.(status := [Doing], spawned := {0}, batches := [{0}]);
            var s2 := s1.(cancelled := true);
            var s3 := s2.(status := [Failed], spawned := {}, storing := {0});
            var s4 := s3.(storing := {});
            && |[t]| == |[Pending]| && !s4.hasFailed
            && Enabled([t], s0, MarkReady({0})) && Apply(s0, MarkReady({0})) == s1
            && Enabled([t], s1, Cancel) && Apply(s1, Cancel) == s2
            && Enabled([t], s2, Abandon(0)) && Apply(s2, Abandon(0)) == s3
            && Enabled([t], s3, Persist(0)) && Apply(s3, Persist(0)) == s4
            && Enabled([t], s4, Return) && Apply(s4, Return) == s4.(stopped := true)
  {
    LoneTaskIsReady(t);
    hide ReadySet, SetAll;
  }

  lemma EmptyTrace(tasks: seq<Task>, status: seq<TaskStatus>)
    requires |status| == |tasks|
    ensures IsTrace(tasks, status, []) && Run(status, []) == Entry(status)
  {
  }

  lemma LoneTaskIsReady(t: Task)
    requires t.parentTaskID == ""
    ensures ReadySet([t], [Pending]) == {0} && ReadySet([t], [Failed]) == {}
    ensures SetAll([Pending], {0}, Doing) == [Doing] && SetAll([Doing], {0}, Failed) == [Failed]
  {
    assert ParentsDone([t], [Pending], 0);
  }
}
