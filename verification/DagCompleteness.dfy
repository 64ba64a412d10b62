/** What a clean ExecuteBatch call achieves: which tasks end done, in which batch each one
    runs, and when the plan is finished. */
module DagCompleteness {
  import opened GoStrings
  import opened Options
  import opened PlanModel
  import opened DagExecution

  /** Task j is a parent of task i. */
  ghost predicate ParentOf(tasks: seq<Task>, j: nat, i: nat) {
    j < |tasks| && i < |tasks| && tasks[j].id in SplitParentIDs(tasks[i].parentTaskID)
  }

  /** Tasks each of which is a parent of the next, ending in i. */
  ghost predicate IsChain(tasks: seq<Task>, c: seq<nat>, i: nat) {
    && |c| > 0 && c[|c| - 1] == i
    && (forall m :: 0 <= m < |c| ==> c[m] < |tasks|)
    && (forall m :: 0 <= m < |c| - 1 ==> ParentOf(tasks, c[m], c[m + 1]))
  }

  ghost predicate PendingChain(tasks: seq<Task>, status: seq<TaskStatus>, c: seq<nat>, i: nat)
    requires |status| == |tasks|
  {
    IsChain(tasks, c, i) && forall m :: 0 <= m < |c| ==> status[c[m]] == Pending
  }

  /** A chain of pending tasks leads to i from a task that is failed or already doing. */
  ghost predicate BlockingChain(tasks: seq<Task>, status: seq<TaskStatus>, c: seq<nat>, i: nat)
    requires |status| == |tasks|
  {
    && IsChain(tasks, c, i)
    && (status[c[0]] == Failed || status[c[0]] == Doing)
    && forall m :: 1 <= m < |c| ==> status[c[m]] == Pending
  }

  ghost predicate Blocked(tasks: seq<Task>, status: seq<TaskStatus>, i: nat)
    requires |status| == |tasks|
  {
    exists c :: BlockingChain(tasks, status, c, i)
  }

  /** No chain of pending tasks ending in i has more than k members. */
  ghost predicate Shallow(tasks: seq<Task>, status: seq<TaskStatus>, i: nat, k: nat)
    requires |status| == |tasks|
  {
    forall c :: PendingChain(tasks, status, c, i) ==> |c| <= k
  }

  ghost predicate Runnable(tasks: seq<Task>, status: seq<TaskStatus>, i: nat)
    requires |status| == |tasks|
  {
    i < |tasks| && status[i] == Pending && !Blocked(tasks, status, i)
  }

  /** The runnable tasks whose longest chain of pending tasks has exactly k + 1 members. */
  ghost function Level(tasks: seq<Task>, status: seq<TaskStatus>, k: nat): set<nat>
    requires |status| == |tasks|
  {
    set i: nat | i < |tasks| && Runnable(tasks, status, i)
                 && Shallow(tasks, status, i, k + 1) && !Shallow(tasks, status, i, k)
  }

  // ---- Chains ----

  lemma PendingChainExtends(tasks: seq<Task>, status: seq<TaskStatus>, c: seq<nat>, j: nat, i: nat)
    requires |status| == |tasks| && PendingChain(tasks, status, c, j)
    requires ParentOf(tasks, j, i) && status[i] == Pending
    ensures PendingChain(tasks, status, c + [i], i)
  {
  }

  lemma BlockingChainExtends(tasks: seq<Task>, status: seq<TaskStatus>, j: nat, i: nat)
    requires |status| == |tasks| && Blocked(tasks, status, j)
    requires ParentOf(tasks, j, i) && status[i] == Pending
    ensures Blocked(tasks, status, i)
  {
    var c :| BlockingChain(tasks, status, c, j);
    assert BlockingChain(tasks, status, c + [i], i);
  }

  lemma BadParentBlocks(tasks: seq<Task>, status: seq<TaskStatus>, j: nat, i: nat)
    requires |status| == |tasks| && ParentOf(tasks, j, i) && status[i] == Pending
    requires status[j] == Failed || status[j] == Doing
    ensures Blocked(tasks, status, i)
  {
    assert BlockingChain(tasks, status, [j, i], i);
  }

  /** The member before the last of a chain is a parent of the last. */
  lemma ChainParent(tasks: seq<Task>, c: seq<nat>, i: nat)
    requires IsChain(tasks, c, i) && |c| >= 2
    ensures ParentOf(tasks, c[|c| - 2], i) && IsChain(tasks, c[..|c| - 1], c[|c| - 2])
  {
    assert ParentOf(tasks, c[|c| - 2], c[|c| - 2 + 1]);
  }

  lemma DeepTaskHasChain(tasks: seq<Task>, status: seq<TaskStatus>, i: nat, k: nat) returns (c: seq<nat>)
    requires |status| == |tasks| && !Shallow(tasks, status, i, k)
    ensures PendingChain(tasks, status, c, i) && |c| > k
  {
    c :| PendingChain(tasks, status, c, i) && |c| > k;
  }

  // ---- Readiness by index ----

  lemma {:induction false} StatusOfTask(tasks: seq<Task>, status: seq<TaskStatus>, j: nat)
    requires |status| == |tasks| && UniqueIDs(tasks) && j < |tasks|
    ensures StatusOf(tasks, status, tasks[j].id) == Some(status[j])
  {
    if j < |tasks| - 1 {
      StatusOfTask(tasks[..|tasks| - 1], status[..|tasks| - 1], j);
    }
  }

  lemma ParentsDoneByIndex(tasks: seq<Task>, status: seq<TaskStatus>, i: nat)
    requires |status| == |tasks| && UniqueIDs(tasks) && ParentsExist(tasks) && i < |tasks|
    ensures ParentsDone(tasks, status, i) <==> forall j: nat :: ParentOf(tasks, j, i) ==> status[j] == Done
  {
    if ParentsDone(tasks, status, i) {
      forall j: nat | ParentOf(tasks, j, i) ensures status[j] == Done {
        StatusOfTask(tasks, status, j);
      }
    }
    if forall j: nat :: ParentOf(tasks, j, i) ==> status[j] == Done {
      forall pid | pid in SplitParentIDs(tasks[i].parentTaskID) ensures StatusOf(tasks, status, pid) == Some(Done) {
        assert DependsOn(tasks, tasks[i].id, pid);
        var j: nat :| j < |tasks| && tasks[j].id == pid;
        assert ParentOf(tasks, j, i);
        StatusOfTask(tasks, status, j);
      }
    }
  }

  // ---- The invariant of a clean call ----

  /** What task i's status is after k batches, none in progress. */
  ghost function Expected(tasks: seq<Task>, status0: seq<TaskStatus>, i: nat, k: nat): TaskStatus
    requires |status0| == |tasks| && i < |tasks|
  {
    if Runnable(tasks, status0, i) && Shallow(tasks, status0, i, k) then Done else status0[i]
  }

  ghost predicate AtLevel(tasks: seq<Task>, status0: seq<TaskStatus>, status: seq<TaskStatus>, k: nat) {
    && |status| == |status0| == |tasks|
    && forall i: nat :: i < |tasks| ==> status[i] == Expected(tasks, status0, i, k)
  }

  /** Between batches, a pending task is ready exactly when it belongs to the next level. */
  lemma ReadyIsLevel(tasks: seq<Task>, status0: seq<TaskStatus>, status: seq<TaskStatus>, k: nat)
    requires |status0| == |tasks| && UniqueIDs(tasks) && ParentsExist(tasks)
    requires AtLevel(tasks, status0, status, k)
    ensures ReadySet(tasks, status) == Level(tasks, status0, k)
  {
    hide ReadySet, Shallow, Blocked;
    ReadySetIs(tasks, status);
    forall i: nat ensures i in ReadySet(tasks, status) <==> i in Level(tasks, status0, k) {
      if i in ReadySet(tasks, status) { ReadyIsInLevel(tasks, status0, status, k, i); }
      if i in Level(tasks, status0, k) { LevelIsReady(tasks, status0, status, k, i); }
    }
  }

  lemma ReadyIsInLevel(tasks: seq<Task>, status0: seq<TaskStatus>, status: seq<TaskStatus>, k: nat, i: nat)
    requires |status0| == |tasks| && UniqueIDs(tasks) && ParentsExist(tasks)
    requires AtLevel(tasks, status0, status, k)
    requires i < |tasks| && status[i] == Pending && ParentsDone(tasks, status, i)
    ensures Runnable(tasks, status0, i) && Shallow(tasks, status0, i, k + 1) && !Shallow(tasks, status0, i, k)
  {
    hide Shallow, Blocked;
    ParentsDoneByIndex(tasks, status, i);
    ReadyIsUnblocked(tasks, status0, status, k, i);
    ReadyIsShallow(tasks, status0, status, k, i);
  }

  lemma ReadyIsUnblocked(tasks: seq<Task>, status0: seq<TaskStatus>, status: seq<TaskStatus>, k: nat, i: nat)
    requires |status0| == |tasks| && AtLevel(tasks, status0, status, k) && i < |tasks| && status[i] == Pending
    requires forall j: nat :: ParentOf(tasks, j, i) ==> status[j] == Done
    ensures !Blocked(tasks, status0, i)
  {
    hide Shallow;
    forall c ensures !BlockingChain(tasks, status0, c, i) {
      if BlockingChain(tasks, status0, c, i) && |c| >= 2 { FrontBlocks(tasks, status0, c, i); }
    }
  }

  lemma FrontBlocks(tasks: seq<Task>, status: seq<TaskStatus>, c: seq<nat>, i: nat)
    requires |status| == |tasks| && BlockingChain(tasks, status, c, i) && |c| >= 2
    ensures Blocked(tasks, status, c[|c| - 2]) && ParentOf(tasks, c[|c| - 2], i)
    ensures status[c[|c| - 2]] != Done
  {
    ChainParent(tasks, c, i);
    var front := c[..|c| - 1];
    assert front[0] == c[0];
    assert BlockingChain(tasks, status, front, c[|c| - 2]);
  }

  lemma ReadyIsShallow(tasks: seq<Task>, status0: seq<TaskStatus>, status: seq<TaskStatus>, k: nat, i: nat)
    requires |status0| == |tasks| && AtLevel(tasks, status0, status, k) && i < |tasks| && status[i] == Pending
    requires forall j: nat :: ParentOf(tasks, j, i) ==> status[j] == Done
    ensures Shallow(tasks, status0, i, k + 1)
  {
    forall c | PendingChain(tasks, status0, c, i) ensures |c| <= k + 1 {
      if |c| >= 2 {
        ChainParent(tasks, c, i);
        var j, front := c[|c| - 2], c[..|c| - 1];
        assert PendingChain(tasks, status0, front, j);
        hide Shallow;
        assert status[j] == Expected(tasks, status0, j, k);
        ShallowBounds(tasks, status0, front, j, k);
      }
    }
  }

  lemma ShallowBounds(tasks: seq<Task>, status: seq<TaskStatus>, c: seq<nat>, i: nat, k: nat)
    requires |status| == |tasks| && Shallow(tasks, status, i, k) && PendingChain(tasks, status, c, i)
    ensures |c| <= k
  {
  }

  lemma LevelIsReady(tasks: seq<Task>, status0: seq<TaskStatus>, status: seq<TaskStatus>, k: nat, i: nat)
    requires |status0| == |tasks| && UniqueIDs(tasks) && ParentsExist(tasks)
    requires AtLevel(tasks, status0, status, k)
    requires Runnable(tasks, status0, i) && Shallow(tasks, status0, i, k + 1) && !Shallow(tasks, status0, i, k)
    ensures status[i] == Pending && ParentsDone(tasks, status, i)
  {
    ParentsDoneByIndex(tasks, status, i);
    hide Shallow, ParentsDone;
    forall j: nat | ParentOf(tasks, j, i) ensures status[j] == Done {
      ParentOfLevelIsDone(tasks, status0, k, j, i);
    }
  }

  lemma ParentOfLevelIsDone(tasks: seq<Task>, status0: seq<TaskStatus>, k: nat, j: nat, i: nat)
    requires |status0| == |tasks| && Runnable(tasks, status0, i) && Shallow(tasks, status0, i, k + 1)
    requires ParentOf(tasks, j, i)
    ensures Expected(tasks, status0, j, k) == Done
  {
    hide Shallow;
    if status0[j] == Failed || status0[j] == Doing { BadParentBlocks(tasks, status0, j, i); }
    if Blocked(tasks, status0, j) { BlockingChainExtends(tasks, status0, j, i); }
    if status0[j] == Pending && !Shallow(tasks, status0, j, k) {
      var c := DeepTaskHasChain(tasks, status0, j, k);
      PendingChainExtends(tasks, status0, c, j, i);
      ShallowBounds(tasks, status0, c + [i], i, k + 1);
    }
  }

  // ---- Acyclicity: the levels exhaust the runnable tasks ----

  ghost predicate HasParentIn(tasks: seq<Task>, u: set<nat>, i: nat) {
    exists j :: j in u && ParentOf(tasks, j, i)
  }

  ghost predicate EachHasParentIn(tasks: seq<Task>, u: set<nat>) {
    forall i {:trigger HasParentIn(tasks, u, i)} :: i in u ==> HasParentIn(tasks, u, i)
  }

  /** A walk from child to parent. */
  ghost predicate IsClimb(tasks: seq<Task>, w: seq<nat>) {
    && |w| > 0 && (forall m :: 0 <= m < |w| ==> w[m] < |tasks|)
    && (forall m :: 0 <= m < |w| - 1 ==> ParentOf(tasks, w[m + 1], w[m]))
  }

  /** Climbing from parent to parent inside a finite set must close a cycle. */
  lemma {:induction false} ClimbClosesCycle(tasks: seq<Task>, u: set<nat>, w: seq<nat>, left: set<nat>)
    requires EachHasParentIn(tasks, u) && IsClimb(tasks, w) && |w| > 0 && w[|w| - 1] in u
    requires forall x :: x in u ==> x in left || x in w
    ensures !Acyclic(tasks)
    decreases left
  {
    hide EachHasParentIn, Acyclic, ParentOf, IsClimb;
    var j := ParentIn(tasks, u, w[|w| - 1]);
    ClimbExtends(tasks, w, j);
    if j in w {
      var m :| 0 <= m < |w| && w[m] == j;
      ClimbSuffix(tasks, w + [j], m);
      ClosedClimbIsCycle(tasks, (w + [j])[m..]);
    } else {
      assert (w + [j])[|w|] == j;
      ClimbClosesCycle(tasks, u, w + [j], left - {j});
    }
  }

  lemma ParentOfTask(tasks: seq<Task>, j: nat, i: nat)
    requires ParentOf(tasks, j, i)
    ensures j < |tasks| && i < |tasks|
  {
  }

  lemma ParentIn(tasks: seq<Task>, u: set<nat>, i: nat) returns (j: nat)
    requires EachHasParentIn(tasks, u) && i in u
    ensures j in u && ParentOf(tasks, j, i)
  {
    assert HasParentIn(tasks, u, i);
    j :| j in u && ParentOf(tasks, j, i);
  }

  lemma ClimbExtends(tasks: seq<Task>, w: seq<nat>, j: nat)
    requires IsClimb(tasks, w) && ParentOf(tasks, j, w[|w| - 1])
    ensures IsClimb(tasks, w + [j])
  {
    ParentOfTask(tasks, j, w[|w| - 1]);
    hide ParentOf;
  }

  lemma ClimbSuffix(tasks: seq<Task>, w: seq<nat>, m: nat)
    requires IsClimb(tasks, w) && m < |w|
    ensures IsClimb(tasks, w[m..])
  {
    hide ParentOf;
  }

  lemma ClosedClimbIsCycle(tasks: seq<Task>, w: seq<nat>)
    requires IsClimb(tasks, w) && |w| >= 2 && w[0] == w[|w| - 1]
    ensures !Acyclic(tasks)
  {
    var c := seq(|w|, x requires 0 <= x < |w| => tasks[w[x]].id);
    forall x | 0 <= x < |c| - 1 ensures DependsOn(tasks, c[x], c[x + 1]) {
      assert ParentOf(tasks, w[x + 1], w[x]);
      assert tasks[w[x]].id == c[x];
    }
    assert IsCycle(tasks, c);
  }

  lemma NoEndlessClimb(tasks: seq<Task>, u: set<nat>)
    requires EachHasParentIn(tasks, u) && Acyclic(tasks)
    ensures u == {}
  {
    if u != {} {
      hide EachHasParentIn, Acyclic, ParentOf;
      var i :| i in u;
      var j := ParentIn(tasks, u, i);
      ParentOfTask(tasks, j, i);
      assert [i][0] == i;
      ClimbClosesCycle(tasks, u, [i], u);
    }
  }

  ghost function Deeper(tasks: seq<Task>, status: seq<TaskStatus>, k: nat): set<nat>
    requires |status| == |tasks|
  {
    set i: nat | i < |tasks| && Runnable(tasks, status, i) && !Shallow(tasks, status, i, k)
  }

  /** Without a next level there is no runnable task left. */
  lemma EmptyLevelEndsIt(tasks: seq<Task>, status: seq<TaskStatus>, k: nat)
    requires |status| == |tasks| && Acyclic(tasks) && Level(tasks, status, k) == {}
    ensures forall i: nat :: Runnable(tasks, status, i) ==> Shallow(tasks, status, i, k)
  {
    hide Shallow, Blocked, Acyclic, Level;
    var u := Deeper(tasks, status, k);
    forall i {:trigger HasParentIn(tasks, u, i)} | i in u ensures HasParentIn(tasks, u, i) {
      DeeperHasDeeperParent(tasks, status, k, i);
    }
    NoEndlessClimb(tasks, u);
    forall i: nat | Runnable(tasks, status, i) ensures Shallow(tasks, status, i, k) {
      assert i !in u;
    }
  }

  lemma DeeperHasDeeperParent(tasks: seq<Task>, status: seq<TaskStatus>, k: nat, i: nat)
    requires |status| == |tasks| && i in Deeper(tasks, status, k) && Level(tasks, status, k) == {}
    ensures HasParentIn(tasks, Deeper(tasks, status, k), i)
  {
    hide Shallow;
    assert i !in Level(tasks, status, k);
    var c := DeepTaskHasChain(tasks, status, i, k + 1);
    ChainParent(tasks, c, i);
    var j, front := c[|c| - 2], c[..|c| - 1];
    assert PendingChain(tasks, status, front, j);
    if Shallow(tasks, status, j, k) { ShallowBounds(tasks, status, front, j, k); }
    if Blocked(tasks, status, j) { BlockingChainExtends(tasks, status, j, i); }
  }

  // ---- Clean calls ----

  /** No worker failed, and no cancellation was noticed. */
  ghost predicate Clean(log: seq<Event>) {
    forall e :: e in log ==> !Reports(e) && !e.Abandon?
  }

  /** Every worker succeeded, and nobody cancelled the context from outside. */
  ghost predicate Untroubled(log: seq<Event>) {
    forall e :: e in log ==> !e.Cancel? && (e.Finish? ==> e.ok)
  }

  /** Then nothing else goes wrong either. */
  lemma {:induction false} UntroubledIsClean(tasks: seq<Task>, status0: seq<TaskStatus>, log: seq<Event>)
    requires IsTrace(tasks, status0, log) && Untroubled(log)
    ensures Clean(log) && Quiet(Run(status0, log))
  {
    hide IsTrace, Enabled, Apply;
    if log != [] {
      var front, e := log[..|log| - 1], log[|log| - 1];
      LastStep(tasks, status0, log);
      UntroubledIsClean(tasks, status0, front);
      QuietStep(tasks, Run(status0, front), e);
    }
  }

  predicate Quiet(s: State) {
    !s.cancelled && s.reporting == {}
  }

  lemma QuietStep(tasks: seq<Task>, s: State, e: Event)
    requires Quiet(s) && Enabled(tasks, s, e) && !e.Cancel? && (e.Finish? ==> e.ok)
    ensures Quiet(Apply(s, e)) && !Reports(e) && !e.Abandon?
  {
  }

  ghost predicate OnSchedule(tasks: seq<Task>, status0: seq<TaskStatus>, s: State) {
    var k := |s.batches|;
    && |s.status| == |tasks| == |status0| && s.failCount == 0 && s.reporting == {} && s.spawned !! s.running
    && (forall m :: 0 <= m < k ==> s.batches[m] == Level(tasks, status0, m))
    && (forall i :: i in s.spawned || i in s.running ==>
          i < |tasks| && s.status[i] == Doing && Expected(tasks, status0, i, k) == Done && status0[i] == Pending)
    && (forall i: nat :: i < |tasks| && i !in s.spawned && i !in s.running ==>
          s.status[i] == Expected(tasks, status0, i, k))
  }

  lemma ShallowGrows(tasks: seq<Task>, status: seq<TaskStatus>, i: nat, k: nat)
    requires |status| == |tasks| && Shallow(tasks, status, i, k)
    ensures Shallow(tasks, status, i, k + 1)
  {
  }

  lemma ExpectedGrows(tasks: seq<Task>, status0: seq<TaskStatus>, i: nat, k: nat)
    requires |status0| == |tasks| && i < |tasks|
    ensures Expected(tasks, status0, i, k + 1) ==
              if i in Level(tasks, status0, k) then Done else Expected(tasks, status0, i, k)
    ensures i in Level(tasks, status0, k) ==> status0[i] == Pending
  {
    hide Shallow, Blocked;
    if Shallow(tasks, status0, i, k) { ShallowGrows(tasks, status0, i, k); }
  }

  lemma StepKeepsSchedule(tasks: seq<Task>, status0: seq<TaskStatus>, s: State, e: Event)
    requires UniqueIDs(tasks) && ParentsExist(tasks)
    requires OnSchedule(tasks, status0, s) && Enabled(tasks, s, e) && !Reports(e) && !e.Abandon?
    ensures OnSchedule(tasks, status0, Apply(s, e))
  {
    if e.MarkReady? {
      MarkKeepsSchedule(tasks, status0, s, e.batch);
    } else {
      hide Level, Expected, ReadySet, UniqueIDs, ParentsExist;
    }
  }

  lemma MarkKeepsSchedule(tasks: seq<Task>, status0: seq<TaskStatus>, s: State, batch: set<nat>)
    requires UniqueIDs(tasks) && ParentsExist(tasks)
    requires OnSchedule(tasks, status0, s) && Enabled(tasks, s, MarkReady(batch))
    ensures OnSchedule(tasks, status0, Apply(s, MarkReady(batch)))
  {
    hide Level, Expected, ReadySet, UniqueIDs, ParentsExist;
    var k, t := |s.batches|, Apply(s, MarkReady(batch));
    assert AtLevel(tasks, status0, s.status, k);
    ReadyIsLevel(tasks, status0, s.status, k);
    forall i: nat | i < |tasks|
      ensures Expected(tasks, status0, i, k + 1) == if i in batch then Done else Expected(tasks, status0, i, k)
      ensures i in batch ==> status0[i] == Pending
    {
      ExpectedGrows(tasks, status0, i, k);
    }
    LevelsAreTasks(tasks, status0, k);
  }

  lemma LevelsAreTasks(tasks: seq<Task>, status0: seq<TaskStatus>, k: nat)
    requires |status0| == |tasks|
    ensures forall i :: i in Level(tasks, status0, k) ==> i < |tasks|
  {
  }

  lemma {:induction false} CleanTraceIsOnSchedule(tasks: seq<Task>, status0: seq<TaskStatus>, log: seq<Event>)
    requires UniqueIDs(tasks) && ParentsExist(tasks) && IsTrace(tasks, status0, log) && Clean(log)
    ensures OnSchedule(tasks, status0, Run(status0, log))
  {
    hide UniqueIDs, ParentsExist;
    if log == [] {
      forall i: nat | i < |tasks| ensures Expected(tasks, status0, i, 0) == status0[i] {
        NothingShallowAtStart(tasks, status0, i);
      }
    } else {
      hide OnSchedule, Enabled, Apply, IsTrace, Run;
      var before, e := log[..|log| - 1], log[|log| - 1];
      LastStep(tasks, status0, log);
      CleanTraceIsOnSchedule(tasks, status0, before);
      StepKeepsSchedule(tasks, status0, Run(status0, before), e);
    }
  }

  lemma NothingShallowAtStart(tasks: seq<Task>, status0: seq<TaskStatus>, i: nat)
    requires |status0| == |tasks| && i < |tasks|
    ensures Expected(tasks, status0, i, 0) == status0[i]
  {
    if status0[i] == Pending {
      assert PendingChain(tasks, status0, [i], i);
    }
  }

  /** A clean call on a validated plan finishes every runnable task and leaves the others
      alone, and its k-th batch is the k-th level. */
  lemma CleanCallRunsTheLevels(tasks: seq<Task>, status0: seq<TaskStatus>, log: seq<Event>)
    requires WellFormed(tasks) && UniqueIDs(tasks)
    requires IsTrace(tasks, status0, log) && Clean(log) && Run(status0, log).stopped
    ensures var s := Run(status0, log);
            && !s.hasFailed && |s.status| == |tasks|
            && (forall k :: 0 <= k < |s.batches| ==> s.batches[k] == Level(tasks, status0, k))
            && (forall i: nat :: i < |tasks| ==> s.status[i] == if Runnable(tasks, status0, i) then Done else status0[i])
  {
    StoppedIsIdle(tasks, status0, log);
    hide WellFormed, UniqueIDs, Enabled, Apply, IsTrace, Run, Level, Runnable;
    var before, e := log[..|log| - 1], log[|log| - 1];
    HasFailedIff(tasks, status0, log);
    LastStep(tasks, status0, log);
    WellFormedParents(tasks);
    CleanTraceIsOnSchedule(tasks, status0, before);
    ReturnedOnSchedule(tasks, status0, Run(status0, before), e);
  }

  lemma WellFormedParents(tasks: seq<Task>)
    requires WellFormed(tasks)
    ensures ParentsExist(tasks)
  {
  }

  lemma ReturnedOnSchedule(tasks: seq<Task>, status0: seq<TaskStatus>, s: State, e: Event)
    requires WellFormed(tasks) && UniqueIDs(tasks) && OnSchedule(tasks, status0, s) && Enabled(tasks, s, e)
    requires e.Return?
    ensures Apply(s, e).status == s.status && Apply(s, e).batches == s.batches
    ensures forall k :: 0 <= k < |s.batches| ==> s.batches[k] == Level(tasks, status0, k)
    ensures |s.status| == |tasks| == |status0|
    ensures forall i: nat :: i < |tasks| ==> s.status[i] == if Runnable(tasks, status0, i) then Done else status0[i]
  {
    hide Level, Shallow, Blocked, ReadySet, Acyclic, ParentsExist, UniqueIDs;
    var k := |s.batches|;
    ReadyIsLevel(tasks, status0, s.status, k);
    EmptyLevelEndsIt(tasks, status0, k);
  }

  predicate AllDone(status: seq<TaskStatus>) {
    forall i :: 0 <= i < |status| ==> status[i] != Pending && status[i] != Doing
  }

  /** The plan is finished by a clean call exactly when, before it, no task was stuck in
      doing and no pending task waited on a failed or doing one. */
  lemma CleanCallFinishesIff(tasks: seq<Task>, status0: seq<TaskStatus>, log: seq<Event>)
    requires WellFormed(tasks) && UniqueIDs(tasks)
    requires IsTrace(tasks, status0, log) && Clean(log) && Run(status0, log).stopped
    ensures AllDone(Run(status0, log).status) <==>
              forall i: nat :: i < |tasks| ==>
                status0[i] != Doing && (status0[i] == Pending ==> !Blocked(tasks, status0, i))
  {
    CleanCallRunsTheLevels(tasks, status0, log);
    hide WellFormed, UniqueIDs, Level, Blocked, IsTrace, Run;
  }

  /** A call that reports no failure leaves every task of a validated plan done exactly when,
      at entry, every task was pending or done, and no goroutine gave up on a cancelled
      context. */
  lemma UnfailedCallCompletesIff(tasks: seq<Task>, status0: seq<TaskStatus>, log: seq<Event>)
    requires WellFormed(tasks) && UniqueIDs(tasks)
    requires IsTrace(tasks, status0, log) && Run(status0, log).stopped && !Run(status0, log).hasFailed
    ensures |Run(status0, log).status| == |status0| == |tasks|
    ensures (forall i :: 0 <= i < |tasks| ==> Run(status0, log).status[i] == Done) <==>
              (forall i :: 0 <= i < |tasks| ==> status0[i] == Pending || status0[i] == Done) && !Gives(log)
  {
    HasFailedIff(tasks, status0, log);
    NothingRestored(tasks, status0, log);
    TraceIsConsistent(tasks, status0, log);
    if Run(status0, log).restored { RollbackIsReported(tasks, status0, log); }
    hide WellFormed, UniqueIDs, IsTrace, Run, Consistent;
    if Gives(log) {
      var e :| e in log && e.Abandon?;
      FailingEventHitsATask(tasks, status0, log, e);
      var i :| 0 <= i < |tasks| && status0[i] == Pending && Fails(e, i);
      FailedIff(tasks, status0, log, i);
    } else {
      CleanCallRunsTheLevels(tasks, status0, log);
      if forall i :: 0 <= i < |tasks| ==> status0[i] == Pending || status0[i] == Done {
        forall i: nat | i < |tasks| && status0[i] == Pending ensures !Blocked(tasks, status0, i) {
          NothingBlocks(tasks, status0, i);
        }
      }
    }
  }

  /** Some goroutine gave up. */
  ghost predicate Gives(log: seq<Event>) {
    exists e :: e in log && e.Abandon?
  }

  lemma NothingBlocks(tasks: seq<Task>, status: seq<TaskStatus>, i: nat)
    requires |status| == |tasks| && i < |tasks|
    requires forall j :: 0 <= j < |tasks| ==> status[j] == Pending || status[j] == Done
    ensures !Blocked(tasks, status, i)
  {
  }

  /** A validated plan with every task pending is carried out completely. */
  lemma FreshPlanIsCarriedOut(tasks: seq<Task>, status0: seq<TaskStatus>, log: seq<Event>)
    requires WellFormed(tasks) && UniqueIDs(tasks) && forall i :: 0 <= i < |status0| ==> status0[i] == Pending
    requires IsTrace(tasks, status0, log) && Clean(log) && Run(status0, log).stopped
    ensures !Run(status0, log).hasFailed
    ensures |Run(status0, log).status| == |tasks|
    ensures forall i :: 0 <= i < |tasks| ==> Run(status0, log).status[i] == Done
  {
    CleanCallRunsTheLevels(tasks, status0, log);
    forall i: nat | i < |tasks| ensures !Blocked(tasks, status0, i) {
    }
  }

  /** A plan that stops short without any failure being reported: b waits on a, which
      failed in an earlier call. */
  lemma BlockedPlanReportsNoFailure(a: Task, b: Task)
    requires a.id == "a" && b.id == "b" && a.parentTaskID == "" && b.parentTaskID == "a"
    ensures IsTrace([a, b], [Failed, Pending], [Return])
    ensures Run([Failed, Pending], [Return]) == Entry([Failed, Pending]).(stopped := true)
    ensures !AllDone(Run([Failed, Pending], [Return]).status)
  {
    var tasks, status := [a, b], [Failed, Pending];
    ParentListRoundTrip(["a"]);
    assert Join(["a"], ',') == "a";
    assert "a" in SplitParentIDs("a");
    NothingIsReady(a, b);
    hide ReadySet;
    TraceExtends(tasks, status, [], Return);
    assert [] + [Return] == [Return];
    assert status[1] == Pending;
  }

  lemma NothingIsReady(a: Task, b: Task)
    requires a.id == "a" && b.id == "b" && "a" in SplitParentIDs(b.parentTaskID)
    ensures ReadySet([a, b], [Failed, Pending]) == {}
  {
    hide SplitParentIDs;
    var tasks, status := [a, b], [Failed, Pending];
    assert tasks[..1] == [a] && status[..1] == [Failed];
    assert StatusOf(tasks, status, "a") == Some(Failed);
    assert !ParentsDone(tasks, status, 1);
  }

  // ---- The number of batches ----

  ghost function PendingSet(status: seq<TaskStatus>): set<nat> {
    set i: nat | i < |status| && status[i] == Pending
  }

  /** Every batch takes at least one task out of pending for good. */
  lemma {:induction false} BatchesAreBounded(tasks: seq<Task>, status0: seq<TaskStatus>, log: seq<Event>)
    requires IsTrace(tasks, status0, log)
    ensures |Run(status0, log).batches| <= |PendingSet(status0)|
    ensures !Run(status0, log).restored ==>
              |Run(status0, log).batches| + |PendingSet(Run(status0, log).status)| <= |PendingSet(status0)|
  {
    if log != [] {
      hide Consistent, Enabled, Apply, IsTrace, Run, PendingSet;
      var before, e := log[..|log| - 1], log[|log| - 1];
      LastStep(tasks, status0, log);
      TraceIsConsistent(tasks, status0, before);
      BatchesAreBounded(tasks, status0, before);
      StepSpendsPending(tasks, status0, Run(status0, before), e);
    }
  }

  lemma StepSpendsPending(tasks: seq<Task>, status0: seq<TaskStatus>, s: State, e: Event)
    requires Consistent(tasks, status0, s) && Enabled(tasks, s, e)
    ensures var t := Apply(s, e);
            && (t.restored ==> t.batches == s.batches)
            && (!t.restored ==> !s.restored && |t.batches| + |PendingSet(t.status)| <= |s.batches| + |PendingSet(s.status)|)
  {
    hide ParentsDone, ReadySet, Undisturbed;
    var t, lost := Apply(s, e), Lost(e);
    if !t.restored {
      PendingLost(tasks, status0, s, e);
      assert PendingSet(t.status) == PendingSet(s.status) - lost;
    }
  }

  function Lost(e: Event): set<nat> {
    match e case MarkReady(b) => b case CancelAtHead(b) => b case _ => {}
  }

  lemma PendingLost(tasks: seq<Task>, status0: seq<TaskStatus>, s: State, e: Event)
    requires Consistent(tasks, status0, s) && Enabled(tasks, s, e) && !Apply(s, e).restored
    ensures Lost(e) <= PendingSet(s.status) && |Apply(s, e).status| == |s.status|
    ensures e.MarkReady? ==> e.batch != {}
    ensures forall i :: 0 <= i < |s.status| ==>
              (Apply(s, e).status[i] == Pending <==> s.status[i] == Pending && i !in Lost(e))
  {
    hide ParentsDone;
  }
}
