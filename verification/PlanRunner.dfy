/** The planner's run loop as it updates the machine, its context and the plan store. */
module PlanRunner {
  import opened Options
  import opened PlanModel
  import opened PlanStore
  import opened PlanExecution
  import opened PlanMachine
  import PlanValidation
  import DagExecution
  import DagExecutor

  // ---- What took place, against the script ----

  /** The call that took place is the scripted one, up to generated ids and the plan that
      FindTask meets first. */
  predicate Like(c: Call, done: Call) {
    match c
    case PlanCreate(_, name, saved) => done.PlanCreate? && done.name == name && done.saved == saved
    case TaskInsert(id, task, saved) =>
      done.TaskInsert? && done.planID == id && done.saved == saved && done.task == task.(id := done.task.id)
    case TaskDelete(taskID, _, saved) => done.TaskDelete? && done.taskID == taskID && done.saved == saved
    case TaskStatusUpdate(taskID, _, status, reason, saved) =>
      done.TaskStatusUpdate? && done.(pick := c.pick) == c
    case _ => done == c
  }

  /** The calls of a script that the state offers. */
  function OfferedOf(state: PlanState, script: seq<Call>): seq<Call> {
    if script == [] then []
    else
      var n := |script| - 1;
      OfferedOf(state, script[..n]) + if Offered(state, script[n]) then [script[n]] else []
  }

  ghost predicate LikeAll(script: seq<Call>, done: seq<Call>) {
    |script| == |done| && forall i :: 0 <= i < |done| ==> Like(script[i], done[i])
  }

  /** The outside world during one cycle: what the model, the tools and the disk do, and the
      script of a call of the executor. */
  datatype Turnout = Turnout(workMode: string, lost: seq<Call>, calls: seq<Call>, fails: bool, saved: bool, script: Script)

  /** What a visit to a state made of the world: the mode, the failure and the disk are the
      world's, every offered call took place in order, and so did the executor's script. */
  ghost predicate Follows(state: PlanState, v: Turnout, w: Visit) {
    && w.workMode == v.workMode && w.fails == v.fails && w.saved == v.saved
    && (if state == Rejected || state == PlanState.Doing then w.lost == [] && w.calls == []
        else LikeAll(OfferedOf(state, v.lost), w.lost) && LikeAll(OfferedOf(state, v.calls), w.calls))
    && (state == PlanState.Doing ==> Plays(v.script, w.log, w.effects))
  }

  class Machine {
    const cfg: Config
    const tools: PlanTools
    var currentState: PlanState
    var plan: Option<string>
    var planID: string
    var taskFails: nat

    ghost function At(): Head
      reads this, tools
    {
      Head(currentState, Context(plan, planID, taskFails), tools.Value())
    }

    constructor (cfg: Config, tools: PlanTools)
      ensures this.cfg == cfg && this.tools == tools
    {
      this.cfg, this.tools := cfg, tools;
      currentState := PlanMachine.InitialState(cfg);
      plan, planID, taskFails := None, "", 0;
    }

    /** One tool call. Ids are generated here; deletions and status updates act on the plan
        FindTask happens to meet first. */
    method RunCall(c: Call) returns (ghost done: Call, created: string)
      modifies tools
      ensures tools.Value() == ApplyCall(old(tools.Value()), done) && Fresh(old(tools.Value()), done)
      ensures Like(c, done) && forall s :: Offered(s, done) <==> Offered(s, c)
      ensures c.PlanCreate? ==> created == done.freshID
    {
      done, created := c, "";
      match c {
        case NoPlanEffect =>
        case PlanCreate(wanted, name, saved) =>
          created := GenerateID(tools.plans.Keys, wanted);
          done := PlanCreate(created, name, saved);
          tools.CreatePlan(created, name, saved);
        case ConfirmPlan(id, status, reason, saved) => var _ := tools.Confirm(id, status, reason, saved);
        case TaskInsert(id, task, saved) =>
          var t := task;
          if id in tools.plans {
            var ids := set i | 0 <= i < |tools.plans[id].subTasks| :: tools.plans[id].subTasks[i].id;
            var fresh' := GenerateID(ids, task.id);
            t := task.(id := fresh');
          }
          done := TaskInsert(id, t, saved);
          var _ := tools.Insert(id, t, saved);
        case TaskDelete(taskID, _, saved) =>
          ghost var pick;
          var ok;
          pick, ok := tools.Delete(taskID, saved);
          done := TaskDelete(taskID, pick, saved);
        case TaskStatusUpdate(taskID, _, status, reason, saved) =>
          ghost var pick;
          var ok;
          pick, ok := tools.UpdateStatus(taskID, status, reason, saved);
          done := TaskStatusUpdate(taskID, pick, status, reason, saved);
        case PlanRollback(id, target, saved) => var _ := tools.Rollback(id, target, saved);
      }
    }

    /** The scripted calls the current state offers, and the id of the first plan they
        created and stored. */
    method RunCalls(script: seq<Call>) returns (created: string, ghost done: seq<Call>)
      modifies tools
      ensures tools.Value() == ApplyCalls(old(tools.Value()), done) && AllFresh(old(tools.Value()), done)
      ensures forall i :: 0 <= i < |done| ==> Offered(currentState, done[i])
      ensures LikeAll(OfferedOf(currentState, script), done)
      ensures created == CreatedID(done)
    {
      created, done := "", [];
      var found := false;
      hide Like, Fresh, ApplyCall, LikeAll, OfferedOf, CreatedID, HasCreated, ApplyCalls, AllFresh, Offered;
      NothingDone(tools.Value(), currentState, script);
      for i := 0 to |script|
        invariant tools.Value() == ApplyCalls(old(tools.Value()), done) && AllFresh(old(tools.Value()), done)
        invariant forall j :: 0 <= j < |done| ==> Offered(currentState, done[j])
        invariant LikeAll(OfferedOf(currentState, script[..i]), done)
        invariant created == CreatedID(done) && (found <==> HasCreated(done))
      {
        NotOffered(currentState, script, i);
        if Offered(currentState, script[i]) {
          ghost var c;
          var id;
          c, id := RunCall(script[i]);
          LikeKind(script[i], c);
          CreatedByLast(done, c);
          CallsGrow(old(tools.Value()), done, c);
          OneMoreLike(currentState, script, i, done, c);
          done := done + [c];
          if !found && script[i].PlanCreate? && script[i].saved {
            created, found := id, true;
          }
        }
      }
      assert script[..|script|] == script;
    }

    method StorePlanState(state: PlanState, saved: bool)
      modifies tools
      ensures tools.Value() == StoreState(old(tools.Value()), plan, state, saved)
    {
      if plan.Some? && plan.value in tools.plans {
        tools.PutPlan(tools.plans[plan.value].(state := state), saved);
      }
    }

    /** Whether the plan exists and validates. */
    method Validates(id: string) returns (ok: bool)
      requires id in tools.plans
      ensures ok <==> ValidPlan(tools.Value(), id)
    {
      var err := PlanValidation.Validate(tools.plans[id].subTasks);
      return err.None?;
    }

    /** Calls the executor on the run's plan. */
    method RunExecutor(script: Script) returns (failed: bool, ghost log: seq<DagExecution.Event>, ghost effects: seq<Effect>)
      requires Sound(At()) && currentState == PlanState.Doing
      modifies this`taskFails, tools
      ensures var h := old(At());
              && DagExecution.IsTrace(PlanTasks(h), EntryStatuses(h), log)
              && DagExecution.Run(EntryStatuses(h), log).stopped && failed == DagExecution.Run(EntryStatuses(h), log).hasFailed
              && Fits(cfg, planID, RunOf(h), log, effects)
              && RunStore(cfg, planID, RunOf(h), log, effects) == PlanRun(tools.Value(), taskFails)
      ensures Plays(script, log, effects)
      ensures Smooth(script, |PlanTasks(old(At()))|) && AllHave(old(At()), {TaskStatus.Pending, TaskStatus.Done}) ==>
                !failed && DagExecutor.AllAreDone(planID, tools.Value())
    {
      hide Logged, AllUnique, Settled, Begun, Fits, RunStore, UniqueIDs, DagExecution.IsTrace, DagExecution.Run;
      SoundPlanBegins(At());
      PlanIsUnique(tools.Value(), planID);
      var ex := new DagExecutor.Executor(cfg, script, tools, planID, taskFails);
      var r := ex.ExecuteBatch();
      taskFails := ex.taskFails;
      return r.hasFailed, ex.log, ex.effects;
    }

    /** Executes the current state against one visit of the world; w is what happened. */
    method Execute(v: Turnout) returns (next: PlanState, err: bool, ghost w: Visit)
      requires Sound(At())
      modifies this`plan, this`planID, this`taskFails, tools
      ensures VisitAllowed(cfg, old(At()), w) && Follows(currentState, v, w)
      ensures ExecuteState(cfg, old(At()), w) == Exec(next, err, Context(plan, planID, taskFails), tools.Value())
    {
      hide ApplyCalls, RunStore, WellFormed, CreatedID, Sound, Fits, DagExecution.IsTrace, DagExecution.Run, LikeAll, AllFresh;
      w := Visit(v.workMode, [], [], v.fails, [], [], v.saved);
      NoCalls(tools.Value());
      match currentState {
        case Rejected => return Rejected, false, w;
        case Doing =>
          ghost var log, effects;
          var failed;
          failed, log, effects := RunExecutor(v.script);
          w := w.(log := log, effects := effects);
          return if failed then Updating else PlanState.Done, false, w;
        case _ =>
      }
      ghost var s0 := tools.Value();
      ghost var lost, calls;
      var ignored, created;
      ignored, lost := RunCalls(v.lost);
      created, calls := RunCalls(v.calls);
      w := w.(lost := lost, calls := calls);
      CallsCompose(s0, lost, calls);
      FreshComposes(s0, lost, calls);
      if v.fails { return currentState, true, w; }
      match currentState {
        case Intent => return if v.workMode == "plan" then Init else Direct, false, w;
        case Init =>
          planID := created;
          if created == "" || created !in tools.plans { return Direct, false, w; }
          var ok := Validates(created);
          if !ok { return Updating, false, w; }
          plan := Some(created);
          return Confirmed, false, w;
        case Confirmed =>
          if planID != "" && planID in tools.plans && tools.plans[planID].state != Confirmed {
            return tools.plans[planID].state, false, w;
          }
          return Confirmed, false, w;
        case Updating =>
          if planID == "" || planID !in tools.plans { return Direct, false, w; }
          var ok := Validates(planID);
          if !ok { return Direct, false, w; }
          plan := Some(planID);
          return Confirmed, false, w;
        case _ => return currentState, false, w;
      }
    }

    /** One turn of the loop: executes the current state, stores the plan, and moves on
        unless the run is over. */
    method Turn(v: Turnout) returns (over: Option<Result>, ghost w: Visit)
      requires Sound(At())
      modifies this, tools
      ensures VisitAllowed(cfg, old(At()), w) && Follows(old(currentState), v, w)
      ensures over.Some? ==> Cycle(cfg, old(At()), w) == Stop(over.value, tools.Value())
      ensures over.None? ==> Cycle(cfg, old(At()), w) == Continue(At()) && Sound(At())
    {
      hide ExecuteState, VisitAllowed, StoreState, Sound, Follows, IsTerminal;
      ghost var h := At();
      var next, err;
      next, err, w := Execute(v);
      SameDisk(currentState, v, w);
      if err {
        StorePlanState(currentState, v.saved);
        return Some(ActionFailed), w;
      }
      StorePlanState(next, v.saved);
      if plan.Some? && !v.saved { return Some(PersistFailed), w; }
      if IsTerminal(next) && next == currentState { return Some(Succeeded), w; }
      currentState := next;
      CycleKeepsSound(cfg, h, w);
      return None, w;
    }

    /** The run loop, for every world. It reports the heads and visits of the run and, when
        the last visit ended it, that visit. */
    method Run(world: seq<Turnout>)
      returns (result: Result, ghost heads: seq<Head>, ghost visits: seq<Visit>, ghost last: Option<Visit>)
      requires |world| > cfg.maxCycles && Logged(tools.Value()) && AllUnique(tools.Value())
      modifies this, tools
      ensures IsRun(cfg, old(tools.Value()), heads, visits) && |visits| <= cfg.maxCycles && |heads| == |visits| + 1
      ensures AllFollow(heads, world, visits)
      ensures last.Some? ==> |visits| < cfg.maxCycles && VisitAllowed(cfg, heads[|visits|], last.value)
                             && Follows(heads[|visits|].state, world[|visits|], last.value)
                             && Cycle(cfg, heads[|visits|], last.value) == Stop(result, tools.Value())
      ensures last.None? ==> |visits| == cfg.maxCycles && RanOut(heads[|visits|], world[|visits|].saved, result, tools.Value())
    {
      currentState := PlanMachine.InitialState(cfg);
      plan, planID, taskFails := None, "", 0;
      heads, visits := [At()], [];
      FirstHeadIsSound(cfg, tools.Value());
      RunStarts(cfg, tools.Value());
      NoneFollow(heads, world);
      hide VisitAllowed, Sound, Follows, AllFollow, IsRun, Cycle, Logged, AllUnique, RanOut, PlanMachine.InitialState;
      for cycle := 0 to cfg.maxCycles
        invariant |visits| == cycle && |heads| == cycle + 1 && heads[cycle] == At() && Sound(At())
        invariant IsRun(cfg, old(tools.Value()), heads, visits)
        invariant AllFollow(heads, world, visits)
      {
        var over;
        ghost var w;
        over, w := Turn(world[cycle]);
        if over.Some? { return over.value, heads, visits, Some(w); }
        RunExtends(cfg, old(tools.Value()), heads, visits, w, At());
        OneMoreFollows(heads, world, visits, At(), w);
        heads, visits := heads + [At()], visits + [w];
      }
      result := RunOut(world[cfg.maxCycles].saved);
      return result, heads, visits, None;
    }

    /** The cycles are used up: the plan is stored once more. */
    method RunOut(saved: bool) returns (result: Result)
      modifies tools
      ensures RanOut(old(At()), saved, result, tools.Value())
    {
      if plan.Some? && plan.value in tools.plans {
        tools.PutPlan(tools.plans[plan.value], saved);
        if !saved { return PersistFailed; }
      }
      return MaxCyclesExceeded;
    }
  }

  /** The visits of a run are made of those of the world, one by one. */
  ghost predicate AllFollow(heads: seq<Head>, world: seq<Turnout>, visits: seq<Visit>) {
    && |visits| <= |heads| && |visits| <= |world|
    && forall n :: 0 <= n < |visits| ==> Follows(heads[n].state, world[n], visits[n])
  }

  lemma NoneFollow(heads: seq<Head>, world: seq<Turnout>)
    ensures AllFollow(heads, world, [])
  {
  }

  lemma OneMoreFollows(heads: seq<Head>, world: seq<Turnout>, visits: seq<Visit>, h: Head, w: Visit)
    requires AllFollow(heads, world, visits) && |visits| < |world| && |heads| == |visits| + 1
    requires Follows(heads[|visits|].state, world[|visits|], w)
    ensures AllFollow(heads + [h], world, visits + [w])
  {
    hide Follows;
  }

  /** The end of a run that used up its cycles. */
  ghost predicate RanOut(h: Head, saved: bool, result: Result, store: Store) {
    if h.ctx.plan.Some? && h.ctx.plan.value in h.store.plans then
      store == PutByID(h.store, h.ctx.plan.value, saved) && result == if saved then MaxCyclesExceeded else PersistFailed
    else store == h.store && result == MaxCyclesExceeded
  }

  lemma SameDisk(state: PlanState, v: Turnout, w: Visit)
    requires Follows(state, v, w)
    ensures w.saved == v.saved
  {
  }

  lemma LikeKind(c: Call, done: Call)
    requires Like(c, done)
    ensures done.PlanCreate? <==> c.PlanCreate?
    ensures c.PlanCreate? ==> done.saved == c.saved
  {
  }

  lemma NothingDone(s: Store, state: PlanState, script: seq<Call>)
    ensures AllFresh(s, []) && ApplyCalls(s, []) == s && LikeAll(OfferedOf(state, script[..0]), [])
    ensures CreatedID([]) == "" && !HasCreated([])
  {
  }

  lemma NotOffered(state: PlanState, script: seq<Call>, i: nat)
    requires i < |script|
    ensures var before := OfferedOf(state, script[..i]);
            OfferedOf(state, script[..i + 1]) == if Offered(state, script[i]) then before + [script[i]] else before
  {
    hide Offered;
    assert script[..i + 1][..i] == script[..i];
  }

  lemma OneMoreLike(state: PlanState, script: seq<Call>, i: nat, done: seq<Call>, c: Call)
    requires i < |script| && Offered(state, script[i])
    requires LikeAll(OfferedOf(state, script[..i]), done) && Like(script[i], c)
    ensures LikeAll(OfferedOf(state, script[..i + 1]), done + [c])
  {
    hide Offered, Like;
    NotOffered(state, script, i);
  }

  lemma NoCalls(s: Store)
    ensures AllFresh(s, [] + []) && ApplyCalls(s, [] + []) == s
  {
  }

  lemma CallsGrow(s: Store, done: seq<Call>, c: Call)
    requires AllFresh(s, done) && Fresh(ApplyCalls(s, done), c)
    ensures AllFresh(s, done + [c]) && ApplyCalls(s, done + [c]) == ApplyCall(ApplyCalls(s, done), c)
  {
    hide Fresh, ApplyCall;
    var longer := done + [c];
    assert longer[..|done|] == done;
    forall n | 0 <= n < |longer| ensures Fresh(ApplyCalls(s, longer[..n]), longer[n]) {
      assert n < |done| ==> longer[..n] == done[..n];
    }
  }

  ghost predicate HasCreated(calls: seq<Call>) {
    exists i :: 0 <= i < |calls| && calls[i].PlanCreate? && calls[i].saved
  }

  lemma {:induction false} CreatedByLast(calls: seq<Call>, c: Call)
    ensures HasCreated(calls + [c]) <==> HasCreated(calls) || (c.PlanCreate? && c.saved)
    ensures CreatedID(calls + [c]) == if !HasCreated(calls) && c.PlanCreate? && c.saved then c.freshID else CreatedID(calls)
  {
    if c.PlanCreate? && c.saved { assert (calls + [c])[|calls|] == c; }
    forall i | 0 <= i < |calls| ensures (calls + [c])[i] == calls[i] {}
    if HasCreated(calls) {
      var i :| 0 <= i < |calls| && calls[i].PlanCreate? && calls[i].saved;
      assert (calls + [c])[i] == calls[i];
    }
    if calls != [] {
      CreatedByLast(calls[1..], c);
      assert (calls + [c])[1..] == calls[1..] + [c];
      CreatedSplits(calls);
    }
  }

  lemma CreatedSplits(calls: seq<Call>)
    requires calls != []
    ensures HasCreated(calls) <==> (calls[0].PlanCreate? && calls[0].saved) || HasCreated(calls[1..])
  {
    if HasCreated(calls[1..]) {
      var i :| 0 <= i < |calls[1..]| && calls[1..][i].PlanCreate? && calls[1..][i].saved;
      assert calls[i + 1].PlanCreate?;
    }
    if HasCreated(calls) {
      var i :| 0 <= i < |calls| && calls[i].PlanCreate? && calls[i].saved;
      if i > 0 { assert calls[1..][i - 1].PlanCreate?; }
    }
  }

  lemma {:induction false} CallsCompose(s: Store, first: seq<Call>, second: seq<Call>)
    ensures ApplyCalls(ApplyCalls(s, first), second) == ApplyCalls(s, first + second)
  {
    hide ApplyCall;
    if second == [] {
      assert first + second == first;
    } else {
      var front := second[..|second| - 1];
      CallsCompose(s, first, front);
      assert (first + second)[..|first + second| - 1] == first + front;
    }
  }

  lemma {:induction false} FreshComposes(s: Store, first: seq<Call>, second: seq<Call>)
    requires AllFresh(s, first) && AllFresh(ApplyCalls(s, first), second)
    ensures AllFresh(s, first + second)
  {
    hide ApplyCall, Fresh, AllFresh, ApplyCalls;
    if second == [] {
      assert first + second == first;
    } else {
      var front, c := second[..|second| - 1], second[|second| - 1];
      FreshFront(ApplyCalls(s, first), second);
      LastIsFresh(ApplyCalls(s, first), second);
      FreshComposes(s, first, front);
      CallsCompose(s, first, front);
      CallsGrow(s, first + front, c);
      assert (first + front) + [c] == first + second;
    }
  }

  lemma LastIsFresh(s: Store, calls: seq<Call>)
    requires AllFresh(s, calls) && calls != []
    ensures Fresh(ApplyCalls(s, calls[..|calls| - 1]), calls[|calls| - 1])
  {
  }

  /** A run that succeeds has executed exactly one terminal state, as its last. */
  lemma SuccessExecutesOneTerminalState(cfg: Config, store0: Store, heads: seq<Head>, visits: seq<Visit>, last: Visit)
    requires IsRun(cfg, store0, heads, visits)
    requires Cycle(cfg, heads[|visits|], last).Stop? && Cycle(cfg, heads[|visits|], last).result == Succeeded
    ensures forall n :: 0 <= n < |heads| ==> (IsTerminal(heads[n].state) <==> n == |visits|)
  {
    hide IsTerminal;
    SuccessIsTerminal(cfg, heads[|visits|], last);
    forall n: nat | n < |heads| && IsTerminal(heads[n].state) ensures n == |visits| {
      TerminalStatesComeLast(cfg, store0, heads, visits, n);
    }
  }
}
