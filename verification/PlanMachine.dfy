/** The state machine of a planner run, over every choice the model, the human, the
    workers and the disk can make. */
module PlanMachine {
  import opened Options
  import opened PlanModel
  import opened PlanStore
  import opened DagExecution
  import opened DagCompleteness
  import opened PlanExecution

  /** What a run keeps between cycles. The plan pointer is the plan's id in the store. */
  datatype Context = Context(plan: Option<string>, planID: string, taskFails: nat)

  /** The outside world during one cycle: the mode the model names, the tool calls of
      attempts whose messages were lost to a context overflow, those of the attempt that
      counts, whether the action fails, the executor's log with its surroundings, and
      whether the machine's own PutPlan reaches the disk. */
  datatype Visit = Visit(workMode: string, lost: seq<Call>, calls: seq<Call>, fails: bool,
                         log: seq<Event>, effects: seq<Effect>, saved: bool)

  /** The situation at a loop head. */
  datatype Head = Head(state: PlanState, ctx: Context, store: Store)

  datatype Result = Succeeded | ActionFailed | PersistFailed | MaxCyclesExceeded

  datatype Cycled = Continue(head: Head) | Stop(result: Result, store: Store)

  function InitialState(cfg: Config): PlanState {
    if cfg.forceMode == "plan" then Init else if cfg.forceMode == "simple" then Direct else Intent
  }

  predicate IsTerminal(state: PlanState) {
    state.Direct? || state == PlanState.Done || state == PlanState.Failed || state.Rejected?
  }

  /** The plan tools offered to the model in each state. */
  predicate Offered(state: PlanState, c: Call) {
    match c
    case NoPlanEffect => true
    case PlanCreate(_, _, _) => state == Init
    case TaskInsert(_, _, _) => state == Init || state == Updating
    case TaskDelete(_, _, _) => state == Updating
    case ConfirmPlan(_, _, _, _) => state == Confirmed
    case TaskStatusUpdate(_, _, _, _, _) => state == PlanState.Doing
    case PlanRollback(_, _, _) => false
  }

  /** The id in the first successful plan_create result, or the empty string. */
  function CreatedID(calls: seq<Call>): string {
    if calls == [] then ""
    else if calls[0].PlanCreate? && calls[0].saved then calls[0].freshID
    else CreatedID(calls[1..])
  }

  // ---- The states ----

  datatype Exec = Exec(next: PlanState, err: bool, ctx: Context, store: Store)

  ghost predicate ValidPlan(s: Store, id: string) {
    id in s.plans && WellFormed(s.plans[id].subTasks)
  }

  function RunOf(h: Head): PlanRun {
    PlanRun(h.store, h.ctx.taskFails)
  }

  function PlanTasks(h: Head): seq<Task> {
    if h.ctx.planID in h.store.plans then h.store.plans[h.ctx.planID].subTasks else []
  }

  function EntryStatuses(h: Head): seq<TaskStatus> {
    Statuses(PlanTasks(h))
  }

  /** The visit's log is a complete call of the executor on the run's plan, and its
      rollbacks are those the store and the reviewer call for. */
  ghost predicate Executed(cfg: Config, h: Head, v: Visit) {
    && IsTrace(PlanTasks(h), EntryStatuses(h), v.log) && Run(EntryStatuses(h), v.log).stopped
    && Fits(cfg, h.ctx.planID, RunOf(h), v.log, v.effects)
  }

  /** Doing takes whatever call of the executor took place. */
  ghost function ExecuteState(cfg: Config, h: Head, v: Visit): Exec {
    var s := ApplyCalls(h.store, v.lost + v.calls);
    var ctx := h.ctx;
    match h.state
    case Rejected => Exec(Rejected, false, ctx, h.store)
    case Doing =>
      if !Executed(cfg, h, v) then Exec(PlanState.Doing, true, ctx, h.store)
      else
        var d := RunStore(cfg, ctx.planID, RunOf(h), v.log, v.effects);
        Exec(if Run(EntryStatuses(h), v.log).hasFailed then Updating else PlanState.Done, false,
             ctx.(taskFails := d.taskFails), d.store)
    case Intent => Exec(if v.fails then Intent else if v.workMode == "plan" then Init else Direct, v.fails, ctx, s)
    case Init =>
      if v.fails then Exec(Init, true, ctx, s)
      else
        var id := CreatedID(v.calls);
        if id != "" && id in s.plans then
          if ValidPlan(s, id) then Exec(Confirmed, false, ctx.(plan := Some(id), planID := id), s)
          else Exec(Updating, false, ctx.(planID := id), s)
        else Exec(Direct, false, ctx.(planID := id), s)
    case Confirmed =>
      if v.fails then Exec(Confirmed, true, ctx, s)
      else if ctx.planID != "" && ctx.planID in s.plans && s.plans[ctx.planID].state != Confirmed then
        Exec(s.plans[ctx.planID].state, false, ctx, s)
      else Exec(Confirmed, false, ctx, s)
    case Updating =>
      if v.fails then Exec(Updating, true, ctx, s)
      else if ctx.planID != "" && ValidPlan(s, ctx.planID) then
        Exec(Confirmed, false, ctx.(plan := Some(ctx.planID)), s)
      else Exec(Direct, false, ctx, s)
    case _ => Exec(h.state, v.fails, ctx, s)  // direct, done and failed only talk
  }

  /** Sets the state of the run's plan, if it has one, and stores the plan. */
  function StoreState(s: Store, plan: Option<string>, state: PlanState, saved: bool): Store {
    if plan.None? || plan.value !in s.plans then s
    else Put(s, s.plans[plan.value].(state := state), saved)
  }

  /** One turn of the run loop. */
  ghost function Cycle(cfg: Config, h: Head, v: Visit): Cycled {
    var x := ExecuteState(cfg, h, v);
    var persisted := x.ctx.plan.None? || v.saved;
    if x.err then Stop(ActionFailed, StoreState(x.store, x.ctx.plan, h.state, v.saved))
    else
      var stored := StoreState(x.store, x.ctx.plan, x.next, v.saved);
      if !persisted then Stop(PersistFailed, stored)
      else if IsTerminal(x.next) && x.next == h.state then Stop(Succeeded, stored)
      else Continue(Head(x.next, x.ctx, stored))
  }

  /** The model calls only offered tools, generated ids are new, and in Doing the executor
      was called. */
  ghost predicate VisitAllowed(cfg: Config, h: Head, v: Visit) {
    var calls := v.lost + v.calls;
    && (forall i :: 0 <= i < |calls| ==> Offered(h.state, calls[i]))
    && AllFresh(h.store, calls)
    && (h.state == PlanState.Doing ==> Executed(cfg, h, v))
  }

  /** The loop heads of one run, with what the world did in between. */
  ghost predicate IsRun(cfg: Config, store0: Store, heads: seq<Head>, visits: seq<Visit>) {
    && |heads| == |visits| + 1
    && heads[0] == Head(InitialState(cfg), Context(None, "", 0), store0)
    && (forall n :: 0 <= n < |visits| ==> VisitAllowed(cfg, heads[n], visits[n]))
    && (forall n :: 0 <= n < |visits| ==> Cycle(cfg, heads[n], visits[n]) == Continue(heads[n + 1]))
  }

  // ---- What plan calls leave alone ----

  lemma {:induction false} CallsKeepPlans(s: Store, calls: seq<Call>, id: string)
    requires id in s.plans
    ensures id in ApplyCalls(s, calls).plans
  {
    if calls != [] {
      CallsKeepPlans(s, calls[..|calls| - 1], id);
      hide ApplyCall;
      CallKeepsPlan(ApplyCalls(s, calls[..|calls| - 1]), calls[|calls| - 1], id);
    }
  }

  lemma CallKeepsPlan(s: Store, c: Call, id: string)
    requires id in s.plans
    ensures id in ApplyCall(s, c).plans
  {
    hide Edited;
  }

  // ---- A visit to Confirmed ----

  /** A confirm_plan for the plan with one of the three texts it knows. */
  predicate Answers(c: Call, id: string): (b: bool)
    ensures b ==> c.ConfirmPlan? && c.status in {"doing", "rejected", "update"}
  {
    c.ConfirmPlan? && c.planID == id && c.status in {"doing", "rejected", "update"}
  }

  ghost predicate Unanswered(calls: seq<Call>, id: string) {
    forall i :: 0 <= i < |calls| ==> !Answers(calls[i], id)
  }

  /** The last confirm_plan for the plan says this. */
  ghost predicate LastAnswered(calls: seq<Call>, id: string, status: string) {
    exists i :: 0 <= i < |calls| && Answers(calls[i], id) && calls[i].status == status
                && forall j :: i < j < |calls| ==> !Answers(calls[j], id)
  }

  lemma {:induction false} SomeAnswer(calls: seq<Call>, id: string)
    ensures Unanswered(calls, id) || LastAnswered(calls, id, "doing") || LastAnswered(calls, id, "rejected")
            || LastAnswered(calls, id, "update")
  {
    hide Answers, Unanswered, LastAnswered;
    if calls == [] {
      NothingAnswered(id);
    } else {
      var front, c := calls[..|calls| - 1], calls[|calls| - 1];
      SomeAnswer(front, id);
      AnsweredGrows(front, c, id);
      assert calls == front + [c];
    }
  }

  /** One more call leaves the last answer, or is it. */
  lemma AnsweredGrows(calls: seq<Call>, c: Call, id: string)
    ensures Unanswered(calls + [c], id) <==> Unanswered(calls, id) && !Answers(c, id)
    ensures Answers(c, id) ==> forall status :: LastAnswered(calls + [c], id, status) <==> status == c.status
    ensures !Answers(c, id) ==> forall status :: LastAnswered(calls + [c], id, status) <==> LastAnswered(calls, id, status)
  {
    hide Answers;
    var longer := calls + [c];
    assert longer[|calls|] == c && forall i :: 0 <= i < |calls| ==> longer[i] == calls[i];
    if !Answers(c, id) {
      forall status ensures LastAnswered(longer, id, status) <==> LastAnswered(calls, id, status) {
        if LastAnswered(longer, id, status) {
          var i :| 0 <= i < |longer| && Answers(longer[i], id) && longer[i].status == status
                   && forall j :: i < j < |longer| ==> !Answers(longer[j], id);
          assert i < |calls| && forall j :: i < j < |calls| ==> calls[j] == longer[j];
        }
        if LastAnswered(calls, id, status) {
          var i :| 0 <= i < |calls| && Answers(calls[i], id) && calls[i].status == status
                   && forall j :: i < j < |calls| ==> !Answers(calls[j], id);
          assert Answers(longer[i], id) && longer[i].status == status;
        }
      }
    }
  }

  /** In Confirmed the model can only change a plan's state, and only through confirm_plan:
      the last one for the plan decides. */
  lemma {:induction false} ConfirmedVisit(s: Store, calls: seq<Call>, id: string)
    requires Logged(s) && id in s.plans && AllFresh(s, calls)
    requires forall i :: 0 <= i < |calls| ==> Offered(Confirmed, calls[i])
    ensures var t := ApplyCalls(s, calls);
            && id in t.plans && t.plans[id].subTasks == s.plans[id].subTasks
            && (Unanswered(calls, id) ==> t.plans[id].state == s.plans[id].state)
            && (LastAnswered(calls, id, "doing") ==> t.plans[id].state == PlanState.Doing)
            && (LastAnswered(calls, id, "rejected") ==> t.plans[id].state == PlanState.Rejected)
            && (LastAnswered(calls, id, "update") ==> t.plans[id].state == PlanState.Updating)
  {
    hide Logged, Fresh, Unanswered, LastAnswered, Answers, ApplyCall;
    if calls != [] {
      var front, c := calls[..|calls| - 1], calls[|calls| - 1];
      FreshFront(s, calls);
      ConfirmedVisit(s, front, id);
      CallsKeepLog(s, front);
      assert calls == front + [c];
      AnsweredGrows(front, c, id);
      ConfirmedCall(ApplyCalls(s, front), c, id);
    } else {
      NothingAnswered(id);
    }
  }

  lemma NothingAnswered(id: string)
    ensures Unanswered([], id) && forall status :: !LastAnswered([], id, status)
  {
  }

  lemma FreshFront(s: Store, calls: seq<Call>)
    requires AllFresh(s, calls) && calls != []
    ensures AllFresh(s, calls[..|calls| - 1])
  {
    hide Fresh;
    var front := calls[..|calls| - 1];
    assert forall n :: 0 <= n < |front| ==> front[..n] == calls[..n];
  }

  lemma ConfirmedCall(s: Store, c: Call, id: string)
    requires Logged(s) && id in s.plans && Offered(Confirmed, c)
    ensures var t := ApplyCall(s, c);
            && id in t.plans && t.plans[id].subTasks == s.plans[id].subTasks
            && (!Answers(c, id) ==> t.plans[id].state == s.plans[id].state)
            && (Answers(c, id) ==>
                  && c.ConfirmPlan?
                  && (c.status == "doing" ==> t.plans[id].state == PlanState.Doing)
                  && (c.status == "rejected" ==> t.plans[id].state == PlanState.Rejected)
                  && (c.status == "update" ==> t.plans[id].state == PlanState.Updating))
  {
    if c.ConfirmPlan? {
      ConfirmStores(s, c.planID, c.status, c.reason, c.saved);
      hide ApplyCall, Logged;
    }
  }

  // ---- What holds at every loop head ----

  /** The plan in memory is the one of its last PutPlan. */
  ghost predicate Settled(s: Store, id: string) {
    var puts := PutsOf(s.puts, id);
    id in s.plans && puts != [] && puts[|puts| - 1].plan == s.plans[id]
  }

  /** A run's plan is the one its id names, carries the machine's state, and is validated
      wherever it is confirmed or executed. The version log is in order, and task ids are
      unique. */
  ghost predicate Sound(h: Head) {
    && Logged(h.store) && AllUnique(h.store)
    && (h.ctx.plan.Some? ==>
          h.ctx.plan.value == h.ctx.planID && h.ctx.planID != "" && h.ctx.planID in h.store.plans
          && h.store.plans[h.ctx.planID].state == h.state && Settled(h.store, h.ctx.planID))
    && (h.state in {PlanState.Confirmed, PlanState.Doing, PlanState.Rejected, PlanState.Done} ==> h.ctx.plan.Some?)
    && (h.state in {PlanState.Confirmed, PlanState.Doing} ==> ValidPlan(h.store, h.ctx.planID))
    && (h.state in {PlanState.Intent, PlanState.Init} ==> h.ctx.plan.None?)
    && h.state != PlanState.Failed
  }

  lemma StoreStateIs(s: Store, id: string, state: PlanState, saved: bool)
    requires Logged(s) && AllUnique(s) && id in s.plans
    ensures var t := StoreState(s, Some(id), state, saved);
            && Logged(t) && AllUnique(t) && Settled(t, id) && id in t.plans
            && t.plans[id].state == state && t.plans[id].subTasks == s.plans[id].subTasks
  {
    hide LogOf, UniqueIDs;
    PlanOwnsID(s, id);
    PlanIsUnique(s, id);
    var p := s.plans[id].(state := state);
    PutKeepsLog(s, p, saved);
    PutKeepsUnique(s, p, saved);
    hide Logged, AllUnique, PutsOf;
    PutsGrow(s, p, saved, id);
  }

  /** A settled plan can be executed. */
  lemma SoundPlanBegins(h: Head)
    requires Logged(h.store) && Settled(h.store, h.ctx.planID)
    ensures Begun(h.ctx.planID, RunOf(h)) && h.store.plans[h.ctx.planID].id == h.ctx.planID
  {
    hide PutsOf;
    assert LogOf(h.store, h.ctx.planID);
  }

  /** What a call of the executor leaves in the store. */
  lemma ExecutorLeaves(cfg: Config, h: Head, v: Visit)
    requires Logged(h.store) && AllUnique(h.store) && Settled(h.store, h.ctx.planID) && Executed(cfg, h, v)
    ensures var d := RunStore(cfg, h.ctx.planID, RunOf(h), v.log, v.effects);
            && Logged(d.store) && AllUnique(d.store) && h.ctx.planID in d.store.plans
            && Statuses(d.store.plans[h.ctx.planID].subTasks) == Run(EntryStatuses(h), v.log).status
            && SameShape(d.store.plans[h.ctx.planID].subTasks, PlanTasks(h))
  {
    hide Logged, AllUnique, IsTrace, Run, Fits, RunStore, SameShape, Settled, Begun;
    SoundPlanBegins(h);
    BegunIs(h.ctx.planID, RunOf(h));
    FitsLength(cfg, h, v);
    RunKeepsLog(cfg, h.ctx.planID, RunOf(h), v.log, v.effects);
    RunKeepsUnique(cfg, h.ctx.planID, RunOf(h), v.log, v.effects);
    StoreFollows(cfg, h.ctx.planID, RunOf(h), v.log, v.effects);
  }

  lemma FitsLength(cfg: Config, h: Head, v: Visit)
    requires Executed(cfg, h, v)
    ensures |v.effects| == |v.log|
  {
  }

  /** Facts about the store a state leaves behind and the state it names next. */
  ghost predicate GoodExec(h: Head, x: Exec) {
    && Logged(x.store) && AllUnique(x.store)
    && (x.ctx.plan.Some? ==> x.ctx.plan.value == x.ctx.planID && x.ctx.planID != "" && x.ctx.planID in x.store.plans)
    && (!x.err ==>
          && (x.next in {PlanState.Confirmed, PlanState.Doing, PlanState.Rejected, PlanState.Done} ==> x.ctx.plan.Some?)
          && (x.next in {PlanState.Confirmed, PlanState.Doing} ==> ValidPlan(x.store, x.ctx.planID))
          && (x.next in {PlanState.Intent, PlanState.Init} ==> x.ctx.plan.None?)
          && x.next != PlanState.Failed)
  }

  lemma ExecIsGood(cfg: Config, h: Head, v: Visit)
    requires Sound(h) && VisitAllowed(cfg, h, v)
    ensures GoodExec(h, ExecuteState(cfg, h, v))
  {
    hide WellFormed, Logged, AllUnique, RunStore, ApplyCalls, AllFresh, Executed, Run, Settled, SameShape, LastAnswered, Unanswered;
    CallsKeepLog(h.store, v.lost + v.calls);
    CallsKeepUnique(h.store, v.lost + v.calls);
    if h.ctx.planID in h.store.plans { CallsKeepPlans(h.store, v.lost + v.calls, h.ctx.planID); }
    if h.state == PlanState.Doing {
      FitsLength(cfg, h, v);
      ExecutorLeaves(cfg, h, v);
    } else if h.state == PlanState.Confirmed {
      ConfirmedVisit(h.store, v.lost + v.calls, h.ctx.planID);
      SomeAnswer(v.lost + v.calls, h.ctx.planID);
    }
  }

  lemma GoodExecIsSound(h: Head, x: Exec, saved: bool)
    requires GoodExec(h, x) && !x.err
    ensures Sound(Head(x.next, x.ctx, StoreState(x.store, x.ctx.plan, x.next, saved)))
  {
    hide WellFormed, Logged, AllUnique, Settled;
    if x.ctx.plan.Some? {
      StoreStateIs(x.store, x.ctx.planID, x.next, saved);
    }
  }

  /** One cycle leads from a sound loop head to a sound one. */
  lemma CycleKeepsSound(cfg: Config, h: Head, v: Visit)
    requires Sound(h) && VisitAllowed(cfg, h, v) && Cycle(cfg, h, v).Continue?
    ensures Sound(Cycle(cfg, h, v).head)
  {
    ExecIsGood(cfg, h, v);
    hide Sound, GoodExec, ExecuteState, VisitAllowed;
    GoodExecIsSound(h, ExecuteState(cfg, h, v), v.saved);
  }

  lemma FirstHeadIsSound(cfg: Config, store0: Store)
    requires Logged(store0) && AllUnique(store0)
    ensures Sound(Head(InitialState(cfg), Context(None, "", 0), store0))
  {
  }

  /** So every loop head of every run is sound: in particular a plan's stored state equals
      the machine's, the version log is in order, and the failed state is never entered. */
  lemma {:induction false} RunsAreSound(cfg: Config, store0: Store, heads: seq<Head>, visits: seq<Visit>, n: nat)
    requires IsRun(cfg, store0, heads, visits) && Logged(store0) && AllUnique(store0) && n < |heads|
    ensures Sound(heads[n])
  {
    hide Sound, Cycle, VisitAllowed, Logged, AllUnique;
    if n == 0 {
      FirstHeadIsSound(cfg, store0);
    } else {
      RunsAreSound(cfg, store0, heads, visits, n - 1);
      CycleOfRun(cfg, store0, heads, visits, n - 1);
      CycleKeepsSound(cfg, heads[n - 1], visits[n - 1]);
    }
  }

  lemma RunStarts(cfg: Config, store0: Store)
    ensures IsRun(cfg, store0, [Head(InitialState(cfg), Context(None, "", 0), store0)], [])
  {
  }

  lemma RunExtends(cfg: Config, store0: Store, heads: seq<Head>, visits: seq<Visit>, v: Visit, next: Head)
    requires IsRun(cfg, store0, heads, visits) && |heads| == |visits| + 1
    requires VisitAllowed(cfg, heads[|visits|], v) && Cycle(cfg, heads[|visits|], v) == Continue(next)
    ensures IsRun(cfg, store0, heads + [next], visits + [v])
  {
    hide VisitAllowed, Cycle;
  }

  lemma RunLength(cfg: Config, store0: Store, heads: seq<Head>, visits: seq<Visit>)
    requires IsRun(cfg, store0, heads, visits)
    ensures |heads| == |visits| + 1
  {
  }

  lemma CycleOfRun(cfg: Config, store0: Store, heads: seq<Head>, visits: seq<Visit>, n: nat)
    requires IsRun(cfg, store0, heads, visits) && n < |visits|
    ensures |heads| == |visits| + 1
    ensures VisitAllowed(cfg, heads[n], visits[n]) && Cycle(cfg, heads[n], visits[n]) == Continue(heads[n + 1])
  {
  }

  /** Execution is entered only from Confirmed, in a visit whose last confirm_plan for this
      very plan says "doing", and with a plan that passes validation. */
  lemma DoingIsEnteredFromConfirmed(cfg: Config, store0: Store, heads: seq<Head>, visits: seq<Visit>, n: nat)
    requires IsRun(cfg, store0, heads, visits) && Logged(store0) && AllUnique(store0)
    requires 0 < n < |heads| && heads[n].state == PlanState.Doing
    ensures heads[n - 1].state == PlanState.Confirmed
    ensures var calls, id := visits[n - 1].lost + visits[n - 1].calls, heads[n].ctx.planID;
            exists i :: 0 <= i < |calls| && calls[i].ConfirmPlan? && calls[i].planID == id && calls[i].status == "doing"
                        && forall j :: i < j < |calls| ==> !Answers(calls[j], id)
    ensures heads[n].ctx.plan == Some(heads[n].ctx.planID) && ValidPlan(heads[n].store, heads[n].ctx.planID)
  {
    RunsAreSound(cfg, store0, heads, visits, n);
    RunsAreSound(cfg, store0, heads, visits, n - 1);
    CycleOfRun(cfg, store0, heads, visits, n - 1);
    hide Logged, AllUnique, Cycle, VisitAllowed, WellFormed, Settled;
    DoingOnlyFromConfirmed(cfg, heads[n - 1], visits[n - 1]);
  }

  lemma DoingOnlyFromConfirmed(cfg: Config, h: Head, v: Visit)
    requires Sound(h) && VisitAllowed(cfg, h, v) && Cycle(cfg, h, v).Continue?
    requires Cycle(cfg, h, v).head.state == PlanState.Doing
    ensures h.state == PlanState.Confirmed && Cycle(cfg, h, v).head.ctx == h.ctx
    ensures LastAnswered(v.lost + v.calls, h.ctx.planID, "doing")
  {
    hide ValidPlan, Logged, AllUnique, RunStore, ApplyCalls, AllFresh, StoreState, Executed, Run, Settled, LastAnswered, Unanswered;
    if h.state == PlanState.Confirmed {
      ConfirmedVisit(h.store, v.lost + v.calls, h.ctx.planID);
      SomeAnswer(v.lost + v.calls, h.ctx.planID);
    }
  }

  // ---- Which state leads where ----

  /** In Confirmed the last answer decides: "doing" leads to Doing, "rejected" to Rejected,
      "update" to Updating, and without an answer the machine asks again. */
  lemma ConfirmedLeadsTo(cfg: Config, h: Head, v: Visit)
    requires Sound(h) && h.state == PlanState.Confirmed && VisitAllowed(cfg, h, v) && !v.fails && v.saved
    ensures var calls, c := v.lost + v.calls, Cycle(cfg, h, v);
            && c.Continue? && c.head.ctx == h.ctx
            && (c.head.state == PlanState.Doing <==> LastAnswered(calls, h.ctx.planID, "doing"))
            && (c.head.state == PlanState.Rejected <==> LastAnswered(calls, h.ctx.planID, "rejected"))
            && (c.head.state == PlanState.Updating <==> LastAnswered(calls, h.ctx.planID, "update"))
            && (c.head.state == PlanState.Confirmed <==> Unanswered(calls, h.ctx.planID))
  {
    hide ValidPlan, Logged, AllUnique, RunStore, ApplyCalls, AllFresh, StoreState, Executed, Run, Settled, LastAnswered, Unanswered;
    ConfirmedVisit(h.store, v.lost + v.calls, h.ctx.planID);
    SomeAnswer(v.lost + v.calls, h.ctx.planID);
  }

  predicate Creates(c: Call) {
    c.PlanCreate? && c.saved
  }

  /** The first successful plan_create made this plan. */
  ghost predicate FirstCreated(calls: seq<Call>, id: string) {
    exists i :: 0 <= i < |calls| && calls[i].PlanCreate? && calls[i].saved && calls[i].freshID == id
                && forall j :: 0 <= j < i ==> !Creates(calls[j])
  }

  ghost predicate CreatesNone(calls: seq<Call>) {
    forall i :: 0 <= i < |calls| ==> !Creates(calls[i])
  }

  lemma {:induction false} CreatedIsFirst(calls: seq<Call>)
    ensures CreatesNone(calls) ==> CreatedID(calls) == ""
    ensures !CreatesNone(calls) ==> FirstCreated(calls, CreatedID(calls))
    ensures forall id :: FirstCreated(calls, id) ==> id == CreatedID(calls) && !CreatesNone(calls)
  {
    if calls != [] {
      CreatedIsFirst(calls[1..]);
      assert forall i :: 1 <= i < |calls| ==> calls[i] == calls[1..][i - 1];
      if !Creates(calls[0]) {
        assert CreatesNone(calls) <==> CreatesNone(calls[1..]);
        forall id ensures FirstCreated(calls, id) <==> FirstCreated(calls[1..], id) {
          if FirstCreated(calls[1..], id) {
            var i :| 0 <= i < |calls[1..]| && calls[1..][i].PlanCreate? && calls[1..][i].saved && calls[1..][i].freshID == id
                     && forall j :: 0 <= j < i ==> !Creates(calls[1..][j]);
            assert calls[i + 1] == calls[1..][i];
          }
        }
      }
    }
  }

  /** A plan created in a visit is there at its end, under a name that is not empty. */
  lemma {:induction false} CreatedStays(s: Store, calls: seq<Call>, i: nat)
    requires AllFresh(s, calls) && i < |calls| && calls[i].PlanCreate?
    ensures calls[i].freshID != "" && calls[i].freshID in ApplyCalls(s, calls).plans
  {
    hide ApplyCall;
    var n := |calls| - 1;
    if i == n {
      assert Fresh(ApplyCalls(s, calls[..n]), calls[n]);
      CreateStores(ApplyCalls(s, calls[..n]), calls[n].freshID, calls[n].name, calls[n].saved);
    } else {
      FreshFront(s, calls);
      CreatedStays(s, calls[..n], i);
      hide AllFresh;
      CallKeepsPlan(ApplyCalls(s, calls[..n]), calls[n], calls[i].freshID);
    }
  }

  /** The calls of a visit to Init made this plan first, and it validates at the end. */
  ghost predicate CreatesValid(s: Store, v: Visit, id: string) {
    FirstCreated(v.calls, id) && ValidPlan(ApplyCalls(s, v.lost + v.calls), id)
  }

  lemma InitLeadsTo(cfg: Config, h: Head, v: Visit)
    requires Sound(h) && h.state == Init && VisitAllowed(cfg, h, v) && Cycle(cfg, h, v).Continue?
    ensures var t := Cycle(cfg, h, v).head;
            && (CreatesNone(v.calls) ==> t.state == Direct)
            && (forall id :: FirstCreated(v.calls, id) ==>
                  t.ctx.planID == id && t.state == if CreatesValid(h.store, v, id) then Confirmed else Updating)
  {
    hide ValidPlan, Logged, AllUnique, RunStore, ApplyCalls, AllFresh, StoreState, Executed, Run, Settled, CreatesNone;
    CreatedIsFirst(v.calls);
    forall id | FirstCreated(v.calls, id) ensures id != "" && id in ApplyCalls(h.store, v.lost + v.calls).plans {
      var i :| 0 <= i < |v.calls| && v.calls[i].PlanCreate? && v.calls[i].freshID == id;
      CreatedStays(h.store, v.lost + v.calls, |v.lost| + i);
    }
  }

  lemma UpdatingLeadsTo(cfg: Config, h: Head, v: Visit)
    requires Sound(h) && h.state == Updating && VisitAllowed(cfg, h, v) && Cycle(cfg, h, v).Continue?
    ensures var t := Cycle(cfg, h, v).head;
            && t.ctx.planID == h.ctx.planID
            && t.state == if h.ctx.planID != "" && ValidPlan(ApplyCalls(h.store, v.lost + v.calls), h.ctx.planID) then Confirmed
                          else Direct
  {
    hide ValidPlan, Logged, AllUnique, RunStore, ApplyCalls, AllFresh, StoreState, Executed, Run, Settled;
  }

  lemma IntentLeadsTo(cfg: Config, h: Head, v: Visit)
    requires h.state == Intent && Cycle(cfg, h, v).Continue?
    ensures Cycle(cfg, h, v).head.state == if v.workMode == "plan" then Init else Direct
  {
    hide ApplyCalls, StoreState;
  }

  /** The visit to Updating leaves a plan that validates. */
  ghost predicate Mended(h: Head, v: Visit) {
    h.ctx.planID != "" && ValidPlan(ApplyCalls(h.store, v.lost + v.calls), h.ctx.planID)
  }

  /** How every state of a run is entered: exactly when the machine goes on to which. Intent
      and Failed are never entered. */
  ghost predicate EnteredRightly(h: Head, v: Visit, t: Head) {
    var calls := v.lost + v.calls;
    var failed := Run(EntryStatuses(h), v.log).hasFailed;
    && (t.state == Init <==> h.state == Intent && v.workMode == "plan")
    && (t.state == Direct <==>
          || (h.state == Intent && v.workMode != "plan")
          || (h.state == Init && CreatesNone(v.calls))
          || (h.state == Updating && !Mended(h, v)))
    && (t.state == Confirmed <==>
          || (h.state == Init && exists id :: CreatesValid(h.store, v, id))
          || (h.state == Updating && Mended(h, v))
          || (h.state == Confirmed && Unanswered(calls, h.ctx.planID)))
    && (t.state == PlanState.Doing <==> h.state == Confirmed && LastAnswered(calls, h.ctx.planID, "doing"))
    && (t.state == Rejected <==> h.state == Confirmed && LastAnswered(calls, h.ctx.planID, "rejected"))
    && (t.state == Updating <==>
          || (h.state == Confirmed && LastAnswered(calls, h.ctx.planID, "update"))
          || (h.state == Init && exists id :: FirstCreated(v.calls, id) && !CreatesValid(h.store, v, id))
          || (h.state == PlanState.Doing && failed))
    && (t.state == PlanState.Done <==> h.state == PlanState.Doing && !failed)
    && t.state != Intent && t.state != PlanState.Failed
  }

  lemma CycleEnters(cfg: Config, h: Head, v: Visit)
    requires Sound(h) && VisitAllowed(cfg, h, v) && Cycle(cfg, h, v).Continue?
    ensures EnteredRightly(h, v, Cycle(cfg, h, v).head)
  {
    if IsTerminal(h.state) { TerminalDoesNotContinue(cfg, h, v); }
    SoundIsNotFailed(h);
    hide Cycle, VisitAllowed, Sound, EnteredRightly;
    match h.state {
      case Intent => IntentLeadsTo(cfg, h, v); OthersEnter(h, v, Cycle(cfg, h, v).head);
      case Init => InitEnters(cfg, h, v);
      case Confirmed => ConfirmedEnters(cfg, h, v);
      case Updating => UpdatingLeadsTo(cfg, h, v); OthersEnter(h, v, Cycle(cfg, h, v).head);
      case Doing => DoingCycle(cfg, h, v); OthersEnter(h, v, Cycle(cfg, h, v).head);
      case _ =>
    }
  }

  lemma InitEnters(cfg: Config, h: Head, v: Visit)
    requires Sound(h) && h.state == Init && VisitAllowed(cfg, h, v) && Cycle(cfg, h, v).Continue?
    ensures EnteredRightly(h, v, Cycle(cfg, h, v).head)
  {
    CreatedIsFirst(v.calls);
    hide Cycle, VisitAllowed, LastAnswered, Unanswered, FirstCreated, CreatesNone, ValidPlan, Run, ApplyCalls, Sound, Mended;
    InitLeadsTo(cfg, h, v);
  }

  lemma ConfirmedEnters(cfg: Config, h: Head, v: Visit)
    requires Sound(h) && h.state == Confirmed && VisitAllowed(cfg, h, v) && Cycle(cfg, h, v).Continue?
    ensures EnteredRightly(h, v, Cycle(cfg, h, v).head)
  {
    CycleWent(cfg, h, v);
    SoundIsNotFailed(h);
    hide *;
    ConfirmedLeadsTo(cfg, h, v);
    SomeAnswer(v.lost + v.calls, h.ctx.planID);
    AnswerEnters(h, v, Cycle(cfg, h, v).head);
  }

  lemma AnswerEnters(h: Head, v: Visit, t: Head)
    requires h.state == Confirmed
    requires var calls := v.lost + v.calls;
             && (t.state == PlanState.Doing <==> LastAnswered(calls, h.ctx.planID, "doing"))
             && (t.state == PlanState.Rejected <==> LastAnswered(calls, h.ctx.planID, "rejected"))
             && (t.state == PlanState.Updating <==> LastAnswered(calls, h.ctx.planID, "update"))
             && (t.state == PlanState.Confirmed <==> Unanswered(calls, h.ctx.planID))
             && t.state in {PlanState.Doing, PlanState.Rejected, PlanState.Updating, PlanState.Confirmed}
    ensures EnteredRightly(h, v, t)
  {
    hide LastAnswered, Unanswered, FirstCreated, CreatesNone, CreatesValid, Mended, Run;
  }

  lemma OthersEnter(h: Head, v: Visit, t: Head)
    requires h.state == Intent || h.state == Updating || h.state == PlanState.Doing
    requires h.state == Intent ==> t.state == if v.workMode == "plan" then Init else Direct
    requires h.state == Updating ==>
               t.state == if h.ctx.planID != "" && ValidPlan(ApplyCalls(h.store, v.lost + v.calls), h.ctx.planID) then Confirmed
                          else Direct
    requires h.state == PlanState.Doing ==>
               t.state == if Run(EntryStatuses(h), v.log).hasFailed then Updating else PlanState.Done
    ensures EnteredRightly(h, v, t)
  {
    hide LastAnswered, Unanswered, FirstCreated, CreatesNone, CreatesValid, ValidPlan, Run, ApplyCalls;
  }

  lemma SoundIsNotFailed(h: Head)
    requires Sound(h)
    ensures h.state != PlanState.Failed && (h.state == Confirmed ==> h.ctx.plan.Some?)
  {
  }

  /** A cycle that goes on had no error, and stored the plan if there is one. */
  lemma CycleWent(cfg: Config, h: Head, v: Visit)
    requires Cycle(cfg, h, v).Continue?
    ensures h.state == Confirmed ==> !v.fails && (h.ctx.plan.Some? ==> v.saved)
  {
    hide ApplyCalls, StoreState, RunStore, Run, Executed;
  }

  /** In every run, a state is entered only as that table says, and the first is the one the
      configuration forces, or Intent. */
  lemma HowStatesAreEntered(cfg: Config, store0: Store, heads: seq<Head>, visits: seq<Visit>, n: nat)
    requires IsRun(cfg, store0, heads, visits) && Logged(store0) && AllUnique(store0) && n < |heads|
    ensures n == 0 ==>
              && (heads[0].state == Init <==> cfg.forceMode == "plan")
              && (heads[0].state == Direct <==> cfg.forceMode == "simple")
              && heads[0].state in {Init, Direct, Intent}
    ensures n > 0 ==> EnteredRightly(heads[n - 1], visits[n - 1], heads[n])
  {
    hide EnteredRightly, Sound, Cycle, VisitAllowed, Logged, AllUnique;
    if n > 0 {
      RunsAreSound(cfg, store0, heads, visits, n - 1);
      CycleOfRun(cfg, store0, heads, visits, n - 1);
      CycleEnters(cfg, heads[n - 1], visits[n - 1]);
    }
  }

  /** How a run ends: with an error when the action fails, which it cannot where the model
      is not asked; when the plan cannot be stored; and otherwise only by executing a
      terminal state. After a failed action the plan keeps the machine's state. */
  lemma StopIs(cfg: Config, h: Head, v: Visit)
    requires Sound(h) && VisitAllowed(cfg, h, v)
    ensures var c, asks := Cycle(cfg, h, v), h.state != PlanState.Doing && h.state != Rejected;
            && (c.Stop? && c.result == ActionFailed <==> v.fails && asks)
            && (c.Stop? && c.result == Succeeded <==>
                  && !(v.fails && asks) && (h.ctx.plan.Some? ==> v.saved)
                  && (h.state == Direct || h.state == PlanState.Done || h.state == Rejected))
            && (c.Stop? ==> c.result != MaxCyclesExceeded)
            && (c.Stop? && c.result == ActionFailed && h.ctx.plan.Some? ==>
                  h.ctx.planID in c.store.plans && c.store.plans[h.ctx.planID].state == h.state)
  {
    ExecIsGood(cfg, h, v);
    ActionFailsIff(cfg, h, v);
    if !ExecuteState(cfg, h, v).err { TerminalExecution(cfg, h, v); }
    hide ExecuteState, VisitAllowed, Logged, AllUnique, ValidPlan, Settled, StoreState;
    var x := ExecuteState(cfg, h, v);
    if x.ctx.plan.Some? { StoreStateIs(x.store, x.ctx.planID, h.state, v.saved); }
  }

  lemma ActionFailsIff(cfg: Config, h: Head, v: Visit)
    requires VisitAllowed(cfg, h, v)
    ensures ExecuteState(cfg, h, v).err <==> v.fails && h.state != PlanState.Doing && h.state != Rejected
    ensures ExecuteState(cfg, h, v).err ==> ExecuteState(cfg, h, v).ctx == h.ctx
  {
    hide ApplyCalls, Executed, Run, RunStore, AllFresh, ValidPlan;
  }

  lemma TerminalExecution(cfg: Config, h: Head, v: Visit)
    requires Sound(h) && VisitAllowed(cfg, h, v) && !ExecuteState(cfg, h, v).err
    ensures var x := ExecuteState(cfg, h, v);
            && (IsTerminal(x.next) && x.next == h.state <==> h.state == Direct || h.state == PlanState.Done || h.state == Rejected)
            && (h.state == Direct || h.state == PlanState.Done || h.state == Rejected ==> x.ctx == h.ctx)
  {
    hide ApplyCalls, Executed, Run, RunStore, AllFresh, ValidPlan, Logged, AllUnique, Settled;
  }

  // ---- What the offered tools can change ----

  /** The model talks in these states and can change no plan. */
  predicate OnlyTalks(state: PlanState) {
    state == Intent || state == Direct || state == PlanState.Done || state == PlanState.Failed || state == Rejected
  }

  /** What the tools offered in a state leave of a plan: outside Confirmed its state, in Init
      the tasks it has, in Doing their ids and parents, and where the model only talks all. */
  ghost predicate Leaves(state: PlanState, before: Plan, after: Plan) {
    && (state != Confirmed ==> after.state == before.state)
    && (state == Init || state == Confirmed ==> before.subTasks <= after.subTasks)
    && (state == PlanState.Doing ==> SameShape(after.subTasks, before.subTasks))
    && (OnlyTalks(state) ==> after == before)
  }

  lemma CallLeaves(s: Store, c: Call, state: PlanState, id: string)
    requires Logged(s) && Fresh(s, c) && Offered(state, c) && id in s.plans
    ensures id in ApplyCall(s, c).plans && Leaves(state, s.plans[id], ApplyCall(s, c).plans[id])
  {
    hide Put, LogOf, FindTaskIdx, RemoveFirst;
    if c.PlanCreate? {
      CreateStores(s, c.freshID, c.name, c.saved);
    } else if c.ConfirmPlan? {
      ConfirmStores(s, c.planID, c.status, c.reason, c.saved);
      hide ApplyCall, Logged;
    } else if c.TaskInsert? {
      InsertStores(s, c.planID, c.task, c.saved);
      hide ApplyCall, Logged;
    } else if c.TaskDelete? {
      var i := DeleteStores(s, c.taskID, c.pick, c.saved);
      hide ApplyCall, Logged, IsFirst, HasTask;
    } else if c.TaskStatusUpdate? {
      StatusUpdateLeaves(s, c, state, id);
    }
  }

  lemma StatusUpdateLeaves(s: Store, c: Call, state: PlanState, id: string)
    requires Logged(s) && c.TaskStatusUpdate? && Offered(state, c) && id in s.plans
    ensures id in ApplyCall(s, c).plans && Leaves(state, s.plans[id], ApplyCall(s, c).plans[id])
  {
    hide ApplyCall, Logged;
    var i := UpdateStores(s, c.taskID, c.pick, c.taskStatus, c.reason, c.saved);
  }

  /** So in every visit only Confirmed touches a plan's state, and states that only talk
      touch nothing. */
  lemma {:induction false} VisitLeaves(s: Store, calls: seq<Call>, state: PlanState, id: string)
    requires Logged(s) && AllFresh(s, calls) && id in s.plans
    requires forall i :: 0 <= i < |calls| ==> Offered(state, calls[i])
    ensures id in ApplyCalls(s, calls).plans && Leaves(state, s.plans[id], ApplyCalls(s, calls).plans[id])
  {
    hide Logged, Fresh, ApplyCall, Offered;
    if calls != [] {
      var n := |calls| - 1;
      FreshFront(s, calls);
      VisitLeaves(s, calls[..n], state, id);
      CallsKeepLog(s, calls[..n]);
      CallLeaves(ApplyCalls(s, calls[..n]), calls[n], state, id);
    }
  }

  /** A rollback during execution makes the executor report a failure, so the machine goes
      on to Updating. */
  lemma DriftLeadsToUpdating(cfg: Config, h: Head, v: Visit)
    requires Sound(h) && h.state == PlanState.Doing && VisitAllowed(cfg, h, v)
    requires SomeRollback(v.log)
    ensures Run(EntryStatuses(h), v.log).hasFailed
    ensures var c := Cycle(cfg, h, v); c.Continue? ==> c.head.state == Updating
    ensures var c := Cycle(cfg, h, v); c.Stop? ==> c.result == PersistFailed
  {
    hide Sound, RunStore, Run, IsTrace, SomeRollback;
    FitsLength(cfg, h, v);
    RollbackIsReported(PlanTasks(h), EntryStatuses(h), v.log);
  }

  lemma TerminalDoesNotContinue(cfg: Config, h: Head, v: Visit)
    requires IsTerminal(h.state)
    ensures !Cycle(cfg, h, v).Continue?
  {
    hide ApplyCalls;
  }

  /** A terminal state has no successor, so it is executed once and last. */
  lemma TerminalStatesComeLast(cfg: Config, store0: Store, heads: seq<Head>, visits: seq<Visit>, n: nat)
    requires IsRun(cfg, store0, heads, visits) && n < |heads| && IsTerminal(heads[n].state)
    ensures n == |heads| - 1
  {
    if n < |visits| {
      assert Cycle(cfg, heads[n], visits[n]) == Continue(heads[n + 1]);
      TerminalDoesNotContinue(cfg, heads[n], visits[n]);
    }
  }

  /** A run succeeds only by executing a terminal state. */
  lemma SuccessIsTerminal(cfg: Config, h: Head, v: Visit)
    requires Cycle(cfg, h, v).Stop? && Cycle(cfg, h, v).result == Succeeded
    ensures IsTerminal(h.state) && !ExecuteState(cfg, h, v).err
  {
    hide Executed, RunStore, Run, ApplyCalls;
  }

  // ---- What Done means ----

  /** Every task of the run's plan has a status. */
  ghost predicate AllHave(h: Head, allowed: set<TaskStatus>) {
    forall t :: t in PlanTasks(h) ==> t.status in allowed
  }

  lemma AllHaveByStatus(h: Head, allowed: set<TaskStatus>)
    ensures AllHave(h, allowed) <==> forall i :: 0 <= i < |EntryStatuses(h)| ==> EntryStatuses(h)[i] in allowed
  {
    forall i | 0 <= i < |PlanTasks(h)| ensures PlanTasks(h)[i] in PlanTasks(h) && EntryStatuses(h)[i] == PlanTasks(h)[i].status {}
  }

  /** Done is entered only from Doing, and then every task of the plan is done exactly when
      execution began with every task pending or done and no goroutine gave up on a
      cancelled context. */
  lemma DoneMeansAllDoneIff(cfg: Config, store0: Store, heads: seq<Head>, visits: seq<Visit>, n: nat)
    requires IsRun(cfg, store0, heads, visits) && Logged(store0) && AllUnique(store0)
    requires 0 < n < |heads| && heads[n].state == PlanState.Done
    ensures heads[n - 1].state == PlanState.Doing
    ensures AllHave(heads[n], {TaskStatus.Done}) <==>
              AllHave(heads[n - 1], {TaskStatus.Pending, TaskStatus.Done}) && !Gives(visits[n - 1].log)
  {
    hide *;
    RunLength(cfg, store0, heads, visits);
    RunsAreSound(cfg, store0, heads, visits, n - 1);
    CycleOfRun(cfg, store0, heads, visits, n - 1);
    DoneOnlyFromDoing(cfg, heads[n - 1], visits[n - 1]);
    DoneHead(cfg, heads[n - 1], visits[n - 1]);
  }

  lemma DoneOnlyFromDoing(cfg: Config, h: Head, v: Visit)
    requires Sound(h) && VisitAllowed(cfg, h, v) && Cycle(cfg, h, v).Continue?
    requires Cycle(cfg, h, v).head.state == PlanState.Done
    ensures h.state == PlanState.Doing && Executed(cfg, h, v) && !Run(EntryStatuses(h), v.log).hasFailed
  {
    hide ValidPlan, Logged, AllUnique, RunStore, ApplyCalls, AllFresh, StoreState, Executed, Run, Settled, LastAnswered, Unanswered;
    if h.state == PlanState.Confirmed {
      ConfirmedVisit(h.store, v.lost + v.calls, h.ctx.planID);
      SomeAnswer(v.lost + v.calls, h.ctx.planID);
    }
  }

  lemma DoneHead(cfg: Config, h: Head, v: Visit)
    requires Sound(h) && h.state == PlanState.Doing && VisitAllowed(cfg, h, v) && Cycle(cfg, h, v).Continue?
    requires !Run(EntryStatuses(h), v.log).hasFailed
    ensures var t := Cycle(cfg, h, v).head;
            AllHave(t, {TaskStatus.Done}) <==> AllHave(h, {TaskStatus.Pending, TaskStatus.Done}) && !Gives(v.log)
  {
    hide Logged, AllUnique, IsTrace, Run, RunStore, ApplyCalls, AllFresh, Settled, WellFormed, UniqueIDs, Fits, StoreState, AllHave, Gives;
    var t := Cycle(cfg, h, v).head;
    ExecutorLeaves(cfg, h, v);
    DoingCycle(cfg, h, v);
    PlanIsUnique(h.store, h.ctx.planID);
    UnfailedCallCompletesIff(PlanTasks(h), EntryStatuses(h), v.log);
    AllHaveByStatus(t, {TaskStatus.Done});
    AllHaveByStatus(h, {TaskStatus.Pending, TaskStatus.Done});
  }

  /** Where nobody cancels and every worker succeeds, executing a plan of pending and done
      tasks leads to Done with every task done. */
  lemma SmoothExecutionIsDone(cfg: Config, h: Head, v: Visit, script: Script)
    requires Sound(h) && h.state == PlanState.Doing && VisitAllowed(cfg, h, v) && v.saved
    requires Plays(script, v.log, v.effects) && Smooth(script, |PlanTasks(h)|)
    requires AllHave(h, {TaskStatus.Pending, TaskStatus.Done})
    ensures var c := Cycle(cfg, h, v);
            c.Continue? && c.head.state == PlanState.Done && AllHave(c.head, {TaskStatus.Done})
  {
    SmoothVisitIsClean(cfg, h, v, script);
    hide *;
    DoingGoesOn(cfg, h, v);
    DoneHead(cfg, h, v);
    DoingCycle(cfg, h, v);
  }

  lemma SmoothVisitIsClean(cfg: Config, h: Head, v: Visit, script: Script)
    requires Sound(h) && h.state == PlanState.Doing && VisitAllowed(cfg, h, v)
    requires Plays(script, v.log, v.effects) && Smooth(script, |PlanTasks(h)|)
    ensures !Gives(v.log) && !Run(EntryStatuses(h), v.log).hasFailed
  {
    hide Logged, AllUnique, IsTrace, Run, RunStore, ApplyCalls, AllFresh, Settled, WellFormed, UniqueIDs, Fits, Plays, Smooth;
    SmoothIsUntroubled(PlanTasks(h), EntryStatuses(h), script, v.log, v.effects);
    UntroubledIsClean(PlanTasks(h), EntryStatuses(h), v.log);
    HasFailedIff(PlanTasks(h), EntryStatuses(h), v.log);
  }

  lemma DoingGoesOn(cfg: Config, h: Head, v: Visit)
    requires h.state == PlanState.Doing && VisitAllowed(cfg, h, v) && v.saved
    ensures Cycle(cfg, h, v).Continue?
  {
    hide Executed, Run, RunStore, StoreState, AllFresh, ApplyCalls;
  }

  /** What a visit to Doing leaves at the next loop head. */
  lemma DoingCycle(cfg: Config, h: Head, v: Visit)
    requires Sound(h) && h.state == PlanState.Doing && VisitAllowed(cfg, h, v) && Cycle(cfg, h, v).Continue?
    ensures var t := Cycle(cfg, h, v).head;
            && EntryStatuses(t) == Run(EntryStatuses(h), v.log).status && SameShape(PlanTasks(t), PlanTasks(h))
            && t.state == (if Run(EntryStatuses(h), v.log).hasFailed then Updating else PlanState.Done)
            && t.ctx.plan == h.ctx.plan && t.ctx.planID == h.ctx.planID
  {
    hide Logged, AllUnique, IsTrace, Run, RunStore, ApplyCalls, AllFresh, Settled, WellFormed, Fits, StoreState, SameShape;
    FitsLength(cfg, h, v);
    ExecutorLeaves(cfg, h, v);
    var d := RunStore(cfg, h.ctx.planID, RunOf(h), v.log, v.effects);
    var next := if Run(EntryStatuses(h), v.log).hasFailed then Updating else PlanState.Done;
    assert ExecuteState(cfg, h, v) == Exec(next, false, h.ctx.(taskFails := d.taskFails), d.store);
    StoreStateIs(d.store, h.ctx.planID, next, v.saved);
    assert Cycle(cfg, h, v).head.store == StoreState(d.store, Some(h.ctx.planID), next, v.saved);
    assert PlanTasks(Cycle(cfg, h, v).head) == d.store.plans[h.ctx.planID].subTasks;
  }
}
