/** The plan store, its version log, and the plan tools as operations on it. */
module PlanStore {
  import opened Options
  import opened PlanModel

  datatype PlanState = Intent | Init | Direct | Confirmed | Rejected | Doing | Updating | Done | Failed

  datatype Plan = Plan(id: string, name: string, subTasks: seq<Task>, active: seq<string>,
                       state: PlanState, finishedReason: string, version: nat)

  /** One PutPlan: the plan as stored, and whether it reached the disk. */
  datatype PutRecord = PutRecord(plan: Plan, saved: bool)

  /** Memory, disk, and the history of PutPlan calls. */
  datatype Store = Store(plans: map<string, Plan>, checkpoints: map<(string, nat), Plan>, puts: seq<PutRecord>)

  const EMPTY := Store(map[], map[], [])

  /** A tool call the model can make on plans. saved says whether persisting succeeds;
      pick is the plan that FindTask's map iteration meets first. */
  datatype Call =
    | PlanCreate(freshID: string, name: string, saved: bool)
    | ConfirmPlan(planID: string, status: string, reason: string, saved: bool)
    | TaskInsert(planID: string, task: Task, saved: bool)
    | TaskDelete(taskID: string, pick: string, saved: bool)
    | TaskStatusUpdate(taskID: string, pick: string, taskStatus: TaskStatus, reason: string, saved: bool)
    | PlanRollback(planID: string, target: int, saved: bool)
    | NoPlanEffect  // queries, other tools, and calls whose arguments are refused

  /** saveCheckpoint: bumps the version, stores the plan in memory and, when the disk
      cooperates, its snapshot under the new version. */
  function Put(s: Store, p: Plan, saved: bool): Store {
    var q := p.(version := p.version + 1);
    Store(s.plans[q.id := q],
          if saved then s.checkpoints[(q.id, q.version) := q] else s.checkpoints,
          s.puts + [PutRecord(q, saved)])
  }

  function RemoveFirst(items: seq<string>, item: string): seq<string> {
    if items == [] then []
    else if items[0] == item then items[1..]
    else [items[0]] + RemoveFirst(items[1..], item)
  }

  function ParseStatus(status: string): Option<PlanState> {
    if status == "doing" then Some(PlanState.Doing)
    else if status == "rejected" then Some(Rejected)
    else if status == "update" then Some(Updating)
    else None
  }

  /** Everything a rollback restores; the id and the version stay. */
  function Restored(p: Plan, from: Plan): Plan {
    p.(name := from.name, subTasks := from.subTasks, active := from.active,
       state := from.state, finishedReason := from.finishedReason)
  }

  /** The plan a call modifies, as it is handed to PutPlan; None when the call is refused. */
  function Edited(s: Store, c: Call): Option<Plan> {
    match c
    case NoPlanEffect => None
    case PlanCreate(id, name, _) => Some(Plan(id, name, [], [], Init, "", 0))
    case ConfirmPlan(id, status, reason, _) =>
      if id !in s.plans || ParseStatus(status).None? then None
      else
        var p := s.plans[id].(state := ParseStatus(status).value);
        Some(if reason != "" then p.(finishedReason := reason) else p)
    case TaskInsert(id, task, _) =>
      if id !in s.plans then None
      else
        var t := task.(status := Pending, finishedReason := "");
        Some(s.plans[id].(subTasks := s.plans[id].subTasks + [t]))
    case TaskDelete(taskID, pick, _) =>
      if pick !in s.plans || FindTaskIdx(s.plans[pick].subTasks, taskID) == -1 then None
      else
        var p := s.plans[pick];
        var i := FindTaskIdx(p.subTasks, taskID);
        Some(p.(subTasks := p.subTasks[..i] + p.subTasks[i + 1..], active := RemoveFirst(p.active, taskID)))
    case TaskStatusUpdate(taskID, pick, status, reason, _) =>
      if pick !in s.plans || FindTaskIdx(s.plans[pick].subTasks, taskID) == -1 then None
      else
        var p := s.plans[pick];
        var i := FindTaskIdx(p.subTasks, taskID);
        var t := p.subTasks[i].(status := status);
        Some(p.(subTasks := p.subTasks[i := if reason != "" then t.(finishedReason := reason) else t]))
    case PlanRollback(id, version, _) =>
      if id !in s.plans || version < 1 || version >= s.plans[id].version || (id, version) !in s.checkpoints then None
      else Some(Restored(s.plans[id], s.checkpoints[(id, version)]))
  }

  function Saved(c: Call): bool {
    match c
    case NoPlanEffect => true
    case PlanCreate(_, _, saved) => saved
    case ConfirmPlan(_, _, _, saved) => saved
    case TaskInsert(_, _, saved) => saved
    case TaskDelete(_, _, saved) => saved
    case TaskStatusUpdate(_, _, _, _, saved) => saved
    case PlanRollback(_, _, saved) => saved
  }

  function ApplyCall(s: Store, c: Call): Store {
    var p := Edited(s, c);
    if p.None? then s else Put(s, p.value, Saved(c))
  }

  /** Generated ids are new: a plan's in the store, a task's in its plan. */
  predicate Fresh(s: Store, c: Call) {
    && (c.PlanCreate? ==> c.freshID != "" && c.freshID !in s.plans)
    && (c.TaskInsert? && c.planID in s.plans ==> FindTaskIdx(s.plans[c.planID].subTasks, c.task.id) == -1)
  }

  /** The machine's drift handling: takes over the checkpoint before the current version,
      without a new version and without a checkpoint of its own. */
  function DriftPlan(s: Store, id: string, reason: string): Option<Plan> {
    if id !in s.plans || s.plans[id].version <= 1 || (id, s.plans[id].version - 1) !in s.checkpoints then None
    else
      var p := s.plans[id];
      Some(Restored(p, s.checkpoints[(id, p.version - 1)]).(state := Updating, finishedReason := "drift: " + reason))
  }

  function Drift(s: Store, id: string, reason: string): Store {
    var p := DriftPlan(s, id, reason);
    if p.None? then s else s.(plans := s.plans[id := p.value])
  }

  // ---- The version log ----

  function PutsOf(puts: seq<PutRecord>, id: string): seq<PutRecord> {
    if puts == [] then []
    else
      var last := puts[|puts| - 1];
      PutsOf(puts[..|puts| - 1], id) + if last.plan.id == id then [last] else []
  }

  /** Version counts the PutPlan calls of a plan, and checkpoint v is the plan as of the
      v-th one, present exactly when that one reached the disk. */
  ghost predicate LogOf(s: Store, id: string) {
    var puts := PutsOf(s.puts, id);
    && |puts| == (if id in s.plans then s.plans[id].version else 0)
    && (id in s.plans ==> s.plans[id].id == id)
    && (forall i :: 0 <= i < |puts| ==> puts[i].plan.version == i + 1 && puts[i].plan.id == id)
    && (forall v: nat :: (id, v) in s.checkpoints <==> 1 <= v <= |puts| && puts[v - 1].saved)
    && (forall v: nat :: (id, v) in s.checkpoints ==> s.checkpoints[(id, v)] == puts[v - 1].plan)
  }

  ghost predicate Logged(s: Store) {
    forall id :: LogOf(s, id)
  }

  ghost predicate Extends(s: Store, t: Store) {
    && s.puts <= t.puts
    && (forall k :: k in s.checkpoints ==> k in t.checkpoints && t.checkpoints[k] == s.checkpoints[k])
  }

  lemma PutKeepsLog(s: Store, p: Plan, saved: bool)
    requires Logged(s) && p.version == if p.id in s.plans then s.plans[p.id].version else 0
    ensures Logged(Put(s, p, saved)) && Extends(s, Put(s, p, saved))
  {
    hide LogOf;
    forall id ensures LogOf(Put(s, p, saved), id) {
      assert LogOf(s, id);
      if id == p.id { PutLogsItself(s, p, saved); } else { PutLeavesOthers(s, p, saved, id); }
    }
    assert LogOf(s, p.id);
    NextVersionIsNew(s, p);
  }

  lemma NextVersionIsNew(s: Store, p: Plan)
    requires LogOf(s, p.id) && p.version == if p.id in s.plans then s.plans[p.id].version else 0
    ensures (p.id, p.version + 1) !in s.checkpoints
  {
  }

  lemma PutsGrow(s: Store, p: Plan, saved: bool, id: string)
    ensures PutsOf(Put(s, p, saved).puts, id) ==
              PutsOf(s.puts, id) + if id == p.id then [PutRecord(p.(version := p.version + 1), saved)] else []
  {
    assert Put(s, p, saved).puts[..|s.puts|] == s.puts;
  }

  lemma PutLogsItself(s: Store, p: Plan, saved: bool)
    requires LogOf(s, p.id) && p.version == if p.id in s.plans then s.plans[p.id].version else 0
    ensures LogOf(Put(s, p, saved), p.id)
  {
    hide PutsOf;
    PutsGrow(s, p, saved, p.id);
  }

  lemma PutLeavesOthers(s: Store, p: Plan, saved: bool, id: string)
    requires LogOf(s, id) && id != p.id
    ensures LogOf(Put(s, p, saved), id)
  {
    hide PutsOf;
    PutsGrow(s, p, saved, id);
  }

  lemma EditKeepsIdentity(s: Store, c: Call)
    requires Logged(s) && Fresh(s, c) && Edited(s, c).Some?
    ensures var p := Edited(s, c).value;
            p.version == if p.id in s.plans then s.plans[p.id].version else 0
  {
    match c
    case NoPlanEffect =>
    case PlanCreate(id, _, _) => assert LogOf(s, id);
    case ConfirmPlan(id, _, _, _) => assert LogOf(s, id);
    case TaskInsert(id, _, _) => assert LogOf(s, id);
    case TaskDelete(_, pick, _) => assert LogOf(s, pick);
    case TaskStatusUpdate(_, pick, _, _, _) => assert LogOf(s, pick);
    case PlanRollback(id, _, _) => assert LogOf(s, id);
  }

  /** Every plan tool keeps the log, and no checkpoint written before ever changes. */
  lemma CallKeepsLog(s: Store, c: Call)
    requires Logged(s) && Fresh(s, c)
    ensures Logged(ApplyCall(s, c)) && Extends(s, ApplyCall(s, c))
  {
    hide Logged, Edited, Put;
    if Edited(s, c).Some? {
      EditKeepsIdentity(s, c);
      PutKeepsLog(s, Edited(s, c).value, Saved(c));
    }
  }

  /** A drift rollback adds no version and no checkpoint. */
  lemma DriftKeepsLog(s: Store, id: string, reason: string)
    requires Logged(s)
    ensures Logged(Drift(s, id, reason)) && Extends(s, Drift(s, id, reason))
    ensures Drift(s, id, reason).checkpoints == s.checkpoints
  {
    hide PutsOf;
    var t := Drift(s, id, reason);
    assert LogOf(s, id);
    forall k ensures LogOf(t, k) {
      assert LogOf(s, k);
    }
  }

  function ApplyCalls(s: Store, calls: seq<Call>): Store {
    if calls == [] then s else ApplyCall(ApplyCalls(s, calls[..|calls| - 1]), calls[|calls| - 1])
  }

  ghost predicate AllFresh(s: Store, calls: seq<Call>) {
    forall n :: 0 <= n < |calls| ==> Fresh(ApplyCalls(s, calls[..n]), calls[n])
  }

  lemma {:induction false} CallsKeepLog(s: Store, calls: seq<Call>)
    requires Logged(s) && AllFresh(s, calls)
    ensures Logged(ApplyCalls(s, calls)) && Extends(s, ApplyCalls(s, calls))
  {
    hide Logged, ApplyCall, Fresh;
    if calls != [] {
      var front := calls[..|calls| - 1];
      assert forall n :: 0 <= n < |front| ==> front[..n] == calls[..n];
      CallsKeepLog(s, front);
      CallKeepsLog(ApplyCalls(s, front), calls[|calls| - 1]);
    }
  }

  // ---- Task ids ----

  ghost predicate HasUnique(s: Store, id: string) {
    id in s.plans ==> UniqueIDs(s.plans[id].subTasks)
  }

  ghost predicate SavedUnique(s: Store, k: (string, nat)) {
    k in s.checkpoints ==> UniqueIDs(s.checkpoints[k].subTasks)
  }

  /** No plan, in memory or in a checkpoint, holds two tasks with one id. */
  ghost predicate AllUnique(s: Store) {
    (forall id :: HasUnique(s, id)) && (forall k :: SavedUnique(s, k))
  }

  lemma PutKeepsUnique(s: Store, p: Plan, saved: bool)
    requires AllUnique(s) && UniqueIDs(p.subTasks)
    ensures AllUnique(Put(s, p, saved))
  {
    hide UniqueIDs;
    forall id ensures HasUnique(Put(s, p, saved), id) { assert HasUnique(s, id); }
    forall k ensures SavedUnique(Put(s, p, saved), k) { assert SavedUnique(s, k); }
  }

  lemma EditKeepsUnique(s: Store, c: Call)
    requires AllUnique(s) && Fresh(s, c) && Edited(s, c).Some?
    ensures UniqueIDs(Edited(s, c).value.subTasks)
  {
    match c
    case NoPlanEffect =>
    case PlanCreate(_, _, _) =>
    case ConfirmPlan(id, _, _, _) => assert HasUnique(s, id);
    case TaskInsert(id, _, _) => assert HasUnique(s, id);
    case TaskDelete(_, pick, _) => assert HasUnique(s, pick);
    case TaskStatusUpdate(_, pick, _, _, _) => assert HasUnique(s, pick);
    case PlanRollback(id, v, _) => assert SavedUnique(s, (id, v));
  }

  lemma CallKeepsUnique(s: Store, c: Call)
    requires AllUnique(s) && Fresh(s, c)
    ensures AllUnique(ApplyCall(s, c))
  {
    hide AllUnique, Edited, Put, Fresh, UniqueIDs;
    if Edited(s, c).Some? {
      EditKeepsUnique(s, c);
      PutKeepsUnique(s, Edited(s, c).value, Saved(c));
    }
  }

  lemma {:induction false} CallsKeepUnique(s: Store, calls: seq<Call>)
    requires AllUnique(s) && AllFresh(s, calls)
    ensures AllUnique(ApplyCalls(s, calls))
  {
    hide AllUnique, ApplyCall, Fresh;
    if calls != [] {
      var front := calls[..|calls| - 1];
      assert forall n :: 0 <= n < |front| ==> front[..n] == calls[..n];
      CallsKeepUnique(s, front);
      CallKeepsUnique(ApplyCalls(s, front), calls[|calls| - 1]);
    }
  }

  // ---- Rolling back ----

  /** plan_rollback brings back exactly what the v-th PutPlan stored, as a new version. */
  lemma RollbackRestores(s: Store, id: string, v: nat, saved: bool)
    requires Logged(s) && id in s.plans && 1 <= v < s.plans[id].version && (id, v) in s.checkpoints
    ensures var t := ApplyCall(s, PlanRollback(id, v, saved));
            && id in t.plans && v <= |PutsOf(s.puts, id)|
            && t.plans[id] == PutsOf(s.puts, id)[v - 1].plan.(version := s.plans[id].version + 1)
            && (saved ==> (id, s.plans[id].version + 1) in t.checkpoints
                          && t.checkpoints[(id, s.plans[id].version + 1)] == t.plans[id])
  {
    hide PutsOf;
    assert LogOf(s, id);
    assert PutsOf(s.puts, id)[v - 1].plan.id == id;
  }

  /** Rolling back to the version before a rollback undoes it, when that version holds
      the plan as it was. */
  lemma RollbackIsUndone(s: Store, id: string, v: nat)
    requires Logged(s) && id in s.plans && 1 <= v < s.plans[id].version && (id, v) in s.checkpoints
    requires var n := s.plans[id].version; (id, n) in s.checkpoints && s.checkpoints[(id, n)] == s.plans[id]
    ensures var n := s.plans[id].version;
            var t := ApplyCalls(s, [PlanRollback(id, v, true), PlanRollback(id, n, true)]);
            id in t.plans && t.plans[id] == s.plans[id].(version := n + 2)
  {
    hide Logged, ApplyCall;
    var n := s.plans[id].version;
    var first, second := PlanRollback(id, v, true), PlanRollback(id, n, true);
    PlanOwnsID(s, id);
    RollbackStep(s, id, v);
    var mid := ApplyCall(s, first);
    RollbackStep(mid, id, n);
    assert [first, second][..1] == [first] && [first][..0] == [];
    assert ApplyCalls(s, [first]) == mid;
  }

  lemma PlanOwnsID(s: Store, id: string)
    requires Logged(s) && id in s.plans
    ensures s.plans[id].id == id
  {
    assert LogOf(s, id);
  }

  lemma RollbackStep(s: Store, id: string, v: nat)
    requires id in s.plans && s.plans[id].id == id && 1 <= v < s.plans[id].version && (id, v) in s.checkpoints
    ensures var t, q := ApplyCall(s, PlanRollback(id, v, true)),
                        Restored(s.plans[id], s.checkpoints[(id, v)]).(version := s.plans[id].version + 1);
            t.plans == s.plans[id := q] && t.checkpoints == s.checkpoints[(id, q.version) := q]
  {
  }

  /** A drift rollback brings back what the PutPlan before the last stored, to be updated
      for the reviewer's reason, under the version the plan has. Without a saved PutPlan
      before the last it does nothing. */
  lemma DriftRestores(s: Store, id: string, reason: string)
    requires Logged(s)
    ensures var t, puts := Drift(s, id, reason), PutsOf(s.puts, id);
            if |puts| > 1 && puts[|puts| - 2].saved then
              && DriftPlan(s, id, reason).Some?
              && t == s.(plans := s.plans[id := puts[|puts| - 2].plan.(state := Updating, finishedReason := "drift: " + reason,
                                                                       version := |puts|)])
            else t == s && DriftPlan(s, id, reason).None?
    ensures id in s.plans ==> |PutsOf(s.puts, id)| == s.plans[id].version
  {
    hide PutsOf;
    assert LogOf(s, id);
  }

  // ---- What each call stores ----

  /** The store after one PutPlan of p under a plan's id. */
  ghost predicate Stores(s: Store, t: Store, id: string, p: Plan, saved: bool) {
    && id in t.plans && t.plans[id] == p && t.plans.Keys == s.plans.Keys + {id}
    && (forall other :: other in s.plans && other != id ==> t.plans[other] == s.plans[other])
    && (forall k :: k in t.checkpoints <==> k in s.checkpoints || (saved && k == (id, p.version)))
    && (saved ==> t.checkpoints[(id, p.version)] == p)
    && (forall k :: k in s.checkpoints && k != (id, p.version) ==> t.checkpoints[k] == s.checkpoints[k])
  }

  lemma PutStores(s: Store, p: Plan, saved: bool)
    ensures Stores(s, Put(s, p, saved), p.id, p.(version := p.version + 1), saved)
  {
  }

  /** plan_create stores an empty plan in its first state. */
  lemma CreateStores(s: Store, id: string, name: string, saved: bool)
    ensures Stores(s, ApplyCall(s, PlanCreate(id, name, saved)), id, Plan(id, name, [], [], Init, "", 1), saved)
  {
    PutStores(s, Plan(id, name, [], [], Init, "", 0), saved);
    hide Stores, Put;
  }

  /** confirm_plan stores "doing" as Doing, "rejected" as Rejected and "update" as Updating,
      with a reason if one is given, and nothing for any other text or plan. */
  lemma ConfirmStores(s: Store, id: string, status: string, reason: string, saved: bool)
    requires Logged(s)
    ensures var t := ApplyCall(s, ConfirmPlan(id, status, reason, saved));
            if id in s.plans && status in {"doing", "rejected", "update"} then
              var p := s.plans[id];
              && Stores(s, t, id, p.(state := t.plans[id].state, version := p.version + 1,
                                     finishedReason := if reason == "" then p.finishedReason else reason), saved)
              && (status == "doing" ==> t.plans[id].state == PlanState.Doing)
              && (status == "rejected" ==> t.plans[id].state == PlanState.Rejected)
              && (status == "update" ==> t.plans[id].state == PlanState.Updating)
            else t == s
  {
    var c := ConfirmPlan(id, status, reason, saved);
    if Edited(s, c).Some? {
      assert LogOf(s, id);
      PutStores(s, Edited(s, c).value, saved);
      hide Put, Logged, LogOf;
    }
  }

  /** task_insert puts the task, pending, behind those already there. */
  lemma InsertStores(s: Store, id: string, task: Task, saved: bool)
    requires Logged(s)
    ensures var t := ApplyCall(s, TaskInsert(id, task, saved));
            if id in s.plans then
              var p, entry := s.plans[id], Task(task.id, task.parentTaskID, task.goal, TaskStatus.Pending, "", task.action);
              Stores(s, t, id, p.(subTasks := p.subTasks + [entry], version := p.version + 1), saved)
            else t == s
  {
    var c := TaskInsert(id, task, saved);
    if Edited(s, c).Some? {
      assert LogOf(s, id);
      PutStores(s, Edited(s, c).value, saved);
      hide Put, Logged, LogOf;
    }
  }

  predicate HasTask(s: Store, pick: string, taskID: string) {
    pick in s.plans && exists i :: 0 <= i < |s.plans[pick].subTasks| && s.plans[pick].subTasks[i].id == taskID
  }

  /** task_delete takes the first task with the id out of the plan; the others stay, in
      order. */
  lemma DeleteStores(s: Store, taskID: string, pick: string, saved: bool) returns (i: nat)
    requires Logged(s)
    ensures var t := ApplyCall(s, TaskDelete(taskID, pick, saved));
            if HasTask(s, pick, taskID) then
              var p := s.plans[pick];
              && IsFirst(p.subTasks, i, taskID)
              && Stores(s, t, pick, p.(subTasks := p.subTasks[..i] + p.subTasks[i + 1..],
                                       active := RemoveFirst(p.active, taskID), version := p.version + 1), saved)
            else t == s
  {
    hide Logged, Put, Stores, HasTask, IsFirst, Edited;
    i := DeleteEdits(s, taskID, pick, saved);
    var c := TaskDelete(taskID, pick, saved);
    if HasTask(s, pick, taskID) {
      HoldsPlan(s, pick, taskID);
      PlanOwnsID(s, pick);
      PutStores(s, Edited(s, c).value, saved);
    }
  }

  lemma HoldsPlan(s: Store, pick: string, taskID: string)
    requires HasTask(s, pick, taskID)
    ensures pick in s.plans
  {
  }

  lemma DeleteEdits(s: Store, taskID: string, pick: string, saved: bool) returns (i: nat)
    ensures var e := Edited(s, TaskDelete(taskID, pick, saved));
            if HasTask(s, pick, taskID) then
              var p := s.plans[pick];
              IsFirst(p.subTasks, i, taskID) &&
              e == Some(p.(subTasks := p.subTasks[..i] + p.subTasks[i + 1..], active := RemoveFirst(p.active, taskID)))
            else e == None
  {
    hide RemoveFirst;
    i := 0;
    if pick in s.plans {
      FindsFirst(s.plans[pick].subTasks, taskID);
      if HasTask(s, pick, taskID) { i := FindTaskIdx(s.plans[pick].subTasks, taskID); }
      hide FindTaskIdx;
    }
  }

  /** task_status_update gives the first task with the id its status, and its reason if one
      is given; the rest of it and the other tasks stay. */
  lemma UpdateStores(s: Store, taskID: string, pick: string, status: TaskStatus, reason: string, saved: bool) returns (i: nat)
    requires Logged(s)
    ensures var t := ApplyCall(s, TaskStatusUpdate(taskID, pick, status, reason, saved));
            if HasTask(s, pick, taskID) then
              var p := s.plans[pick];
              && IsFirst(p.subTasks, i, taskID)
              && var entry := p.subTasks[i].(status := status,
                                             finishedReason := if reason == "" then p.subTasks[i].finishedReason else reason);
                 Stores(s, t, pick, p.(subTasks := p.subTasks[i := entry], version := p.version + 1), saved)
            else t == s
  {
    hide Logged, Put, Stores, HasTask, IsFirst, Edited;
    i := UpdateEdits(s, taskID, pick, status, reason, saved);
    var c := TaskStatusUpdate(taskID, pick, status, reason, saved);
    if HasTask(s, pick, taskID) {
      HoldsPlan(s, pick, taskID);
      PlanOwnsID(s, pick);
      PutStores(s, Edited(s, c).value, saved);
    }
  }

  lemma UpdateEdits(s: Store, taskID: string, pick: string, status: TaskStatus, reason: string, saved: bool) returns (i: nat)
    ensures var e := Edited(s, TaskStatusUpdate(taskID, pick, status, reason, saved));
            if HasTask(s, pick, taskID) then
              var p := s.plans[pick];
              && IsFirst(p.subTasks, i, taskID)
              && var entry := p.subTasks[i].(status := status,
                                             finishedReason := if reason == "" then p.subTasks[i].finishedReason else reason);
                 e == Some(p.(subTasks := p.subTasks[i := entry]))
            else e == None
  {
    i := 0;
    if pick in s.plans {
      FindsFirst(s.plans[pick].subTasks, taskID);
      if HasTask(s, pick, taskID) { i := FindTaskIdx(s.plans[pick].subTasks, taskID); }
      hide FindTaskIdx;
    }
  }

  /** The mark removed is the first of its kind; the others stay, in order. */
  lemma {:induction false} RemovesFirst(items: seq<string>, item: string)
    ensures item !in items ==> RemoveFirst(items, item) == items
    ensures forall i: nat :: i < |items| && items[i] == item && item !in items[..i] ==>
              RemoveFirst(items, item) == items[..i] + items[i + 1..]
  {
    forall i: nat | i < |items| && items[i] == item && item !in items[..i]
      ensures RemoveFirst(items, item) == items[..i] + items[i + 1..]
    {
      RemovesAt(items, item, i);
    }
    if item !in items {
      RemovesAt(items, item, |items|);
      assert items[..|items|] + [] == items;
    }
  }

  // ---- The store in memory, updated in place ----

  lemma {:induction false} RemovesAt(items: seq<string>, item: string, i: nat)
    requires i <= |items| && item !in items[..i] && (i < |items| ==> items[i] == item)
    ensures RemoveFirst(items, item) == items[..i] + if i < |items| then items[i + 1..] else []
  {
    if i > 0 {
      assert items[0] in items[..i];
      assert items[1..][..i - 1] == items[..i][1..];
      RemovesAt(items[1..], item, i - 1);
      assert items[..i] == [items[0]] + items[1..][..i - 1];
    }
  }

  method RemoveFromSlice(items: seq<string>, item: string) returns (result: seq<string>)
    ensures result == RemoveFirst(items, item)
  {
    for i := 0 to |items|
      invariant item !in items[..i]
    {
      if items[i] == item {
        RemovesAt(items, item, i);
        return items[..i] + items[i + 1..];
      }
    }
    RemovesAt(items, item, |items|);
    assert items[..|items|] + [] == items;
    return items;
  }

  /** An id not yet taken: the wanted one, or one made from it. */
  method GenerateID(taken: set<string>, wanted: string) returns (id: string)
    ensures id != "" && id !in taken
    ensures wanted != "" && wanted !in taken ==> id == wanted
  {
    id := if wanted == "" then "x" else wanted;
    ghost var seen := {};
    while id in taken
      invariant seen <= taken && id != ""
      invariant forall s :: s in seen ==> |s| < |id|
      invariant wanted != "" && wanted !in taken ==> id == wanted
      decreases |taken| - |seen|
    {
      assert id !in seen;
      StillRoom(taken, seen, id);
      seen := seen + {id};
      id := id + "x";
    }
  }

  lemma StillRoom(taken: set<string>, seen: set<string>, id: string)
    requires seen <= taken && id in taken && id !in seen
    ensures |seen| < |taken|
  {
    var rest := taken - seen;
    assert taken == seen + rest && id in rest;
  }

  class PlanTools {
    var plans: map<string, Plan>
    var checkpoints: map<(string, nat), Plan>
    ghost var puts: seq<PutRecord>

    ghost function Value(): Store
      reads this
    {
      Store(plans, checkpoints, puts)
    }

    constructor ()
      ensures Value() == EMPTY
    {
      plans, checkpoints, puts := map[], map[], [];
    }

    method PutPlan(p: Plan, saved: bool)
      modifies this
      ensures Value() == Put(old(Value()), p, saved)
    {
      var q := p.(version := p.version + 1);
      plans := plans[q.id := q];
      if saved {
        checkpoints := checkpoints[(q.id, q.version) := q];
      }
      puts := puts + [PutRecord(q, saved)];
    }

    method CreatePlan(freshID: string, name: string, saved: bool)
      modifies this
      ensures Value() == ApplyCall(old(Value()), PlanCreate(freshID, name, saved))
    {
      PutPlan(Plan(freshID, name, [], [], Init, "", 0), saved);
    }

    method Confirm(planID: string, status: string, reason: string, saved: bool) returns (ok: bool)
      modifies this
      ensures Value() == ApplyCall(old(Value()), ConfirmPlan(planID, status, reason, saved))
      ensures ok <==> planID in old(plans) && status in {"doing", "rejected", "update"} && saved
      ensures planID !in old(plans) || status !in {"doing", "rejected", "update"} ==> Value() == old(Value())
      ensures planID in old(plans) && old(plans)[planID].id == planID ==>
                && (status == "doing" ==> plans == old(plans)[planID := plans[planID]] && plans[planID].state == PlanState.Doing)
                && (status == "rejected" ==> plans == old(plans)[planID := plans[planID]] && plans[planID].state == PlanState.Rejected)
                && (status == "update" ==> plans == old(plans)[planID := plans[planID]] && plans[planID].state == PlanState.Updating)
    {
      var newState := ParseStatus(status);
      if newState.None? || planID !in plans { return false; }
      var plan := plans[planID];
      plan := plan.(state := newState.value);
      if reason != "" { plan := plan.(finishedReason := reason); }
      PutPlan(plan, saved);
      return saved;
    }

    method Insert(planID: string, task: Task, saved: bool) returns (ok: bool)
      modifies this
      ensures Value() == ApplyCall(old(Value()), TaskInsert(planID, task, saved))
      ensures ok <==> planID in old(plans) && saved
    {
      if planID !in plans { return false; }
      var plan := plans[planID];
      plan := plan.(subTasks := plan.subTasks + [task.(status := Pending, finishedReason := "")]);
      PutPlan(plan, saved);
      return saved;
    }

    /** Some plan holding the task, in whatever order the map is walked. */
    method FindTask(taskID: string) returns (pick: Option<string>, i: int)
      ensures pick.Some? ==> pick.value in plans && i == FindTaskIdx(plans[pick.value].subTasks, taskID) && i != -1
      ensures pick.None? ==> forall p :: p in plans ==> FindTaskIdx(plans[p].subTasks, taskID) == -1
    {
      var todo := plans.Keys;
      while todo != {}
        invariant todo <= plans.Keys
        invariant forall p :: p in plans && p !in todo ==> FindTaskIdx(plans[p].subTasks, taskID) == -1
      {
        var p :| p in todo;
        i := FindIndex(plans[p].subTasks, taskID);
        if i != -1 { return Some(p), i; }
        todo := todo - {p};
      }
      return None, -1;
    }

    method Delete(taskID: string, saved: bool) returns (ghost pick: string, ok: bool)
      modifies this
      ensures Value() == ApplyCall(old(Value()), TaskDelete(taskID, pick, saved))
      ensures (exists p :: p in old(plans) && FindTaskIdx(old(plans)[p].subTasks, taskID) != -1) ==>
                pick in old(plans) && FindTaskIdx(old(plans)[pick].subTasks, taskID) != -1
      ensures !ok && saved ==> forall p :: p in old(plans) ==> FindTaskIdx(old(plans)[p].subTasks, taskID) == -1
    {
      var found, i := FindTask(taskID);
      if found.None? {
        assert forall p :: Edited(Value(), TaskDelete(taskID, p, saved)).None?;
        return "", false;
      }
      var plan := plans[found.value];
      var active := RemoveFromSlice(plan.active, taskID);
      plan := plan.(subTasks := plan.subTasks[..i] + plan.subTasks[i + 1..], active := active);
      PutPlan(plan, saved);
      return found.value, saved;
    }

    method UpdateStatus(taskID: string, status: TaskStatus, reason: string, saved: bool) returns (ghost pick: string, ok: bool)
      modifies this
      ensures Value() == ApplyCall(old(Value()), TaskStatusUpdate(taskID, pick, status, reason, saved))
      ensures (exists p :: p in old(plans) && FindTaskIdx(old(plans)[p].subTasks, taskID) != -1) ==>
                pick in old(plans) && FindTaskIdx(old(plans)[pick].subTasks, taskID) != -1
      ensures !ok && saved ==> forall p :: p in old(plans) ==> FindTaskIdx(old(plans)[p].subTasks, taskID) == -1
    {
      var found, i := FindTask(taskID);
      if found.None? {
        assert forall p :: Edited(Value(), TaskStatusUpdate(taskID, p, status, reason, saved)).None?;
        return "", false;
      }
      var plan := plans[found.value];
      var task := plan.subTasks[i].(status := status);
      if reason != "" { task := task.(finishedReason := reason); }
      plan := plan.(subTasks := plan.subTasks[i := task]);
      PutPlan(plan, saved);
      return found.value, saved;
    }

    method Rollback(planID: string, target: int, saved: bool) returns (ok: bool)
      modifies this
      ensures Value() == ApplyCall(old(Value()), PlanRollback(planID, target, saved))
      ensures ok <==> planID in old(plans) && 1 <= target < old(plans)[planID].version
                      && (planID, target) in old(checkpoints) && saved
    {
      if planID !in plans { return false; }
      var plan := plans[planID];
      if target < 1 || target >= plan.version { return false; }
      if (planID, target) !in checkpoints { return false; }
      var cp := checkpoints[(planID, target)];
      plan := plan.(name := cp.name, subTasks := cp.subTasks);
      plan := plan.(active := cp.active, state := cp.state, finishedReason := cp.finishedReason);
      PutPlan(plan, saved);
      return saved;
    }

    /** Takes the checkpoint before the current version over, without PutPlan. */
    method HandleDrift(planID: string, reason: string) returns (rolledBack: bool)
      modifies this
      ensures Value() == Drift(old(Value()), planID, reason)
      ensures rolledBack <==> DriftPlan(old(Value()), planID, reason).Some?
      ensures rolledBack <==> planID in old(plans) && old(plans)[planID].version > 1
                              && (planID, old(plans)[planID].version - 1) in old(checkpoints)
      ensures checkpoints == old(checkpoints) && (!rolledBack ==> plans == old(plans))
      ensures rolledBack ==>
                var p := old(plans)[planID];
                var before := old(checkpoints)[(planID, p.version - 1)];
                plans == old(plans)[planID := before.(id := p.id, version := p.version, state := Updating,
                                                      finishedReason := "drift: " + reason)]
    {
      if planID !in plans { return false; }
      var plan := plans[planID];
      if plan.version <= 1 { return false; }
      var target := plan.version - 1;
      if (planID, target) !in checkpoints { return false; }
      var cp := checkpoints[(planID, target)];
      plan := plan.(name := cp.name, subTasks := cp.subTasks, active := cp.active);
      plan := plan.(state := Updating, finishedReason := "drift: " + reason);
      plans := plans[planID := plan];
      return true;
    }
  }
}
