/** Referential integrity and row consistency of every reachable database: references resolve, the plan of a run is that of
    its scenario, the class of a finish agrees with its result, and a counter never exceeds its lifetime total. */
module Integrity {
  import opened Wrappers
  import opened Text
  import opened Classify
  import opened Cause
  import opened Tables
  import opened RunLifecycle
  import opened Steps
  import opened Ledger
  import Autonomy

  // ── the invariants ─────────────────────────────────────────────────────

  predicate ScenariosOk(db: Db) {
    && (forall s :: s in db.scenarios ==> db.scenarios[s].planId in db.plans)
    && (forall c :: c in db.codes ==>
          db.codes[c] in db.scenarios && db.scenarios[db.codes[c]].planId == c.0 && db.scenarios[db.codes[c]].code == c.1)
  }

  predicate RoundsOk(db: Db) {
    forall r :: r in db.rounds ==> db.rounds[r].planId in db.plans
  }

  predicate TasksOk(db: Db) {
    forall t :: t in db.tasks ==> db.tasks[t].roundId in db.rounds && db.tasks[t].planId == db.rounds[db.tasks[t].roundId].planId
  }

  /** A structured finish carries a class that agrees with its result; a legacy finish carries nothing to prove a pass. */
  predicate FinishOk(f: Finish) {
    match f.class_
    case None => !f.outcome.Passed() && f.signature.None? && f.identity.None?
    case Some(c) =>
      && (f.result.Success? ==> c.NoFailure? && f.outcome.Passed())
      && (f.result.Failure? ==> c.IsFailure())
      && (f.result.Aborted? ==> c.NoFailure?)
      && (c.IsFailure() <==> f.signature.Some?)
      && (f.identity.Some? ==> c.IsFailure())
  }

  predicate RunOk(db: Db, r: Run) {
    && (r.scenarioId.Some? ==> r.scenarioId.value in db.scenarios
                               && r.planId == Some(db.scenarios[r.scenarioId.value].planId))
    && (r.finish.Some? ==> FinishOk(r.finish.value))
  }

  predicate RunsOk(db: Db) {
    forall r :: r in db.runs ==> RunOk(db, db.runs[r])
  }

  predicate BudgetOk(db: Db, k: Key) {
    && k in db.budgets && k.scenario in db.scenarios && k.plan == db.scenarios[k.scenario].planId && k.class_.IsFailure()
    && db.budgets[k].count <= db.budgets[k].total && db.budgets[k].total >= 1 && db.budgets[k].firstRun in db.runs
  }

  predicate BudgetsOk(db: Db) {
    forall k :: k in db.budgets ==> BudgetOk(db, k)
  }

  predicate VerdictsOk(db: Db) {
    forall v :: v in db.verdicts ==> v.0 in db.rounds && v.1 in db.scenarios
  }

  predicate Inv(db: Db) {
    ScenariosOk(db) && RoundsOk(db) && TasksOk(db) && RunsOk(db) && BudgetsOk(db) && VerdictsOk(db)
  }

  // ── finishing ──────────────────────────────────────────────────────────

  lemma JudgedOk(q: FinishRequest, outcome: ExecOutcome, classified: FailureClass)
    ensures var j := Judge(q, outcome, classified);
            j.Ok? ==> && (j.value.result.Success? ==> j.value.class_.NoFailure? && outcome.Passed())
                      && (j.value.result.Failure? ==> j.value.class_.IsFailure())
                      && (j.value.result.Aborted? ==> j.value.class_.NoFailure?)
  {
    hide CallerSignature;
  }

  lemma FinishOfOk(db: Db, w: World, r: Run, q: FinishRequest, report: Option<Report>)
    ensures var f := FinishOf(db, w, r, q, report); f.Ok? ==> FinishOk(f.value)
  {
    var classified := Classify.Classify(OutcomeOf(q), ReportOf(r, report).text, w.inRepo).failureClass;
    JudgedOk(q, OutcomeOf(q), classified);
    hide Judge, Classify.Classify, Cause.FailureCause, ManualSignature, IsStructured, BridgeFor;
  }

  // ── one table at a time ────────────────────────────────────────────────

  lemma LedgerReplaced(db: Db, runs: Runs, budgets: Budgets)
    requires Inv(db)
    requires forall r :: r in runs ==> RunOk(db, runs[r])
    requires forall k :: k in budgets ==> BudgetOk(db.(runs := runs, budgets := budgets), k)
    ensures Inv(db.(runs := runs, budgets := budgets))
  {
    hide ScenariosOk, RoundsOk, TasksOk, VerdictsOk, FinishOk;
    var next := db.(runs := runs, budgets := budgets);
    SameBoard(db, runs, budgets);
    forall r | r in next.runs ensures RunOk(next, next.runs[r]) { assert RunOk(db, runs[r]); }
  }

  lemma SameBoard(db: Db, runs: Runs, budgets: Budgets)
    requires ScenariosOk(db) && RoundsOk(db) && TasksOk(db) && VerdictsOk(db)
    ensures var next := db.(runs := runs, budgets := budgets);
            ScenariosOk(next) && RoundsOk(next) && TasksOk(next) && VerdictsOk(next)
  {
  }

  lemma BoardReplaced(db: Db, tasks: Tasks, verdicts: Verdicts, rounds: Rounds)
    requires Inv(db)
    requires var next := db.(tasks := tasks, verdicts := verdicts, rounds := rounds);
             TasksOk(next) && VerdictsOk(next) && RoundsOk(next)
    ensures Inv(db.(tasks := tasks, verdicts := verdicts, rounds := rounds))
  {
    hide TasksOk, VerdictsOk, RoundsOk, FinishOk, RunsOk, BudgetsOk;
    SameLedger(db, tasks, verdicts, rounds);
  }

  lemma SameLedger(db: Db, tasks: Tasks, verdicts: Verdicts, rounds: Rounds)
    requires RunsOk(db) && BudgetsOk(db)
    ensures var next := db.(tasks := tasks, verdicts := verdicts, rounds := rounds); RunsOk(next) && BudgetsOk(next)
  {
    hide FinishOk;
    var next := db.(tasks := tasks, verdicts := verdicts, rounds := rounds);
    forall r | r in next.runs ensures RunOk(next, next.runs[r]) { assert RunOk(db, db.runs[r]); }
    forall k | k in next.budgets ensures BudgetOk(next, k) { assert BudgetOk(db, k); }
  }

  // ── run requests ───────────────────────────────────────────────────────

  lemma StartRowOk(db: Db, w: World, q: StartRequest, cwdPlan: Option<string>, owner: Option<string>, round: Option<string>)
    ensures var r := StartRow(db, w, q, cwdPlan, owner, round); r.Ok? ==> RunOk(db, r.value) && r.value.finish.None?
  {
    hide StartScope, StartFingerprint, FinishOk;
  }

  lemma StartKeeps(db: Db, w: World, q: StartRequest, cwdPlan: Option<string>, id: string, owner: Option<string>, round: Option<string>)
    requires Inv(db)
    ensures var n := StartRun(db, w, q, cwdPlan, id, owner, round); n.Ok? ==> Inv(db.(runs := n.value))
  {
    StartRowOk(db, w, q, cwdPlan, owner, round);
    var row := StartRow(db, w, q, cwdPlan, owner, round);
    hide StartRow, RunOk;
    if row.Ok? && id !in db.runs {
      var runs := db.runs[id := row.value];
      forall k | k in db.budgets ensures BudgetOk(db.(runs := runs, budgets := db.budgets), k) { assert BudgetOk(db, k); }
      LedgerReplaced(db, runs, db.budgets);
    }
  }

  lemma ChargedOk(db: Db, runs: Runs, id: string, r: Run, f: Finish)
    requires BudgetsOk(db) && RunOk(db, r)
    requires id in runs && forall x :: x in db.runs ==> x in runs
    ensures var budgets := Charged(db.budgets, DebitKey(r, f), id);
            forall k :: k in budgets ==> BudgetOk(db.(runs := runs, budgets := budgets), k)
  {
    hide FinishOk;
    var key := DebitKey(r, f);
    var budgets := Charged(db.budgets, key, id);
    forall k | k in budgets ensures BudgetOk(db.(runs := runs, budgets := budgets), k) {
      if k in db.budgets { assert BudgetOk(db, k); }
    }
  }

  lemma TerminatedKeeps(db: Db, id: string, f: Finish)
    requires Inv(db) && id in db.runs && db.runs[id].finish.None? && FinishOk(f)
    ensures var n := Terminated(db, id, db.runs[id], f); n.Ok? ==> Inv(db.(runs := n.value.0, budgets := n.value.1))
  {
    var r := db.runs[id];
    assert RunOk(db, r);
    var runs := db.runs[id := r.(finish := Some(f))];
    assert RunOk(db, r.(finish := Some(f)));
    ChargedOk(db, runs, id, r, f);
    hide Charged, DebitKey, RunOk, BudgetOk;
    LedgerReplaced(db, runs, Charged(db.budgets, DebitKey(r, f), id));
  }

  lemma FinishKeeps(db: Db, w: World, id: string, q: FinishRequest, report: Option<Report>)
    requires Inv(db)
    ensures var n := FinishRun(db, w, id, q, report); n.Ok? ==> Inv(db.(runs := n.value.0, budgets := n.value.1))
  {
    if id in db.runs && db.runs[id].finish.None? {
      FinishOfOk(db, w, db.runs[id], q, report);
      var f := FinishOf(db, w, db.runs[id], q, report);
      hide FinishOf, Terminated, Inv, FinishOk;
      if f.Ok? { TerminatedKeeps(db, id, f.value); }
    }
  }

  lemma ReleasedKeeps(db: Db, plan: string, scenario: string, signature: Option<string>, decision: string)
    requires Inv(db)
    ensures Inv(db.(budgets := ReleasedBudgets(db, plan, scenario, signature, decision)))
  {
    var budgets := ReleasedBudgets(db, plan, scenario, signature, decision);
    forall k | k in budgets ensures BudgetOk(db.(runs := db.runs, budgets := budgets), k) { assert BudgetOk(db, k); }
    hide RunOk, BudgetOk, ReleasedBudgets;
    LedgerReplaced(db, db.runs, budgets);
  }

  lemma ReleaseKeeps(db: Db, ref: string, plan: Option<string>, cwdPlan: Option<string>, signature: Option<string>, decision: string)
    requires Inv(db)
    ensures var n := ReleaseBudget(db, ref, plan, cwdPlan, signature, decision); n.Ok? ==> Inv(db.(budgets := n.value))
  {
    hide ResolveScenario, ReleasedBudgets, Inv;
    var s := ResolveScenario(db, ref, plan, cwdPlan);
    if s.Ok? && s.value in db.scenarios { ReleasedKeeps(db, db.scenarios[s.value].planId, s.value, signature, decision); }
  }

  lemma RunOpsKeep(db: Db, w: World, op: Op)
    requires Inv(db) && IsRunOp(op)
    ensures Inv(AnswerRun(db, w, op).db)
  {
    hide Inv, StartRun, FinishRun, ReleaseBudget;
    match op
    case Start(q, cwdPlan, id, owner, round) => StartKeeps(db, w, q, cwdPlan, id, owner, round);
    case Finish(id, q, report) => FinishKeeps(db, w, id, q, report);
    case Release(ref, plan, cwdPlan, signature, decision) => ReleaseKeeps(db, ref, plan, cwdPlan, signature, decision);
  }

  // ── task requests ──────────────────────────────────────────────────────

  lemma PutTaskKeeps(db: Db, id: string, t: Task)
    requires Inv(db) && t.roundId in db.rounds && t.planId == db.rounds[t.roundId].planId
    ensures Inv(db.(tasks := db.tasks[id := t]))
  {
    hide RunsOk, BudgetsOk;
    var tasks := db.tasks[id := t];
    assert TasksOk(db.(tasks := tasks, verdicts := db.verdicts, rounds := db.rounds));
    BoardReplaced(db, tasks, db.verdicts, db.rounds);
  }

  lemma CreatesKeep(db: Db, id: string, round: string, parents: seq<string>)
    requires Inv(db)
    ensures var n := CreateTask(db, id, round, parents); n.Ok? ==> Inv(db.(tasks := n.value))
    ensures var n := CreateChore(db, id, round); n.Ok? ==> Inv(db.(tasks := n.value))
  {
    hide Inv;
    if round in db.rounds {
      PutTaskKeeps(db, id, Task(round, db.rounds[round].planId, parents, Todo, None));
      PutTaskKeeps(db, id, Task(round, db.rounds[round].planId, [], InProgress, None));
    }
  }

  lemma OldTaskOk(db: Db, id: string)
    requires Inv(db) && id in db.tasks
    ensures db.tasks[id].roundId in db.rounds && db.tasks[id].planId == db.rounds[db.tasks[id].roundId].planId
  {
  }

  lemma MovesKeep(db: Db, id: string, target: TaskStatus, note: Option<string>)
    requires Inv(db)
    ensures var n := SetTaskStatus(db, id, target); n.Ok? ==> Inv(db.(tasks := n.value))
    ensures var n := FinishChore(db, id, note); n.Ok? ==> Inv(db.(tasks := n.value))
  {
    hide Inv, Unavailable;
    if id in db.tasks {
      OldTaskOk(db, id);
      var t := db.tasks[id];
      var summary := if note.Some? && Trim(note.value) != "" then note.value else "chore completed";
      PutTaskKeeps(db, id, t.(status := target));
      PutTaskKeeps(db, id, t.(status := Done, evidence := Some(Evidence([], Some(summary), map[]))));
    }
  }

  /** Resolved references are parents of the task and scenarios of its plan. */
  lemma ResolvedOk(db: Db, t: Task, entries: seq<Entry>)
    requires ScenariosOk(db) && Resolved(db, t, entries).Some?
    ensures var r := Resolved(db, t, entries).value;
            forall i :: 0 <= i < |r| ==>
              && r[i].scenario in t.parents && r[i].scenario in db.scenarios
              && db.scenarios[r[i].scenario].planId == t.planId
  {
    ResolvedPointwise(db, t, entries);
    hide Resolved;
  }

  lemma CompleteKeeps(db: Db, w: World, id: string, e: Evidence)
    requires Inv(db)
    ensures var n := CompleteTask(db, w, id, e); n.Ok? ==> Inv(db.(tasks := n.value.0, verdicts := n.value.1))
  {
    if id in db.tasks {
      var t := db.tasks[id];
      OldTaskOk(db, id);
      var entries := Resolved(db, t, e.entries);
      if entries.Some? {
        ResolvedOk(db, t, e.entries);
        var tasks := db.tasks[id := t.(status := Done, evidence := Some(e.(entries := entries.value)))];
        var verdicts := Recorded(db.verdicts, t.roundId, entries.value);
        forall v | v in verdicts
          ensures v in db.verdicts || (v.0 == t.roundId && exists i :: 0 <= i < |entries.value| && entries.value[i].scenario == v.1)
        {
          RecordedExactly(db.verdicts, t.roundId, entries.value, v);
        }
        hide Resolved, FirstRefused, Recorded, EvidenceError, ScenariosOk, RunsOk, BudgetsOk;
        assert TasksOk(db.(tasks := tasks, verdicts := verdicts, rounds := db.rounds));
        assert VerdictsOk(db.(tasks := tasks, verdicts := verdicts, rounds := db.rounds));
        hide TasksOk, VerdictsOk;
        BoardReplaced(db, tasks, verdicts, db.rounds);
      }
    }
  }

  lemma TaskOpsKeep(db: Db, w: World, op: Op)
    requires Inv(db) && IsTaskOp(op)
    ensures Inv(AnswerTask(db, w, op).db)
  {
    hide Inv, CreateTask, CreateChore, SetTaskStatus, CompleteTask, FinishChore;
    match op
    case NewTask(id, round, parents) => CreatesKeep(db, id, round, parents);
    case NewChore(id, round) => CreatesKeep(db, id, round, []);
    case MoveTask(id, target) => MovesKeep(db, id, target, None);
    case EndTask(id, e) => CompleteKeeps(db, w, id, e);
    case EndChore(id, note) => MovesKeep(db, id, Todo, note);
  }

  // ── round requests ─────────────────────────────────────────────────────

  lemma PutRoundKeeps(db: Db, id: string, r: Round)
    requires Inv(db) && r.planId in db.plans && (id in db.rounds ==> r.planId == db.rounds[id].planId)
    ensures Inv(db.(rounds := db.rounds[id := r]))
  {
    hide RunsOk, BudgetsOk, ScenariosOk;
    var rounds := db.rounds[id := r];
    var next := db.(tasks := db.tasks, verdicts := db.verdicts, rounds := rounds);
    assert TasksOk(next) && RoundsOk(next) && VerdictsOk(next);
    BoardReplaced(db, db.tasks, db.verdicts, rounds);
  }

  lemma OldRoundOk(db: Db, id: string)
    requires Inv(db) && id in db.rounds
    ensures db.rounds[id].planId in db.plans
  {
  }

  lemma NewRoundsKeep(db: Db, op: Op)
    requires Inv(db)
    ensures op.NewRound? ==> var n := CreateRound(db, op.id, op.plan, op.code, op.number, op.mode, op.policy);
                             n.Ok? ==> Inv(db.(rounds := n.value))
    ensures op.NewChoreRound? ==> var n := CreateChoreRound(db, op.id, op.plan); n.Ok? ==> Inv(db.(rounds := n.value))
  {
    hide Inv, CodeTaken, NumberTaken;
    match op
    case NewRound(id, plan, code, number, mode, policy) =>
      if plan in db.plans && id !in db.rounds { PutRoundKeeps(db, id, Round(plan, code, number, mode, policy, Planning, false)); }
    case NewChoreRound(id, plan) =>
      if plan in db.plans && id !in db.rounds { PutRoundKeeps(db, id, Round(plan, CHORE_ROUND, 1, ForwardOnly, Pause, Active, false)); }
    case _ =>
  }

  lemma OldRoundsKeep(db: Db, id: string, decision: string)
    requires Inv(db)
    ensures var n := RebaseRound(db, id, decision); n.Ok? ==> Inv(db.(rounds := n.value))
    ensures var n := CompleteRound(db, id); n.Ok? ==> Inv(db.(rounds := n.value))
  {
    hide Inv, BlocksCompletion;
    if id in db.rounds {
      OldRoundOk(db, id);
      PutRoundKeeps(db, id, db.rounds[id].(baselined := true));
      PutRoundKeeps(db, id, db.rounds[id].(status := Completed));
    }
  }

  lemma PostKeeps(db: Db, w: World, round: string, scenario: string, verdict: Verdict, evidence: Option<string>)
    requires Inv(db)
    ensures var n := PostVerdict(db, w, round, scenario, verdict, evidence); n.Ok? ==> Inv(db.(verdicts := n.value))
  {
    hide VerdictError;
    if round in db.rounds && scenario in db.scenarios {
      var verdicts := db.verdicts[(round, scenario) := VerdictRow(verdict, evidence)];
      assert VerdictsOk(db.(tasks := db.tasks, verdicts := verdicts, rounds := db.rounds));
      hide ScenariosOk, RunsOk, BudgetsOk, VerdictsOk;
      BoardReplaced(db, db.tasks, verdicts, db.rounds);
    }
  }

  lemma CarriedKeys(db: Db, w: World, id: string, r: Round, prev: Option<string>)
    ensures forall v :: v in ActivatedVerdicts(db, w, id, r, prev) ==> v in db.verdicts || (v.0 == id && v.1 in db.scenarios)
  {
    hide Carried;
  }

  lemma ActivatedBoardOk(db: Db, w: World, id: string, prev: Option<string>)
    requires Inv(db) && ActivationError(db, id).None?
    ensures var r := db.rounds[id];
            var next := db.(tasks := Interrupted(db, r.planId, r.policy), verdicts := ActivatedVerdicts(db, w, id, r, prev),
                            rounds := ActivatedRounds(db, id));
            RoundsOk(next) && TasksOk(next) && VerdictsOk(next)
  {
    CarriedKeys(db, w, id, db.rounds[id], prev);
    hide ActivatedVerdicts, IsBlockedByActive, ScenariosOk, RunsOk, BudgetsOk;
  }

  lemma ActivationKeeps(db: Db, w: World, id: string, prev: Option<string>)
    requires Inv(db)
    ensures Inv(ActivateRound(db, w, id, prev).db)
  {
    if ActivationError(db, id).None? {
      var r := db.rounds[id];
      ActivatedBoardOk(db, w, id, prev);
      hide Inv, ActivatedVerdicts, ActivatedRounds, Interrupted, RoundsOk, TasksOk, VerdictsOk, LateActivationError;
      BoardReplaced(db, Interrupted(db, r.planId, r.policy), ActivatedVerdicts(db, w, id, r, prev), ActivatedRounds(db, id));
    }
  }

  lemma RoundOpsKeep(db: Db, w: World, op: Op)
    requires Inv(db) && IsRoundOp(op)
    ensures Inv(AnswerRound(db, w, op).db)
  {
    hide Inv, CreateRound, CreateChoreRound, RebaseRound, CompleteRound, PostVerdict, ActivateRound;
    match op
    case NewRound(_, _, _, _, _, _) => NewRoundsKeep(db, op);
    case NewChoreRound(_, _) => NewRoundsKeep(db, op);
    case Rebase(id, decision) => OldRoundsKeep(db, id, decision);
    case EndRound(id) => OldRoundsKeep(db, id, "");
    case Activate(id, prev) => ActivationKeeps(db, w, id, prev);
    case Post(round, scenario, verdict, ref) => PostKeeps(db, w, round, scenario, verdict, ref);
  }

  // ── other requests ─────────────────────────────────────────────────────

  lemma CatalogReplaced(db: Db, next: Db)
    requires Inv(db) && Grows(db, next) && SameWork(db, next) && ScenariosOk(next)
    ensures Inv(next)
  {
    hide ScenariosOk, FinishOk, RoundsGrow, TasksGrow, RunsGrow, BudgetsGrow;
    forall r | r in next.runs ensures RunOk(next, next.runs[r]) { assert RunOk(db, db.runs[r]); }
    forall k | k in next.budgets ensures BudgetOk(next, k) { assert BudgetOk(db, k); }
  }

  lemma CatalogScenariosOk(db: Db, op: Op)
    requires ScenariosOk(db) && IsAdminOp(op)
    ensures ScenariosOk(AnswerAdmin(db, op).db)
  {
    hide Autonomy.Apply;
  }

  lemma AdminOpsKeep(db: Db, w: World, op: Op)
    requires Inv(db) && IsAdminOp(op)
    ensures Inv(AnswerAdmin(db, op).db)
  {
    assert ScenariosOk(db);
    CatalogScenariosOk(db, op);
    AdminFrame(db, w, op);
    AnswerGrows(db, w, op);
    hide Inv, ScenariosOk, Grows, SameWork, AnswerAdmin, AnswerRun, AnswerTask, AnswerRound;
    CatalogReplaced(db, AnswerAdmin(db, op).db);
  }

  /** Every request keeps referential integrity and the consistency of rows. */
  lemma StepKeeps(db: Db, w: World, op: Op)
    requires Inv(db)
    ensures Inv(Apply(db, w, op))
  {
    OneKind(op);
    hide Inv, IsRunOp, IsTaskOp, IsRoundOp, IsAdminOp, AnswerRun, AnswerTask, AnswerRound, AnswerAdmin, LookupsOk;
    if IsRunOp(op) { RunOpsKeep(db, w, op); }
    else if IsTaskOp(op) { TaskOpsKeep(db, w, op); }
    else if IsRoundOp(op) { RoundOpsKeep(db, w, op); }
    else { AdminOpsKeep(db, w, op); }
  }

  lemma {:induction false} ReachableIsOk(events: seq<Event>)
    ensures Inv(After(EMPTY, events))
  {
    if events != [] {
      ReachableIsOk(events[..|events| - 1]);
      hide Inv, Apply;
      var e := events[|events| - 1];
      StepKeeps(After(EMPTY, events[..|events| - 1]), e.world, e.op);
    }
  }
}
