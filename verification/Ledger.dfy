/** What every request leaves alone, and how the tables grow over any history: no row disappears, references and identities
    never change, lifetime totals never fall, tasks move along their transition table, and a finished run is frozen. */
module Ledger {
  import opened Wrappers
  import opened Text
  import opened Classify
  import opened Cause
  import opened Tables
  import opened RunLifecycle
  import opened Steps
  import Autonomy

  // ── frames ─────────────────────────────────────────────────────────────

  predicate IsAdminOp(op: Op) {
    !IsRunOp(op) && !IsTaskOp(op) && !IsRoundOp(op)
  }

  /** Which tables a request can change. */
  predicate Spares(op: Op, a: Db, b: Db) {
    if IsRunOp(op) then
      if op.Start? then b == a.(runs := b.runs)
      else if op.Release? then b == a.(budgets := b.budgets)
      else b == a.(runs := b.runs, budgets := b.budgets)
    else if IsTaskOp(op) then
      if op.EndTask? then b == a.(tasks := b.tasks, verdicts := b.verdicts) else b == a.(tasks := b.tasks)
    else if IsRoundOp(op) then
      if op.Activate? then b == a.(tasks := b.tasks, verdicts := b.verdicts, rounds := b.rounds)
      else if op.Post? then b == a.(verdicts := b.verdicts)
      else b == a.(rounds := b.rounds)
    else SameWork(a, b)
  }

  lemma WithLedgerFrame(db: Db, r: Result<Runs, Error>, f: Result<(Runs, Budgets), Error>, b: Result<Budgets, Error>)
    ensures var n := WithRuns(db, r).db; n == db.(runs := n.runs)
    ensures var n := WithLedger(db, f).db; n == db.(runs := n.runs, budgets := n.budgets)
    ensures var n := WithBudgets(db, b).db; n == db.(budgets := n.budgets)
  {
  }

  lemma WithBoardFrame(db: Db, t: Result<Tasks, Error>, p: Result<(Tasks, Verdicts), Error>, r: Result<Rounds, Error>,
                       v: Result<Verdicts, Error>)
    ensures var n := WithTasks(db, t).db; n == db.(tasks := n.tasks)
    ensures var n := WithResults(db, p).db; n == db.(tasks := n.tasks, verdicts := n.verdicts)
    ensures var n := WithRounds(db, r).db; n == db.(rounds := n.rounds)
    ensures var n := WithVerdicts(db, v).db; n == db.(verdicts := n.verdicts)
  {
  }

  lemma ActivationFrame(db: Db, w: World, id: string, prev: Option<string>)
    ensures var n := ActivateRound(db, w, id, prev).db; n == db.(tasks := n.tasks, verdicts := n.verdicts, rounds := n.rounds)
  {
    hide Interrupted, ActivatedVerdicts, ActivatedRounds, LateActivationError, ActivationError;
  }

  lemma RunFrame(db: Db, w: World, op: Op)
    requires IsRunOp(op)
    ensures Spares(op, db, AnswerRun(db, w, op).db)
  {
    hide StartRun, FinishRun, ReleaseBudget, WithRuns, WithLedger, WithBudgets, SameWork;
    match op
    case Start(q, cwdPlan, id, owner, round) =>
      WithLedgerFrame(db, StartRun(db, w, q, cwdPlan, id, owner, round), Err(Invalid), Err(Invalid));
    case Finish(id, q, report) => WithLedgerFrame(db, Err(Invalid), FinishRun(db, w, id, q, report), Err(Invalid));
    case Release(ref, plan, cwdPlan, signature, decision) =>
      WithLedgerFrame(db, Err(Invalid), Err(Invalid), ReleaseBudget(db, ref, plan, cwdPlan, signature, decision));
  }

  lemma TaskFrame(db: Db, w: World, op: Op)
    requires IsTaskOp(op)
    ensures Spares(op, db, AnswerTask(db, w, op).db)
  {
    hide CreateTask, CreateChore, SetTaskStatus, CompleteTask, FinishChore, WithTasks, WithResults, SameWork;
    match op
    case NewTask(id, round, parents) => WithBoardFrame(db, CreateTask(db, id, round, parents), Err(Invalid), Err(Invalid), Err(Invalid));
    case NewChore(id, round) => WithBoardFrame(db, CreateChore(db, id, round), Err(Invalid), Err(Invalid), Err(Invalid));
    case MoveTask(id, target) => WithBoardFrame(db, SetTaskStatus(db, id, target), Err(Invalid), Err(Invalid), Err(Invalid));
    case EndTask(id, e) => WithBoardFrame(db, Err(Invalid), CompleteTask(db, w, id, e), Err(Invalid), Err(Invalid));
    case EndChore(id, note) => WithBoardFrame(db, FinishChore(db, id, note), Err(Invalid), Err(Invalid), Err(Invalid));
  }

  lemma RoundFrame(db: Db, w: World, op: Op)
    requires IsRoundOp(op)
    ensures Spares(op, db, AnswerRound(db, w, op).db)
  {
    hide CreateRound, CreateChoreRound, RebaseRound, CompleteRound, PostVerdict, ActivateRound, WithRounds, WithVerdicts, SameWork;
    match op
    case NewRound(id, plan, code, number, mode, policy) =>
      WithBoardFrame(db, Err(Invalid), Err(Invalid), CreateRound(db, id, plan, code, number, mode, policy), Err(Invalid));
    case NewChoreRound(id, plan) => WithBoardFrame(db, Err(Invalid), Err(Invalid), CreateChoreRound(db, id, plan), Err(Invalid));
    case Rebase(id, decision) => WithBoardFrame(db, Err(Invalid), Err(Invalid), RebaseRound(db, id, decision), Err(Invalid));
    case Activate(id, prev) => ActivationFrame(db, w, id, prev);
    case EndRound(id) => WithBoardFrame(db, Err(Invalid), Err(Invalid), CompleteRound(db, id), Err(Invalid));
    case Post(round, scenario, verdict, ref) =>
      WithBoardFrame(db, Err(Invalid), Err(Invalid), Err(Invalid), PostVerdict(db, w, round, scenario, verdict, ref));
  }

  predicate SameWork(a: Db, b: Db) {
    b == a.(plans := b.plans, policies := b.policies, scenarios := b.scenarios, codes := b.codes, decisions := b.decisions,
            pending := b.pending)
  }

  lemma NewRowsFrame(db: Db, id: string, s: Scenario, plan: string, supersedes: Option<string>)
    ensures SameWork(db, AddScenario(db, id, s).db)
    ensures SameWork(db, AddDecision(db, id, plan, supersedes).db)
    ensures SameWork(db, PutScenario(db, id, s).db)
  {
  }

  lemma PlainRowsFrame(db: Db, id: string, project: string, policies: seq<Autonomy.Policy>, pending: set<string>)
    ensures SameWork(db, db)
    ensures SameWork(db, db.(plans := db.plans[id := project]))
    ensures SameWork(db, db.(policies := policies))
    ensures SameWork(db, db.(pending := pending))
  {
  }

  lemma AdminFrame(db: Db, w: World, op: Op)
    requires IsAdminOp(op)
    ensures SameWork(db, AnswerAdmin(db, op).db)
  {
    hide SameWork, Autonomy.Apply, AddScenario, AddDecision, PutScenario;
    PlainRowsFrame(db, "", "", [], {});
    match op
    case NewPlan(id, project) => PlainRowsFrame(db, id, project, [], {});
    case NewScenario(id, s) => NewRowsFrame(db, id, s, "", None);
    case EditScenario(id, given, when, then_) =>
      if id in db.scenarios { NewRowsFrame(db, id, db.scenarios[id].(given := given, when := when, then_ := then_), "", None); }
    case MarkScenario(id, confirmed, retired) =>
      if id in db.scenarios { NewRowsFrame(db, id, db.scenarios[id].(confirmed := confirmed, retired := retired), "", None); }
    case NewDecision(id, plan, supersedes) =>
      NewRowsFrame(db, id, Scenario("", "", "", "", "", false, false), plan, supersedes);
    case SetPolicy(pop) => PlainRowsFrame(db, "", "", Autonomy.Apply(db.policies, pop), {});
    case SetPending(plan, isPending) =>
      PlainRowsFrame(db, "", "", [], if isPending then db.pending + {plan} else db.pending - {plan});
  }

  /** Every request is of exactly one kind. */
  lemma OneKind(op: Op)
    ensures IsRunOp(op) ==> !IsTaskOp(op) && !IsRoundOp(op)
    ensures IsTaskOp(op) ==> !IsRoundOp(op)
    ensures IsAdminOp(op) <==> !(IsRunOp(op) || IsTaskOp(op) || IsRoundOp(op))
  {
  }

  lemma SparesAtLeast(op: Op, a: Db, b: Db)
    ensures Spares(op, a, a)
    ensures IsAdminOp(op) && SameWork(a, b) ==> Spares(op, a, b)
  {
  }

  /** A request leaves the tables of the others alone. */
  lemma Frame(db: Db, w: World, op: Op)
    ensures Spares(op, db, Apply(db, w, op))
  {
    SparesAtLeast(op, db, Answer(db, w, op).db);
    OneKind(op);
    hide Spares, SameWork, IsAdminOp, LookupsOk, AnswerRun, AnswerTask, AnswerRound, AnswerAdmin, IsRunOp, IsTaskOp, IsRoundOp;
    if IsRunOp(op) { RunFrame(db, w, op); }
    else if IsTaskOp(op) { TaskFrame(db, w, op); }
    else if IsRoundOp(op) { RoundFrame(db, w, op); }
    else { AdminFrame(db, w, op); }
  }

  lemma OnlyLedger(a: Db, b: Db)
    requires b == a.(runs := b.runs, budgets := b.budgets)
    ensures b.tasks == a.tasks && b.rounds == a.rounds && b.verdicts == a.verdicts && b.scenarios == a.scenarios
    ensures b.policies == a.policies && b.plans == a.plans
  {
  }

  lemma OnlyBoard(a: Db, b: Db)
    requires b == a.(tasks := b.tasks, verdicts := b.verdicts, rounds := b.rounds)
    ensures b.runs == a.runs && b.budgets == a.budgets && b.scenarios == a.scenarios
    ensures b.policies == a.policies && b.plans == a.plans
    ensures b == a.(tasks := b.tasks) ==> b.rounds == a.rounds && b.verdicts == a.verdicts
    ensures b == a.(tasks := b.tasks, verdicts := b.verdicts) ==> b.rounds == a.rounds
    ensures b == a.(verdicts := b.verdicts) || b == a.(rounds := b.rounds) ==> b.tasks == a.tasks
    ensures b == a.(rounds := b.rounds) ==> b.verdicts == a.verdicts
  {
  }

  lemma OnlyCatalog(a: Db, b: Db)
    requires SameWork(a, b)
    ensures b.runs == a.runs && b.budgets == a.budgets
    ensures b.tasks == a.tasks && b.rounds == a.rounds && b.verdicts == a.verdicts
  {
  }

  /** The tables a kind of request spares, one by one. */
  lemma SparedTables(op: Op, a: Db, b: Db)
    requires Spares(op, a, b)
    ensures !IsAdminOp(op) ==> b.scenarios == a.scenarios && b.policies == a.policies && b.plans == a.plans
    ensures !IsRunOp(op) ==> b.runs == a.runs && b.budgets == a.budgets
    ensures !IsRoundOp(op) ==> b.rounds == a.rounds
    ensures !IsTaskOp(op) && !op.Activate? ==> b.tasks == a.tasks
    ensures !op.EndTask? && !op.Post? && !op.Activate? ==> b.verdicts == a.verdicts
  {
    if IsRunOp(op) {
      hide IsTaskOp, IsRoundOp, SameWork;
      OnlyLedger(a, b);
    } else if IsTaskOp(op) || IsRoundOp(op) {
      hide SameWork;
      OnlyBoard(a, b);
    } else {
      hide SameWork;
      OnlyCatalog(a, b);
    }
  }

  lemma OtherRequestsMoveNoTask(db: Db, w: World, op: Op)
    requires !IsTaskOp(op) && !op.Activate?
    ensures Apply(db, w, op).tasks == db.tasks
  {
    Frame(db, w, op);
    hide Apply, Spares, IsTaskOp;
    SparedTables(op, db, Apply(db, w, op));
  }

  /** What the verdict writers leave in the verdict table. */
  lemma VerdictsAfter(db: Db, w: World, op: Op)
    ensures op.EndTask? ==>
              Answer(db, w, op).db.verdicts
              == match CompleteTask(db, w, op.id, op.evidence) case Ok(n) => n.1 case Err(_) => db.verdicts
    ensures op.Post? ==>
              Answer(db, w, op).db.verdicts
              == match PostVerdict(db, w, op.roundId, op.scenario, op.verdict, op.ref) case Ok(n) => n case Err(_) => db.verdicts
    ensures op.Activate? ==> Answer(db, w, op) == ActivateRound(db, w, op.id, op.prev)
  {
    hide CompleteTask, PostVerdict, ActivateRound;
  }

  lemma RunAnswers(db: Db, w: World, op: Op)
    ensures op.Start? ==>
              Answer(db, w, op) == WithRuns(db, StartRun(db, w, op.request, op.cwdPlan, op.id, op.owner, op.round))
    ensures op.Finish? ==> Answer(db, w, op) == WithLedger(db, FinishRun(db, w, op.id, op.finish, op.report))
    ensures op.Release? ==>
              Answer(db, w, op)
              == WithBudgets(db, ReleaseBudget(db, op.ref_, op.plan_, op.cwdPlan_, op.signature, op.decision))
  {
    hide StartRun, FinishRun, ReleaseBudget, WithRuns, WithLedger, WithBudgets, AnswerTask, AnswerRound, AnswerAdmin;
  }

  lemma WithRunsTables(db: Db, r: Result<Runs, Error>)
    ensures WithRuns(db, r).db.budgets == db.budgets
    ensures WithRuns(db, r).db.runs == if r.Ok? then r.value else db.runs
  {
  }

  lemma StartedTables(db: Db, w: World, op: Op)
    requires op.Start?
    ensures var r := StartRun(db, w, op.request, op.cwdPlan, op.id, op.owner, op.round);
            && Apply(db, w, op).budgets == db.budgets
            && Apply(db, w, op).runs == if LookupsOk(db, op) && r.Ok? then r.value else db.runs
  {
    RunAnswers(db, w, op);
    WithRunsTables(db, StartRun(db, w, op.request, op.cwdPlan, op.id, op.owner, op.round));
    hide Answer, StartRun, LookupsOk, WithRuns;
  }

  lemma OnlyAdminRequestsTouchScenarios(db: Db, w: World, op: Op)
    requires !IsAdminOp(op)
    ensures Apply(db, w, op).scenarios == db.scenarios
  {
    Frame(db, w, op);
    hide Apply, Spares, IsAdminOp;
    SparedTables(op, db, Apply(db, w, op));
  }

  /** Requests about tasks, rounds, verdicts and the catalogue never touch a run or a bucket. */
  lemma OnlyRunRequestsTouchTheLedger(db: Db, w: World, op: Op)
    requires !IsRunOp(op)
    ensures Apply(db, w, op).runs == db.runs && Apply(db, w, op).budgets == db.budgets
  {
    Frame(db, w, op);
    hide Apply, Spares, IsRunOp;
    SparedTables(op, db, Apply(db, w, op));
  }

  // ── growth ─────────────────────────────────────────────────────────────

  predicate SameStart(a: Run, b: Run) {
    && b.taskId == a.taskId && b.planId == a.planId && b.roundId == a.roundId && b.scenarioId == a.scenarioId
    && b.command == a.command && b.cwd == a.cwd && b.globs == a.globs && b.tools == a.tools && b.fingerprint == a.fingerprint
  }

  predicate RunsGrow(a: map<string, Run>, b: map<string, Run>) {
    forall r :: r in a ==> r in b && SameStart(a[r], b[r]) && (a[r].finish.Some? ==> b[r] == a[r])
  }

  predicate TasksGrow(a: map<string, Task>, b: map<string, Task>) {
    forall t :: t in a ==> t in b && b[t].roundId == a[t].roundId && b[t].planId == a[t].planId && b[t].parents == a[t].parents
  }

  predicate RoundsGrow(a: map<string, Round>, b: map<string, Round>) {
    forall r :: r in a ==> r in b && b[r].planId == a[r].planId && b[r].code == a[r].code && b[r].number == a[r].number
  }

  predicate ScenariosGrow(a: map<string, Scenario>, b: map<string, Scenario>) {
    forall s :: s in a ==> s in b && b[s].planId == a[s].planId && b[s].code == a[s].code
  }

  predicate BudgetsGrow(a: map<Key, Budget>, b: map<Key, Budget>) {
    forall k :: k in a ==> k in b && b[k].total >= a[k].total && b[k].firstRun == a[k].firstRun
  }

  predicate PlansGrow(a: map<string, string>, b: map<string, string>) {
    forall p :: p in a ==> p in b && b[p] == a[p]
  }

  predicate Grows(a: Db, b: Db) {
    && PlansGrow(a.plans, b.plans) && ScenariosGrow(a.scenarios, b.scenarios) && RoundsGrow(a.rounds, b.rounds)
    && TasksGrow(a.tasks, b.tasks) && RunsGrow(a.runs, b.runs) && BudgetsGrow(a.budgets, b.budgets)
  }

  lemma InsertGrows(runs: map<string, Run>, id: string, r: Run)
    requires id !in runs
    ensures RunsGrow(runs, runs[id := r])
  {
    forall x | x in runs ensures SameStart(runs[x], runs[id := r][x]) {}
  }

  lemma TerminateGrows(runs: map<string, Run>, id: string, f: Finish)
    requires id in runs && runs[id].finish.None?
    ensures RunsGrow(runs, runs[id := runs[id].(finish := Some(f))])
  {
    forall x | x in runs ensures SameStart(runs[x], runs[id := runs[id].(finish := Some(f))][x]) {}
  }

  lemma StartGrows(db: Db, w: World, q: StartRequest, cwdPlan: Option<string>, id: string, owner: Option<string>, round: Option<string>)
    ensures var n := StartRun(db, w, q, cwdPlan, id, owner, round); n.Ok? ==> RunsGrow(db.runs, n.value)
  {
    var row := StartRow(db, w, q, cwdPlan, owner, round);
    hide StartRow, RunsGrow;
    if row.Ok? && id !in db.runs { InsertGrows(db.runs, id, row.value); }
  }

  lemma DebitGrows(budgets: map<Key, Budget>, k: Key, run: string)
    ensures BudgetsGrow(budgets, Debited(budgets, k, run))
  {
  }

  lemma ChargeGrows(budgets: map<Key, Budget>, k: Option<Key>, run: string)
    ensures BudgetsGrow(budgets, Charged(budgets, k, run))
  {
    if k.Some? { DebitGrows(budgets, k.value, run); }
  }

  lemma TerminatedGrows(db: Db, id: string, f: Finish)
    requires id in db.runs && db.runs[id].finish.None?
    ensures var n := Terminated(db, id, db.runs[id], f);
            n.Ok? ==> RunsGrow(db.runs, n.value.0) && BudgetsGrow(db.budgets, n.value.1)
  {
    TerminateGrows(db.runs, id, f);
    ChargeGrows(db.budgets, DebitKey(db.runs[id], f), id);
    hide RunsGrow, BudgetsGrow, Charged, DebitKey;
  }

  lemma FinishGrows(db: Db, w: World, id: string, q: FinishRequest, report: Option<Report>)
    ensures var n := FinishRun(db, w, id, q, report);
            n.Ok? ==> RunsGrow(db.runs, n.value.0) && BudgetsGrow(db.budgets, n.value.1)
  {
    hide RunsGrow, BudgetsGrow, FinishOf, Terminated;
    if id in db.runs && db.runs[id].finish.None? {
      var f := FinishOf(db, w, db.runs[id], q, report);
      if f.Ok? { TerminatedGrows(db, id, f.value); }
    }
  }

  lemma ReleaseGrows(db: Db, plan: string, scenario: string, signature: Option<string>, decision: string)
    ensures BudgetsGrow(db.budgets, ReleasedBudgets(db, plan, scenario, signature, decision))
  {
  }

  lemma Reflexive(db: Db)
    ensures Grows(db, db)
  {
  }

  lemma WithLedgerGrows(db: Db, r: Result<Runs, Error>, f: Result<(Runs, Budgets), Error>, b: Result<Budgets, Error>)
    requires r.Ok? ==> RunsGrow(db.runs, r.value)
    requires f.Ok? ==> RunsGrow(db.runs, f.value.0) && BudgetsGrow(db.budgets, f.value.1)
    requires b.Ok? ==> BudgetsGrow(db.budgets, b.value)
    ensures RunsGrow(db.runs, WithRuns(db, r).db.runs) && BudgetsGrow(db.budgets, WithRuns(db, r).db.budgets)
    ensures RunsGrow(db.runs, WithLedger(db, f).db.runs) && BudgetsGrow(db.budgets, WithLedger(db, f).db.budgets)
    ensures RunsGrow(db.runs, WithBudgets(db, b).db.runs) && BudgetsGrow(db.budgets, WithBudgets(db, b).db.budgets)
  {
    Reflexive(db);
    hide RunsGrow, BudgetsGrow;
  }

  lemma RunOpsGrow(db: Db, w: World, op: Op)
    requires IsRunOp(op)
    ensures RunsGrow(db.runs, AnswerRun(db, w, op).db.runs) && BudgetsGrow(db.budgets, AnswerRun(db, w, op).db.budgets)
  {
    hide RunsGrow, BudgetsGrow, StartRun, FinishRun, ReleaseBudget, WithRuns, WithLedger, WithBudgets;
    match op
    case Start(q, cwdPlan, id, owner, round) =>
      StartGrows(db, w, q, cwdPlan, id, owner, round);
      WithLedgerGrows(db, StartRun(db, w, q, cwdPlan, id, owner, round), Err(Invalid), Err(Invalid));
    case Finish(id, q, report) =>
      FinishGrows(db, w, id, q, report);
      WithLedgerGrows(db, Err(Invalid), FinishRun(db, w, id, q, report), Err(Invalid));
    case Release(ref, plan, cwdPlan, signature, decision) =>
      ReleaseBudgetGrows(db, ref, plan, cwdPlan, signature, decision);
      WithLedgerGrows(db, Err(Invalid), Err(Invalid), ReleaseBudget(db, ref, plan, cwdPlan, signature, decision));
  }

  lemma ReleaseBudgetGrows(db: Db, ref: string, plan: Option<string>, cwdPlan: Option<string>, signature: Option<string>,
                           decision: string)
    ensures var n := ReleaseBudget(db, ref, plan, cwdPlan, signature, decision); n.Ok? ==> BudgetsGrow(db.budgets, n.value)
  {
    hide ResolveScenario, ReleasedBudgets, BudgetsGrow;
    var s := ResolveScenario(db, ref, plan, cwdPlan);
    if s.Ok? && s.value in db.scenarios {
      ReleaseGrows(db, db.scenarios[s.value].planId, s.value, signature, decision);
    }
  }

  lemma ScenarioPut(scenarios: map<string, Scenario>, id: string, s: Scenario)
    requires id in scenarios ==> s.planId == scenarios[id].planId && s.code == scenarios[id].code
    ensures ScenariosGrow(scenarios, scenarios[id := s])
  {
  }

  lemma PutPlan(plans: map<string, string>, id: string, project: string)
    requires id !in plans
    ensures PlansGrow(plans, plans[id := project])
  {
  }

  lemma PutRound(rounds: map<string, Round>, id: string, r: Round)
    requires id in rounds ==> r.planId == rounds[id].planId && r.code == rounds[id].code && r.number == rounds[id].number
    ensures RoundsGrow(rounds, rounds[id := r])
  {
  }

  /** A task that is done has evidence: an entry, each with its reference, or a summary; every entry is about a scenario the
      task owns. */
  predicate DoneOk(t: Task) {
    t.status.Done? ==>
      && t.evidence.Some? && EvidenceError(t.evidence.value).None?
      && forall i :: 0 <= i < |t.evidence.value.entries| ==> t.evidence.value.entries[i].scenario in t.parents
  }

  /** Between two databases every task that moved made one move of the transition table, and none that was done or
      cancelled moved. */
  predicate TaskMoves(a: Task, b: Task) {
    || b == a
    || (&& b.roundId == a.roundId && b.planId == a.planId && b.parents == a.parents
        && CanMove(a.status, b.status) && (b.status.Done? || b.evidence == a.evidence))
  }

  predicate TasksMove(a: Tasks, b: Tasks) {
    && (forall t :: t in a ==> t in b && TaskMoves(a[t], b[t]))
    && (forall t :: t in b && !(t in a && b[t] == a[t]) ==> DoneOk(b[t]))
  }

  lemma PutTaskMoves(tasks: Tasks, id: string, t: Task)
    requires DoneOk(t) && (id in tasks ==> TaskMoves(tasks[id], t))
    ensures TasksMove(tasks, tasks[id := t])
  {
    hide CanMove, DoneOk;
  }

  lemma SameTasksMove(tasks: Tasks)
    ensures TasksMove(tasks, tasks)
  {
    hide CanMove, DoneOk;
  }

  lemma CompletedIsDoneOk(db: Db, t: Task, e: Evidence)
    requires EvidenceError(e).None? && Resolved(db, t, e.entries).Some?
    ensures DoneOk(t.(status := Done, evidence := Some(e.(entries := Resolved(db, t, e.entries).value))))
  {
    ResolvedPointwise(db, t, e.entries);
    hide Resolved, Trim;
    var entries := Resolved(db, t, e.entries).value;
    forall i | 0 <= i < |entries| ensures Trim(entries[i].evidence) != "" { assert Trim(e.entries[i].evidence) != ""; }
  }

  lemma CompleteMoves(db: Db, w: World, id: string, e: Evidence)
    ensures var n := CompleteTask(db, w, id, e); n.Ok? ==> TasksMove(db.tasks, n.value.0)
  {
    hide TasksMove, Resolved, FirstRefused, Recorded, EvidenceError, DoneOk;
    if id in db.tasks {
      var t := db.tasks[id];
      if CanMove(t.status, Done) && EvidenceError(e).None? && Resolved(db, t, e.entries).Some? {
        CompletedIsDoneOk(db, t, e);
        PutTaskMoves(db.tasks, id, t.(status := Done, evidence := Some(e.(entries := Resolved(db, t, e.entries).value))));
      }
    }
  }

  lemma CreateMoves(db: Db, id: string, round: string, parents: seq<string>)
    ensures var n := CreateTask(db, id, round, parents); n.Ok? ==> TasksMove(db.tasks, n.value)
    ensures var n := CreateChore(db, id, round); n.Ok? ==> TasksMove(db.tasks, n.value)
  {
    hide TasksMove;
    if round in db.rounds && id !in db.tasks {
      PutTaskMoves(db.tasks, id, Task(round, db.rounds[round].planId, parents, Todo, None));
      PutTaskMoves(db.tasks, id, Task(round, db.rounds[round].planId, [], InProgress, None));
    }
  }

  lemma StatusMoves(db: Db, id: string, target: TaskStatus, note: Option<string>)
    ensures var n := SetTaskStatus(db, id, target); n.Ok? ==> TasksMove(db.tasks, n.value)
    ensures var n := FinishChore(db, id, note); n.Ok? ==> TasksMove(db.tasks, n.value)
  {
    hide TasksMove, Unavailable, Trim, CanMove;
    if id in db.tasks {
      var t := db.tasks[id];
      var summary := if note.Some? && Trim(note.value) != "" then note.value else "chore completed";
      if CanMove(t.status, target) && !target.Done? { PutTaskMoves(db.tasks, id, t.(status := target)); }
      if CanMove(t.status, Done) {
        PutTaskMoves(db.tasks, id, t.(status := Done, evidence := Some(Evidence([], Some(summary), map[]))));
      }
    }
  }

  lemma InterruptionMoves(db: Db, plan: string, policy: InFlightPolicy)
    ensures TasksMove(db.tasks, Interrupted(db, plan, policy))
  {
  }

  lemma ActivationMoves(db: Db, w: World, id: string, prev: Option<string>)
    ensures TasksMove(db.tasks, ActivateRound(db, w, id, prev).db.tasks)
  {
    SameTasksMove(db.tasks);
    hide TasksMove, Interrupted, ActivatedVerdicts, ActivatedRounds, LateActivationError;
    if ActivationError(db, id).None? { InterruptionMoves(db, db.rounds[id].planId, db.rounds[id].policy); }
  }

  lemma WithTasksMove(db: Db, t: Result<Tasks, Error>, r: Result<(Tasks, Verdicts), Error>)
    requires t.Ok? ==> TasksMove(db.tasks, t.value)
    requires r.Ok? ==> TasksMove(db.tasks, r.value.0)
    ensures TasksMove(db.tasks, WithTasks(db, t).db.tasks) && TasksMove(db.tasks, WithResults(db, r).db.tasks)
  {
    SameTasksMove(db.tasks);
    hide TasksMove;
  }

  lemma TaskRequestsMove(db: Db, w: World, op: Op)
    requires IsTaskOp(op)
    ensures TasksMove(db.tasks, AnswerTask(db, w, op).db.tasks)
  {
    hide TasksMove, CreateTask, CreateChore, SetTaskStatus, CompleteTask, FinishChore, WithTasks, WithResults;
    match op
    case NewTask(id, round, parents) =>
      CreateMoves(db, id, round, parents);
      WithTasksMove(db, CreateTask(db, id, round, parents), Err(Invalid));
    case NewChore(id, round) =>
      CreateMoves(db, id, round, []);
      WithTasksMove(db, CreateChore(db, id, round), Err(Invalid));
    case MoveTask(id, target) =>
      StatusMoves(db, id, target, None);
      WithTasksMove(db, SetTaskStatus(db, id, target), Err(Invalid));
    case EndTask(id, e) =>
      CompleteMoves(db, w, id, e);
      WithTasksMove(db, Err(Invalid), CompleteTask(db, w, id, e));
    case EndChore(id, note) =>
      StatusMoves(db, id, Todo, note);
      WithTasksMove(db, FinishChore(db, id, note), Err(Invalid));
  }

  lemma MovesAreGrowth(a: Tasks, b: Tasks)
    requires TasksMove(a, b)
    ensures TasksGrow(a, b)
  {
    hide CanMove, DoneOk;
  }

  lemma ActivatedRoundsGrow(db: Db, id: string)
    requires id in db.rounds
    ensures RoundsGrow(db.rounds, ActivatedRounds(db, id))
  {
    Reflexive(db);
    hide RoundsGrow, IsBlockedByActive;
    PutRound(db.rounds, id, db.rounds[id].(status := Active, baselined := true));
  }

  lemma NewRoundsGrow(db: Db, op: Op)
    ensures op.NewRound? ==> var n := CreateRound(db, op.id, op.plan, op.code, op.number, op.mode, op.policy);
                             n.Ok? ==> RoundsGrow(db.rounds, n.value)
    ensures op.NewChoreRound? ==> var n := CreateChoreRound(db, op.id, op.plan); n.Ok? ==> RoundsGrow(db.rounds, n.value)
  {
    hide RoundsGrow, CodeTaken, NumberTaken;
    match op
    case NewRound(id, plan, code, number, mode, policy) =>
      if id !in db.rounds { PutRound(db.rounds, id, Round(plan, code, number, mode, policy, Planning, false)); }
    case NewChoreRound(id, plan) =>
      if id !in db.rounds { PutRound(db.rounds, id, Round(plan, CHORE_ROUND, 1, ForwardOnly, Pause, Active, false)); }
    case _ =>
  }

  lemma OldRoundsGrow(db: Db, id: string, decision: string)
    ensures var n := RebaseRound(db, id, decision); n.Ok? ==> RoundsGrow(db.rounds, n.value)
    ensures var n := CompleteRound(db, id); n.Ok? ==> RoundsGrow(db.rounds, n.value)
  {
    hide RoundsGrow, BlocksCompletion;
    if id in db.rounds {
      PutRound(db.rounds, id, db.rounds[id].(baselined := true));
      PutRound(db.rounds, id, db.rounds[id].(status := Completed));
    }
  }

  lemma WithRoundsGrows(db: Db, r: Result<Rounds, Error>)
    requires r.Ok? ==> RoundsGrow(db.rounds, r.value)
    ensures RoundsGrow(db.rounds, WithRounds(db, r).db.rounds) && TasksGrow(db.tasks, WithRounds(db, r).db.tasks)
  {
    Reflexive(db);
    hide RoundsGrow, TasksGrow;
  }

  lemma ActivationGrows(db: Db, w: World, id: string, prev: Option<string>)
    ensures var n := ActivateRound(db, w, id, prev).db;
            RoundsGrow(db.rounds, n.rounds) && TasksGrow(db.tasks, n.tasks)
  {
    Reflexive(db);
    hide RoundsGrow, TasksGrow, Interrupted, ActivatedVerdicts, ActivatedRounds, LateActivationError;
    if ActivationError(db, id).None? {
      ActivatedRoundsGrow(db, id);
      InterruptionMoves(db, db.rounds[id].planId, db.rounds[id].policy);
      MovesAreGrowth(db.tasks, Interrupted(db, db.rounds[id].planId, db.rounds[id].policy));
    }
  }

  lemma RoundRowsGrow(db: Db, w: World, op: Op)
    requires op.NewRound? || op.NewChoreRound? || op.Rebase? || op.EndRound?
    ensures RoundsGrow(db.rounds, AnswerRound(db, w, op).db.rounds)
    ensures TasksGrow(db.tasks, AnswerRound(db, w, op).db.tasks)
  {
    hide RoundsGrow, TasksGrow, CreateRound, CreateChoreRound, RebaseRound, CompleteRound, PostVerdict, ActivateRound, WithRounds;
    match op
    case NewRound(id, plan, code, number, mode, policy) =>
      NewRoundsGrow(db, op);
      WithRoundsGrows(db, CreateRound(db, id, plan, code, number, mode, policy));
    case NewChoreRound(id, plan) =>
      NewRoundsGrow(db, op);
      WithRoundsGrows(db, CreateChoreRound(db, id, plan));
    case Rebase(id, decision) =>
      OldRoundsGrow(db, id, decision);
      WithRoundsGrows(db, RebaseRound(db, id, decision));
    case EndRound(id) =>
      OldRoundsGrow(db, id, "");
      WithRoundsGrows(db, CompleteRound(db, id));
  }

  lemma RoundOpsGrow(db: Db, w: World, op: Op)
    requires IsRoundOp(op)
    ensures RoundsGrow(db.rounds, AnswerRound(db, w, op).db.rounds)
    ensures TasksGrow(db.tasks, AnswerRound(db, w, op).db.tasks)
  {
    if op.Activate? {
      hide RoundsGrow, TasksGrow, ActivateRound;
      ActivationGrows(db, w, op.id, op.prev);
    } else if op.Post? {
      Reflexive(db);
      hide RoundsGrow, TasksGrow, PostVerdict;
    } else {
      hide RoundsGrow, TasksGrow, AnswerRound;
      RoundRowsGrow(db, w, op);
    }
  }

  lemma AddScenarioGrows(db: Db, id: string, s: Scenario)
    ensures ScenariosGrow(db.scenarios, AddScenario(db, id, s).db.scenarios)
    ensures PlansGrow(db.plans, AddScenario(db, id, s).db.plans)
  {
    Reflexive(db);
    hide ScenariosGrow, PlansGrow;
    if id !in db.scenarios { ScenarioPut(db.scenarios, id, s); }
  }

  lemma AddDecisionGrows(db: Db, id: string, plan: string, supersedes: Option<string>)
    ensures ScenariosGrow(db.scenarios, AddDecision(db, id, plan, supersedes).db.scenarios)
    ensures PlansGrow(db.plans, AddDecision(db, id, plan, supersedes).db.plans)
  {
    Reflexive(db);
    hide ScenariosGrow, PlansGrow;
  }

  lemma PutScenarioGrows(db: Db, id: string, s: Scenario)
    requires id in db.scenarios ==> s.planId == db.scenarios[id].planId && s.code == db.scenarios[id].code
    ensures ScenariosGrow(db.scenarios, PutScenario(db, id, s).db.scenarios)
    ensures PlansGrow(db.plans, PutScenario(db, id, s).db.plans)
  {
    Reflexive(db);
    hide ScenariosGrow, PlansGrow;
    ScenarioPut(db.scenarios, id, s);
  }

  lemma CatalogOpsGrow(db: Db, op: Op)
    requires op.EditScenario? || op.MarkScenario? || op.NewScenario? || op.NewDecision?
    ensures PlansGrow(db.plans, AnswerAdmin(db, op).db.plans) && ScenariosGrow(db.scenarios, AnswerAdmin(db, op).db.scenarios)
  {
    Reflexive(db);
    hide ScenariosGrow, PlansGrow, AddScenario, AddDecision, PutScenario;
    if op.NewScenario? {
      AddScenarioGrows(db, op.id, op.scenario_);
    } else if op.EditScenario? {
      if op.id in db.scenarios {
        PutScenarioGrows(db, op.id, db.scenarios[op.id].(given := op.given, when := op.when, then_ := op.then_));
      }
    } else if op.MarkScenario? {
      if op.id in db.scenarios {
        PutScenarioGrows(db, op.id, db.scenarios[op.id].(confirmed := op.confirmed, retired := op.retired));
      }
    } else {
      AddDecisionGrows(db, op.id, op.plan, op.supersedes);
    }
  }

  lemma QuietAdmin(db: Db, op: Op)
    requires !op.EditScenario? && !op.MarkScenario? && !op.NewScenario? && !op.NewDecision? && !op.NewPlan?
    ensures AnswerAdmin(db, op).db.plans == db.plans && AnswerAdmin(db, op).db.scenarios == db.scenarios
  {
    hide Autonomy.Apply;
  }

  lemma AdminOpsGrow(db: Db, op: Op)
    ensures PlansGrow(db.plans, AnswerAdmin(db, op).db.plans) && ScenariosGrow(db.scenarios, AnswerAdmin(db, op).db.scenarios)
  {
    Reflexive(db);
    if op.EditScenario? || op.MarkScenario? || op.NewScenario? || op.NewDecision? {
      hide ScenariosGrow, PlansGrow, AnswerAdmin;
      CatalogOpsGrow(db, op);
    } else if op.NewPlan? {
      hide ScenariosGrow, PlansGrow;
      if op.id !in db.plans { PutPlan(db.plans, op.id, op.project); }
    } else {
      hide ScenariosGrow, PlansGrow, AnswerAdmin;
      QuietAdmin(db, op);
    }
  }

  lemma GroupGrows(db: Db, op: Op, next: Db)
    requires Spares(op, db, next)
    requires IsRunOp(op) ==> RunsGrow(db.runs, next.runs) && BudgetsGrow(db.budgets, next.budgets)
    requires IsTaskOp(op) ==> TasksGrow(db.tasks, next.tasks)
    requires IsRoundOp(op) ==> RoundsGrow(db.rounds, next.rounds) && TasksGrow(db.tasks, next.tasks)
    requires IsAdminOp(op) ==> PlansGrow(db.plans, next.plans) && ScenariosGrow(db.scenarios, next.scenarios)
    ensures Grows(db, next)
  {
    Reflexive(db);
    OneKind(op);
    hide PlansGrow, ScenariosGrow, RoundsGrow, TasksGrow, RunsGrow, BudgetsGrow, IsRunOp, IsTaskOp, IsRoundOp;
  }

  lemma AnswerGrows(db: Db, w: World, op: Op)
    ensures Grows(db, Answer(db, w, op).db)
  {
    OneKind(op);
    hide Grows, Spares, SameWork, IsAdminOp, AnswerRun, AnswerTask, AnswerRound, AnswerAdmin, IsRunOp, IsTaskOp, IsRoundOp,
      TasksMove, PlansGrow, ScenariosGrow, RoundsGrow, TasksGrow, RunsGrow, BudgetsGrow;
    if IsRunOp(op) {
      RunOpsGrow(db, w, op);
      RunFrame(db, w, op);
    } else if IsTaskOp(op) {
      TaskRequestsMove(db, w, op);
      MovesAreGrowth(db.tasks, AnswerTask(db, w, op).db.tasks);
      TaskFrame(db, w, op);
    } else if IsRoundOp(op) {
      RoundOpsGrow(db, w, op);
      RoundFrame(db, w, op);
    } else {
      AdminOpsGrow(db, op);
      AdminFrame(db, w, op);
      SparesAtLeast(op, db, Answer(db, w, op).db);
    }
    GroupGrows(db, op, Answer(db, w, op).db);
  }

  /** No row disappears, references and identities never change, and a finished run is frozen. */
  lemma StepGrows(db: Db, w: World, op: Op)
    ensures Grows(db, Apply(db, w, op))
  {
    hide Grows, Answer, LookupsOk;
    Reflexive(db);
    AnswerGrows(db, w, op);
  }

  lemma GrowsTransitive(a: Db, b: Db, c: Db)
    requires Grows(a, b) && Grows(b, c)
    ensures Grows(a, c)
  {
    hide SameStart;
    assert PlansGrow(a.plans, c.plans) && ScenariosGrow(a.scenarios, c.scenarios) && RoundsGrow(a.rounds, c.rounds);
    assert TasksGrow(a.tasks, c.tasks) && BudgetsGrow(a.budgets, c.budgets);
    forall r | r in a.runs ensures SameStart(a.runs[r], c.runs[r]) { SameStartTransitive(a.runs[r], b.runs[r], c.runs[r]); }
  }

  lemma SameStartTransitive(a: Run, b: Run, c: Run)
    requires SameStart(a, b) && SameStart(b, c)
    ensures SameStart(a, c)
  {
  }

  lemma {:induction false} HistoryGrows(db: Db, events: seq<Event>)
    ensures Grows(db, After(db, events))
  {
    hide Grows, Apply;
    Reflexive(db);
    if events != [] {
      var before := After(db, events[..|events| - 1]);
      var e := events[|events| - 1];
      HistoryGrows(db, events[..|events| - 1]);
      StepGrows(before, e.world, e.op);
      GrowsTransitive(db, before, After(db, events));
    }
  }
}
