/** Rounds and tasks over whole histories, and what an activation changes. */
module RoundGates {
  import opened Wrappers
  import opened Text
  import opened Tables
  import opened RunLifecycle
  import opened Steps
  import opened Ledger
  import opened PassEvidence
  import Autonomy

  // ── one active round per plan ──────────────────────────────────────────

  predicate IsWorkRound(r: Round) {
    r.status.Active? && !IsChoreCode(r.code)
  }

  /** At most one active round per plan, chore rounds aside; numbers and codes are unique within a plan. */
  predicate RoundsUnique(rounds: Rounds) {
    forall a, b :: a in rounds && b in rounds && a != b && rounds[a].planId == rounds[b].planId ==>
      && !(IsWorkRound(rounds[a]) && IsWorkRound(rounds[b]))
      && rounds[a].number != rounds[b].number && rounds[a].code != rounds[b].code
  }

  /** A round's status only advances: planning, active, completed. */
  predicate RoundAdvances(a: Round, b: Round) {
    || b.status == a.status
    || (a.status.Planning? && b.status.Active?)
    || (a.status.Active? && b.status.Completed?)
  }

  predicate RoundsAdvance(a: Rounds, b: Rounds) {
    forall r :: r in a ==> r in b && RoundAdvances(a[r], b[r])
  }

  lemma InsertedRoundIsUnique(db: Db, id: string, r: Round)
    requires RoundsUnique(db.rounds) && id !in db.rounds
    requires !CodeTaken(db, r.planId, r.code) && !NumberTaken(db, r.planId, r.number) && !IsWorkRound(r)
    ensures RoundsUnique(db.rounds[id := r]) && RoundsAdvance(db.rounds, db.rounds[id := r])
  {
    hide IsWorkRound;
  }

  lemma ReplacedRoundIsUnique(db: Db, id: string, r: Round)
    requires RoundsUnique(db.rounds) && id in db.rounds && RoundAdvances(db.rounds[id], r)
    requires r.planId == db.rounds[id].planId && r.number == db.rounds[id].number && r.code == db.rounds[id].code
    requires IsWorkRound(r) ==> IsWorkRound(db.rounds[id]) || !IsBlockedByActive(db, id)
    ensures RoundsUnique(db.rounds[id := r]) && RoundsAdvance(db.rounds, db.rounds[id := r])
  {
    hide IsChoreCode;
  }

  lemma SameRounds(rounds: Rounds)
    ensures RoundsAdvance(rounds, rounds)
  {
  }

  lemma RowRequestsKeepUnique(db: Db, op: Op)
    requires RoundsUnique(db.rounds) && LookupsOk(db, op)
    ensures op.NewRound? ==> var n := CreateRound(db, op.id, op.plan, op.code, op.number, op.mode, op.policy);
                             n.Ok? ==> RoundsUnique(n.value) && RoundsAdvance(db.rounds, n.value)
    ensures op.NewChoreRound? ==> var n := CreateChoreRound(db, op.id, op.plan);
                                  n.Ok? ==> RoundsUnique(n.value) && RoundsAdvance(db.rounds, n.value)
  {
    hide RoundsUnique, RoundsAdvance, CodeTaken;
    match op
    case NewRound(id, plan, code, number, mode, policy) =>
      if plan in db.plans && id !in db.rounds && !CodeTaken(db, plan, code) {
        InsertedRoundIsUnique(db, id, Round(plan, code, number, mode, policy, Planning, false));
      }
    case NewChoreRound(id, plan) =>
      var r := Round(plan, CHORE_ROUND, 1, ForwardOnly, Pause, Active, false);
      assert IsChoreCode(CHORE_ROUND);
      if plan in db.plans && id !in db.rounds && !CodeTaken(db, plan, CHORE_ROUND) && !NumberTaken(db, plan, 1) {
        InsertedRoundIsUnique(db, id, r);
      }
    case _ =>
  }

  lemma StatusRequestsKeepUnique(db: Db, id: string, decision: string)
    requires RoundsUnique(db.rounds)
    ensures var n := RebaseRound(db, id, decision); n.Ok? ==> RoundsUnique(n.value) && RoundsAdvance(db.rounds, n.value)
    ensures var n := CompleteRound(db, id); n.Ok? ==> RoundsUnique(n.value) && RoundsAdvance(db.rounds, n.value)
    ensures id in db.rounds && db.rounds[id].status.Planning? ==>
              RoundsUnique(ActivatedRounds(db, id)) && RoundsAdvance(db.rounds, ActivatedRounds(db, id))
  {
    SameRounds(db.rounds);
    hide RoundsUnique, RoundsAdvance, BlocksCompletion, IsBlockedByActive;
    if id in db.rounds {
      var r := db.rounds[id];
      ReplacedRoundIsUnique(db, id, r.(baselined := true));
      if r.status.Active? { ReplacedRoundIsUnique(db, id, r.(status := Completed)); }
      if r.status.Planning? && !IsBlockedByActive(db, id) {
        ReplacedRoundIsUnique(db, id, r.(status := Active, baselined := true));
      }
    }
  }

  lemma WithRoundsUnique(db: Db, r: Result<Rounds, Error>, v: Result<Verdicts, Error>)
    requires RoundsUnique(db.rounds) && (r.Ok? ==> RoundsUnique(r.value) && RoundsAdvance(db.rounds, r.value))
    ensures RoundsUnique(WithRounds(db, r).db.rounds) && RoundsAdvance(db.rounds, WithRounds(db, r).db.rounds)
    ensures WithVerdicts(db, v).db.rounds == db.rounds
  {
    SameRounds(db.rounds);
    hide RoundsUnique, RoundsAdvance;
  }

  lemma ActivationKeepsUnique(db: Db, w: World, id: string, prev: Option<string>)
    requires RoundsUnique(db.rounds)
    ensures var n := ActivateRound(db, w, id, prev).db.rounds; RoundsUnique(n) && RoundsAdvance(db.rounds, n)
  {
    SameRounds(db.rounds);
    hide RoundsUnique, RoundsAdvance, Interrupted, ActivatedVerdicts, ActivatedRounds, LateActivationError;
    if ActivationError(db, id).None? { StatusRequestsKeepUnique(db, id, ""); }
  }

  lemma RoundRequestsKeepUnique(db: Db, w: World, op: Op)
    requires RoundsUnique(db.rounds) && LookupsOk(db, op) && IsRoundOp(op)
    ensures var n := AnswerRound(db, w, op).db.rounds; RoundsUnique(n) && RoundsAdvance(db.rounds, n)
  {
    SameRounds(db.rounds);
    RowRequestsKeepUnique(db, op);
    hide RoundsUnique, RoundsAdvance, CreateRound, CreateChoreRound, RebaseRound, CompleteRound, PostVerdict, ActivateRound,
      WithRounds, WithVerdicts, LookupsOk;
    match op
    case NewRound(id, plan, code, number, mode, policy) =>
      WithRoundsUnique(db, CreateRound(db, id, plan, code, number, mode, policy), Err(Invalid));
    case NewChoreRound(id, plan) => WithRoundsUnique(db, CreateChoreRound(db, id, plan), Err(Invalid));
    case Rebase(id, decision) =>
      StatusRequestsKeepUnique(db, id, decision);
      WithRoundsUnique(db, RebaseRound(db, id, decision), Err(Invalid));
    case EndRound(id) =>
      StatusRequestsKeepUnique(db, id, "");
      WithRoundsUnique(db, CompleteRound(db, id), Err(Invalid));
    case Activate(id, prev) => ActivationKeepsUnique(db, w, id, prev);
    case Post(round, scenario, verdict, ref) =>
      WithRoundsUnique(db, Err(Invalid), PostVerdict(db, w, round, scenario, verdict, ref));
  }

  /** Every request keeps one active work round per plan and moves rounds forward only. */
  lemma StepKeepsUnique(db: Db, w: World, op: Op)
    requires RoundsUnique(db.rounds)
    ensures var n := Apply(db, w, op).rounds; RoundsUnique(n) && RoundsAdvance(db.rounds, n)
  {
    SameRounds(db.rounds);
    if IsRoundOp(op) {
      OneKind(op);
      hide RoundsUnique, RoundsAdvance, LookupsOk, IsRoundOp, IsTaskOp, IsRunOp, AnswerRun, AnswerTask, AnswerRound, AnswerAdmin;
      if LookupsOk(db, op) { RoundRequestsKeepUnique(db, w, op); }
    } else {
      Frame(db, w, op);
      hide RoundsUnique, RoundsAdvance, Apply, Spares;
      SparedTables(op, db, Apply(db, w, op));
    }
  }

  /** In every reachable database a plan has at most one active round that is not a chore round. */
  lemma {:induction false} OneActiveRound(events: seq<Event>)
    ensures RoundsUnique(After(EMPTY, events).rounds)
  {
    if events != [] {
      OneActiveRound(events[..|events| - 1]);
      hide RoundsUnique, Apply;
      var e := events[|events| - 1];
      StepKeepsUnique(After(EMPTY, events[..|events| - 1]), e.world, e.op);
    }
  }

  /** The previous round of a carry-over is determined. */
  lemma LatestCompletedIsUnique(db: Db, plan: string, a: Option<string>, b: Option<string>)
    requires RoundsUnique(db.rounds) && IsLatestCompleted(db, plan, a) && IsLatestCompleted(db, plan, b)
    ensures a == b
  {
    hide IsWorkRound;
    if a.Some? && b.Some? {
      assert db.rounds[a.value].number == db.rounds[b.value].number;
    }
  }

  // ── refusals ───────────────────────────────────────────────────────────

  predicate IsInFlight(db: Db, plan: string, task: string) {
    && task in db.tasks && db.tasks[task].status.InProgress? && db.tasks[task].roundId in db.rounds
    && db.rounds[db.tasks[task].roundId].planId == plan
  }

  /** An activation has something to do before its last statements: a task to interrupt or a verdict to carry over. */
  ghost predicate HasEarlyWork(db: Db, id: string, prev: Option<string>)
    requires id in db.rounds
  {
    var r := db.rounds[id];
    || (!r.policy.ContinueOnNoImpact? && exists t :: IsInFlight(db, r.planId, t))
    || (r.mode.StrictRegression? && prev.Some? && exists s :: CarriesOver(db, r.planId, id, prev.value, s))
  }

  lemma InterruptionIsIdle(db: Db, plan: string, policy: InFlightPolicy)
    ensures Interrupted(db, plan, policy) == db.tasks <==> policy.ContinueOnNoImpact? || forall t :: !IsInFlight(db, plan, t)
  {
    var n := Interrupted(db, plan, policy);
    if !policy.ContinueOnNoImpact? && exists t :: IsInFlight(db, plan, t) {
      var t :| IsInFlight(db, plan, t);
      assert n[t] != db.tasks[t];
    } else {
      assert forall t :: t in db.tasks ==> !policy.ContinueOnNoImpact? ==> !IsInFlight(db, plan, t);
      assert n == db.tasks;
    }
  }

  lemma CarryOverIsIdle(db: Db, w: World, id: string, r: Round, prev: Option<string>)
    ensures ActivatedVerdicts(db, w, id, r, prev) == db.verdicts
            <==> !(r.mode.StrictRegression? && prev.Some? && exists s :: CarriesOver(db, r.planId, id, prev.value, s))
  {
    hide Carried;
    var n := ActivatedVerdicts(db, w, id, r, prev);
    if r.mode.StrictRegression? && prev.Some? {
      if exists s :: CarriesOver(db, r.planId, id, prev.value, s) {
        var s :| CarriesOver(db, r.planId, id, prev.value, s);
        assert (prev.value, s) in db.verdicts;
        assert (id, s) in n;
      } else {
        assert n == db.verdicts;
      }
    }
  }

  lemma SameTables(a: Db, b: Db)
    requires b == a.(tasks := b.tasks, verdicts := b.verdicts, rounds := b.rounds)
    ensures a == b <==> a.tasks == b.tasks && a.verdicts == b.verdicts && a.rounds == b.rounds
  {
  }

  lemma RoundsStayIffBlocked(db: Db, id: string)
    requires id in db.rounds && db.rounds[id].status.Planning?
    ensures ActivatedRounds(db, id) == db.rounds <==> IsBlockedByActive(db, id)
  {
    hide IsBlockedByActive;
    if !IsBlockedByActive(db, id) { assert ActivatedRounds(db, id)[id] != db.rounds[id]; }
  }

  /** A refused request leaves the database as it was, but for an activation that passes its checks and then meets another
      active round, or a baseline recorded already: it stays half done exactly when it had a task to interrupt or a verdict
      to carry over, or when no other round was active. */
  lemma RefusedActivationExactly(db: Db, w: World, id: string, prev: Option<string>)
    requires ActivateRound(db, w, id, prev).error.Some?
    ensures ActivateRound(db, w, id, prev).db != db
            <==> ActivationError(db, id).None? && (HasEarlyWork(db, id, prev) || !IsBlockedByActive(db, id))
  {
    hide IsBlockedByActive, Interrupted, ActivatedVerdicts, ActivatedRounds, CarriesOver, IsInFlight;
    if ActivationError(db, id).None? {
      var r := db.rounds[id];
      InterruptionIsIdle(db, r.planId, r.policy);
      CarryOverIsIdle(db, w, id, r, prev);
      RoundsStayIffBlocked(db, id);
      SameTables(db, ActivateRound(db, w, id, prev).db);
    }
  }

  lemma RefusedRequestChangesNothing(db: Db, w: World, op: Op)
    requires Answer(db, w, op).error.Some? && !op.Activate?
    ensures Answer(db, w, op).db == db
  {
    hide StartRun, FinishRun, ReleaseBudget, CreateTask, CreateChore, SetTaskStatus, CompleteTask, FinishChore, CreateRound,
      CreateChoreRound, RebaseRound, CompleteRound, PostVerdict, Autonomy.Apply;
  }

  /** Such a refusal: another round is active, and the tasks in flight are paused all the same. */
  lemma PausedThoughRefused(db: Db, w: World, id: string, prev: Option<string>, task: string)
    requires id in db.rounds && db.rounds[id].status.Planning? && db.rounds[id].policy.Pause?
    requires db.rounds[id].planId !in db.pending && IsBlockedByActive(db, id) && IsInFlight(db, db.rounds[id].planId, task)
    ensures var a := ActivateRound(db, w, id, prev);
            && a.error == Some(Conflict) && a.db.rounds == db.rounds
            && task in a.db.tasks && a.db.tasks[task].status.Blocked?
  {
    hide IsBlockedByActive, ActivatedVerdicts;
  }

  /** A database of that kind: round R1 active with a task in progress, round R2 planned. */
  const BUSY := EMPTY.(
    plans := map["P" := "J"],
    rounds := map["R1" := Round("P", "ROUND-1", 1, StrictRegression, Pause, Active, true),
                  "R2" := Round("P", "ROUND-2", 2, StrictRegression, Pause, Planning, false)],
    tasks := map["T" := Task("R1", "P", [], InProgress, None)])

  lemma RefusedActivationLeavesTrace(w: World)
    ensures var a := ActivateRound(BUSY, w, "R2", None); a.error == Some(Conflict) && a.db != BUSY
  {
    assert !IsChoreCode("ROUND-1") && !IsChoreCode("ROUND-2") by {
      assert Lower("ROUND-1")[0] == 'r' && Lower("ROUND-2")[0] == 'r';
    }
    assert IsBlockedByActive(BUSY, "R2") by { assert "R1" in BUSY.rounds; }
    assert IsInFlight(BUSY, "P", "T");
    hide IsBlockedByActive, ActivatedVerdicts, IsChoreCode;
    PausedThoughRefused(BUSY, w, "R2", None, "T");
  }

  // ── what an activation does ────────────────────────────────────────────

  /** After an activation that got past its checks no task of the plan is in progress, unless the round lets them run on;
      the tasks that were are blocked or cancelled, as the policy says, and no other task changes. */
  lemma ActivationStopsWork(db: Db, w: World, id: string, prev: Option<string>)
    requires ActivationError(db, id).None?
    ensures var r := db.rounds[id];
            var n := ActivateRound(db, w, id, prev).db;
            && n.tasks.Keys == db.tasks.Keys
            && forall t :: t in db.tasks ==>
                 if !r.policy.ContinueOnNoImpact? && IsInFlight(db, r.planId, t)
                 then n.tasks[t] == db.tasks[t].(status := if r.policy.Pause? then Blocked else Cancelled)
                 else n.tasks[t] == db.tasks[t]
    ensures var r := db.rounds[id];
            var n := ActivateRound(db, w, id, prev).db;
            !r.policy.ContinueOnNoImpact? ==>
              forall t :: t in n.tasks && db.tasks[t].roundId in db.rounds && db.rounds[db.tasks[t].roundId].planId == r.planId ==>
                !n.tasks[t].status.InProgress?
  {
    hide ActivatedVerdicts, ActivatedRounds, LateActivationError;
  }

  /** The rows of an activated strict-regression round: those it had, and for every other live confirmed scenario of the
      plan the row of the previous round. A passing row taken over on the authority of a run is fresh now. */
  lemma CarryOverExactly(db: Db, w: World, id: string, prev: string, s: string)
    requires ActivationError(db, id).None? && db.rounds[id].mode.StrictRegression?
    ensures var n := ActivateRound(db, w, id, Some(prev)).db.verdicts;
            && ((id, s) in db.verdicts ==> (id, s) in n && n[(id, s)] == db.verdicts[(id, s)])
            && ((id, s) !in db.verdicts ==> ((id, s) in n <==> CarriesOver(db, db.rounds[id].planId, id, prev, s)))
    ensures var n := ActivateRound(db, w, id, Some(prev)).db.verdicts;
            (id, s) in n && (id, s) !in db.verdicts ==>
              && n[(id, s)].evidence == db.verdicts[(prev, s)].evidence
              && (n[(id, s)].verdict != db.verdicts[(prev, s)].verdict ==>
                    db.verdicts[(prev, s)].verdict.Passing? && n[(id, s)].verdict.NeedsVerification?)
              && (ClaimsRun(n[(id, s)]) ==>
                    ClaimedRun(n[(id, s)]) in db.runs && IsFresh(db, w, db.runs[ClaimedRun(n[(id, s)])]))
  {
    hide Interrupted, ActivatedRounds, LateActivationError, IsFresh, ParseRef;
  }

  /** Verdicts of other rounds stay. */
  lemma ActivationSparesOtherRounds(db: Db, w: World, id: string, prev: Option<string>, round: string, s: string)
    requires round != id
    ensures var n := ActivateRound(db, w, id, prev).db.verdicts;
            ((round, s) in n <==> (round, s) in db.verdicts)
            && ((round, s) in n ==> n[(round, s)] == db.verdicts[(round, s)])
  {
    hide Interrupted, ActivatedRounds, LateActivationError, Carried;
  }

  // ── tasks ──────────────────────────────────────────────────────────────

  /** Every request moves tasks along the transition table only, the round activation that bypasses its check included, and
      makes none done without evidence. */
  lemma StepMovesTasks(db: Db, w: World, op: Op)
    ensures TasksMove(db.tasks, Apply(db, w, op).tasks)
  {
    SameTasksMove(db.tasks);
    OneKind(op);
    if IsTaskOp(op) {
      hide TasksMove, LookupsOk, IsRoundOp, IsTaskOp, IsRunOp, AnswerRun, AnswerTask, AnswerRound, AnswerAdmin;
      TaskRequestsMove(db, w, op);
    } else if op.Activate? {
      VerdictsAfter(db, w, op);
      ActivationMoves(db, w, op.id, op.prev);
      hide TasksMove, LookupsOk, Answer, ActivateRound;
    } else {
      OtherRequestsMoveNoTask(db, w, op);
      hide TasksMove, Apply;
    }
  }

  /** In every reachable database a done task has evidence about its own scenarios, and no later request touches it; the
      same holds of a cancelled one. */
  lemma {:induction false} DoneTasksAreFinal(events: seq<Event>, later: seq<Event>, task: string)
    requires task in After(EMPTY, events).tasks
    ensures var t := After(EMPTY, events).tasks[task];
            && DoneOk(t)
            && (t.status.Done? || t.status.Cancelled? ==>
                  task in After(After(EMPTY, events), later).tasks && After(After(EMPTY, events), later).tasks[task] == t)
  {
    ReachableTasksAreOk(events);
    var db := After(EMPTY, events);
    hide DoneOk, Apply;
    if db.tasks[task].status.Done? || db.tasks[task].status.Cancelled? { FinalTaskStays(db, later, task); }
  }

  lemma {:induction false} FinalTaskStays(db: Db, later: seq<Event>, task: string)
    requires task in db.tasks && (db.tasks[task].status.Done? || db.tasks[task].status.Cancelled?)
    ensures task in After(db, later).tasks && After(db, later).tasks[task] == db.tasks[task]
  {
    if later != [] {
      FinalTaskStays(db, later[..|later| - 1], task);
      var e := later[|later| - 1];
      StepMovesTasks(After(db, later[..|later| - 1]), e.world, e.op);
      hide Apply, DoneOk;
    }
  }

  lemma {:induction false} ReachableTasksAreOk(events: seq<Event>)
    ensures forall t :: t in After(EMPTY, events).tasks ==> DoneOk(After(EMPTY, events).tasks[t])
  {
    if events != [] {
      ReachableTasksAreOk(events[..|events| - 1]);
      var e := events[|events| - 1];
      StepMovesTasks(After(EMPTY, events[..|events| - 1]), e.world, e.op);
      hide Apply, DoneOk, TaskMoves;
    }
  }
}
