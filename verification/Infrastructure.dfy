/** Runs that fail for reasons outside the product: never charged to it, and blocking their round until superseded. */
module Infrastructure {
  import opened Wrappers
  import opened Text
  import opened Classify
  import opened Tables
  import opened RunLifecycle
  import opened Steps
  import opened Ledger
  import opened Integrity
  import opened Conservation
  import opened Completion
  import Autonomy

  // ── no charge to the product ───────────────────────────────────────────

  /** A process that never ran or was ended from outside, without a class given by the caller: its finish is of harness or
      environment class, or aborted. */
  lemma OutsideEndIsInfrastructure(db: Db, w: World, r: Run, q: FinishRequest, report: Option<Report>)
    requires EndedOutside(OutcomeOf(q)) && q.class_.None?
    ensures var f := FinishOf(db, w, r, q, report);
            f.Ok? ==>
              && f.value.class_.Some? && !f.value.result.Success?
              && (if f.value.result.Aborted? then f.value.class_.value.NoFailure? else f.value.class_.value.IsInfrastructure())
  {
    EndedOutsideIsInfrastructure(OutcomeOf(q), ReportOf(r, report).text, w.inRepo);
    OutsideEndIsStructured(q);
    hide Classify.Classify, ManualSignature, ComputedIdentity, BridgeFor, CallerSignature;
  }

  lemma OutsideEndIsStructured(q: FinishRequest)
    requires EndedOutside(OutcomeOf(q))
    ensures IsStructured(q) && !OutcomeOf(q).Passed()
  {
  }

  /** Whatever its report says, such a run leaves every product bucket as it was. */
  lemma OutsideEndSparesProduct(db: Db, w: World, id: string, q: FinishRequest, report: Option<Report>, k: Key)
    requires EndedOutside(OutcomeOf(q)) && q.class_.None? && !k.class_.IsInfrastructure()
    requires FinishRun(db, w, id, q, report).Ok?
    ensures var budgets := FinishRun(db, w, id, q, report).value.1;
            (k in budgets <==> k in db.budgets) && (k in db.budgets ==> budgets[k] == db.budgets[k])
  {
    OutsideEndIsInfrastructure(db, w, db.runs[id], q, report);
    FinishChargesOnce(db, w, id, q, report);
    hide FinishOf;
    assert FinishRun(db, w, id, q, report).value.0[id].finish == Some(FinishOf(db, w, db.runs[id], q, report).value);
  }

  // ── the round gate ─────────────────────────────────────────────────────

  /** The scenario holds the round back: it is live and a latest finished run of it in the round is an infrastructure one. */
  ghost predicate IsHeld(db: Db, round: string, scenario: string) {
    exists run :: BlocksCompletion(db, round, run) && db.runs[run].scenarioId == Some(scenario)
  }

  predicate InRound(r: Run, round: string, scenario: string) {
    r.roundId == Some(round) && r.scenarioId == Some(scenario)
  }

  /** The request finishes no run of the scenario in the round with a class outside infrastructure, and does not retire the
      scenario. */
  ghost predicate KeepsHold(db: Db, w: World, op: Op, round: string, scenario: string) {
    && (op.Finish? && op.id in db.runs && InRound(db.runs[op.id], round, scenario) ==>
          var n := FinishRun(db, w, op.id, op.finish, op.report); n.Ok? ==> IsInfrastructureRun(n.value.0[op.id]))
    && (op.MarkScenario? ==> op.id != scenario || !op.retired)
  }

  /** A run that finishes at or after the latest time becomes a latest one; one that finishes before leaves them. */
  lemma LatestAfterFinish(db: Db, next: Db, id: string, run: string, round: string, scenario: string)
    requires IsLatestFinished(db, round, scenario, run)
    requires id in db.runs && db.runs[id].finish.None? && id in next.runs && next.runs[id].finish.Some?
    requires next.runs == db.runs[id := next.runs[id]] && SameStart(db.runs[id], next.runs[id])
    ensures !InRound(db.runs[id], round, scenario) || next.runs[id].finish.value.at < db.runs[run].finish.value.at ==>
              IsLatestFinished(next, round, scenario, run)
    ensures InRound(db.runs[id], round, scenario) && next.runs[id].finish.value.at >= db.runs[run].finish.value.at ==>
              IsLatestFinished(next, round, scenario, id)
  {
  }

  lemma FinishHolds(db: Db, w: World, id: string, q: FinishRequest, report: Option<Report>, round: string, scenario: string)
    requires IsHeld(db, round, scenario)
    requires var n := FinishRun(db, w, id, q, report);
             n.Ok? && (InRound(db.runs[id], round, scenario) ==> IsInfrastructureRun(n.value.0[id]))
    ensures var n := FinishRun(db, w, id, q, report); IsHeld(db.(runs := n.value.0, budgets := n.value.1), round, scenario)
  {
    var n := FinishRun(db, w, id, q, report);
    var next := db.(runs := n.value.0, budgets := n.value.1);
    var run :| BlocksCompletion(db, round, run) && db.runs[run].scenarioId == Some(scenario);
    hide FinishOf, Charged, DebitKey;
    LatestAfterFinish(db, next, id, run, round, scenario);
    hide IsLatestFinished, FinishRun;
    if !InRound(db.runs[id], round, scenario) || next.runs[id].finish.value.at < db.runs[run].finish.value.at {
      assert BlocksCompletion(next, round, run);
    } else {
      assert BlocksCompletion(next, round, id);
    }
  }

  /** Tables in which the finished runs are the same and the scenario is still live. */
  lemma QuietHolds(db: Db, next: Db, round: string, scenario: string)
    requires IsHeld(db, round, scenario)
    requires forall r :: r in db.runs ==> r in next.runs && next.runs[r] == db.runs[r]
    requires forall r :: r in next.runs && r !in db.runs ==> next.runs[r].finish.None?
    requires IsLive(db, scenario) ==> IsLive(next, scenario)
    ensures IsHeld(next, round, scenario)
  {
    var run :| BlocksCompletion(db, round, run) && db.runs[run].scenarioId == Some(scenario);
    assert BlocksCompletion(next, round, run);
  }

  lemma CatalogKeepsLive(db: Db, op: Op, scenario: string)
    requires IsLive(db, scenario) && (op.MarkScenario? ==> op.id != scenario || !op.retired)
    ensures IsLive(AnswerAdmin(db, op).db, scenario)
  {
    hide Autonomy.Apply;
  }

  lemma LiveStays(db: Db, w: World, op: Op, scenario: string)
    requires IsLive(db, scenario) && (op.MarkScenario? ==> op.id != scenario || !op.retired)
    ensures IsLive(Apply(db, w, op), scenario)
  {
    if IsAdminOp(op) {
      CatalogKeepsLive(db, op, scenario);
      hide LookupsOk, AnswerAdmin, AnswerRun, AnswerTask, AnswerRound, IsLive;
    } else {
      OnlyAdminRequestsTouchScenarios(db, w, op);
      hide Apply;
    }
  }

  lemma StartedRuns(db: Db, w: World, op: Op)
    requires op.Start?
    ensures var n := Apply(db, w, op);
            && (forall r :: r in db.runs ==> r in n.runs && n.runs[r] == db.runs[r])
            && (forall r :: r in n.runs && r !in db.runs ==> n.runs[r].finish.None?)
  {
    StartedTables(db, w, op);
    StartRowOk(db, w, op.request, op.cwdPlan, op.owner, op.round);
    hide Apply, StartRow, LookupsOk;
  }

  /** Once held, a round stays held by the scenario until a run of it finishes there with another class, or the scenario is
      retired. */
  lemma HoldLasts(db: Db, w: World, op: Op, round: string, scenario: string)
    requires IsHeld(db, round, scenario) && KeepsHold(db, w, op, round, scenario)
    ensures IsHeld(Apply(db, w, op), round, scenario)
  {
    if op.Finish? {
      RunAnswers(db, w, op);
      if FinishRun(db, w, op.id, op.finish, op.report).Ok? {
        FinishHolds(db, w, op.id, op.finish, op.report, round, scenario);
      }
      hide Answer, FinishRun, IsHeld, LookupsOk;
    } else {
      if IsLive(db, scenario) { LiveStays(db, w, op, scenario); }
      if op.Start? {
        StartedRuns(db, w, op);
      } else if op.Release? {
        StepGrows(db, w, op);
        ReleaseSparesRuns(db, w, op);
      } else {
        NotARunOp(op);
        OnlyRunRequestsTouchTheLedger(db, w, op);
      }
      hide Apply, IsHeld, IsLive, Grows;
      QuietHolds(db, Apply(db, w, op), round, scenario);
    }
  }

  lemma NotARunOp(op: Op)
    requires !op.Finish? && !op.Start? && !op.Release?
    ensures !IsRunOp(op)
  {
  }

  lemma ReleaseSparesRuns(db: Db, w: World, op: Op)
    requires op.Release?
    ensures Apply(db, w, op).runs == db.runs
  {
    RunAnswers(db, w, op);
    hide Answer, ReleaseBudget, LookupsOk;
  }

  /** A held round is not completed. */
  lemma HeldRoundIsNotCompleted(db: Db, round: string, scenario: string)
    requires IsHeld(db, round, scenario) && round in db.rounds && db.rounds[round].status.Active?
    ensures CompleteRound(db, round) == Err(InfrastructureUnresolved)
  {
    var run :| BlocksCompletion(db, round, run) && db.runs[run].scenarioId == Some(scenario);
    hide BlocksCompletion;
  }

  ghost predicate KeepsHeld(db: Db, events: seq<Event>, round: string, scenario: string) {
    forall i :: 0 <= i < |events| ==> KeepsHold(After(db, events[..i]), events[i].world, events[i].op, round, scenario)
  }

  /** Over any run of requests: from an infrastructure failure that is the latest finished run of its scenario in the round,
      no completion of the round is accepted until a run of that scenario finishes in the round with another class, or the
      scenario is retired. */
  lemma {:induction false} HeldUntilSuperseded(db: Db, events: seq<Event>, round: string, scenario: string)
    requires IsHeld(db, round, scenario) && KeepsHeld(db, events, round, scenario)
    ensures IsHeld(After(db, events), round, scenario)
    ensures CompleteRound(After(db, events), round).Err?
    decreases |events|
  {
    if events != [] {
      var n := |events| - 1;
      var before := events[..n];
      assert forall i :: 0 <= i <= n ==> events[..i] == before[..i];
      assert before[..n] == before;
      assert KeepsHeld(db, before, round, scenario);
      HeldUntilSuperseded(db, before, round, scenario);
      hide IsHeld, KeepsHold, Apply, CompleteRound;
      HoldLasts(After(db, before), events[n].world, events[n].op, round, scenario);
    }
    StillHeld(After(db, events), round, scenario);
  }

  lemma StillHeld(db: Db, round: string, scenario: string)
    ensures IsHeld(db, round, scenario) ==> CompleteRound(db, round).Err?
  {
    if IsHeld(db, round, scenario) && round in db.rounds && db.rounds[round].status.Active? {
      HeldRoundIsNotCompleted(db, round, scenario);
    }
    hide IsHeld, BlocksCompletion;
  }

  /** No finished run of the scenario in the round ended after the time. */
  predicate IsLatestTime(db: Db, round: string, scenario: string, at: int) {
    forall r :: r in db.runs && InRound(db.runs[r], round, scenario) && db.runs[r].finish.Some? ==> db.runs[r].finish.value.at <= at
  }

  lemma OutsideEndIsHeld(db: Db, w: World, id: string, q: FinishRequest, report: Option<Report>, round: string, scenario: string)
    requires EndedOutside(OutcomeOf(q)) && q.class_.None? && q.result != Some(Aborted)
    requires FinishRun(db, w, id, q, report).Ok? && InRound(db.runs[id], round, scenario)
    requires IsLive(db, scenario) && IsLatestTime(db, round, scenario, w.now)
    ensures var n := FinishRun(db, w, id, q, report).value; IsHeld(db.(runs := n.0, budgets := n.1), round, scenario)
  {
    var n := FinishRun(db, w, id, q, report).value;
    var next := db.(runs := n.0, budgets := n.1);
    OutsideEndIsInfrastructure(db, w, db.runs[id], q, report);
    FinishAcceptedExactly(db, w, db.runs[id], q, report);
    hide FinishOf, Charged, DebitKey, IsStructured, IsConsistent, ClassFor;
    assert IsInfrastructureRun(next.runs[id]);
    assert IsLatestFinished(next, round, scenario, id);
    hide IsLatestFinished, IsInfrastructureRun, FinishRun;
    assert BlocksCompletion(next, round, id);
  }

  /** Over every history: from the accepted finish of a run of a live scenario by spawn error, timeout, signal or exit 126, 127
      or 137, not aborted and given no class, and not earlier than any other finished run of the scenario in the round, no
      completion of the round is accepted until a run of that scenario finishes there with another class, or the scenario is
      retired. */
  lemma OutsideEndHolds(db: Db, w: World, op: Op, later: seq<Event>, round: string, scenario: string)
    requires op.Finish? && EndedOutside(OutcomeOf(op.finish)) && op.finish.class_.None? && op.finish.result != Some(Aborted)
    requires Answer(db, w, op).error.None? && op.id in db.runs && InRound(db.runs[op.id], round, scenario)
    requires IsLive(db, scenario) && IsLatestTime(db, round, scenario, w.now)
    requires KeepsHeld(Answer(db, w, op).db, later, round, scenario)
    ensures IsHeld(After(Answer(db, w, op).db, later), round, scenario)
    ensures CompleteRound(After(Answer(db, w, op).db, later), round).Err?
  {
    RunAnswers(db, w, op);
    OutsideEndAnswer(db, w, op);
    hide Answer, FinishRun, IsHeld, KeepsHeld, EndedOutside, IsLive, IsLatestTime, InRound, After, CompleteRound;
    OutsideEndIsHeld(db, w, op.id, op.finish, op.report, round, scenario);
    HeldUntilSuperseded(Answer(db, w, op).db, later, round, scenario);
  }

  lemma OutsideEndAnswer(db: Db, w: World, op: Op)
    requires op.Finish? && Answer(db, w, op).error.None?
    ensures var n := FinishRun(db, w, op.id, op.finish, op.report);
            n.Ok? && Answer(db, w, op).db == db.(runs := n.value.0, budgets := n.value.1)
  {
    RunAnswers(db, w, op);
    hide Answer, FinishRun;
  }

  /** A finish that is later than every other lifts the hold whenever its class is not an infrastructure one, whether or not
      the run passed: an aborted run and a legacy finish do. */
  lemma LaterFinishDecides(db: Db, next: Db, id: string, round: string, scenario: string)
    requires id in db.runs && db.runs[id].finish.None? && InRound(db.runs[id], round, scenario)
    requires id in next.runs && next.runs[id].finish.Some? && SameStart(db.runs[id], next.runs[id])
    requires next == db.(runs := db.runs[id := next.runs[id]], budgets := next.budgets)
    requires forall r :: r in db.runs && InRound(db.runs[r], round, scenario) && db.runs[r].finish.Some? ==>
               db.runs[r].finish.value.at < next.runs[id].finish.value.at
    ensures IsHeld(next, round, scenario) <==> IsInfrastructureRun(next.runs[id]) && IsLive(next, scenario)
  {
    assert IsLatestFinished(next, round, scenario, id);
    if IsInfrastructureRun(next.runs[id]) && IsLive(next, scenario) {
      assert BlocksCompletion(next, round, id);
    }
  }

  /** Completion is accepted exactly for an active round that no scenario holds back. */
  lemma CompletionAcceptedExactly(db: Db, round: string)
    ensures CompleteRound(db, round).Ok?
            <==> && round in db.rounds && db.rounds[round].status.Active?
                 && forall s :: s in db.scenarios ==> !IsHeld(db, round, s)
  {
    if run :| BlocksCompletion(db, round, run) {
      assert IsHeld(db, round, db.runs[run].scenarioId.value);
    }
    hide BlocksCompletion, IsLive;
  }
}
