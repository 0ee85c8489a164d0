/** Every `passing` verdict evidenced by a run rests on a clean run of the same scenario and plan. */
module PassEvidence {
  import opened Wrappers
  import opened Text
  import opened Classify
  import opened Tables
  import opened RunLifecycle
  import opened Steps
  import opened Ledger
  import opened Integrity

  /** The row claims a pass on the authority of a run. */
  predicate ClaimsRun(row: VerdictRow) {
    row.verdict.Passing? && row.evidence.Some? && ParseRef(row.evidence.value).RunRef?
  }

  function ClaimedRun(row: VerdictRow): string
    requires ClaimsRun(row)
  {
    ParseRef(row.evidence.value).run
  }

  /** A finished run that proves a pass of the scenario in the plan: success, exit 0, no signal, timeout or spawn error, class
      `none`, and an input fingerprint. */
  predicate Proves(db: Db, run: string, plan: string, scenario: string) {
    && run in db.runs
    && var r := db.runs[run];
       && r.scenarioId == Some(scenario) && r.planId == Some(plan) && IsCleanPass(r)
       && r.finish.value.class_ == Some(NoFailure) && r.fingerprint.Some?
  }

  predicate RowOk(db: Db, v: (string, string), row: VerdictRow) {
    ClaimsRun(row) ==> v.0 in db.rounds && Proves(db, ClaimedRun(row), db.rounds[v.0].planId, v.1)
  }

  predicate EvidenceOk(db: Db) {
    forall v :: v in db.verdicts ==> RowOk(db, v, db.verdicts[v])
  }

  // ── accepted submissions ───────────────────────────────────────────────

  /** A clean pass is a structured finish of class `none`; a legacy finish never is one. */
  lemma CleanPassHasClassNone(db: Db, run: string)
    requires Inv(db) && run in db.runs && IsCleanPass(db.runs[run])
    ensures db.runs[run].finish.value.class_ == Some(NoFailure)
  {
    assert RunOk(db, db.runs[run]);
  }

  /** An accepted pass on a run reference: the run proves it, and its fingerprint matches the workspace of the request. */
  lemma AcceptedPassIsProven(db: Db, w: World, plan: string, scenario: string, raw: string)
    requires Inv(db) && ParseRef(raw).RunRef?
    requires VerdictError(db, w, plan, scenario, Passing, Some(raw)).None?
    ensures Proves(db, ParseRef(raw).run, plan, scenario) && IsFresh(db, w, db.runs[ParseRef(raw).run])
  {
    hide Inv, IsFresh, IsExhausted, ParseRef;
    var id := ParseRef(raw).run;
    assert RunEvidenceError(db, w, plan, scenario, Passing, id).None?;
    CleanPassHasClassNone(db, id);
    FreshHasFingerprint(db, w, db.runs[id]);
  }

  lemma FreshHasFingerprint(db: Db, w: World, r: Run)
    requires IsFresh(db, w, r)
    ensures r.fingerprint.Some?
  {
  }

  // ── growth ─────────────────────────────────────────────────────────────

  lemma ProofPersists(a: Db, b: Db, run: string, plan: string, scenario: string)
    requires Grows(a, b) && Proves(a, run, plan, scenario)
    ensures Proves(b, run, plan, scenario)
  {
    hide PlansGrow, ScenariosGrow, RoundsGrow, TasksGrow, BudgetsGrow;
  }

  lemma RowPersists(a: Db, b: Db, v: (string, string), row: VerdictRow)
    requires Grows(a, b) && RowOk(a, v, row)
    ensures RowOk(b, v, row)
  {
    if ClaimsRun(row) {
      ProofPersists(a, b, ClaimedRun(row), a.rounds[v.0].planId, v.1);
      hide Proves, ClaimsRun, PlansGrow, ScenariosGrow, TasksGrow, BudgetsGrow, RunsGrow;
    }
  }

  /** Only rows that were written need to be looked at. */
  lemma WrittenRowsSuffice(a: Db, b: Db)
    requires Grows(a, b) && EvidenceOk(a)
    requires forall v :: v in b.verdicts && !(v in a.verdicts && b.verdicts[v] == a.verdicts[v]) ==> RowOk(b, v, b.verdicts[v])
    ensures EvidenceOk(b)
  {
    hide Grows, RowOk;
    forall v | v in b.verdicts ensures RowOk(b, v, b.verdicts[v]) {
      if v in a.verdicts && b.verdicts[v] == a.verdicts[v] { RowPersists(a, b, v, a.verdicts[v]); }
    }
  }

  // ── the writers ────────────────────────────────────────────────────────

  /** The row an accepted verdict writes is sound. */
  lemma SubmittedRowOk(db: Db, w: World, round: string, scenario: string, verdict: Verdict, evidence: Option<string>)
    requires Inv(db) && round in db.rounds
    requires VerdictError(db, w, db.rounds[round].planId, scenario, verdict, evidence).None?
    ensures RowOk(db, (round, scenario), VerdictRow(verdict, evidence))
  {
    if ClaimsRun(VerdictRow(verdict, evidence)) {
      AcceptedPassIsProven(db, w, db.rounds[round].planId, scenario, evidence.value);
    }
    hide Inv, VerdictError, Proves;
  }

  lemma PostRowsOk(db: Db, w: World, round: string, scenario: string, verdict: Verdict, evidence: Option<string>)
    requires Inv(db)
    ensures var n := PostVerdict(db, w, round, scenario, verdict, evidence);
            n.Ok? ==> forall v :: v in n.value && !(v in db.verdicts && n.value[v] == db.verdicts[v]) ==> RowOk(db, v, n.value[v])
  {
    hide Inv, RowOk, VerdictError;
    if round in db.rounds && VerdictError(db, w, db.rounds[round].planId, scenario, verdict, evidence).None? {
      SubmittedRowOk(db, w, round, scenario, verdict, evidence);
    }
  }

  lemma RecordedRowsOk(db: Db, w: World, round: string, entries: seq<Entry>)
    requires Inv(db) && round in db.rounds && FirstRefused(db, w, db.rounds[round].planId, entries).None?
    ensures var n := Recorded(db.verdicts, round, entries);
            forall v :: v in n && !(v in db.verdicts && n[v] == db.verdicts[v]) ==> RowOk(db, v, n[v])
  {
    RefusedPointwise(db, w, db.rounds[round].planId, entries);
    hide Inv, RowOk, VerdictError, FirstRefused;
    var n := Recorded(db.verdicts, round, entries);
    forall v | v in n && !(v in db.verdicts && n[v] == db.verdicts[v]) ensures RowOk(db, v, n[v]) {
      RecordedExactly(db.verdicts, round, entries, v);
      var i :| IsLastFor(entries, v.1, i) && n[v] == VerdictRow(entries[i].verdict, Some(entries[i].evidence));
      SubmittedRowOk(db, w, round, entries[i].scenario, entries[i].verdict, Some(entries[i].evidence));
    }
  }

  lemma CompletedRowsOk(db: Db, w: World, id: string, e: Evidence)
    requires Inv(db)
    ensures var n := CompleteTask(db, w, id, e);
            n.Ok? ==> forall v :: v in n.value.1 && !(v in db.verdicts && n.value.1[v] == db.verdicts[v]) ==>
                                    RowOk(db, v, n.value.1[v])
  {
    if id in db.tasks {
      var t := db.tasks[id];
      OldTaskOk(db, id);
      hide Inv, RowOk, Resolved, FirstRefused, Recorded, EvidenceError;
      var entries := Resolved(db, t, e.entries);
      if entries.Some? && FirstRefused(db, w, t.planId, entries.value).None? {
        RecordedRowsOk(db, w, t.roundId, entries.value);
      }
    }
  }

  /** A carried pass on a run reference keeps the run of the previous round: the plan is the same. */
  lemma CarriedRowsOk(db: Db, w: World, id: string, prev: string)
    requires EvidenceOk(db) && id in db.rounds && prev in db.rounds && db.rounds[prev].planId == db.rounds[id].planId
    ensures var n := CarriedOver(db, w, db.rounds[id].planId, id, prev);
            forall v :: v in n && !(v in db.verdicts && n[v] == db.verdicts[v]) ==> RowOk(db, v, n[v])
  {
    var n := CarriedOver(db, w, db.rounds[id].planId, id, prev);
    forall v | v in n && !(v in db.verdicts && n[v] == db.verdicts[v]) ensures RowOk(db, v, n[v]) {
      assert v.0 == id && (prev, v.1) in db.verdicts && n[v] == Carried(db, w, db.verdicts[(prev, v.1)]);
      assert RowOk(db, (prev, v.1), db.verdicts[(prev, v.1)]);
      hide CarriedOver, Proves, IsFresh;
    }
  }

  lemma ActivatedRowsOk(db: Db, w: World, id: string, prev: Option<string>)
    requires EvidenceOk(db) && id in db.rounds && IsLatestCompleted(db, db.rounds[id].planId, prev)
    ensures var n := ActivatedVerdicts(db, w, id, db.rounds[id], prev);
            forall v :: v in n && !(v in db.verdicts && n[v] == db.verdicts[v]) ==> RowOk(db, v, n[v])
  {
    if prev.Some? { CarriedRowsOk(db, w, id, prev.value); }
    hide RowOk, EvidenceOk, CarriedOver;
  }

  // ── steps and runs ─────────────────────────────────────────────────────

  /** Rows written by a request are sound before it; they stay so after it. */
  lemma RowsWritten(db: Db, w: World, op: Op)
    requires Inv(db) && EvidenceOk(db) && LookupsOk(db, op)
    ensures var next := Answer(db, w, op).db;
            forall v :: v in next.verdicts && !(v in db.verdicts && next.verdicts[v] == db.verdicts[v]) ==> RowOk(db, v, next.verdicts[v])
  {
    VerdictsAfter(db, w, op);
    hide Inv, EvidenceOk, RowOk, Answer, CompleteTask, PostVerdict, ActivatedVerdicts, ActivatedRounds, Interrupted,
      LateActivationError;
    if op.EndTask? {
      CompletedRowsOk(db, w, op.id, op.evidence);
    } else if op.Post? {
      PostRowsOk(db, w, op.roundId, op.scenario, op.verdict, op.ref);
    } else if op.Activate? {
      if ActivationError(db, op.id).None? { ActivatedRowsOk(db, w, op.id, op.prev); }
    } else {
      OtherRequestsWriteNoVerdict(db, w, op);
    }
  }

  lemma OtherRequestsWriteNoVerdict(db: Db, w: World, op: Op)
    requires LookupsOk(db, op) && !op.EndTask? && !op.Post? && !op.Activate?
    ensures Answer(db, w, op).db.verdicts == db.verdicts
  {
    Frame(db, w, op);
    hide Answer, LookupsOk, Spares;
    SparedTables(op, db, Apply(db, w, op));
  }

  lemma StepKeepsEvidence(db: Db, w: World, op: Op)
    requires Inv(db) && EvidenceOk(db)
    ensures EvidenceOk(Apply(db, w, op))
  {
    if LookupsOk(db, op) {
      RowsWritten(db, w, op);
      AnswerGrows(db, w, op);
      hide Inv, EvidenceOk, RowOk, Grows, Answer;
      var next := Answer(db, w, op).db;
      forall v | v in next.verdicts && !(v in db.verdicts && next.verdicts[v] == db.verdicts[v])
        ensures RowOk(next, v, next.verdicts[v])
      {
        RowPersists(db, next, v, next.verdicts[v]);
      }
      WrittenRowsSuffice(db, next);
    }
  }

  lemma {:induction false} ReachableEvidenceIsOk(events: seq<Event>)
    ensures Inv(After(EMPTY, events)) && EvidenceOk(After(EMPTY, events))
  {
    ReachableIsOk(events);
    if events != [] {
      var before := events[..|events| - 1];
      ReachableEvidenceIsOk(before);
      hide Inv, EvidenceOk, Apply;
      var e := events[|events| - 1];
      StepKeepsEvidence(After(EMPTY, before), e.world, e.op);
    }
  }

  /** In every reachable database a `passing` row that names a run names a finished run of the same scenario and of the
      round's plan that succeeded cleanly; carried rows are no exception, and no later request alters the run. */
  lemma PassesAreProven(events: seq<Event>, later: seq<Event>, round: string, scenario: string)
    requires (round, scenario) in After(EMPTY, events).verdicts
    requires ClaimsRun(After(EMPTY, events).verdicts[(round, scenario)])
    ensures var db := After(EMPTY, events);
            var run := ClaimedRun(db.verdicts[(round, scenario)]);
            && round in db.rounds && Proves(db, run, db.rounds[round].planId, scenario)
            && run in After(db, later).runs && After(db, later).runs[run] == db.runs[run]
  {
    var db := After(EMPTY, events);
    ReachableEvidenceIsOk(events);
    assert RowOk(db, (round, scenario), db.verdicts[(round, scenario)]);
    HistoryGrows(db, later);
    hide Inv, EvidenceOk, After, ClaimsRun, ParseRef;
  }

  /** At submission the fingerprint of the proving run was that of the workspace. */
  lemma SubmittedPassIsFresh(db: Db, w: World, op: Op)
    requires Inv(db) && op.Post? && op.verdict.Passing? && op.ref.Some? && ParseRef(op.ref.value).RunRef?
    requires Answer(db, w, op).error.None?
    ensures op.roundId in db.rounds
    ensures var run := ParseRef(op.ref.value).run;
            Proves(db, run, db.rounds[op.roundId].planId, op.scenario) && IsFresh(db, w, db.runs[run])
  {
    hide VerdictError, Inv, ParseRef;
    AcceptedPassIsProven(db, w, db.rounds[op.roundId].planId, op.scenario, op.ref.value);
  }

  /** So it was for every run reference in the evidence of a completed task. */
  lemma CompletedPassIsFresh(db: Db, w: World, id: string, e: Evidence, i: nat)
    requires Inv(db) && CompleteTask(db, w, id, e).Ok? && i < |e.entries|
    requires e.entries[i].verdict.Passing? && ParseRef(e.entries[i].evidence).RunRef?
    ensures id in db.tasks
    ensures var t := db.tasks[id];
            var run := ParseRef(e.entries[i].evidence).run;
            var s := ResolveRef(db, t.planId, e.entries[i].scenario);
            s.Some? && s.value in t.parents && Proves(db, run, t.planId, s.value) && IsFresh(db, w, db.runs[run])
  {
    var t := db.tasks[id];
    ResolvedPointwise(db, t, e.entries);
    var entries := Resolved(db, t, e.entries).value;
    RefusedPointwise(db, w, t.planId, entries);
    hide Resolved, FirstRefused, VerdictError, Inv, ParseRef, EvidenceError, ResolveRef;
    AcceptedPassIsProven(db, w, t.planId, entries[i].scenario, entries[i].evidence);
  }
}
