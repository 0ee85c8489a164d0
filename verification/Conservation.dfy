/** Failures are conserved: every classified failure of a scenario run is counted once, in one bucket, for ever. */
module Conservation {
  import opened Wrappers
  import opened Classify
  import opened Tables
  import opened RunLifecycle
  import opened Steps
  import opened Ledger
  import opened Integrity

  /** Lifetime failures over a set of buckets. */
  ghost function SumTotals(budgets: Budgets, ks: set<Key>): nat
    requires ks <= budgets.Keys
    decreases |ks|
  {
    if ks == {} then 0
    else
      var k :| k in ks;
      budgets[k].total + SumTotals(budgets, ks - {k})
  }

  function KeysOf(budgets: Budgets, scenario: string): (ks: set<Key>)
    ensures ks <= budgets.Keys
  {
    set k | k in budgets && k.scenario == scenario
  }

  ghost function TotalFailures(db: Db, scenario: string): nat {
    SumTotals(db.budgets, KeysOf(db.budgets, scenario))
  }

  /** A finished run of the scenario with a failure class. */
  predicate IsFailedRun(r: Run, scenario: string) {
    && r.scenarioId == Some(scenario) && r.finish.Some? && r.finish.value.class_.Some?
    && r.finish.value.class_.value.IsFailure()
  }

  function FailedRuns(db: Db, scenario: string): set<string> {
    set r | r in db.runs && IsFailedRun(db.runs[r], scenario)
  }

  ghost predicate IsConserved(db: Db, scenario: string) {
    TotalFailures(db, scenario) == |FailedRuns(db, scenario)|
  }

  // ── sums ───────────────────────────────────────────────────────────────

  lemma {:induction false} SumRemove(budgets: Budgets, ks: set<Key>, k: Key)
    requires ks <= budgets.Keys && k in ks
    ensures SumTotals(budgets, ks) == budgets[k].total + SumTotals(budgets, ks - {k})
    decreases |ks|
  {
    var x :| x in ks && SumTotals(budgets, ks) == budgets[x].total + SumTotals(budgets, ks - {x});
    if x != k {
      SumRemove(budgets, ks - {x}, k);
      SumRemove(budgets, ks - {k}, x);
      assert ks - {x} - {k} == ks - {k} - {x};
    }
  }

  lemma {:induction false} SumSame(a: Budgets, b: Budgets, ks: set<Key>)
    requires ks <= a.Keys && ks <= b.Keys
    requires forall k :: k in ks ==> a[k].total == b[k].total
    ensures SumTotals(a, ks) == SumTotals(b, ks)
    decreases |ks|
  {
    if ks != {} {
      var k :| k in ks;
      SumRemove(a, ks, k);
      SumRemove(b, ks, k);
      SumSame(a, b, ks - {k});
    }
  }

  /** A debit adds one to the sum of its own scenario and nothing to the others. */
  lemma DebitAddsOne(budgets: Budgets, k: Key, run: string, scenario: string)
    ensures SumTotals(Debited(budgets, k, run), KeysOf(Debited(budgets, k, run), scenario))
            == SumTotals(budgets, KeysOf(budgets, scenario)) + if k.scenario == scenario then 1 else 0
  {
    var next := Debited(budgets, k, run);
    var before, after := KeysOf(budgets, scenario), KeysOf(next, scenario);
    if k.scenario == scenario {
      assert after == before + {k};
      SumRemove(next, after, k);
      SumSame(budgets, next, before - {k});
      assert after - {k} == before - {k};
      if k in before {
        SumRemove(budgets, before, k);
      } else {
        assert before - {k} == before;
      }
    } else {
      assert after == before;
      SumSame(budgets, next, before);
    }
  }

  lemma ReleaseKeepsSum(db: Db, plan: string, s: string, signature: Option<string>, decision: string, scenario: string)
    ensures var next := ReleasedBudgets(db, plan, s, signature, decision);
            SumTotals(next, KeysOf(next, scenario)) == SumTotals(db.budgets, KeysOf(db.budgets, scenario))
  {
    var next := ReleasedBudgets(db, plan, s, signature, decision);
    assert KeysOf(next, scenario) == KeysOf(db.budgets, scenario);
    SumSame(db.budgets, next, KeysOf(db.budgets, scenario));
  }

  // ── steps ──────────────────────────────────────────────────────────────

  lemma StartConserves(db: Db, runs: Runs, id: string, r: Run, scenario: string)
    requires IsConserved(db, scenario) && id !in db.runs && runs == db.runs[id := r] && r.finish.None?
    ensures IsConserved(db.(runs := runs), scenario)
  {
    assert FailedRuns(db.(runs := runs), scenario) == FailedRuns(db, scenario);
  }

  /** The charge matches the run: a bucket is charged exactly when the run joins the failed runs of its scenario. */
  lemma ChargeMatches(db: Db, r: Run, f: Finish, scenario: string)
    requires RunOk(db, r) && FinishOk(f)
    ensures IsFailedRun(r.(finish := Some(f)), scenario) <==> DebitKey(r, f).Some? && DebitKey(r, f).value.scenario == scenario
  {
  }

  lemma TerminateConserves(db: Db, id: string, f: Finish, scenario: string)
    requires IsConserved(db, scenario) && id in db.runs && db.runs[id].finish.None? && RunOk(db, db.runs[id]) && FinishOk(f)
    ensures var n := Terminated(db, id, db.runs[id], f);
            n.Ok? ==> IsConserved(db.(runs := n.value.0, budgets := n.value.1), scenario)
  {
    var r := db.runs[id];
    var k := DebitKey(r, f);
    ChargeMatches(db, r, f, scenario);
    FailedRunsAfter(db, id, r.(finish := Some(f)), Charged(db.budgets, k, id), scenario);
    if k.Some? { DebitAddsOne(db.budgets, k.value, id, scenario); }
    hide FinishOk, RunOk, DebitKey, Debited, FailedRuns, IsFailedRun, KeysOf;
  }

  lemma FailedRunsAfter(db: Db, id: string, r: Run, budgets: Budgets, scenario: string)
    requires id in db.runs && db.runs[id].finish.None?
    ensures |FailedRuns(db.(runs := db.runs[id := r], budgets := budgets), scenario)|
            == |FailedRuns(db, scenario)| + if IsFailedRun(r, scenario) then 1 else 0
  {
    var before, after := FailedRuns(db, scenario), FailedRuns(db.(runs := db.runs[id := r], budgets := budgets), scenario);
    if IsFailedRun(r, scenario) {
      assert after == before + {id};
    } else {
      assert after == before;
    }
  }

  lemma FinishConserves(db: Db, w: World, id: string, q: FinishRequest, report: Option<Report>, scenario: string)
    requires Inv(db) && IsConserved(db, scenario)
    ensures var n := FinishRun(db, w, id, q, report);
            n.Ok? ==> IsConserved(db.(runs := n.value.0, budgets := n.value.1), scenario)
  {
    if id in db.runs && db.runs[id].finish.None? {
      FinishOfOk(db, w, db.runs[id], q, report);
      assert RunOk(db, db.runs[id]);
      var f := FinishOf(db, w, db.runs[id], q, report);
      hide FinishOf, Terminated, FinishOk, RunOk, Inv, IsConserved;
      if f.Ok? { TerminateConserves(db, id, f.value, scenario); }
    }
  }

  lemma ReleaseConserves(db: Db, ref: string, plan: Option<string>, cwdPlan: Option<string>, signature: Option<string>,
                         decision: string, scenario: string)
    requires IsConserved(db, scenario)
    ensures var n := ReleaseBudget(db, ref, plan, cwdPlan, signature, decision);
            n.Ok? ==> IsConserved(db.(budgets := n.value), scenario)
  {
    hide ResolveScenario, ReleasedBudgets;
    var s := ResolveScenario(db, ref, plan, cwdPlan);
    if s.Ok? && s.value in db.scenarios {
      ReleaseKeepsSum(db, db.scenarios[s.value].planId, s.value, signature, decision, scenario);
      assert FailedRuns(db.(budgets := ReleasedBudgets(db, db.scenarios[s.value].planId, s.value, signature, decision)), scenario)
             == FailedRuns(db, scenario);
    }
  }

  lemma RunOpsConserve(db: Db, w: World, op: Op, scenario: string)
    requires Inv(db) && IsRunOp(op) && IsConserved(db, scenario)
    ensures IsConserved(AnswerRun(db, w, op).db, scenario)
  {
    hide Inv, IsConserved, FinishRun, ReleaseBudget;
    match op
    case Start(q, cwdPlan, id, owner, round) =>
      StartRowOk(db, w, q, cwdPlan, owner, round);
      var row := StartRow(db, w, q, cwdPlan, owner, round);
      hide StartRow;
      if row.Ok? && id !in db.runs { StartConserves(db, db.runs[id := row.value], id, row.value, scenario); }
    case Finish(id, q, report) => FinishConserves(db, w, id, q, report, scenario);
    case Release(ref, plan, cwdPlan, signature, decision) => ReleaseConserves(db, ref, plan, cwdPlan, signature, decision, scenario);
  }

  lemma OthersConserve(a: Db, b: Db, scenario: string)
    requires b.runs == a.runs && b.budgets == a.budgets && IsConserved(a, scenario)
    ensures IsConserved(b, scenario)
  {
  }

  lemma StepConserves(db: Db, w: World, op: Op, scenario: string)
    requires Inv(db) && IsConserved(db, scenario)
    ensures IsConserved(Apply(db, w, op), scenario)
  {
    hide Inv, IsConserved, AnswerRun, IsRunOp, LookupsOk;
    if IsRunOp(op) {
      RunOpsConserve(db, w, op, scenario);
    } else {
      OnlyRunRequestsTouchTheLedger(db, w, op);
      hide Apply;
      OthersConserve(db, Apply(db, w, op), scenario);
    }
  }

  /** Over any run of requests the lifetime failures of a scenario's buckets equal the number of its finished runs with a
      failure class. */
  lemma {:induction false} FailuresAreConserved(events: seq<Event>, scenario: string)
    ensures TotalFailures(After(EMPTY, events), scenario) == |FailedRuns(After(EMPTY, events), scenario)|
  {
    if events == [] {
      assert KeysOf(map[], scenario) == {};
      assert FailedRuns(EMPTY, scenario) == {};
    } else {
      var before := events[..|events| - 1];
      FailuresAreConserved(before, scenario);
      ReachableIsOk(before);
      assert IsConserved(After(EMPTY, before), scenario);
      hide Inv, Apply;
      var e := events[|events| - 1];
      StepConserves(After(EMPTY, before), e.world, e.op, scenario);
    }
  }

  // ── single steps ───────────────────────────────────────────────────────

  /** Tables after a finish: the run is terminal, and its bucket, if it has one, is the only one charged, by one. */
  predicate IsChargedOnce(db: Db, id: string, runs: Runs, budgets: Budgets) {
    && id in runs && runs[id].finish.Some?
    && match DebitKey(runs[id], runs[id].finish.value)
       case None => budgets == db.budgets
       case Some(k) =>
         && budgets.Keys == db.budgets.Keys + {k}
         && (forall j :: j in db.budgets && j != k ==> budgets[j] == db.budgets[j])
         && budgets[k].count == 1 + (if k in db.budgets then db.budgets[k].count else 0)
         && budgets[k].total == 1 + (if k in db.budgets then db.budgets[k].total else 0)
         && budgets[k].lastRun == id
  }

  lemma TerminatedChargesOnce(db: Db, id: string, f: Finish)
    requires id in db.runs
    ensures var n := Terminated(db, id, db.runs[id], f); n.Ok? ==> IsChargedOnce(db, id, n.value.0, n.value.1)
  {
    assert DebitKey(db.runs[id].(finish := Some(f)), f) == DebitKey(db.runs[id], f);
    hide DebitKey;
  }

  /** Finishing a run charges at most one bucket, by one, in the step that records the terminal state; a refused finish
      changes nothing at all. */
  lemma FinishChargesOnce(db: Db, w: World, id: string, q: FinishRequest, report: Option<Report>)
    ensures var n := FinishRun(db, w, id, q, report); n.Ok? ==> IsChargedOnce(db, id, n.value.0, n.value.1)
  {
    if id in db.runs && db.runs[id].finish.None? {
      var f := FinishOf(db, w, db.runs[id], q, report);
      hide FinishOf, IsChargedOnce, Terminated;
      if f.Ok? { TerminatedChargesOnce(db, id, f.value); }
    }
  }

  lemma RefusedFinishChangesNothing(db: Db, w: World, op: Op)
    requires op.Finish? && Answer(db, w, op).error.Some?
    ensures Answer(db, w, op).db == db
  {
    hide FinishRun;
  }

  /** Only a release lowers a counter, and no request lowers a lifetime total. */
  lemma CountersFallOnlyByRelease(db: Db, w: World, op: Op, k: Key)
    requires k in db.budgets
    ensures k in Apply(db, w, op).budgets && Apply(db, w, op).budgets[k].total >= db.budgets[k].total
    ensures Apply(db, w, op).budgets[k].count < db.budgets[k].count ==> op.Release?
  {
    StepGrows(db, w, op);
    if op.Finish? {
      FinishChargesOnce(db, w, op.id, op.finish, op.report);
      hide FinishRun, Grows, DebitKey;
    } else if op.Start? {
      RunFrame(db, w, op);
      hide AnswerRun, Grows;
    } else if !op.Release? {
      OnlyRunRequestsTouchTheLedger(db, w, op);
      hide Apply;
    }
  }
}
