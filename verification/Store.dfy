/** The write handlers as they run: loops, look-ups and statements against one database, checked in the order of the code and
    proved to answer every request as the step function does, half-done activations and rolled-back debits included. */
module Store {
  import opened Wrappers
  import opened Text
  import opened Classify
  import opened Cause
  import opened Tables
  import opened RunLifecycle
  import opened Steps
  import opened Ledger
  import opened Queries

  lemma TaskAnswers(db: Db, w: World, op: Op)
    ensures op.NewTask? ==> Answer(db, w, op) == WithTasks(db, CreateTask(db, op.id, op.roundId, op.parents))
    ensures op.MoveTask? ==> Answer(db, w, op) == WithTasks(db, SetTaskStatus(db, op.id, op.target))
    ensures op.EndTask? ==> Answer(db, w, op) == WithResults(db, CompleteTask(db, w, op.id, op.evidence))
    ensures op.EndChore? ==> Answer(db, w, op) == WithTasks(db, FinishChore(db, op.id, op.note))
  {
    hide CreateTask, SetTaskStatus, CompleteTask, FinishChore, WithTasks, WithResults, AnswerRun, AnswerRound, AnswerAdmin;
  }

  lemma RoundAnswers(db: Db, w: World, op: Op)
    ensures op.NewRound? ==>
              Answer(db, w, op) == WithRounds(db, CreateRound(db, op.id, op.plan, op.code, op.number, op.mode, op.policy))
    ensures op.Activate? ==> Answer(db, w, op) == ActivateRound(db, w, op.id, op.prev)
    ensures op.EndRound? ==> Answer(db, w, op) == WithRounds(db, CompleteRound(db, op.id))
    ensures op.Post? ==>
              Answer(db, w, op) == WithVerdicts(db, PostVerdict(db, w, op.roundId, op.scenario, op.verdict, op.ref))
  {
    hide CreateRound, ActivateRound, CompleteRound, PostVerdict, WithRounds, WithVerdicts, AnswerRun, AnswerTask, AnswerAdmin;
  }

  // ── resolving evidence ─────────────────────────────────────────────────

  /** References resolved in place up to a position. */
  predicate ResolvedUpTo(db: Db, t: Task, given: seq<Entry>, entries: seq<Entry>, n: nat) {
    && |entries| == |given| && n <= |given|
    && (forall i :: 0 <= i < n ==>
          && ResolveRef(db, t.planId, given[i].scenario) == Some(entries[i].scenario) && entries[i].scenario in t.parents
          && entries[i] == given[i].(scenario := entries[i].scenario))
    && (forall i :: n <= i < |given| ==> entries[i] == given[i])
  }

  /** Every reference replaced by a scenario of the plan that the task owns. */
  method ResolveEntries(db: Db, t: Task, given: seq<Entry>) returns (r: Option<seq<Entry>>)
    ensures r == Resolved(db, t, given)
  {
    hide ResolveRef, Resolved;
    ResolvedPointwise(db, t, given);
    var entries := given;
    for i := 0 to |given|
      invariant ResolvedUpTo(db, t, given, entries, i)
    {
      var s := ResolveRef(db, t.planId, entries[i].scenario);
      if s.None? || s.value !in t.parents { return None; }
      entries := entries[i := entries[i].(scenario := s.value)];
    }
    assert entries == Resolved(db, t, given).value;
    return Some(entries);
  }

  /** The gates, entry by entry. */
  method CheckEntries(db: Db, w: World, plan: string, entries: seq<Entry>) returns (e: Option<Error>)
    ensures e == FirstRefused(db, w, plan, entries)
  {
    hide VerdictError;
    assert entries[0..] == entries;
    for i := 0 to |entries|
      invariant FirstRefused(db, w, plan, entries) == FirstRefused(db, w, plan, entries[i..])
    {
      assert entries[i..][1..] == entries[i + 1..];
      var refused := CheckVerdict(db, w, plan, entries[i].scenario, entries[i].verdict, Some(entries[i].evidence));
      if refused.Some? { return refused; }
    }
    return None;
  }

  /** One upsert per entry. */
  method WriteEntries(verdicts: Verdicts, round: string, entries: seq<Entry>) returns (out: Verdicts)
    ensures out == Recorded(verdicts, round, entries)
  {
    out := verdicts;
    assert entries[0..] == entries;
    for i := 0 to |entries|
      invariant Recorded(out, round, entries[i..]) == Recorded(verdicts, round, entries)
    {
      assert entries[i..][1..] == entries[i + 1..];
      out := out[(round, entries[i].scenario) := VerdictRow(entries[i].verdict, Some(entries[i].evidence))];
    }
  }

  /** Only a failure has a computed identity. */
  lemma ComputedOnlyForFailure(w: World, r: Run, q: FinishRequest, report: Option<Report>, class_: FailureClass)
    ensures ComputedIdentity(w, r, q, report, class_).Some? ==> class_.IsFailure()
  {
    hide FailureCause, Classify.Classify;
  }

  lemma CarriedIgnoresVerdicts(a: Db, b: Db, w: World, row: VerdictRow)
    requires b == a.(tasks := b.tasks, verdicts := b.verdicts)
    ensures Carried(b, w, row) == Carried(a, w, row)
  {
    hide ParseRef;
  }

  /** The carry-over row by row. */
  lemma CarriedOverAt(db: Db, w: World, plan: string, id: string, prev: string, v: (string, string))
    ensures var n := CarriedOver(db, w, plan, id, prev);
            && (v in n <==> v in db.verdicts || (v.0 == id && CarriesOver(db, plan, id, prev, v.1)))
            && (v in n ==> n[v] == if v.0 == id && CarriesOver(db, plan, id, prev, v.1)
                                   then Carried(db, w, db.verdicts[(prev, v.1)]) else db.verdicts[v])
  {
    hide Carried;
  }

  lemma CarriesIgnoresTasks(a: Db, b: Db, plan: string, id: string, prev: string, s: string)
    requires b == a.(tasks := b.tasks)
    ensures CarriesOver(b, plan, id, prev, s) == CarriesOver(a, plan, id, prev, s)
    ensures b.verdicts == a.verdicts && b == a.(tasks := b.tasks, verdicts := b.verdicts)
  {
  }

  lemma CarriedRowIgnoresTasks(a: Db, b: Db, w: World, plan: string, id: string, prev: string, v: (string, string))
    requires b == a.(tasks := b.tasks)
    ensures var m, n := CarriedOver(a, w, plan, id, prev), CarriedOver(b, w, plan, id, prev);
            (v in m <==> v in n) && (v in m ==> m[v] == n[v])
  {
    CarriedOverAt(a, w, plan, id, prev, v);
    CarriedOverAt(b, w, plan, id, prev, v);
    CarriesIgnoresTasks(a, b, plan, id, prev, v.1);
    hide CarriedOver, Carried;
    if (prev, v.1) in a.verdicts { CarriedIgnoresVerdicts(a, b, w, a.verdicts[(prev, v.1)]); }
  }

  lemma CarriedOverIgnoresTasks(a: Db, b: Db, w: World, plan: string, id: string, prev: string)
    requires b == a.(tasks := b.tasks)
    ensures CarriedOver(b, w, plan, id, prev) == CarriedOver(a, w, plan, id, prev)
  {
    hide CarriedOver;
    var m, n := CarriedOver(a, w, plan, id, prev), CarriedOver(b, w, plan, id, prev);
    forall v: (string, string)
      ensures (v in m <==> v in n) && (v in m ==> m[v] == n[v])
    {
      CarriedRowIgnoresTasks(a, b, w, plan, id, prev, v);
    }
    assert m == n;
  }

  /** Live confirmed scenarios of the plan that have a verdict in the round. */
  predicate HasRow(db: Db, plan: string, prev: string, s: string) {
    && (prev, s) in db.verdicts && s in db.scenarios && db.scenarios[s].planId == plan
    && db.scenarios[s].confirmed && !db.scenarios[s].retired
  }

  method ListRows(db: Db, plan: string, prev: string) returns (rows: seq<string>)
    ensures forall s :: s in rows <==> HasRow(db, plan, prev, s)
  {
    rows := [];
    var rest := db.scenarios.Keys;
    while rest != {}
      invariant rest <= db.scenarios.Keys
      invariant forall s :: s in rows <==> s !in rest && HasRow(db, plan, prev, s)
      decreases |rest|
    {
      var s :| s in rest;
      rest := rest - {s};
      if HasRow(db, plan, prev, s) { rows := rows + [s]; }
    }
  }

  /** The rows written so far, those of the scenarios done. */
  ghost predicate IsCarrying(db: Db, w: World, id: string, prev: string, done: seq<string>, out: Verdicts)
    requires forall s :: s in done ==> (prev, s) in db.verdicts
  {
    && (forall v :: v in out <==> v in db.verdicts || (v.0 == id && v.1 in done))
    && (forall v :: v in db.verdicts ==> v in out && out[v] == db.verdicts[v])
    && (forall s :: s in done && (id, s) !in db.verdicts ==>
          (id, s) in out && out[(id, s)] == Carried(db, w, db.verdicts[(prev, s)]))
  }

  lemma CarriedAll(db: Db, w: World, plan: string, id: string, prev: string, rows: seq<string>, out: Verdicts)
    requires forall s :: s in rows <==> HasRow(db, plan, prev, s)
    requires forall s :: s in rows ==> (prev, s) in db.verdicts
    requires IsCarrying(db, w, id, prev, rows, out)
    ensures out == CarriedOver(db, w, plan, id, prev)
  {
    hide Carried, CarriedOver;
    forall v: (string, string)
      ensures (v in out <==> v in CarriedOver(db, w, plan, id, prev))
              && (v in out ==> out[v] == CarriedOver(db, w, plan, id, prev)[v])
    {
      CarriedOverAt(db, w, plan, id, prev, v);
      assert CarriesOver(db, plan, id, prev, v.1) <==> HasRow(db, plan, prev, v.1) && (id, v.1) !in db.verdicts;
      hide CarriesOver, HasRow;
      if v.0 == id { assert v == (id, v.1); }
    }
  }

  /** One upsert per row of the previous round; a row the new round has already is skipped. */
  method CarryOver(db: Db, w: World, plan: string, id: string, prev: string) returns (out: Verdicts)
    ensures out == CarriedOver(db, w, plan, id, prev)
  {
    hide Carried, CarriedOver;
    var rows := ListRows(db, plan, prev);
    assert forall s :: s in rows ==> (prev, s) in db.verdicts;
    out := db.verdicts;
    for i := 0 to |rows|
      invariant IsCarrying(db, w, id, prev, rows[..i], out)
    {
      assert rows[i] in rows && rows[..i + 1] == rows[..i] + [rows[i]];
      if (id, rows[i]) !in out {
        out := out[(id, rows[i]) := Carried(db, w, db.verdicts[(prev, rows[i])])];
      }
    }
    assert rows[..|rows|] == rows;
    CarriedAll(db, w, plan, id, prev, rows, out);
  }

  lemma ActivatedWhole(db: Db, w: World, id: string, prev: Option<string>, next: Db, e: Option<Error>)
    requires ActivationError(db, id).None? && e == LateActivationError(db, id)
    requires next == db.(tasks := next.tasks, verdicts := next.verdicts, rounds := next.rounds)
    requires next.tasks == Interrupted(db, db.rounds[id].planId, db.rounds[id].policy)
    requires next.verdicts == ActivatedVerdicts(db, w, id, db.rounds[id], prev)
    requires next.rounds == ActivatedRounds(db, id)
    ensures Response(next, e) == Answer(db, w, Op.Activate(id, prev))
  {
    hide Answer, Interrupted, ActivatedVerdicts, ActivatedRounds, LateActivationError, ActivationError;
    RoundAnswers(db, w, Op.Activate(id, prev));
  }

  lemma RefusedEarly(db: Db, w: World, id: string, prev: Option<string>)
    requires ActivationError(db, id).Some?
    ensures Response(db, ActivationError(db, id)) == Answer(db, w, Op.Activate(id, prev))
  {
    hide Answer, Interrupted, ActivatedVerdicts, ActivatedRounds, LateActivationError, ActivationError;
    RoundAnswers(db, w, Op.Activate(id, prev));
  }

  lemma BlockedIgnoresOthers(a: Db, b: Db, id: string)
    requires b == a.(tasks := b.tasks, verdicts := b.verdicts)
    ensures IsBlockedByActive(b, id) == IsBlockedByActive(a, id)
  {
  }

  lemma SignedWhenComputed(w: World, r: Run, q: FinishRequest, report: Option<Report>, j: Judged, computed: Option<CauseIdentity>,
                           bridge: Option<Key>)
    ensures computed.Some? ==> SignatureFor(w, r, q, report, j, computed, bridge).Some?
  {
  }

  /** The bucket that overrides a computed identity. */
  method SelectBridge(db: Db, run: Run, class_: FailureClass, computed: Option<CauseIdentity>)
    returns (r: Result<Option<Key>, Error>)
    ensures r.Ok? ==> r.value == BridgeFor(db, run, class_, computed)
    ensures r.Err? ==> r.error == Missing && computed.Some? && run.planId.Some? && run.scenarioId.Some?
                       && run.planId.value !in db.plans
  {
    if computed.None? || run.planId.None? || run.scenarioId.None? { return Ok(None); }
    r := CompatibilityBucket(db, run.planId.value, run.scenarioId.value, class_, IsFallback(computed.value));
  }

  // ── the handlers ───────────────────────────────────────────────────────

  class Handlers {
    var db: Db

    constructor ()
      ensures db == EMPTY
    {
      db := EMPTY;
    }

    /** The owner and the round are what the look-ups found. */
    method StartRun(w: World, q: StartRequest, cwdPlan: Option<string>, id: string)
      returns (e: Option<Error>, owner: Option<string>, round: Option<string>)
      modifies this
      ensures var op := Op.Start(q, cwdPlan, id, owner, round);
              LookupsOk(old(db), op) && Response(db, e) == Answer(old(db), w, op)
    {
      hide StartRow, Answer, StartScope, Owners, ActiveRounds;
      owner, round := None, None;
      var scope := StartScope(db, q, cwdPlan);
      if scope.Ok? && scope.value.0.None? && scope.value.1.Some? && scope.value.1.value in db.scenarios {
        var plan := db.scenarios[scope.value.1.value].planId;
        owner := OwnerOf(db, plan, scope.value.1.value);
        round := FindActiveRound(db, plan);
      }
      ghost var before := db;
      RunAnswers(db, w, Op.Start(q, cwdPlan, id, owner, round));
      var row := StartRow(db, w, q, cwdPlan, owner, round);
      if row.Err? { return Some(row.error), owner, round; }
      if id in db.runs { return Some(Conflict), owner, round; }
      db := db.(runs := db.runs[id := row.value]);
      return None, owner, round;
    }

    method FinishRun(w: World, id: string, q: FinishRequest, report: Option<Report>) returns (e: Option<Error>)
      modifies this
      ensures Response(db, e) == Answer(old(db), w, Op.Finish(id, q, report))
    {
      RunAnswers(db, w, Op.Finish(id, q, report));
      hide Answer, Judge, Classify.Classify, ComputedIdentity, SignatureFor, BridgeFor;
      if id !in db.runs { return Some(Missing); }
      var run := db.runs[id];
      if run.finish.Some? { return Some(Invalid); }
      if !IsStructured(q) && run.command.None? {
        if q.result.None? { return Some(Invalid); }
        db := db.(runs := db.runs[id := run.(finish := Some(LegacyFinish(w, q.result.value)))]);
        return None;
      }
      var judged := Judge(q, OutcomeOf(q), Classify.Classify(OutcomeOf(q), ReportOf(run, report).text, w.inRepo).failureClass);
      if judged.Err? { return Some(judged.error); }
      var computed := ComputedIdentity(w, run, q, report, judged.value.class_);
      ComputedOnlyForFailure(w, run, q, report, judged.value.class_);
      var bridge := SelectBridge(db, run, judged.value.class_, computed);
      if bridge.Err? {
        SignedWhenComputed(w, run, q, report, judged.value, computed, BridgeFor(db, run, judged.value.class_, computed));
        return Some(bridge.error);
      }
      var signature := SignatureFor(w, run, q, report, judged.value, computed, bridge.value);
      e := Terminate(id, Tables.Finish(w.now, judged.value.result, OutcomeOf(q), Some(judged.value.class_), signature, computed));
    }

    /** Terminal state and debit in one transaction, rolled back when the debit fails. */
    method Terminate(id: string, finish: Finish) returns (e: Option<Error>)
      requires id in db.runs
      modifies this
      ensures Response(db, e) == WithLedger(old(db), Terminated(old(db), id, old(db).runs[id], finish))
    {
      var run := db.runs[id];
      var tx := db.(runs := db.runs[id := run.(finish := Some(finish))]);
      var key := DebitKey(run, finish);
      if key.Some? {
        if key.value.plan !in tx.plans { return Some(Missing); }
        tx := tx.(budgets := Debited(tx.budgets, key.value, id));
      }
      db := tx;
      return None;
    }

    method ReleaseBudget(w: World, ref: string, plan: Option<string>, cwdPlan: Option<string>, signature: Option<string>,
                         decision: string) returns (e: Option<Error>, released: nat)
      modifies this
      ensures Response(db, e) == Answer(old(db), w, Release(ref, plan, cwdPlan, signature, decision))
      ensures e.None? ==> released > 0
    {
      RunAnswers(db, w, Release(ref, plan, cwdPlan, signature, decision));
      hide Answer, ResolveScenario, ReleasedBudgets;
      var s := ResolveScenario(db, ref, plan, cwdPlan);
      if s.Err? { return Some(s.error), 0; }
      if s.value !in db.scenarios { return Some(Missing), 0; }
      var p := db.scenarios[s.value].planId;
      if decision !in db.decisions || db.decisions[decision].planId != p || db.decisions[decision].superseded {
        return Some(Invalid), 0;
      }
      var rows := set k | k in db.budgets && IsReleased(k, p, s.value, signature);
      assert forall k :: k in db.budgets && IsReleased(k, p, s.value, signature) ==> k in rows;
      if rows == {} { return Some(Missing), 0; }
      db := db.(budgets := ReleasedBudgets(db, p, s.value, signature, decision));
      return None, |rows|;
    }

    method SetStatus(w: World, id: string, target: TaskStatus) returns (e: Option<Error>)
      modifies this
      ensures Response(db, e) == Answer(old(db), w, MoveTask(id, target))
    {
      TaskAnswers(db, w, MoveTask(id, target));
      hide Answer, Unavailable;
      if target.Done? { return Some(EvidenceRequired); }
      if id !in db.tasks { return Some(Missing); }
      var task := db.tasks[id];
      if !CanMove(task.status, target) { return Some(BadTransition); }
      if target.InProgress? {
        var refused := EnsureAvailable(db, task.planId, task.parents);
        if refused.Some? { return refused; }
      }
      db := db.(tasks := db.tasks[id := task.(status := target)]);
      return None;
    }

    /** Evidence is resolved, then checked, then the task and its verdicts are written in one transaction. */
    method Complete(w: World, id: string, evidence: Evidence) returns (e: Option<Error>)
      modifies this
      ensures Response(db, e) == Answer(old(db), w, EndTask(id, evidence))
    {
      TaskAnswers(db, w, EndTask(id, evidence));
      hide Answer, Resolved, FirstRefused, Recorded, EvidenceError;
      if id !in db.tasks { return Some(Missing); }
      var task := db.tasks[id];
      if !CanMove(task.status, Done) { return Some(BadTransition); }
      var invalid := EvidenceError(evidence);
      if invalid.Some? { return invalid; }
      var entries := ResolveEntries(db, task, evidence.entries);
      if entries.None? { return Some(Invalid); }
      var refused := CheckEntries(db, w, task.planId, entries.value);
      if refused.Some? { return refused; }
      var tx := db.(tasks := db.tasks[id := task.(status := Done, evidence := Some(evidence.(entries := entries.value)))]);
      var verdicts := WriteEntries(tx.verdicts, task.roundId, entries.value);
      tx := tx.(verdicts := verdicts);
      db := tx;
      return None;
    }

    method EndChore(w: World, id: string, note: Option<string>) returns (e: Option<Error>)
      modifies this
      ensures Response(db, e) == Answer(old(db), w, Op.EndChore(id, note))
    {
      TaskAnswers(db, w, Op.EndChore(id, note));
      hide Answer, Trim;
      if id !in db.tasks { return Some(Missing); }
      var task := db.tasks[id];
      var summary := "chore completed";
      if note.Some? && Trim(note.value) != "" { summary := note.value; }
      if !CanMove(task.status, Done) { return Some(BadTransition); }
      db := db.(tasks := db.tasks[id := task.(status := Done, evidence := Some(Evidence([], Some(summary), map[])))]);
      return None;
    }

    method PostResult(w: World, round: string, scenario: string, verdict: Verdict, ref: Option<string>) returns (e: Option<Error>)
      modifies this
      ensures Response(db, e) == Answer(old(db), w, Post(round, scenario, verdict, ref))
    {
      RoundAnswers(db, w, Post(round, scenario, verdict, ref));
      hide Answer, VerdictError;
      if round !in db.rounds { return Some(Missing); }
      var refused := CheckVerdict(db, w, db.rounds[round].planId, scenario, verdict, ref);
      if refused.Some? { return refused; }
      if scenario !in db.scenarios { return Some(Invalid); }
      db := db.(verdicts := db.verdicts[(round, scenario) := VerdictRow(verdict, ref)]);
      return None;
    }

    method CreateRound(w: World, id: string, plan: string, code: string, mode: RoundMode, policy: InFlightPolicy)
      returns (e: Option<Error>, number: int)
      modifies this
      ensures var op := NewRound(id, plan, code, number, mode, policy);
              LookupsOk(old(db), op) && Response(db, e) == Answer(old(db), w, op)
    {
      number := NextNumber(db, plan);
      RoundAnswers(db, w, NewRound(id, plan, code, number, mode, policy));
      hide Answer, CodeTaken, IsNextNumber;
      if plan !in db.plans { return Some(Missing), number; }
      if id in db.rounds || CodeTaken(db, plan, code) { return Some(Conflict), number; }
      db := db.(rounds := db.rounds[id := Round(plan, code, number, mode, policy, Planning, false)]);
      return None, number;
    }

    method CompleteRound(w: World, id: string) returns (e: Option<Error>)
      modifies this
      ensures Response(db, e) == Answer(old(db), w, EndRound(id))
    {
      RoundAnswers(db, w, EndRound(id));
      hide Answer, BlocksCompletion;
      if id !in db.rounds { return Some(Missing); }
      if !db.rounds[id].status.Active? { return Some(BadTransition); }
      var blocked := UnresolvedInfrastructure(db, id);
      if blocked != [] {
        assert blocked[0] in blocked;
        return Some(InfrastructureUnresolved);
      }
      db := db.(rounds := db.rounds[id := db.rounds[id].(status := Completed)]);
      return None;
    }

    /** One status update per task in flight. */
    method Interrupt(plan: string, policy: InFlightPolicy)
      modifies this
      ensures db == old(db).(tasks := Interrupted(old(db), plan, policy))
    {
      var flying := ListInFlight(db, plan);
      ghost var was := db;
      if policy.ContinueOnNoImpact? {
        assert Interrupted(was, plan, policy) == was.tasks;
        return;
      }
      for i := 0 to |flying|
        invariant db == was.(tasks := db.tasks) && db.tasks.Keys == was.tasks.Keys
        invariant forall t :: t in was.tasks ==>
                    db.tasks[t] == if t in flying[..i] then was.tasks[t].(status := if policy.Pause? then Blocked else Cancelled)
                                   else was.tasks[t]
      {
        assert flying[i] in flying && flying[..i + 1] == flying[..i] + [flying[i]] && flying[i] !in flying[..i];
        var task := db.tasks[flying[i]];
        db := db.(tasks := db.tasks[flying[i] := task.(status := if policy.Pause? then Blocked else Cancelled)]);
      }
      assert flying[..|flying|] == flying;
      assert db.tasks == Interrupted(was, plan, policy);
    }

    /** The statements run one by one outside a transaction: what came before a failing one stays. */
    method Activate(w: World, id: string) returns (e: Option<Error>, prev: Option<string>)
      modifies this
      ensures var op := Op.Activate(id, prev); LookupsOk(old(db), op) && Response(db, e) == Answer(old(db), w, op)
    {
      ghost var was := db;
      hide Answer, Interrupted, CarriedOver, IsLatestCompleted, IsBlockedByActive;
      prev := None;
      if id !in db.rounds {
        RefusedEarly(db, w, id, None);
        return Some(Missing), None;
      }
      var round := db.rounds[id];
      prev := LatestCompleted(db, round.planId);
      if !round.status.Planning? {
        RefusedEarly(db, w, id, prev);
        return Some(BadTransition), prev;
      }
      if round.planId in db.pending {
        RefusedEarly(db, w, id, prev);
        return Some(DisruptionPending), prev;
      }
      Interrupt(round.planId, round.policy);
      if round.mode.StrictRegression? && prev.Some? {
        CarriedOverIgnoresTasks(was, db, w, round.planId, id, prev.value);
        var verdicts := CarryOver(db, w, round.planId, id, prev.value);
        db := db.(verdicts := verdicts);
      }
      BlockedIgnoresOthers(was, db, id);
      e := Promote(id);
      ActivatedWhole(was, w, id, prev, db, e);
    }

    /** The status update, which the unique index may refuse, then the baseline, which may be recorded already. */
    method Promote(id: string) returns (e: Option<Error>)
      requires id in db.rounds
      modifies this
      ensures db == old(db).(rounds := ActivatedRounds(old(db), id)) && e == LateActivationError(old(db), id)
    {
      hide IsBlockedByActive;
      ghost var was := db;
      if IsBlockedByActive(db, id) { return Some(Conflict); }
      var round := db.rounds[id];
      db := db.(rounds := db.rounds[id := round.(status := Active)]);
      if round.baselined {
        assert round.(status := Active) == round.(status := Active, baselined := true);
        return Some(BaselineLocked);
      }
      db := db.(rounds := db.rounds[id := db.rounds[id].(baselined := true)]);
      assert db.rounds == was.rounds[id := round.(status := Active, baselined := true)];
      return None;
    }
  }
}
