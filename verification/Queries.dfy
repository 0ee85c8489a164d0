/** The queries behind the gates: loops over rows, proved against the conditions the steps are stated with. */
module Queries {
  import opened Wrappers
  import opened Classify
  import opened Tables
  import opened RunLifecycle
  import opened Steps

  // ── budgets ────────────────────────────────────────────────────────────

  /** The buckets of a scenario in a plan; the cap they are listed with needs the plan. */
  method ListBudgets(db: Db, plan: string, scenario: string) returns (r: Result<seq<Key>, Error>)
    ensures plan !in db.plans ==> r == Err(Missing)
    ensures plan in db.plans ==>
              r.Ok? && forall k :: k in r.value <==> k in db.budgets && k.plan == plan && k.scenario == scenario
  {
    if plan !in db.plans { return Err(Missing); }
    var rows, rest := [], db.budgets.Keys;
    while rest != {}
      invariant rest <= db.budgets.Keys
      invariant forall k :: k in rows <==> k in db.budgets && k !in rest && k.plan == plan && k.scenario == scenario
      decreases |rest|
    {
      var k :| k in rest;
      rest := rest - {k};
      if k.plan == plan && k.scenario == scenario { rows := rows + [k]; }
    }
    return Ok(rows);
  }

  /** The buckets of any of the scenarios that have reached the plan's cap. */
  method ExhaustedFor(db: Db, plan: string, scenarios: seq<string>) returns (r: Result<seq<Key>, Error>)
    ensures r.Err? <==> scenarios != [] && plan !in db.plans
    ensures r.Err? ==> r.error == Missing
    ensures r.Ok? ==> forall k :: k in r.value <==>
              k in db.budgets && k.plan == plan && k.scenario in scenarios && AtCap(db, k)
  {
    var out := [];
    for i := 0 to |scenarios|
      invariant i > 0 ==> plan in db.plans
      invariant forall k :: k in out <==> k in db.budgets && k.plan == plan && k.scenario in scenarios[..i] && AtCap(db, k)
    {
      var rows := ListBudgets(db, plan, scenarios[i]);
      if rows.Err? { return Err(rows.error); }
      var full := [];
      for j := 0 to |rows.value|
        invariant forall k :: k in full <==> k in rows.value[..j] && AtCap(db, k)
      {
        if AtCap(db, rows.value[j]) { full := full + [rows.value[j]]; }
      }
      assert rows.value[..|rows.value|] == rows.value;
      assert scenarios[..i + 1] == scenarios[..i] + [scenarios[i]];
      out := out + full;
    }
    assert scenarios[..|scenarios|] == scenarios;
    return Ok(out);
  }

  /** Work on the scenarios may start, or why not. */
  method EnsureAvailable(db: Db, plan: string, scenarios: seq<string>) returns (e: Option<Error>)
    ensures e == Unavailable(db, plan, scenarios)
  {
    var r := ExhaustedFor(db, plan, scenarios);
    if r.Err? { return Some(r.error); }
    if r.value != [] {
      assert r.value[0] in r.value && IsExhausted(db, plan, r.value[0].scenario);
      return Some(BudgetExhausted);
    }
    return None;
  }

  /** A verdict is admitted by its evidence and by the scenario's budgets, or why not. */
  method CheckVerdict(db: Db, w: World, plan: string, scenario: string, verdict: Verdict, evidence: Option<string>)
    returns (e: Option<Error>)
    ensures e == VerdictError(db, w, plan, scenario, verdict, evidence)
  {
    hide CheckRef;
    var proven := CheckRef(db, w, plan, scenario, verdict, evidence);
    if proven.Err? { return Some(proven.error); }
    var r := ExhaustedFor(db, plan, [scenario]);
    if r.Err? { return Some(r.error); }
    if r.value != [] {
      assert r.value[0] in r.value && IsExhausted(db, plan, scenario);
      return if verdict.Passing? && proven.value then None else Some(BudgetExhausted);
    }
    return None;
  }

  /** The outstanding bucket that keeps its authority over a failure of the class, if there is one. */
  method CompatibilityBucket(db: Db, plan: string, scenario: string, class_: FailureClass, unavailable: bool)
    returns (r: Result<Option<Key>, Error>)
    ensures plan !in db.plans ==> r == Err(Missing)
    ensures plan in db.plans ==> r == Ok(Bridge(db, plan, scenario, class_, unavailable))
  {
    hide AtCap, IsDiagnosed, Precedes;
    var rows := ListBudgets(db, plan, scenario);
    if rows.Err? { return Err(rows.error); }
    var kept := [];
    for i := 0 to |rows.value|
      invariant forall k :: k in kept <==> k in rows.value[..i] && IsCandidate(db, plan, scenario, class_, unavailable, k)
    {
      var k := rows.value[i];
      if k.class_ == class_ && db.budgets[k].count != 0 && (unavailable || !IsDiagnosed(db, k)) { kept := kept + [k]; }
    }
    assert rows.value[..|rows.value|] == rows.value;
    if kept == [] { return Ok(None); }
    var first := First(db, kept);
    assert IsBridge(db, plan, scenario, class_, unavailable, first);
    ghost var b := Bridge(db, plan, scenario, class_, unavailable);
    BridgeIsUnique(db, plan, scenario, class_, unavailable, first, b.value);
    return Ok(Some(first));
  }

  /** The bucket that sorts first. */
  method First(db: Db, ks: seq<Key>) returns (first: Key)
    requires ks != [] && forall k :: k in ks ==> k in db.budgets
    ensures first in ks && forall k :: k in ks ==> Precedes(db, first, k)
  {
    hide Precedes;
    first := ks[0];
    PrecedesIsTotal(db, first, first);
    for i := 1 to |ks|
      invariant first in ks[..i]
      invariant forall k :: k in ks[..i] ==> Precedes(db, first, k)
    {
      PrecedesIsTotal(db, first, ks[i]);
      PrecedesIsTotal(db, ks[i], ks[i]);
      if !Precedes(db, first, ks[i]) {
        forall k | k in ks[..i] ensures Precedes(db, ks[i], k) { PrecedesIsTransitive(db, ks[i], first, k); }
        first := ks[i];
      }
      assert ks[..i + 1] == ks[..i] + [ks[i]];
    }
    assert ks[..|ks|] == ks;
  }

  // ── tasks and rounds ───────────────────────────────────────────────────

  /** The plan's tasks in progress, in some order. */
  method ListInFlight(db: Db, plan: string) returns (ts: seq<string>)
    ensures forall t :: t in ts <==> t in db.tasks && db.tasks[t].status.InProgress? && db.tasks[t].roundId in db.rounds
                                     && db.rounds[db.tasks[t].roundId].planId == plan
    ensures forall i, j :: 0 <= i < j < |ts| ==> ts[i] != ts[j]
  {
    ts := [];
    var rest := db.tasks.Keys;
    while rest != {}
      invariant rest <= db.tasks.Keys
      invariant forall t :: t in ts <==> t in db.tasks && t !in rest && db.tasks[t].status.InProgress?
                                         && db.tasks[t].roundId in db.rounds && db.rounds[db.tasks[t].roundId].planId == plan
      invariant forall i, j :: 0 <= i < j < |ts| ==> ts[i] != ts[j]
      decreases |rest|
    {
      var t :| t in rest;
      rest := rest - {t};
      if db.tasks[t].status.InProgress? && db.tasks[t].roundId in db.rounds && db.rounds[db.tasks[t].roundId].planId == plan {
        ts := ts + [t];
      }
    }
  }

  /** The task in progress that owns the scenario, when there is exactly one. */
  method OwnerOf(db: Db, plan: string, scenario: string) returns (owner: Option<string>)
    ensures IsLinked(db, plan, scenario, owner)
  {
    var ts := ListInFlight(db, plan);
    var owners: set<string> := {};
    for i := 0 to |ts|
      invariant forall t :: t in owners <==> t in ts[..i] && scenario in db.tasks[t].parents
    {
      assert ts[i] in ts && ts[..i + 1] == ts[..i] + [ts[i]];
      if scenario in db.tasks[ts[i]].parents { owners := owners + {ts[i]}; }
    }
    assert ts[..|ts|] == ts;
    assert owners == Owners(db, plan, scenario);
    hide Owners;
    if |owners| == 1 {
      var t :| t in owners;
      assert |owners - {t}| == 0;
      return Some(t);
    }
    return None;
  }

  method FindActiveRound(db: Db, plan: string) returns (round: Option<string>)
    ensures IsActiveRound(db, plan, round)
  {
    var rest := db.rounds.Keys;
    while rest != {}
      invariant rest <= db.rounds.Keys
      invariant forall r :: r in db.rounds && r !in rest ==> r !in ActiveRounds(db, plan)
      decreases |rest|
    {
      var r :| r in rest;
      rest := rest - {r};
      if db.rounds[r].planId == plan && db.rounds[r].status.Active? { return Some(r); }
    }
    assert ActiveRounds(db, plan) == {};
    return None;
  }

  /** One more than the largest number of the plan's rounds. */
  method NextNumber(db: Db, plan: string) returns (n: int)
    ensures IsNextNumber(db, plan, n)
  {
    var rest := db.rounds.Keys;
    var last: Option<string> := None;
    while rest != {}
      invariant rest <= db.rounds.Keys
      invariant last.Some? ==> last.value in db.rounds && db.rounds[last.value].planId == plan
      invariant forall r :: r in db.rounds && r !in rest && db.rounds[r].planId == plan ==>
                  last.Some? && db.rounds[r].number <= db.rounds[last.value].number
      decreases |rest|
    {
      var r :| r in rest;
      rest := rest - {r};
      if db.rounds[r].planId == plan && (last.None? || db.rounds[last.value].number < db.rounds[r].number) { last := Some(r); }
    }
    return if last.Some? then db.rounds[last.value].number + 1 else 1;
  }

  method LatestCompleted(db: Db, plan: string) returns (prev: Option<string>)
    ensures IsLatestCompleted(db, plan, prev)
  {
    var rest := db.rounds.Keys;
    prev := None;
    while rest != {}
      invariant rest <= db.rounds.Keys
      invariant prev.Some? ==> prev.value in db.rounds && db.rounds[prev.value].planId == plan && db.rounds[prev.value].status.Completed?
      invariant forall r :: r in db.rounds && r !in rest && db.rounds[r].planId == plan && db.rounds[r].status.Completed? ==>
                  prev.Some? && db.rounds[r].number <= db.rounds[prev.value].number
      decreases |rest|
    {
      var r :| r in rest;
      rest := rest - {r};
      if db.rounds[r].planId == plan && db.rounds[r].status.Completed?
         && (prev.None? || db.rounds[prev.value].number < db.rounds[r].number) { prev := Some(r); }
    }
  }

  // ── runs ───────────────────────────────────────────────────────────────

  predicate IsLatestRow(db: Db, round: string, run: string) {
    run in db.runs && db.runs[run].scenarioId.Some? && IsLatestFinished(db, round, db.runs[run].scenarioId.value, run)
  }

  /** The latest finished runs of each scenario in the round. */
  method ListLatestFinished(db: Db, round: string) returns (runs: seq<string>)
    ensures forall r :: r in runs <==> IsLatestRow(db, round, r)
  {
    hide IsLatestFinished;
    runs := [];
    var rest := db.runs.Keys;
    while rest != {}
      invariant rest <= db.runs.Keys
      invariant forall r :: r in runs <==> r in db.runs && r !in rest && IsLatestRow(db, round, r)
      decreases |rest|
    {
      var r :| r in rest;
      rest := rest - {r};
      if IsLatestRow(db, round, r) { runs := runs + [r]; }
    }
  }

  /** The runs that hold a round back. */
  method UnresolvedInfrastructure(db: Db, round: string) returns (blocked: seq<string>)
    ensures forall r :: r in blocked <==> BlocksCompletion(db, round, r)
  {
    var rows := ListLatestFinished(db, round);
    blocked := [];
    for i := 0 to |rows|
      invariant forall r :: r in blocked <==> r in rows[..i] && BlocksCompletion(db, round, r)
    {
      assert rows[i] in rows && rows[..i + 1] == rows[..i] + [rows[i]];
      var run := db.runs[rows[i]];
      if run.finish.value.class_.None? { continue; }
      if !run.finish.value.class_.value.IsInfrastructure() { continue; }
      var scenario := run.scenarioId.value;
      if scenario !in db.scenarios || db.scenarios[scenario].retired { continue; }
      blocked := blocked + [rows[i]];
    }
    assert rows[..|rows|] == rows;
  }
}
